/** The enricher: join the hosts with their infra-envs, build the base event,
    run the pipeline, add the host summary. The last section states what holds
    of every enriched event. */
module EventEnricher {
  import opened JsonValues
  import opened Enumerations
  import opened JsonEdit
  import opened JsonEditLaws
  import opened JsonFrames
  import opened DefaultFields
  import opened Anonymize
  import opened ListingEffects
  import opened Pipeline
  import opened HostsSummary
  import MapToList

  type Record = map<string, Json>

  // --------------------------------------------------------------------- Join

  /** A missing entry of a Go map reads as nil, like null. */
  function Field(m: Record, k: string): Json {
    if k in m then m[k] else Null
  }

  predicate Matches(host: Record, infraEnv: Record) {
    "infra_env_id" in host && Field(infraEnv, "id") == host["infra_env_id"]
  }

  /** Go panics when it compares two maps or two slices held in interfaces. */
  predicate JoinPanics(host: Record, infraEnv: Record) {
    && "infra_env_id" in host
    && var id := Field(infraEnv, "id");
       (id.Obj? && host["infra_env_id"].Obj?) || (id.Arr? && host["infra_env_id"].Arr?)
  }

  /** What makes the join panic, for both records as they were given. */
  predicate IdsAreUncomparable(host: Record, infraEnv: Record) {
    && "infra_env_id" in host && "id" in infraEnv
    && ((host["infra_env_id"].Obj? && infraEnv["id"].Obj?) || (host["infra_env_id"].Arr? && infraEnv["id"].Arr?))
  }

  /** There is no `break`: the last match is embedded. */
  function Embedded(host: Record, infraEnvs: seq<Record>): Record
    decreases |infraEnvs|
  {
    if infraEnvs == [] then host
    else
      var last := infraEnvs[|infraEnvs| - 1];
      if Matches(host, last) then host["infra_env" := Obj(last)]
      else Embedded(host, infraEnvs[..|infraEnvs| - 1])
  }

  method GetHostsWithEmbeddedInfraEnv(hosts: array<Record>, infraEnvs: seq<Record>) returns (panicked: bool)
    modifies hosts
    ensures panicked <==> exists h, e :: h in old(hosts[..]) && e in infraEnvs && IdsAreUncomparable(h, e)
    ensures !panicked ==> forall i :: 0 <= i < hosts.Length ==> hosts[i] == Embedded(old(hosts[i]), infraEnvs)
  {
    for i := 0 to hosts.Length
      invariant forall j :: 0 <= j < i ==> hosts[j] == Embedded(old(hosts[j]), infraEnvs)
      invariant forall j :: i <= j < hosts.Length ==> hosts[j] == old(hosts[j])
      invariant forall j, k :: 0 <= j < i && 0 <= k < |infraEnvs| ==> !JoinPanics(old(hosts[j]), infraEnvs[k])
    {
      ghost var host := hosts[i];
      if "infra_env_id" in hosts[i] {
        var infraEnvID := hosts[i]["infra_env_id"];
        for k := 0 to |infraEnvs|
          invariant hosts[i] == Embed(host, infraEnvs[..k])
          invariant forall j :: 0 <= j < hosts.Length && j != i ==>
                      hosts[j] == if j < i then Embedded(old(hosts[j]), infraEnvs) else old(hosts[j])
          invariant forall l :: 0 <= l < k ==> !JoinPanics(host, infraEnvs[l])
        {
          if JoinPanics(hosts[i], infraEnvs[k]) {
            assert IdsAreUncomparable(old(hosts[..])[i], infraEnvs[k]);
            return true;
          }
          assert infraEnvs[..k + 1][..k] == infraEnvs[..k];
          if Field(infraEnvs[k], "id") == infraEnvID {
            hosts[i] := hosts[i]["infra_env" := Obj(infraEnvs[k])];
          }
        }
        assert infraEnvs[..|infraEnvs|] == infraEnvs;
        EmbedIsEmbedded(host, infraEnvs);
      } else {
        NothingEmbedded(host, infraEnvs);
      }
    }
    panicked := false;
    forall h, e | h in old(hosts[..]) && e in infraEnvs
      ensures !IdsAreUncomparable(h, e)
    {
      var j :| 0 <= j < hosts.Length && old(hosts[..])[j] == h;
      var k :| 0 <= k < |infraEnvs| && infraEnvs[k] == e;
      assert !JoinPanics(old(hosts[j]), infraEnvs[k]);
    }
  }

  /** The inner loop: each match overwrites the one before. */
  function Embed(host: Record, infraEnvs: seq<Record>): (r: Record)
    ensures r - {"infra_env"} == host - {"infra_env"}
    ensures "infra_env_id" in host ==> "infra_env_id" in r && r["infra_env_id"] == host["infra_env_id"]
    decreases |infraEnvs|
  {
    if infraEnvs == [] then host
    else
      var last := infraEnvs[|infraEnvs| - 1];
      var before := Embed(host, infraEnvs[..|infraEnvs| - 1]);
      if Matches(host, last) then before["infra_env" := Obj(last)] else before
  }

  lemma {:induction false} EmbedIsEmbedded(host: Record, infraEnvs: seq<Record>)
    ensures Embed(host, infraEnvs) == Embedded(host, infraEnvs)
    decreases |infraEnvs|
  {
    if infraEnvs == [] {
    } else {
      var init, last := infraEnvs[..|infraEnvs| - 1], infraEnvs[|infraEnvs| - 1];
      EmbedIsEmbedded(host, init);
      if Matches(host, last) {
        var before := Embed(host, init);
        assert before["infra_env" := Obj(last)] == (before - {"infra_env"})["infra_env" := Obj(last)];
        assert host["infra_env" := Obj(last)] == (host - {"infra_env"})["infra_env" := Obj(last)];
      }
    }
  }

  lemma {:induction false} NothingEmbedded(host: Record, infraEnvs: seq<Record>)
    requires forall e :: e in infraEnvs ==> !Matches(host, e)
    ensures Embedded(host, infraEnvs) == host
    decreases |infraEnvs|
  {
    if infraEnvs == [] {
    } else {
      NothingEmbedded(host, infraEnvs[..|infraEnvs| - 1]);
    }
  }

  /** The last infra-env whose id equals the host's `infra_env_id` is embedded
      and nothing else changes. A missing id reads as null. */
  lemma {:induction false} EmbeddedIsTheLast(host: Record, infraEnvs: seq<Record>, k: nat)
    requires k < |infraEnvs| && "infra_env_id" in host
    requires host["infra_env_id"] == if "id" in infraEnvs[k] then infraEnvs[k]["id"] else Null
    requires forall l :: k < l < |infraEnvs| ==>
               host["infra_env_id"] != if "id" in infraEnvs[l] then infraEnvs[l]["id"] else Null
    ensures Embedded(host, infraEnvs) == host["infra_env" := Obj(infraEnvs[k])]
    decreases |infraEnvs|
  {
    if k < |infraEnvs| - 1 {
      EmbeddedIsTheLast(host, infraEnvs[..|infraEnvs| - 1], k);
    }
  }

  /** A host that refers to no infra-env is not changed. */
  lemma {:induction false} UnreferredIsUnchanged(host: Record, infraEnvs: seq<Record>)
    requires forall k :: 0 <= k < |infraEnvs| && "infra_env_id" in host ==>
               host["infra_env_id"] != if "id" in infraEnvs[k] then infraEnvs[k]["id"] else Null
    ensures Embedded(host, infraEnvs) == host
    decreases |infraEnvs|
  {
    if infraEnvs == [] {
    } else {
      UnreferredIsUnchanged(host, infraEnvs[..|infraEnvs| - 1]);
    }
  }

  ghost predicate UniqueStringIds(infraEnvs: seq<Record>) {
    && (forall k :: 0 <= k < |infraEnvs| ==> "id" in infraEnvs[k] && infraEnvs[k]["id"].Str?)
    && (forall k, l :: 0 <= k < l < |infraEnvs| ==> infraEnvs[k]["id"] != infraEnvs[l]["id"])
  }

  /** With unique ids the embedded infra-env is the one the host refers to. */
  lemma EmbeddedIsTheMatch(host: Record, infraEnvs: seq<Record>, k: nat)
    requires UniqueStringIds(infraEnvs) && k < |infraEnvs|
    requires "infra_env_id" in host && host["infra_env_id"] == infraEnvs[k]["id"]
    ensures Embedded(host, infraEnvs) == host["infra_env" := Obj(infraEnvs[k])]
  {
    EmbeddedIsTheLast(host, infraEnvs, k);
  }

  /** Nothing but `infra_env` is changed in a host. */
  lemma {:induction false} EmbeddedKeeps(host: Record, infraEnvs: seq<Record>)
    ensures Embedded(host, infraEnvs) - {"infra_env"} == host - {"infra_env"}
    decreases |infraEnvs|
  {
    if infraEnvs == [] {
    } else {
      EmbeddedKeeps(host, infraEnvs[..|infraEnvs| - 1]);
    }
  }

  /** String ids are always comparable, so the join cannot panic. */
  lemma StringIdsNeverPanic(hosts: seq<Record>, infraEnvs: seq<Record>)
    requires forall e: Record :: e in infraEnvs ==> "id" in e && e["id"].Str?
    ensures forall h, e :: h in hosts && e in infraEnvs ==> !IdsAreUncomparable(h, e)
  {
  }

  function JoinedHosts(hosts: seq<Record>, infraEnvs: seq<Record>): seq<Record> {
    Image(h => Embedded(h, infraEnvs), hosts)
  }

  /** With unique ids the joined hosts are the same up to order, in whatever
      order the hosts and the infra-envs were read. */
  lemma JoinPermuted(hosts: seq<Record>, infraEnvs: seq<Record>, hosts': seq<Record>, infraEnvs': seq<Record>)
    requires multiset(hosts) == multiset(hosts') && multiset(infraEnvs) == multiset(infraEnvs')
    requires UniqueStringIds(infraEnvs) && UniqueStringIds(infraEnvs')
    ensures multiset(JoinedHosts(hosts, infraEnvs)) == multiset(JoinedHosts(hosts', infraEnvs'))
  {
    forall h: Record
      ensures Embedded(h, infraEnvs) == Embedded(h, infraEnvs')
    {
      if e :| e in infraEnvs && Matches(h, e) {
        assert e in multiset(infraEnvs');
        var k: nat :| k < |infraEnvs| && infraEnvs[k] == e;
        var l: nat :| l < |infraEnvs'| && infraEnvs'[l] == e;
        EmbeddedIsTheMatch(h, infraEnvs, k);
        EmbeddedIsTheMatch(h, infraEnvs', l);
      } else {
        forall e | e in infraEnvs'
          ensures !Matches(h, e)
        {
          assert e in multiset(infraEnvs);
        }
        NothingEmbedded(h, infraEnvs);
        NothingEmbedded(h, infraEnvs');
      }
    }
    assert JoinedHosts(hosts', infraEnvs') == JoinedHosts(hosts', infraEnvs);
    ImagePermuted(h => Embedded(h, infraEnvs), hosts, hosts');
  }

  // --------------------------------------------------------------- Base event

  function RecordsJson(records: seq<Record>): seq<Json> {
    Image((m: Record) => Obj(m), records)
  }

  /** The base event as a document. `rest` stands for all fields but the two
      built here. A nil list of hosts is encoded as null; an empty list of
      infra-envs is omitted. */
  function BaseEvent(rest: Record, cluster: Record, hosts: seq<Record>, infraEnvs: seq<Record>): Json {
    var hostList := if hosts == [] then Null else Arr(RecordsJson(hosts));
    var fields := (rest - {"infra_envs"})["cluster" := Obj(cluster["hosts" := hostList])];
    Obj(if infraEnvs == [] then fields else fields["infra_envs" := Arr(RecordsJson(infraEnvs))])
  }

  /** The base event has the shape the pipeline is made for, so the unchecked
      assertion in `Rename` is never reached with anything but a list. */
  lemma BaseEventIsShaped(rest: Record, cluster: Record, hosts: seq<Record>, infraEnvs: seq<Record>)
    ensures Shaped(BaseEvent(rest, cluster, hosts, infraEnvs))
    ensures Get(BaseEvent(rest, cluster, hosts, infraEnvs), HOSTS)
            == Some(if hosts == [] then Null else Arr(RecordsJson(hosts)))
    ensures Get(BaseEvent(rest, cluster, hosts, infraEnvs), INFRA_ENVS) ==
            if infraEnvs == [] then None else Some(Arr(RecordsJson(infraEnvs)))
  {
    var doc := BaseEvent(rest, cluster, hosts, infraEnvs);
    assert doc.fields["cluster"].Obj?;
    assert Get(doc, HOSTS) == Get(doc.fields["cluster"], ["hosts"]) by { assert HOSTS[1..] == ["hosts"]; }
    assert Get(doc.fields["cluster"], ["hosts"]) == Some(doc.fields["cluster"].fields["hosts"]) by {
      assert ["hosts"][1..] == [];
    }
    assert INFRA_ENVS[1..] == [];
  }

  /** The base event takes every other field from the records it is given. */
  lemma BaseEventFields(rest: Record, cluster: Record, hosts: seq<Record>, infraEnvs: seq<Record>, f: string)
    ensures f != "hosts" ==>
              Get(BaseEvent(rest, cluster, hosts, infraEnvs), ["cluster", f])
              == if f in cluster then Some(cluster[f]) else None
    ensures f != "cluster" && f != "infra_envs" ==>
              Get(BaseEvent(rest, cluster, hosts, infraEnvs), [f]) == if f in rest then Some(rest[f]) else None
    ensures BaseEvent(rest, cluster, hosts, infraEnvs).Obj?
  {
    var doc := BaseEvent(rest, cluster, hosts, infraEnvs);
    var hostList := if hosts == [] then Null else Arr(RecordsJson(hosts));
    assert doc.fields["cluster"] == Obj(cluster["hosts" := hostList]);
    GetBelow(doc.fields, "cluster", [f]);
    GetOne(cluster["hosts" := hostList], f);
    GetOne(doc.fields, f);
  }

  lemma GetOne(m: Record, k: string)
    ensures Get(Obj(m), [k]) == if k in m then Some(m[k]) else None
  {
    assert [k][1..] == [];
  }

  lemma GetBelow(m: Record, k: string, keys: seq<string>)
    requires k in m
    ensures Get(Obj(m), [k] + keys) == Get(m[k], keys)
  {
    assert ([k] + keys)[1..] == keys;
  }

  // ------------------------------------------------------------ Enriched event

  /** `getHostsFromEvent`: the hosts that are objects. */
  function EventHosts(doc: Json): seq<Json> {
    match Get(doc, HOSTS)
    case Some(Arr(es)) => OnlyObjects(es)
    case _ => []
  }

  function OnlyObjects(es: seq<Json>): seq<Json>
    decreases |es|
  {
    if es == [] then []
    else OnlyObjects(es[..|es| - 1]) + if es[|es| - 1].Obj? then [es[|es| - 1]] else []
  }

  /** A list of objects is kept as it is, and anything else in it is skipped. */
  lemma {:induction false} ObjectsAreKept(es: seq<Json>)
    requires forall e :: e in es ==> e.Obj?
    ensures OnlyObjects(es) == es
    decreases |es|
  {
    if es == [] {
    } else {
      ObjectsAreKept(es[..|es| - 1]);
      assert es == es[..|es| - 1] + [es[|es| - 1]];
    }
  }

  lemma {:induction false} OthersAreSkipped(es: seq<Json>, e: Json, rest: seq<Json>)
    requires !e.Obj?
    ensures OnlyObjects(es + [e] + rest) == OnlyObjects(es + rest)
    decreases |rest|
  {
    if rest == [] {
      assert (es + [e] + rest)[..|es|] == es && es + rest == es;
    } else {
      var init, last := rest[..|rest| - 1], rest[|rest| - 1];
      OthersAreSkipped(es, e, init);
      assert (es + [e] + rest)[..|es| + |rest|] == es + [e] + init && (es + rest)[..|es| + |rest| - 1] == es + init;
    }
  }

  method GetHostsFromEvent(doc: Json) returns (hosts: seq<Json>)
    ensures hosts == EventHosts(doc)
  {
    hosts := [];
    var clusterHosts := Get(doc, HOSTS);
    if clusterHosts.Some? && clusterHosts.value.Arr? {
      var hs := clusterHosts.value.elems;
      for i := 0 to |hs|
        invariant hosts == OnlyObjects(hs[..i])
      {
        assert hs[..i + 1][..i] == hs[..i];
        if hs[i].Obj? {
          hosts := hosts + [hs[i]];
        }
      }
      assert hs[..|hs|] == hs;
    }
  }

  function SummaryJson(c: Codec, s: Summary): Json {
    Obj(map["heterogeneous_arch" := Bool(s.heterogeneousArch),
            "host_count" := Num(c.float64(s.hostCount as real)),
            "infra_env" := Obj(map k | k in s.infraEnv ::
                Obj(map l | l in s.infraEnv[k] :: Num(c.float64(s.infraEnv[k][l])))),
            "iso_type" := Str(s.isoType)])
  }

  function WithSummary(c: Codec, doc: Json, s: Summary): Json {
    match doc
    case Obj(fields) => Obj(fields["host_summary" := SummaryJson(c, s)])
    case _ => doc
  }

  /** `out` is what a run of the pipeline makes of `base`, with that summary. */
  ghost predicate Enriched(c: Codec, setup: Setup, base: Json, out: Json, summary: Summary) {
    && Edited(c, setup, base).Some?
    && out == WithSummary(c, Edited(c, setup, base).value, summary)
  }

  /** The five editing passes of `getTransformedEvent`. */
  method EditJson(c: Codec, setup: Setup, base: Json) returns (deleted: Json)
    requires c.Lawful() && setup.Valid() && Shaped(base)
    ensures Edited(c, setup, base) == Some(deleted)
  {
    EditedForm(c, setup, base);
    var unpacked := Transform(c, MapToList.Unpacker(), base, setup.tables.unpack);
    var dropped := Transform(c, MapToList.DropKeyLister(setup.dropKey), unpacked, setup.tables.dropKey);
    var listed := Transform(c, MapToList.KeyedLister(setup.keepKey), dropped, setup.tables.keepKey);
    assert listed == Listed(c, setup, base);
    var anonymized := AnonymizeFields(c, setup, listed);
    deleted := DeleteFields(c, anonymized);
  }

  method AnonymizeFields(c: Codec, setup: Setup, listed: Json) returns (out: Json)
    requires setup.Valid()
    requires Anonymized(c, listed, FieldsToAnonymize(), setup.hashOrder, setup.renameOrder).Some?
    ensures Anonymized(c, listed, FieldsToAnonymize(), setup.hashOrder, setup.renameOrder) == Some(out)
  {
    var panicked;
    AnonymizeTableIsIndependent();
    out, panicked := AnonymizeJson(c, listed, FieldsToAnonymize(), setup.hashOrder, setup.renameOrder);
  }

  method DeleteFields(c: Codec, doc: Json) returns (out: Json)
    ensures out == DeleteAll(c, doc, FieldsToDelete())
  {
    var ok;
    DeletedBefore(FieldsToDelete(), |FieldsToDelete()|);
    out, ok := Delete(c, doc, FieldsToDelete());
  }

  /** The event holds the summary of these hosts: flag, count, a most
      frequent `type`, and of every label of every statistic its share. */
  ghost predicate HoldsSummary(c: Codec, out: Json, hosts: seq<Json>) {
    && Get(out, ["host_summary", "heterogeneous_arch"]) == Some(Bool(!CommonLabel(hosts, "cpu_architecture")))
    && Get(out, ["host_summary", "host_count"]) == Some(Num(c.float64(|hosts| as real)))
    && (exists l: string :: Get(out, ["host_summary", "iso_type"]) == Some(Str(l)) && IsMostFrequent(hosts, "type", l))
    && HoldsShares(c, out, hosts, "type")
    && HoldsShares(c, out, hosts, "cpu_architecture")
    && HoldsShares(c, out, hosts, "openshift_version")
    && HasSummaryKeys(out)
  }

  ghost predicate IsMostFrequent(hosts: seq<Json>, stat: string, l: string) {
    && (Tally(hosts, stat) == multiset{} ==> l == "")
    && (Tally(hosts, stat) != multiset{} ==> l in Tally(hosts, stat))
    && (forall x :: Tally(hosts, stat)[x] <= Tally(hosts, stat)[l])
  }

  ghost predicate HoldsShares(c: Codec, out: Json, hosts: seq<Json>, stat: string) {
    forall l: string ::
      && (l !in Tally(hosts, stat) ==> Get(out, ["host_summary", "infra_env", stat, l]) == None)
      && (l in Tally(hosts, stat) ==>
            && |Equipped(hosts)| > 0
            && var share := Tally(hosts, stat)[l] as real / |Equipped(hosts)| as real;
               Get(out, ["host_summary", "infra_env", stat, l]) == Some(Num(c.float64(share))))
  }

  lemma SummaryValues(c: Codec, fields: Record, s: Summary)
    ensures var out := WithSummary(c, Obj(fields), s);
            && Get(out, ["host_summary", "heterogeneous_arch"]) == Some(Bool(s.heterogeneousArch))
            && Get(out, ["host_summary", "host_count"]) == Some(Num(c.float64(s.hostCount as real)))
            && Get(out, ["host_summary", "iso_type"]) == Some(Str(s.isoType))
  {
    var out, summary := WithSummary(c, Obj(fields), s).fields, SummaryJson(c, s).fields;
    GetBelow(out, "host_summary", ["heterogeneous_arch"]);
    GetBelow(out, "host_summary", ["host_count"]);
    GetBelow(out, "host_summary", ["iso_type"]);
    GetOne(summary, "heterogeneous_arch");
    GetOne(summary, "host_count");
    GetOne(summary, "iso_type");
  }

  lemma SummaryKeys(c: Codec, fields: Record, s: Summary, k: string)
    ensures Get(WithSummary(c, Obj(fields), s), ["host_summary", k]).Some? <==>
            k in {"heterogeneous_arch", "host_count", "infra_env", "iso_type"}
    ensures Get(WithSummary(c, Obj(fields), s), ["host_summary", "infra_env", k]).Some? <==> k in s.infraEnv
  {
    var out, summary := WithSummary(c, Obj(fields), s).fields, SummaryJson(c, s).fields;
    assert ["host_summary", "infra_env", k] == ["host_summary"] + (["infra_env"] + [k]);
    GetBelow(out, "host_summary", [k]);
    GetOne(summary, k);
    GetBelow(out, "host_summary", ["infra_env"] + [k]);
    GetBelow(summary, "infra_env", [k]);
    GetOne(summary["infra_env"].fields, k);
  }

  lemma ShareValue(c: Codec, fields: Record, s: Summary, stat: string, l: string)
    requires stat in s.infraEnv
    ensures Get(WithSummary(c, Obj(fields), s), ["host_summary", "infra_env", stat, l]) ==
            if l in s.infraEnv[stat] then Some(Num(c.float64(s.infraEnv[stat][l]))) else None
  {
    var out, summary := WithSummary(c, Obj(fields), s).fields, SummaryJson(c, s).fields;
    var stats := summary["infra_env"].fields;
    assert ["host_summary", "infra_env", stat, l] == ["host_summary"] + (["infra_env"] + ([stat] + [l]));
    GetBelow(out, "host_summary", ["infra_env"] + ([stat] + [l]));
    GetBelow(summary, "infra_env", [stat] + [l]);
    GetBelow(stats, stat, [l]);
    GetOne(stats[stat].fields, l);
  }

  lemma SharesInEvent(c: Codec, fields: Record, s: Summary, hosts: seq<Json>, stat: string)
    requires stat in s.infraEnv && IsDistribution(s.infraEnv[stat], hosts, stat)
    ensures HoldsShares(c, WithSummary(c, Obj(fields), s), hosts, stat)
  {
    var shares := s.infraEnv[stat];
    forall l: string
      ensures l in Tally(hosts, stat) ==>
                && |Equipped(hosts)| > 0 && l in shares
                && shares[l] == Tally(hosts, stat)[l] as real / |Equipped(hosts)| as real
    {
      ShareIsQuotient(shares, hosts, stat, l);
    }
    forall l: string { ShareValue(c, fields, s, stat, l); }
  }

  lemma ShareIsQuotient(shares: map<string, real>, hosts: seq<Json>, stat: string, l: string)
    requires IsDistribution(shares, hosts, stat)
    ensures l in Tally(hosts, stat) ==>
              && |Equipped(hosts)| > 0 && l in shares
              && shares[l] == Tally(hosts, stat)[l] as real / |Equipped(hosts)| as real
  {
    if l in Tally(hosts, stat) {
      FullCount(hosts, stat, l);
      QuotientOfTimes(|Equipped(hosts)|, shares[l], Tally(hosts, stat)[l] as real);
    }
  }

  lemma AllSharesInEvent(c: Codec, fields: Record, s: Summary, hosts: seq<Json>)
    requires Summarizes(s, hosts)
    ensures HoldsShares(c, WithSummary(c, Obj(fields), s), hosts, "type")
    ensures HoldsShares(c, WithSummary(c, Obj(fields), s), hosts, "cpu_architecture")
    ensures HoldsShares(c, WithSummary(c, Obj(fields), s), hosts, "openshift_version")
  {
    assert "type" in STATS && "cpu_architecture" in STATS && "openshift_version" in STATS;
    SharesInEvent(c, fields, s, hosts, "type");
    SharesInEvent(c, fields, s, hosts, "cpu_architecture");
    SharesInEvent(c, fields, s, hosts, "openshift_version");
  }

  ghost predicate HasSummaryKeys(out: Json) {
    && (forall k: string :: Get(out, ["host_summary", k]).Some? <==>
          k in {"heterogeneous_arch", "host_count", "infra_env", "iso_type"})
    && (forall k: string :: Get(out, ["host_summary", "infra_env", k]).Some? <==>
          k in {"type", "cpu_architecture", "openshift_version"})
  }

  lemma AllSummaryKeys(c: Codec, fields: Record, s: Summary)
    requires s.infraEnv.Keys == STATS
    ensures HasSummaryKeys(WithSummary(c, Obj(fields), s))
  {
    forall k: string
      ensures Get(WithSummary(c, Obj(fields), s), ["host_summary", k]).Some? <==>
              k in {"heterogeneous_arch", "host_count", "infra_env", "iso_type"}
      ensures Get(WithSummary(c, Obj(fields), s), ["host_summary", "infra_env", k]).Some? <==>
              k in {"type", "cpu_architecture", "openshift_version"}
    {
      SummaryKeys(c, fields, s, k);
      assert k in s.infraEnv <==> k in STATS;
    }
  }

  /** An event given a summary of some hosts holds just that. */
  lemma SummaryIsHeld(c: Codec, fields: Record, s: Summary, hosts: seq<Json>)
    requires Summarizes(s, hosts)
    ensures HoldsSummary(c, WithSummary(c, Obj(fields), s), hosts)
  {
    SummaryValues(c, fields, s);
    AllSharesInEvent(c, fields, s, hosts);
    AllSummaryKeys(c, fields, s);
    SummaryParts(c, WithSummary(c, Obj(fields), s), s, hosts);
  }

  lemma SummaryParts(c: Codec, out: Json, s: Summary, hosts: seq<Json>)
    requires Summarizes(s, hosts) && HasSummaryKeys(out)
    requires Get(out, ["host_summary", "heterogeneous_arch"]) == Some(Bool(s.heterogeneousArch))
    requires Get(out, ["host_summary", "host_count"]) == Some(Num(c.float64(s.hostCount as real)))
    requires Get(out, ["host_summary", "iso_type"]) == Some(Str(s.isoType))
    requires HoldsShares(c, out, hosts, "type") && HoldsShares(c, out, hosts, "cpu_architecture")
    requires HoldsShares(c, out, hosts, "openshift_version")
    ensures HoldsSummary(c, out, hosts)
  {
    assert IsMostFrequent(hosts, "type", s.isoType);
  }

  /** `getTransformedEvent`: the event and the summary it holds, which is that
      of its own hosts. */
  method GetTransformedEvent(c: Codec, setup: Setup, base: Json) returns (out: Json, summary: Summary)
    requires c.Lawful() && setup.Valid() && Shaped(base)
    ensures Enriched(c, setup, base, out, summary)
    ensures Summarizes(summary, EventHosts(out))
    ensures base.Obj? ==> HoldsSummary(c, out, EventHosts(out))
  {
    var deleted := EditJson(c, setup, base);
    var hosts := GetHostsFromEvent(deleted);
    summary := AddHostsSummary(hosts);
    SummaryKeeps(c, deleted, summary, HOSTS);
    out := WithSummary(c, deleted, summary);
    if base.Obj? {
      EditedIsObject(c, setup, base);
      SummaryIsHeld(c, deleted.fields, summary, hosts);
    }
  }

  /** `GetBaseEnrichedEvent`, as far as hosts, cluster and infra-envs go. Go
      panics when it assigns to a nil map (`None`). */
  method GetBaseEnrichedEvent(rest: Record, cluster: Option<Record>, hosts: array<Record>, infraEnvs: seq<Record>)
    returns (base: Json, panicked: bool)
    modifies hosts
    ensures panicked <==>
            cluster.None? || exists h, e :: h in old(hosts[..]) && e in infraEnvs && IdsAreUncomparable(h, e)
    ensures !panicked ==>
              cluster.Some? && base == BaseEvent(rest, cluster.value, JoinedHosts(old(hosts[..]), infraEnvs), infraEnvs)
  {
    ghost var before := hosts[..];
    panicked := GetHostsWithEmbeddedInfraEnv(hosts, infraEnvs);
    if panicked || cluster.None? {
      return Null, true;
    }
    assert hosts[..] == JoinedHosts(before, infraEnvs);
    base := BaseEvent(rest, cluster.value, hosts[..], infraEnvs);
  }

  /** `GetEnrichedEvent`: without a panic in the base event there is none
      later. */
  method GetEnrichedEvent(c: Codec, setup: Setup, rest: Record, cluster: Option<Record>, hosts: array<Record>,
      infraEnvs: seq<Record>)
    returns (out: Json, summary: Summary, panicked: bool)
    requires c.Lawful() && setup.Valid()
    modifies hosts
    ensures panicked <==>
            cluster.None? || exists h, e :: h in old(hosts[..]) && e in infraEnvs && IdsAreUncomparable(h, e)
    ensures !panicked ==>
              && cluster.Some?
              && Enriched(c, setup, BaseEvent(rest, cluster.value, JoinedHosts(old(hosts[..]), infraEnvs), infraEnvs),
                   out, summary)
              && Summarizes(summary, EventHosts(out)) && HoldsSummary(c, out, EventHosts(out))
  {
    ghost var before := hosts[..];
    var base;
    base, panicked := GetBaseEnrichedEvent(rest, cluster, hosts, infraEnvs);
    if panicked {
      summary := Summary(false, 0, map[], "");
      return Null, summary, true;
    }
    BaseEventIsShaped(rest, cluster.value, JoinedHosts(before, infraEnvs), infraEnvs);
    out, summary := GetTransformedEvent(c, setup, base);
  }

  // ----------------------------------------------------------------- Theorems

  lemma SummaryFrame(c: Codec, doc: Json, s: Summary, loc: Loc)
    requires loc != [] && loc[0] != Key("host_summary")
    ensures At(WithSummary(c, doc, s), loc) == At(doc, loc)
  {
  }

  lemma SummaryKeeps(c: Codec, doc: Json, s: Summary, keys: seq<string>)
    requires keys != [] && keys[0] != "host_summary"
    ensures Get(WithSummary(c, doc, s), keys) == Get(doc, keys)
  {
  }

  /** Frame: whatever run of the pipeline, a value apart from the tables and
      from `host_summary` is the one of the base event, at any depth. */
  lemma EnrichedFrame(c: Codec, setup: Setup, base: Json, out: Json, summary: Summary, loc: Loc)
    requires c.Lawful() && setup.Valid() && Shaped(base) && Enriched(c, setup, base, out, summary)
    requires ApartFromEditing(setup.tables, loc) && loc != [] && loc[0] != Key("host_summary")
    ensures At(out, loc) == At(base, loc)
  {
    EditedFrame(c, setup, base, loc);
    SummaryFrame(c, Edited(c, setup, base).value, summary, loc);
  }

  lemma EnrichedGet(c: Codec, setup: Setup, base: Json, out: Json, summary: Summary, keys: seq<string>)
    requires Enriched(c, setup, base, out, summary) && keys != [] && keys[0] != "host_summary"
    ensures Get(out, keys) == Get(Edited(c, setup, base).value, keys)
  {
    SummaryKeeps(c, Edited(c, setup, base).value, summary, keys);
  }

  /** The fields not named in `changed` are the same. */
  ghost predicate SameFields(before: Json, after: Json, changed: set<string>) {
    forall k :: k !in changed ==> Get(after, [k]) == Get(before, [k])
  }

  const INFRA_ENV_CHANGES: set<string> := {"user_name", "user_id", "ssh_authorized_key"}
  const HOST_CHANGES: set<string> := {"user_name", "user_id", "infra_env"}

  lemma FinalInfraEnvForm(c: Codec, e: Json)
    ensures Pseudonymized(c, e, FinalInfraEnv(c, e))
    ensures Get(FinalInfraEnv(c, e), SSH_KEY).None?
    ensures SameFields(e, FinalInfraEnv(c, e), INFRA_ENV_CHANGES)
  {
    AnonymizedObjectForm(c, e);
    var a := AnonymizedObject(c, e);
    forall k: string | k != "ssh_authorized_key"
      ensures Get(FinalInfraEnv(c, e), [k]) == Get(a, [k])
    {
      GetAfterRemove(a, SSH_KEY, [k]);
    }
  }

  lemma FinalHostForm(c: Codec, h: Json)
    ensures Pseudonymized(c, h, FinalHost(c, h))
    ensures Get(FinalHost(c, h), INFRA_ENV) ==
            (match Get(h, INFRA_ENV) case None => None case Some(e) => Some(FinalInfraEnv(c, e)))
    ensures SameFields(h, FinalHost(c, h), HOST_CHANGES)
  {
    AnonymizedObjectForm(c, h);
    var a := AnonymizedObject(c, h);
    var f := e => FinalInfraEnv(c, e);
    GetUpdated(a, INFRA_ENV, f);
    forall k: string | k != "infra_env"
      ensures Get(FinalHost(c, h), [k]) == Get(a, [k])
    {
      GetElsewhere(a, INFRA_ENV, [k], f);
    }
  }

  /** What becomes of host `i`, field by field: the name gives way to its
      pseudonym, the embedded infra-env is edited, all else is listed. */
  ghost predicate HostEnriched(c: Codec, setup: Setup, i: nat, before: Json, after: Json) {
    && (before.Obj? ==> after.Obj?)
    && Pseudonymized(c, before, after)
    && Get(after, INFRA_ENV) == Lift(e => FinalInfraEnv(c, e), Get(before, INFRA_ENV))
    && (Get(after, INFRA_ENV).Some? ==> IsFinalInfraEnv(c, Get(before, INFRA_ENV).value, Get(after, INFRA_ENV).value))
    && (forall f :: f !in HOST_CHANGES ==>
          Get(after, [f]) == Lift(v => ListedValue(c, setup, Each(HOSTS, [f]), i, v), Get(before, [f])))
  }

  /** What becomes of an infra-env: the name gives way to its pseudonym, the
      ssh key is gone, all else is kept. */
  ghost predicate IsFinalInfraEnv(c: Codec, before: Json, after: Json) {
    && Pseudonymized(c, before, after)
    && Get(after, SSH_KEY).None?
    && SameFields(before, after, INFRA_ENV_CHANGES)
  }

  /** The number and order of the hosts is kept, and every field of every host
      is accounted for. */
  lemma EnrichedHosts(c: Codec, setup: Setup, base: Json, out: Json, summary: Summary, hs: seq<Json>)
    requires c.Lawful() && setup.Valid() && Shaped(base) && Enriched(c, setup, base, out, summary)
    requires Get(base, HOSTS) == Some(Arr(hs))
    ensures Get(out, HOSTS).Some? && Get(out, HOSTS).value.Arr? && |Get(out, HOSTS).value.elems| == |hs|
    ensures forall i: nat :: i < |hs| ==> HostEnriched(c, setup, i, hs[i], Get(out, HOSTS).value.elems[i])
  {
    EnrichedGet(c, setup, base, out, summary, HOSTS);
    EditedForm(c, setup, base);
    ListedHosts(c, setup, base, hs);
    forall i: nat | i < |hs|
      ensures HostEnriched(c, setup, i, hs[i], Get(out, HOSTS).value.elems[i])
    {
      HostIsEnriched(c, setup, i, hs[i]);
    }
  }

  lemma HostIsEnriched(c: Codec, setup: Setup, i: nat, h: Json)
    requires setup.tables.Valid()
    ensures HostEnriched(c, setup, i, h, FinalHost(c, ListedHost(c, setup, i, h)))
  {
    var listed := ListedHost(c, setup, i, h);
    var after := FinalHost(c, listed);
    FinalHostForm(c, listed);
    HostIsObject(c, setup, i, h);
    ReservedHostField(c, setup, i, h, "user_name");
    ReservedHostField(c, setup, i, h, "user_id");
    ReservedHostField(c, setup, i, h, "infra_env");
    if Get(h, INFRA_ENV).Some? {
      FinalInfraEnvForm(c, Get(h, INFRA_ENV).value);
    }
    forall f | f !in HOST_CHANGES
      ensures Get(after, [f]) == Lift(v => ListedValue(c, setup, Each(HOSTS, [f]), i, v), Get(h, [f]))
    {
      ListedHostField(c, setup, i, h, f);
    }
  }

  lemma {:induction false} HostPassKeepsObject(c: Codec, fn: Transformer, i: nat, h: Json, paths: seq<Path>)
    requires h.Obj?
    ensures Fold(TransformElement(c, fn, HOSTS)(i), h, paths).Obj?
    decreases |paths|
  {
    if paths == [] {
    } else {
      if paths[0].Each? {
        assert Update(h, paths[0].child, v => StepValue(c, fn, Site(paths[0], i), v)).Obj?;
      }
      HostPassKeepsObject(c, fn, i, TransformElement(c, fn, HOSTS)(i)(paths[0], h), paths[1..]);
    }
  }

  lemma HostIsObject(c: Codec, setup: Setup, i: nat, h: Json)
    ensures h.Obj? ==> FinalHost(c, ListedHost(c, setup, i, h)).Obj?
  {
    if h.Obj? {
      var t := setup.tables;
      var drop, keep := MapToList.DropKeyLister(setup.dropKey), MapToList.KeyedLister(setup.keepKey);
      var unpacked := Fold(TransformElement(c, MapToList.Unpacker(), HOSTS)(i), h, t.unpack);
      var dropped := Fold(TransformElement(c, drop, HOSTS)(i), unpacked, t.dropKey);
      HostPassKeepsObject(c, MapToList.Unpacker(), i, h, t.unpack);
      HostPassKeepsObject(c, drop, i, unpacked, t.dropKey);
      HostPassKeepsObject(c, keep, i, dropped, t.keepKey);
    }
  }

  lemma ReservedHostField(c: Codec, setup: Setup, i: nat, h: Json, f: string)
    requires setup.tables.Valid() && f in RESERVED_IN_HOST
    ensures Get(ListedHost(c, setup, i, h), [f]) == Get(h, [f])
  {
    ListedHostField(c, setup, i, h, f);
    if Get(h, [f]).Some? {
      ReservedIsKept(c, setup, Each(HOSTS, [f]), i, Get(h, [f]).value);
    }
  }

  lemma SameAt(j: Json, j': Json, keys: seq<string>, loc: Loc)
    requires KeyLoc(keys) == loc && At(j, loc) == At(j', loc)
    ensures Get(j, keys) == Get(j', keys)
  {
    assert loc + [] == loc;
    GetIsAt(j, keys, []);
    GetIsAt(j', keys, []);
  }

  lemma TwoKeyLoc(a: string, b: string)
    ensures KeyLoc([a, b]) == [Key(a), Key(b)]
  {
    assert [a, b][1..] == [b] && [b][1..] == [] && [a][1..] == [];
    assert KeyLoc([b]) == [Key(b)];
  }

  /** The number and order of the infra-envs is kept, and each is edited like
      its copies in the hosts. */
  lemma EnrichedInfraEnvs(c: Codec, setup: Setup, base: Json, out: Json, summary: Summary, es: seq<Json>)
    requires c.Lawful() && setup.Valid() && Shaped(base) && Enriched(c, setup, base, out, summary)
    requires Get(base, INFRA_ENVS) == Some(Arr(es))
    ensures Get(out, INFRA_ENVS).Some? && Get(out, INFRA_ENVS).value.Arr? && |Get(out, INFRA_ENVS).value.elems| == |es|
    ensures forall k: nat :: k < |es| ==>
              && var after := Get(out, INFRA_ENVS).value.elems[k];
                 after == FinalInfraEnv(c, es[k]) && IsFinalInfraEnv(c, es[k], after)
  {
    EnrichedGet(c, setup, base, out, summary, INFRA_ENVS);
    EditedForm(c, setup, base);
    ListedInfraEnvs(c, setup, base);
    forall k: nat | k < |es| { FinalInfraEnvForm(c, es[k]); }
  }

  /** Join preservation: every host that matched an infra-env in the join has,
      in the enriched event, an embedded `infra_env` equal to the entry of
      `infra_envs` whose id is its `infra_env_id`. The separate edits on the
      two copies stay in step. */
  lemma JoinPreserved(c: Codec, setup: Setup, rest: Record, cluster: Record, hosts: seq<Record>, infraEnvs: seq<Record>,
      out: Json, summary: Summary, i: nat, k: nat)
    requires c.Lawful() && setup.Valid() && UniqueStringIds(infraEnvs)
    requires i < |hosts| && k < |infraEnvs|
    requires "infra_env_id" in hosts[i] && hosts[i]["infra_env_id"] == infraEnvs[k]["id"]
    requires Enriched(c, setup, BaseEvent(rest, cluster, JoinedHosts(hosts, infraEnvs), infraEnvs), out, summary)
    ensures Get(out, HOSTS).Some? && Get(out, HOSTS).value.Arr? && |Get(out, HOSTS).value.elems| == |hosts|
    ensures Get(out, INFRA_ENVS).Some? && Get(out, INFRA_ENVS).value.Arr? &&
            |Get(out, INFRA_ENVS).value.elems| == |infraEnvs|
    ensures var host, infraEnv := Get(out, HOSTS).value.elems[i], Get(out, INFRA_ENVS).value.elems[k];
            && Get(host, INFRA_ENV) == Some(infraEnv)
            && Get(host, ["infra_env_id"]) == Get(infraEnv, ["id"]) == Some(infraEnvs[k]["id"])
  {
    var joined := JoinedHosts(hosts, infraEnvs);
    var base := BaseEvent(rest, cluster, joined, infraEnvs);
    BaseEventIsShaped(rest, cluster, joined, infraEnvs);
    EnrichedHosts(c, setup, base, out, summary, RecordsJson(joined));
    EnrichedInfraEnvs(c, setup, base, out, summary, RecordsJson(infraEnvs));
    EmbeddedIsTheMatch(hosts[i], infraEnvs, k);
    assert RecordsJson(joined)[i] == Obj(hosts[i]["infra_env" := Obj(infraEnvs[k])]);
    JoinedPair(c, setup, i, hosts[i], infraEnvs[k], Get(out, HOSTS).value.elems[i]);
  }

  lemma JoinedPair(c: Codec, setup: Setup, i: nat, host: Record, infraEnv: Record, after: Json)
    requires setup.tables.Valid()
    requires "infra_env_id" in host && "id" in infraEnv && host["infra_env_id"] == infraEnv["id"]
    requires HostEnriched(c, setup, i, Obj(host["infra_env" := Obj(infraEnv)]), after)
    ensures Get(after, INFRA_ENV) == Some(FinalInfraEnv(c, Obj(infraEnv)))
    ensures Get(after, ["infra_env_id"]) == Get(FinalInfraEnv(c, Obj(infraEnv)), ["id"]) == Some(infraEnv["id"])
  {
    var joined := host["infra_env" := Obj(infraEnv)];
    OneField(joined, "infra_env");
    OneField(joined, "infra_env_id");
    OneField(infraEnv, "id");
    FinalInfraEnvForm(c, Obj(infraEnv));
    IdsAreUntouched();
    ReservedIsKept(c, setup, Each(HOSTS, ["infra_env_id"]), i, joined["infra_env_id"]);
  }

  lemma IdsAreUntouched()
    ensures "infra_env_id" !in HOST_CHANGES && "infra_env_id" in RESERVED_IN_HOST
    ensures "id" !in INFRA_ENV_CHANGES
  {
    assert |"infra_env_id"| == 12 && |"id"| == 2;
  }

  lemma OneField(m: Record, k: string)
    requires k in m
    ensures Get(Obj(m), [k]) == Some(m[k])
  {
    assert [k][1..] == [];
  }

  // ------------------------------------------------------------------ Cluster

  const CLUSTER: Keys := ["cluster"]
  const CLUSTER_USER_NAME: Keys := ["cluster", "user_name"]
  const CLUSTER_USER_ID: Keys := ["cluster", "user_id"]
  const PULL_SECRET: Keys := ["cluster", "pull_secret"]
  const SSH_PUBLIC_KEY: Keys := ["cluster", "ssh_public_key"]

  lemma HashedCluster(c: Codec, doc: Json)
    ensures var out := TransformAll(c, Hasher(c), doc, AnonymizeOrder());
            && Get(out, CLUSTER_USER_ID) == Get(doc, CLUSTER_USER_ID)
            && Get(out, CLUSTER_USER_NAME) == (match Get(doc, CLUSTER_USER_NAME)
                                               case None => None
                                               case Some(v) => Some(StepValue(c, Hasher(c), Site(Unsupported, 0), v)))
  {
    var op := TransformOp(c, Hasher(c));
    FourSteps(op, doc, CLUSTER_USER.src, HOST_USER.src, HOST_INFRA_ENV_USER.src, INFRA_ENV_USER.src);
    var hash := v => StepValue(c, Hasher(c), Site(CLUSTER_USER.src, 0), v);
    GetUpdated(doc, CLUSTER_USER_NAME, hash);
    GetElsewhere(doc, CLUSTER_USER_NAME, CLUSTER_USER_ID, hash);
    var d1 := op(CLUSTER_USER.src, doc);
    var d2 := op(HOST_USER.src, d1);
    var d3 := op(HOST_INFRA_ENV_USER.src, d2);
    forall keys: Keys | keys == CLUSTER_USER_NAME || keys == CLUSTER_USER_ID
      ensures Get(op(INFRA_ENV_USER.src, d3), keys) == Get(d1, keys)
    {
      GetElsewhere(d1, HOSTS, keys, v => StepEach(c, Hasher(c), HOST_USER.src, v));
      GetElsewhere(d2, HOSTS, keys, v => StepEach(c, Hasher(c), HOST_INFRA_ENV_USER.src, v));
      GetElsewhere(d3, INFRA_ENVS, keys, v => StepEach(c, Hasher(c), INFRA_ENV_USER.src, v));
    }
  }

  lemma RenamedCluster(c: Codec, doc: Json)
    ensures var out := Fold(RenameTotalOp(c), doc, AnonymizeRenamings());
            && Get(out, CLUSTER_USER_NAME).None?
            && Get(out, CLUSTER_USER_ID) == (match Get(doc, CLUSTER_USER_NAME)
                                             case None => Get(doc, CLUSTER_USER_ID)
                                             case Some(v) => Some(c.Unpack(v)))
  {
    var op := RenameTotalOp(c);
    FourSteps(op, doc, CLUSTER_USER, HOST_USER, HOST_INFRA_ENV_USER, INFRA_ENV_USER);
    var relabel := v => Relabel(c, "user_name", "user_id", v);
    ClusterUserStep(c, doc, relabel);
    var d1 := op(CLUSTER_USER, doc);
    var d2 := op(HOST_USER, d1);
    var d3 := op(HOST_INFRA_ENV_USER, d2);
    forall keys: Keys | keys == CLUSTER_USER_NAME || keys == CLUSTER_USER_ID
      ensures Get(op(INFRA_ENV_USER, d3), keys) == Get(d1, keys)
    {
      GetElsewhere(d1, HOSTS, keys, v => RenameEach(c, ["user_name"], ["user_id"], v));
      GetElsewhere(d2, HOSTS, keys, v => RenameEach(c, ["infra_env", "user_name"], ["infra_env", "user_id"], v));
      GetElsewhere(d3, INFRA_ENVS, keys, v => RenameEach(c, ["user_name"], ["user_id"], v));
    }
    ClusterRelabelled(c, doc, relabel);
  }

  lemma ClusterUserStep(c: Codec, doc: Json, relabel: Json -> Json)
    requires forall v: Json :: relabel(v) == Relabel(c, "user_name", "user_id", v)
    ensures RenameTotalOp(c)(CLUSTER_USER, doc) == Update(doc, CLUSTER, relabel)
  {
    assert Front(CLUSTER_USER_NAME) == CLUSTER && Front(CLUSTER_USER_ID) == CLUSTER;
    var f := v => Relabel(c, Last(CLUSTER_USER_NAME), Last(CLUSTER_USER_ID), v);
    RenameIsRelabel(c, doc, CLUSTER_USER_NAME, CLUSTER_USER_ID);
    assert RenamePlain(c, doc, CLUSTER_USER_NAME, CLUSTER_USER_ID) == Update(doc, CLUSTER, f);
    UpdateCongruent(doc, CLUSTER, f, relabel);
    assert RenameTotalOp(c)(CLUSTER_USER, doc) == RenamePlain(c, doc, CLUSTER_USER_NAME, CLUSTER_USER_ID);
  }

  lemma ClusterRelabelled(c: Codec, doc: Json, relabel: Json -> Json)
    requires forall v: Json :: relabel(v) == Relabel(c, "user_name", "user_id", v)
    ensures Get(Update(doc, CLUSTER, relabel), CLUSTER_USER_NAME).None?
    ensures Get(Update(doc, CLUSTER, relabel), CLUSTER_USER_ID) == (match Get(doc, CLUSTER_USER_NAME)
                                                                   case None => Get(doc, CLUSTER_USER_ID)
                                                                   case Some(v) => Some(c.Unpack(v)))
  {
    assert CLUSTER[1..] == [] && CLUSTER_USER_NAME[1..] == ["user_name"] && CLUSTER_USER_ID[1..] == ["user_id"];
    assert ["user_name"][1..] == [] && ["user_id"][1..] == [];
  }

  lemma DeletedInCluster(c: Codec, doc: Json)
    ensures var out := DeleteAll(c, doc, FieldsToDelete());
            && Get(out, PULL_SECRET).None? && Get(out, SSH_PUBLIC_KEY).None?
            && Get(out, CLUSTER_USER_NAME) == Get(doc, CLUSTER_USER_NAME)
            && Get(out, CLUSTER_USER_ID) == Get(doc, CLUSTER_USER_ID)
  {
    var op, t := DeleteOp(c), FieldsToDelete();
    assert t == [t[0], t[1], t[2], t[3]];
    FourSteps(op, doc, t[0], t[1], t[2], t[3]);
    var d1 := Remove(doc, PULL_SECRET);
    var d2 := Remove(d1, SSH_PUBLIC_KEY);
    var d3 := op(t[2], d2);
    GetRemoved(doc, PULL_SECRET);
    GetRemoved(d1, SSH_PUBLIC_KEY);
    GetAfterRemove(d1, SSH_PUBLIC_KEY, PULL_SECRET);
    forall keys: Keys | keys in {PULL_SECRET, SSH_PUBLIC_KEY, CLUSTER_USER_NAME, CLUSTER_USER_ID}
      ensures Get(op(t[3], d3), keys) == Get(d2, keys)
    {
      GetElsewhere(d2, HOSTS, keys, v => DeleteEach(c, ["infra_env", "ssh_authorized_key"], v));
      GetElsewhere(d3, INFRA_ENVS, keys, v => DeleteEach(c, ["ssh_authorized_key"], v));
    }
    forall keys: Keys | keys == CLUSTER_USER_NAME || keys == CLUSTER_USER_ID
      ensures Get(d2, keys) == Get(doc, keys)
    {
      GetAfterRemove(doc, PULL_SECRET, keys);
      GetAfterRemove(d1, SSH_PUBLIC_KEY, keys);
    }
  }

  lemma {:induction false} GetRemoved(j: Json, keys: Keys)
    ensures Get(Remove(j, keys), keys).None?
    decreases |keys|
  {
    if |keys| > 1 && j.Obj? && keys[0] in j.fields {
      GetRemoved(j.fields[keys[0]], keys[1..]);
    }
  }

  lemma ReservedClusterField(c: Codec, setup: Setup, doc: Json, f: string)
    requires setup.tables.Valid() && f in RESERVED_IN_CLUSTER && f != "hosts"
    ensures Get(Listed(c, setup, doc), ["cluster", f]) == Get(doc, ["cluster", f])
  {
    ListedClusterField(c, setup, doc, f);
    if Get(doc, ["cluster", f]).Some? {
      assert ["cluster", f][1] == f;
      ReservedIsKept(c, setup, Plain(["cluster", f]), 0, Get(doc, ["cluster", f]).value);
    }
  }

  /** The cluster's user name is replaced by its pseudonym, and its pull
      secret and public key are gone. */
  lemma EnrichedCluster(c: Codec, setup: Setup, base: Json, out: Json, summary: Summary)
    requires c.Lawful() && setup.Valid() && Shaped(base) && Enriched(c, setup, base, out, summary)
    ensures Get(out, PULL_SECRET).None? && Get(out, SSH_PUBLIC_KEY).None? && Get(out, CLUSTER_USER_NAME).None?
    ensures Get(out, CLUSTER_USER_ID) == (match Get(base, CLUSTER_USER_NAME)
                                          case None => Get(base, CLUSTER_USER_ID)
                                          case Some(v) => Some(Pseudonym(c, v)))
  {
    var listed := Listed(c, setup, base);
    EditedInOrder(c, setup, base);
    ReservedClusterField(c, setup, base, "user_name");
    ReservedClusterField(c, setup, base, "user_id");
    HashedCluster(c, listed);
    RenamedCluster(c, TransformAll(c, Hasher(c), listed, AnonymizeOrder()));
    DeletedInCluster(c, AnonymizedInOrder(c, listed));
    EnrichedGet(c, setup, base, out, summary, PULL_SECRET);
    EnrichedGet(c, setup, base, out, summary, SSH_PUBLIC_KEY);
    EnrichedGet(c, setup, base, out, summary, CLUSTER_USER_NAME);
    EnrichedGet(c, setup, base, out, summary, CLUSTER_USER_ID);
  }

  const CLUSTER_CHANGES: set<string> := {"hosts", "user_name", "user_id", "pull_secret", "ssh_public_key"}

  function ClusterField(f: string): Keys { ["cluster", f] }

  /** Every other field of the cluster is listed, and that is all. */
  lemma EnrichedClusterField(c: Codec, setup: Setup, base: Json, out: Json, summary: Summary, f: string)
    requires c.Lawful() && setup.Valid() && Shaped(base) && Enriched(c, setup, base, out, summary)
    requires f !in CLUSTER_CHANGES
    ensures Get(out, ClusterField(f))
         == Lift(v => ListedValue(c, setup, Plain(ClusterField(f)), 0, v), Get(base, ClusterField(f)))
  {
    var keys, loc: Loc := ClusterField(f), [Key("cluster"), Key(f)];
    var listed := Listed(c, setup, base);
    EnrichedGet(c, setup, base, out, summary, keys);
    ListedShape(c, setup, base);
    EditedInOrder(c, setup, base);
    ClusterFieldIsApart(f);
    AnonymizedFrame(c, listed, loc);
    DeleteTableEdits();
    DeletePassFrame(c, AnonymizedInOrder(c, listed), FieldsToDelete(), loc);
    TwoKeyLoc("cluster", f);
    SameAt(Edited(c, setup, base).value, listed, keys, loc);
    ListedClusterField(c, setup, base, f);
  }

  lemma ClusterFieldIsApart(f: string)
    requires f !in CLUSTER_CHANGES
    ensures var loc: Loc := [Key("cluster"), Key(f)];
            && (forall r :: r in AnonymizeRenamings() ==> Apart(loc, r.src) && Apart(loc, r.dst))
            && (forall p :: p in FieldsToDelete() ==> Apart(loc, p))
  {
    var loc: Loc := [Key("cluster"), Key(f)];
    assert loc[1..] == [Key(f)] && HOSTS[1..] == ["hosts"];
  }

  // ----------------------------------------------------------------- Top level

  /** Every field of the event but the cluster, the infra-envs and the summary
      is that of the base event. */
  lemma EnrichedTopLevel(c: Codec, setup: Setup, base: Json, out: Json, summary: Summary, f: string)
    requires c.Lawful() && setup.Valid() && Shaped(base) && Enriched(c, setup, base, out, summary)
    requires f != "cluster" && f != "infra_envs" && f != "host_summary"
    ensures Get(out, [f]) == Get(base, [f])
  {
    TopLevelIsApart(setup.tables, f);
    EnrichedFrame(c, setup, base, out, summary, [Key(f)]);
    AtTopLevel(out, f);
    AtTopLevel(base, f);
  }

  lemma AtTopLevel(j: Json, f: string)
    ensures At(j, [Key(f)]) == Get(j, [f])
  {
    assert [Key(f)][1..] == [] && [f][1..] == [];
  }

  lemma TopLevelIsApart(t: Tables, f: string)
    requires t.Valid() && f != "cluster" && f != "infra_envs"
    ensures ApartFromEditing(t, [Key(f)])
  {
    forall p | ListingPath(p) ensures Apart([Key(f)], p) {}
    assert HOSTS[0] == "cluster" && INFRA_ENVS[0] == "infra_envs";
  }
}
