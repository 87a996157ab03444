/** An enriched event, field by field, in terms of the records it was made
    from. */
module EnrichedRecords {
  import opened JsonValues
  import opened JsonEdit
  import opened DefaultFields
  import opened Anonymize
  import opened Pipeline
  import opened ListingEffects
  import opened EventEnricher
  import HostsSummary

  function FieldIn(m: Record, k: string): Option<Json> {
    if k in m then Some(m[k]) else None
  }

  /** The user name of a record is gone, and its user id the pseudonym of it. */
  ghost predicate IsPseudonymized(c: Codec, m: Record, name: Option<Json>, id: Option<Json>) {
    && name == None
    && id == if "user_name" in m then Some(Pseudonym(c, m["user_name"])) else FieldIn(m, "user_id")
  }

  ghost predicate IsClusterOf(c: Codec, setup: Setup, cluster: Record, out: Json) {
    && IsPseudonymized(c, cluster, Get(out, ["cluster", "user_name"]), Get(out, ["cluster", "user_id"]))
    && Get(out, ["cluster", "pull_secret"]) == None && Get(out, ["cluster", "ssh_public_key"]) == None
    && forall f :: f !in {"hosts", "user_name", "user_id", "pull_secret", "ssh_public_key"} ==>
         Get(out, ["cluster", f]) == Lift(v => ListedValue(c, setup, Plain(["cluster", f]), 0, v), FieldIn(cluster, f))
  }

  /** Entry `k` of the infra-envs, or its copy in a host. */
  ghost predicate IsInfraEnvOf(c: Codec, infraEnv: Record, after: Json) {
    && IsPseudonymized(c, infraEnv, Get(after, ["user_name"]), Get(after, ["user_id"]))
    && Get(after, ["ssh_authorized_key"]) == None
    && forall f :: f !in {"user_name", "user_id", "ssh_authorized_key"} ==> Get(after, [f]) == FieldIn(infraEnv, f)
  }

  /** The fields of host `i` other than its embedded infra-env. */
  ghost predicate IsHostOf(c: Codec, setup: Setup, i: nat, host: Record, after: Json) {
    && IsPseudonymized(c, host, Get(after, ["user_name"]), Get(after, ["user_id"]))
    && forall f :: f !in {"user_name", "user_id", "infra_env"} ==>
         Get(after, [f]) == Lift(v => ListedValue(c, setup, Each(["cluster", "hosts"], [f]), i, v), FieldIn(host, f))
  }

  predicate RefersTo(host: Record, infraEnv: Record) {
    "infra_env_id" in host && "id" in infraEnv && host["infra_env_id"] == infraEnv["id"]
  }

  /** A host that refers to an infra-env embeds the entry of the event for it;
      any other keeps what it had, edited like an infra-env. */
  ghost predicate IsJoined(c: Codec, host: Record, infraEnvs: seq<Record>, after: Json, entries: seq<Json>) {
    && |entries| == |infraEnvs|
    && (forall k :: 0 <= k < |infraEnvs| && RefersTo(host, infraEnvs[k]) ==>
          Get(after, ["infra_env"]) == Some(entries[k]))
    && ((forall k :: 0 <= k < |infraEnvs| ==> !RefersTo(host, infraEnvs[k])) ==>
          Get(after, ["infra_env"]) == Lift(e => FinalInfraEnv(c, e), FieldIn(host, "infra_env")))
  }

  /** The elements of a list in the event; null and absence are no elements. */
  function ListAt(out: Json, keys: seq<string>): seq<Json> {
    match Get(out, keys)
    case Some(Arr(es)) => es
    case _ => []
  }

  ghost predicate AreHostsOf(c: Codec, setup: Setup, hosts: seq<Record>, infraEnvs: seq<Record>, out: Json) {
    var after := ListAt(out, ["cluster", "hosts"]);
    && |after| == |hosts|
    && forall i: nat :: i < |hosts| ==>
         && IsHostOf(c, setup, i, hosts[i], after[i])
         && IsJoined(c, hosts[i], infraEnvs, after[i], ListAt(out, ["infra_envs"]))
  }

  ghost predicate AreInfraEnvsOf(c: Codec, infraEnvs: seq<Record>, out: Json) {
    var after := ListAt(out, ["infra_envs"]);
    && |after| == |infraEnvs|
    && forall k :: 0 <= k < |infraEnvs| ==> IsInfraEnvOf(c, infraEnvs[k], after[k])
  }

  ghost predicate IsEventOf(c: Codec, setup: Setup, rest: Record, cluster: Record, hosts: seq<Record>,
      infraEnvs: seq<Record>, out: Json)
  {
    && (forall f :: f !in {"cluster", "infra_envs", "host_summary"} ==> Get(out, [f]) == FieldIn(rest, f))
    && IsClusterOf(c, setup, cluster, out)
    && AreHostsOf(c, setup, hosts, infraEnvs, out)
    && AreInfraEnvsOf(c, infraEnvs, out)
  }

  // ------------------------------------------------------------------- Proofs

  lemma ClusterFieldOfRecord(c: Codec, setup: Setup, rest: Record, cluster: Record, hosts: seq<Record>,
      infraEnvs: seq<Record>, out: Json, summary: HostsSummary.Summary, f: string)
    requires c.Lawful() && setup.Valid() && f !in CLUSTER_CHANGES
    requires Enriched(c, setup, BaseEvent(rest, cluster, hosts, infraEnvs), out, summary)
    ensures Get(out, ClusterField(f))
         == Lift(v => ListedValue(c, setup, Plain(ClusterField(f)), 0, v), FieldIn(cluster, f))
  {
    BaseEventIsShaped(rest, cluster, hosts, infraEnvs);
    BaseEventFields(rest, cluster, hosts, infraEnvs, f);
    EnrichedClusterField(c, setup, BaseEvent(rest, cluster, hosts, infraEnvs), out, summary, f);
  }

  lemma ClusterChangesOfRecord(c: Codec, setup: Setup, rest: Record, cluster: Record, hosts: seq<Record>,
      infraEnvs: seq<Record>, out: Json, summary: HostsSummary.Summary)
    requires c.Lawful() && setup.Valid()
    requires Enriched(c, setup, BaseEvent(rest, cluster, hosts, infraEnvs), out, summary)
    ensures IsPseudonymized(c, cluster, Get(out, CLUSTER_USER_NAME), Get(out, CLUSTER_USER_ID))
    ensures Get(out, PULL_SECRET) == None && Get(out, SSH_PUBLIC_KEY) == None
  {
    BaseEventIsShaped(rest, cluster, hosts, infraEnvs);
    EnrichedCluster(c, setup, BaseEvent(rest, cluster, hosts, infraEnvs), out, summary);
    BaseEventFields(rest, cluster, hosts, infraEnvs, "user_name");
    BaseEventFields(rest, cluster, hosts, infraEnvs, "user_id");
  }

  lemma ClusterOfRecord(c: Codec, setup: Setup, rest: Record, cluster: Record, hosts: seq<Record>,
      infraEnvs: seq<Record>, out: Json, summary: HostsSummary.Summary)
    requires c.Lawful() && setup.Valid()
    requires Enriched(c, setup, BaseEvent(rest, cluster, hosts, infraEnvs), out, summary)
    ensures IsClusterOf(c, setup, cluster, out)
  {
    ClusterChangesOfRecord(c, setup, rest, cluster, hosts, infraEnvs, out, summary);
    forall f | f !in CLUSTER_CHANGES
      ensures Get(out, ClusterField(f))
           == Lift(v => ListedValue(c, setup, Plain(ClusterField(f)), 0, v), FieldIn(cluster, f))
    {
      ClusterFieldOfRecord(c, setup, rest, cluster, hosts, infraEnvs, out, summary, f);
    }
    ClusterParts(c, setup, cluster, out);
  }

  lemma ClusterParts(c: Codec, setup: Setup, cluster: Record, out: Json)
    requires IsPseudonymized(c, cluster, Get(out, CLUSTER_USER_NAME), Get(out, CLUSTER_USER_ID))
    requires Get(out, PULL_SECRET) == None && Get(out, SSH_PUBLIC_KEY) == None
    requires forall f :: f !in CLUSTER_CHANGES ==>
               Get(out, ClusterField(f))
               == Lift(v => ListedValue(c, setup, Plain(ClusterField(f)), 0, v), FieldIn(cluster, f))
    ensures IsClusterOf(c, setup, cluster, out)
  {
    forall f | f !in {"hosts", "user_name", "user_id", "pull_secret", "ssh_public_key"}
      ensures Get(out, ["cluster", f])
           == Lift(v => ListedValue(c, setup, Plain(["cluster", f]), 0, v), FieldIn(cluster, f))
    {
      assert ClusterField(f) == ["cluster", f] && f !in CLUSTER_CHANGES;
    }
  }

  lemma InfraEnvOfRecord(c: Codec, infraEnv: Record, after: Json)
    requires IsFinalInfraEnv(c, Obj(infraEnv), after)
    ensures IsInfraEnvOf(c, infraEnv, after)
  {
    forall f: string { GetOne(infraEnv, f); }
  }

  lemma InfraEnvsOfRecords(c: Codec, setup: Setup, rest: Record, cluster: Record, hosts: seq<Record>,
      infraEnvs: seq<Record>, out: Json, summary: HostsSummary.Summary)
    requires c.Lawful() && setup.Valid()
    requires Enriched(c, setup, BaseEvent(rest, cluster, hosts, infraEnvs), out, summary)
    ensures AreInfraEnvsOf(c, infraEnvs, out)
    ensures forall k :: 0 <= k < |infraEnvs| ==> ListAt(out, INFRA_ENVS)[k] == FinalInfraEnv(c, Obj(infraEnvs[k]))
  {
    var base := BaseEvent(rest, cluster, hosts, infraEnvs);
    BaseEventIsShaped(rest, cluster, hosts, infraEnvs);
    EntriesOfRecords(c, setup, base, infraEnvs, out, summary);
    forall k | 0 <= k < |infraEnvs|
      ensures IsInfraEnvOf(c, infraEnvs[k], ListAt(out, INFRA_ENVS)[k])
    {
      FinalInfraEnvForm(c, Obj(infraEnvs[k]));
      InfraEnvOfRecord(c, infraEnvs[k], ListAt(out, INFRA_ENVS)[k]);
    }
  }

  lemma EntriesOfRecords(c: Codec, setup: Setup, base: Json, infraEnvs: seq<Record>, out: Json,
      summary: HostsSummary.Summary)
    requires c.Lawful() && setup.Valid() && Shaped(base) && Enriched(c, setup, base, out, summary)
    requires Get(base, INFRA_ENVS) == if infraEnvs == [] then None else Some(Arr(RecordsJson(infraEnvs)))
    ensures |ListAt(out, INFRA_ENVS)| == |infraEnvs|
    ensures forall k :: 0 <= k < |infraEnvs| ==> ListAt(out, INFRA_ENVS)[k] == FinalInfraEnv(c, Obj(infraEnvs[k]))
  {
    EnrichedGet(c, setup, base, out, summary, INFRA_ENVS);
    EditedForm(c, setup, base);
    ListedInfraEnvs(c, setup, base);
  }

  lemma HostOfRecord(c: Codec, setup: Setup, i: nat, host: Record, joined: Record, after: Json)
    requires HostEnriched(c, setup, i, Obj(joined), after)
    requires joined - {"infra_env"} == host - {"infra_env"}
    ensures IsHostOf(c, setup, i, host, after)
    ensures Get(after, ["infra_env"]) == Lift(e => FinalInfraEnv(c, e), FieldIn(joined, "infra_env"))
  {
    forall f: string
      ensures f != "infra_env" ==> Get(Obj(joined), [f]) == FieldIn(host, f)
      ensures Get(Obj(joined), [f]) == FieldIn(joined, f)
    {
      GetOne(joined, f);
      assert f != "infra_env" ==> FieldIn(joined - {"infra_env"}, f) == FieldIn(joined, f);
      assert f != "infra_env" ==> FieldIn(host - {"infra_env"}, f) == FieldIn(host, f);
    }
  }

  lemma JoinOfRecord(c: Codec, host: Record, infraEnvs: seq<Record>, after: Json, entries: seq<Json>)
    requires UniqueStringIds(infraEnvs) && |entries| == |infraEnvs|
    requires forall k :: 0 <= k < |infraEnvs| ==> entries[k] == FinalInfraEnv(c, Obj(infraEnvs[k]))
    requires Get(after, ["infra_env"])
          == Lift(e => FinalInfraEnv(c, e), FieldIn(Embedded(host, infraEnvs), "infra_env"))
    ensures IsJoined(c, host, infraEnvs, after, entries)
  {
    forall k | 0 <= k < |infraEnvs| && RefersTo(host, infraEnvs[k])
      ensures Get(after, ["infra_env"]) == Some(entries[k])
    {
      EmbeddedIsTheMatch(host, infraEnvs, k);
    }
    if forall k :: 0 <= k < |infraEnvs| ==> !RefersTo(host, infraEnvs[k]) {
      forall k | 0 <= k < |infraEnvs| && "infra_env_id" in host
        ensures host["infra_env_id"] != infraEnvs[k]["id"]
      {
        assert !RefersTo(host, infraEnvs[k]);
      }
      UnreferredIsUnchanged(host, infraEnvs);
    }
  }

  lemma HostsOfJoined(c: Codec, setup: Setup, base: Json, joined: seq<Record>, out: Json, summary: HostsSummary.Summary)
    requires c.Lawful() && setup.Valid() && Shaped(base) && Enriched(c, setup, base, out, summary)
    requires Get(base, HOSTS) == Some(if joined == [] then Null else Arr(RecordsJson(joined)))
    ensures |ListAt(out, HOSTS)| == |joined|
    ensures forall i: nat :: i < |joined| ==> HostEnriched(c, setup, i, Obj(joined[i]), ListAt(out, HOSTS)[i])
  {
    if joined == [] {
      EnrichedGet(c, setup, base, out, summary, HOSTS);
      ListedShape(c, setup, base);
      EditedForm(c, setup, base);
    } else {
      EnrichedHosts(c, setup, base, out, summary, RecordsJson(joined));
    }
  }

  lemma HostsOfRecords(c: Codec, setup: Setup, rest: Record, cluster: Record, hosts: seq<Record>,
      infraEnvs: seq<Record>, out: Json, summary: HostsSummary.Summary)
    requires c.Lawful() && setup.Valid() && UniqueStringIds(infraEnvs)
    requires Enriched(c, setup, BaseEvent(rest, cluster, JoinedHosts(hosts, infraEnvs), infraEnvs), out, summary)
    ensures AreHostsOf(c, setup, hosts, infraEnvs, out)
    ensures EventHosts(out) == ListAt(out, HOSTS)
  {
    var joined := JoinedHosts(hosts, infraEnvs);
    var base := BaseEvent(rest, cluster, joined, infraEnvs);
    BaseEventIsShaped(rest, cluster, joined, infraEnvs);
    InfraEnvsOfRecords(c, setup, rest, cluster, joined, infraEnvs, out, summary);
    HostsOfJoined(c, setup, base, joined, out, summary);
    ObjectsAreKept(ListAt(out, HOSTS));
    if hosts != [] {
      var after := ListAt(out, HOSTS);
      forall i: nat | i < |hosts|
        ensures IsHostOf(c, setup, i, hosts[i], after[i])
        ensures IsJoined(c, hosts[i], infraEnvs, after[i], ListAt(out, INFRA_ENVS))
      {
        EmbeddedKeeps(hosts[i], infraEnvs);
        assert joined[i] == Embedded(hosts[i], infraEnvs);
        HostOfRecord(c, setup, i, hosts[i], Embedded(hosts[i], infraEnvs), after[i]);
        JoinOfRecord(c, hosts[i], infraEnvs, after[i], ListAt(out, INFRA_ENVS));
      }
    }
  }

  /** Every field of an enriched event comes from the records it was made of:
      none is lost, and none changes but as said. */
  lemma RecordsAreEnriched(c: Codec, setup: Setup, rest: Record, cluster: Record, hosts: seq<Record>,
      infraEnvs: seq<Record>, out: Json, summary: HostsSummary.Summary)
    requires c.Lawful() && setup.Valid() && UniqueStringIds(infraEnvs)
    requires Enriched(c, setup, BaseEvent(rest, cluster, JoinedHosts(hosts, infraEnvs), infraEnvs), out, summary)
    ensures IsEventOf(c, setup, rest, cluster, hosts, infraEnvs, out)
    ensures EventHosts(out) == ListAt(out, ["cluster", "hosts"])
  {
    var joined := JoinedHosts(hosts, infraEnvs);
    ClusterOfRecord(c, setup, rest, cluster, joined, infraEnvs, out, summary);
    InfraEnvsOfRecords(c, setup, rest, cluster, joined, infraEnvs, out, summary);
    HostsOfRecords(c, setup, rest, cluster, hosts, infraEnvs, out, summary);
    BaseEventIsShaped(rest, cluster, joined, infraEnvs);
    forall f | f !in {"cluster", "infra_envs", "host_summary"}
      ensures Get(out, [f]) == FieldIn(rest, f)
    {
      BaseEventFields(rest, cluster, joined, infraEnvs, f);
      EnrichedTopLevel(c, setup, BaseEvent(rest, cluster, joined, infraEnvs), out, summary, f);
    }
  }
}
