/** What the unpacking and listing passes make of every field of the cluster
    and of its hosts, for all tables of the kind, and what the default tables
    say about it. */
module ListingEffects {
  import opened JsonValues
  import opened Enumerations
  import opened JsonEdit
  import opened JsonFrames
  import opened MapToList
  import opened DefaultFields
  import opened Pipeline

  /** A missing value stays missing. */
  function Lift(step: Json -> Json, v: Option<Json>): Option<Json> {
    match v
    case None => None
    case Some(x) => Some(step(x))
  }

  ghost predicate Leaves<E(!new)>(op: (E, Json) -> Json, e: E, keys: seq<string>) {
    forall d: Json :: Get(op(e, d), keys) == Get(d, keys)
  }

  ghost predicate Hits<E(!new)>(op: (E, Json) -> Json, e: E, keys: seq<string>, step: Json -> Json) {
    forall d: Json :: Get(op(e, d), keys) == Lift(step, Get(d, keys))
  }

  /** A pass in which at most one step is about a location takes that step
      there and no other. */
  lemma {:induction false} PassEffect<E(!new)>(op: (E, Json) -> Json, doc: Json, es: seq<E>, hit: E,
      keys: seq<string>, step: Json -> Json)
    requires forall i, j :: 0 <= i < j < |es| ==> es[i] != es[j]
    requires Hits(op, hit, keys, step)
    requires forall e :: e in es && e != hit ==> Leaves(op, e, keys)
    ensures Get(Fold(op, doc, es), keys) == if hit in es then Lift(step, Get(doc, keys)) else Get(doc, keys)
    decreases |es|
  {
    if es == [] {
    } else {
      PassEffect(op, op(es[0], doc), es[1..], hit, keys, step);
      assert es == [es[0]] + es[1..];
      if es[0] != hit { assert Leaves(op, es[0], keys); }
    }
  }

  /** What one pass makes of a value: `path` is the path of its field. */
  function PassValue(c: Codec, fn: Transformer, paths: seq<Path>, path: Path, i: nat, v: Json): Json {
    if path in paths then StepValue(c, fn, Site(path, i), v) else v
  }

  lemma HostPass(c: Codec, fn: Transformer, i: nat, h: Json, paths: seq<Path>, f: string)
    requires ListingTable(paths)
    ensures Get(Fold(TransformElement(c, fn, HOSTS)(i), h, paths), [f])
         == Lift(v => PassValue(c, fn, paths, Each(HOSTS, [f]), i, v), Get(h, [f]))
  {
    var hit, op := Each(HOSTS, [f]), TransformElement(c, fn, HOSTS)(i);
    var step := v => StepValue(c, fn, Site(hit, i), v);
    forall d: Json ensures Get(op(hit, d), [f]) == Lift(step, Get(d, [f])) { GetUpdated(d, [f], step); }
    forall p | p in paths && p != hit
      ensures Leaves(op, p, [f])
    {
      forall d: Json ensures Get(op(p, d), [f]) == Get(d, [f]) {
        if p.Each? && p.parent == HOSTS {
          assert p.child == [p.child[0]];
          GetElsewhere(d, p.child, [f], v => StepValue(c, fn, Site(p, i), v));
        }
      }
    }
    PassEffect(op, h, paths, hit, [f], step);
  }

  lemma ClusterPass(c: Codec, fn: Transformer, doc: Json, paths: seq<Path>, f: string)
    requires ListingTable(paths) && f != "hosts"
    ensures Get(TransformAll(c, fn, doc, paths), ["cluster", f])
         == Lift(v => PassValue(c, fn, paths, Plain(["cluster", f]), 0, v), Get(doc, ["cluster", f]))
  {
    var keys: Keys := ["cluster", f];
    var hit, op := Plain(keys), TransformOp(c, fn);
    var step := v => StepValue(c, fn, Site(hit, 0), v);
    forall d: Json ensures Get(op(hit, d), keys) == Lift(step, Get(d, keys)) { GetUpdated(d, keys, step); }
    forall p | p in paths && p != hit
      ensures Leaves(op, p, keys)
    {
      ClusterPathElsewhere(p, f);
      LeavesDiverging(c, fn, p, keys);
    }
    PassEffect(op, doc, paths, hit, keys, step);
  }

  lemma ClusterPathElsewhere(p: Path, f: string)
    requires ListingPath(p) && p != Plain(["cluster", f]) && f != "hosts"
    ensures p.Plain? ==> Diverge(p.keys, ["cluster", f])
    ensures p.Each? ==> Diverge(p.parent, ["cluster", f])
  {
    assert ["cluster", f][1..] == [f];
    if p.Plain? {
      assert p.keys == ["cluster", p.keys[1]] && p.keys[1..] == [p.keys[1]];
    } else {
      assert HOSTS[1..] == ["hosts"];
    }
  }

  lemma LeavesDiverging(c: Codec, fn: Transformer, p: Path, keys: seq<string>)
    requires p.Plain? ==> Diverge(p.keys, keys)
    requires p.Each? ==> Diverge(p.parent, keys)
    ensures Leaves(TransformOp(c, fn), p, keys)
  {
    forall d: Json ensures Get(TransformPath(c, fn, p, d), keys) == Get(d, keys) {
      match p
      case Plain(other) => GetElsewhere(d, other, keys, v => StepValue(c, fn, Site(p, 0), v));
      case Each(parent, _) => GetElsewhere(d, parent, keys, v => StepEach(c, fn, p, v));
      case Unsupported =>
    }
  }

  lemma {:induction false} InfraEnvsPass(c: Codec, fn: Transformer, doc: Json, paths: seq<Path>)
    requires ListingTable(paths)
    ensures Get(TransformAll(c, fn, doc, paths), INFRA_ENVS) == Get(doc, INFRA_ENVS)
    decreases |paths|
  {
    if paths == [] {
    } else {
      var p := paths[0];
      assert ListingPath(p) && |"cluster"| == 7 && |"infra_envs"| == 10;
      LeavesDiverging(c, fn, p, INFRA_ENVS);
      assert Leaves(TransformOp(c, fn), p, INFRA_ENVS);
      InfraEnvsPass(c, fn, TransformPath(c, fn, p, doc), paths[1..]);
    }
  }

  // --------------------------------------------------------- All three passes

  /** What listing makes of a value, `path` being the path of its field. */
  function ListedValue(c: Codec, setup: Setup, path: Path, i: nat, v: Json): Json {
    var t := setup.tables;
    var unpacked := PassValue(c, Unpacker(), t.unpack, path, i, v);
    var dropped := PassValue(c, DropKeyLister(setup.dropKey), t.dropKey, path, i, unpacked);
    PassValue(c, KeyedLister(setup.keepKey), t.keepKey, path, i, dropped)
  }

  /** The three passes over one host. */
  function ListedHost(c: Codec, setup: Setup, i: nat, h: Json): Json {
    var t := setup.tables;
    var unpacked := Fold(TransformElement(c, Unpacker(), HOSTS)(i), h, t.unpack);
    var dropped := Fold(TransformElement(c, DropKeyLister(setup.dropKey), HOSTS)(i), unpacked, t.dropKey);
    Fold(TransformElement(c, KeyedLister(setup.keepKey), HOSTS)(i), dropped, t.keepKey)
  }

  /** Every field of a listed host, whether it is in the tables or not. */
  lemma ListedHostField(c: Codec, setup: Setup, i: nat, h: Json, f: string)
    requires setup.tables.Valid()
    ensures Get(ListedHost(c, setup, i, h), [f])
            == Lift(v => ListedValue(c, setup, Each(HOSTS, [f]), i, v), Get(h, [f]))
  {
    var t := setup.tables;
    var unpacked := Fold(TransformElement(c, Unpacker(), HOSTS)(i), h, t.unpack);
    var dropped := Fold(TransformElement(c, DropKeyLister(setup.dropKey), HOSTS)(i), unpacked, t.dropKey);
    HostPass(c, Unpacker(), i, h, t.unpack, f);
    HostPass(c, DropKeyLister(setup.dropKey), i, unpacked, t.dropKey, f);
    HostPass(c, KeyedLister(setup.keepKey), i, dropped, t.keepKey, f);
  }

  /** Listing rewrites the hosts one by one, in place. */
  lemma ListedHosts(c: Codec, setup: Setup, doc: Json, hs: seq<Json>)
    requires c.Lawful() && setup.tables.Valid() && Shaped(doc) && Get(doc, HOSTS) == Some(Arr(hs))
    ensures var listed := Get(Listed(c, setup, doc), HOSTS);
            && listed.Some? && listed.value.Arr? && |listed.value.elems| == |hs|
            && forall i: nat :: i < |hs| ==> listed.value.elems[i] == ListedHost(c, setup, i, hs[i])
  {
    var t := setup.tables;
    ListingTableEdits(t.unpack);
    ListingTableEdits(t.dropKey);
    ListingTableEdits(t.keepKey);
    var unpacked := TransformAll(c, Unpacker(), doc, t.unpack);
    var dropped := TransformAll(c, DropKeyLister(setup.dropKey), unpacked, t.dropKey);
    TransformPass(c, Unpacker(), doc, t.unpack);
    TransformPass(c, DropKeyLister(setup.dropKey), unpacked, t.dropKey);
    TransformPass(c, KeyedLister(setup.keepKey), dropped, t.keepKey);
  }

  /** Every field of the listed cluster but its hosts. */
  lemma ListedClusterField(c: Codec, setup: Setup, doc: Json, f: string)
    requires setup.tables.Valid() && f != "hosts"
    ensures Get(Listed(c, setup, doc), ["cluster", f])
         == Lift(v => ListedValue(c, setup, Plain(["cluster", f]), 0, v), Get(doc, ["cluster", f]))
  {
    var t := setup.tables;
    var unpacked := TransformAll(c, Unpacker(), doc, t.unpack);
    var dropped := TransformAll(c, DropKeyLister(setup.dropKey), unpacked, t.dropKey);
    ClusterPass(c, Unpacker(), doc, t.unpack, f);
    ClusterPass(c, DropKeyLister(setup.dropKey), unpacked, t.dropKey, f);
    ClusterPass(c, KeyedLister(setup.keepKey), dropped, t.keepKey, f);
  }

  lemma ListedInfraEnvs(c: Codec, setup: Setup, doc: Json)
    requires setup.tables.Valid()
    ensures Get(Listed(c, setup, doc), INFRA_ENVS) == Get(doc, INFRA_ENVS)
  {
    var t := setup.tables;
    var unpacked := TransformAll(c, Unpacker(), doc, t.unpack);
    var dropped := TransformAll(c, DropKeyLister(setup.dropKey), unpacked, t.dropKey);
    InfraEnvsPass(c, Unpacker(), doc, t.unpack);
    InfraEnvsPass(c, DropKeyLister(setup.dropKey), unpacked, t.dropKey);
    InfraEnvsPass(c, KeyedLister(setup.keepKey), dropped, t.keepKey);
  }

  /** A field that the later passes are about is left to them. */
  lemma ReservedIsKept(c: Codec, setup: Setup, path: Path, i: nat, v: Json)
    requires setup.tables.Valid() && !ListingPath(path)
    ensures ListedValue(c, setup, path, i, v) == v
  {
  }

  // ----------------------------------------------------------- Default tables

  /** The value re-read from its own text, unless it is null. */
  function Unpacked(c: Codec, v: Json): Json {
    if v.Null? then v else c.Unpack(v)
  }

  lemma HostFieldsInTables(f: string)
    ensures Each(HOSTS, [f]) !in FieldsMapToListDropKey()
    ensures Each(HOSTS, [f]) in FieldsMapToList() <==> f in {"disks_info", "images_status"}
  {
    var l := FieldsMapToList();
    assert [f][0] == f && l[1] in l && l[2] in l;
  }

  lemma ClusterFieldBecomesList(f: string)
    ensures Plain(["cluster", f]) in FieldsMapToListDropKey() <==> f == "feature_usage"
    ensures Plain(["cluster", f]) in FieldsMapToList() <==> f == "connectivity_majority_groups"
  {
    assert ["cluster", f][1] == f;
    var d, l := FieldsMapToListDropKey(), FieldsMapToList();
    assert d[0] in d && l[0] in l;
  }

  function UnpackedHostFields(): seq<string> {
    ["inventory", "connectivity", "disks_info", "domain_name_resolutions", "free_addresses", "images_status",
     "ntp_sources", "validations_info"]
  }

  lemma UnpackEntry(n: nat)
    requires n < 8
    ensures FieldsToUnpack()[n + 3] == Each(HOSTS, [UnpackedHostFields()[n]])
  {
  }

  function UnpackedClusterFields(): seq<string> {
    ["feature_usage", "validations_info", "connectivity_majority_groups"]
  }

  lemma UnpackClusterEntry(n: nat)
    requires n < 3
    ensures FieldsToUnpack()[n] == Plain(["cluster", UnpackedClusterFields()[n]])
  {
  }

  lemma ClusterFieldIsUnpacked(f: string)
    ensures Plain(["cluster", f]) in FieldsToUnpack() <==> f in UnpackedClusterFields()
  {
    if f in UnpackedClusterFields() {
      var n: nat :| n < |UnpackedClusterFields()| && UnpackedClusterFields()[n] == f;
      UnpackClusterEntry(n);
    }
    if Plain(["cluster", f]) in FieldsToUnpack() {
      var m: nat :| m < |FieldsToUnpack()| && FieldsToUnpack()[m] == Plain(["cluster", f]);
      assert m < 3;
      UnpackClusterEntry(m);
      assert ["cluster", f][1] == ["cluster", UnpackedClusterFields()[m]][1];
    }
  }

  lemma HostFieldIsUnpacked(f: string)
    ensures Each(HOSTS, [f]) in FieldsToUnpack() <==> f in UnpackedHostFields()
  {
    if f in UnpackedHostFields() {
      var n: nat :| n < |UnpackedHostFields()| && UnpackedHostFields()[n] == f;
      UnpackEntry(n);
    }
    if Each(HOSTS, [f]) in FieldsToUnpack() {
      var m: nat :| m < |FieldsToUnpack()| && FieldsToUnpack()[m] == Each(HOSTS, [f]);
      assert m >= 3;
      UnpackEntry(m - 3);
      assert [f][0] == [UnpackedHostFields()[m - 3]][0];
    }
  }

  /** With the default tables eight fields of a host are unpacked, two of which
      become lists of items, and its other fields are kept; ... */
  lemma DefaultHostValue(c: Codec, setup: Setup, f: string, i: nat, v: Json)
    requires setup.tables == DefaultTables()
    ensures ListedValue(c, setup, Each(HOSTS, [f]), i, v) ==
            if f in {"disks_info", "images_status"}
            then StepValue(c, KeyedLister(setup.keepKey), Site(Each(HOSTS, [f]), i), Unpacked(c, v))
            else if f in ["inventory", "connectivity", "disks_info", "domain_name_resolutions", "free_addresses",
                          "images_status", "ntp_sources", "validations_info"]
            then Unpacked(c, v)
            else v
  {
    HostFieldIsUnpacked(f);
    HostFieldsInTables(f);
    assert UnpackedHostFields()[2] == "disks_info" && UnpackedHostFields()[5] == "images_status";
  }

  /** ... the feature usage of the cluster becomes the list of its values, its
      majority groups a list of items, its validations are unpacked, and its
      other fields are kept. */
  lemma DefaultClusterValue(c: Codec, setup: Setup, f: string, v: Json)
    requires setup.tables == DefaultTables()
    ensures var path := Plain(["cluster", f]);
            ListedValue(c, setup, path, 0, v) ==
            if f == "feature_usage" then StepValue(c, DropKeyLister(setup.dropKey), Site(path, 0), Unpacked(c, v))
            else if f == "connectivity_majority_groups"
            then StepValue(c, KeyedLister(setup.keepKey), Site(path, 0), Unpacked(c, v))
            else if f == "validations_info" then Unpacked(c, v)
            else v
  {
    ClusterFieldIsUnpacked(f);
    ClusterFieldBecomesList(f);
  }
}
