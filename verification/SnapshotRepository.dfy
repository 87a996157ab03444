/** The snapshot store: Redis hashes under one key for all clusters and one key
    per cluster for its hosts and its infra-envs, with one deadline per key. */
module SnapshotRepository {
  import opened JsonValues
  import opened Enumerations

  type Record = map<string, Json>

  /** A Redis hash. Without a deadline it never expires. */
  datatype Hash = Hash(fields: map<string, Json>, deadline: Option<int>)

  type Keyspace = map<string, Hash>

  datatype Cell = Cell(key: string, field: string)

  function ClustersHKey(): string { "clusters" }

  function HostsHKey(clusterID: string): string { "hosts_" + clusterID }

  function InfraEnvsHKey(clusterID: string): string { "infraenvs_" + clusterID }

  predicate Live(h: Hash, now: int) {
    h.deadline.Some? ==> now < h.deadline.value
  }

  /** `HGETALL`: the fields of a key, unless it has expired. */
  function Fields(keys: Keyspace, key: string, now: int): map<string, Json> {
    if key in keys && Live(keys[key], now) then keys[key].fields else map[]
  }

  /** `HSET` followed by `EXPIRE`. Either can fail; if the first does, the
      second is not sent. */
  function AfterHSet(keys: Keyspace, w: Write, expiration: int): Keyspace {
    if !w.hsetOk then keys
    else
      var live := w.cell.key in keys && Live(keys[w.cell.key], w.now);
      var before := if live then keys[w.cell.key] else Hash(map[], None);
      keys[w.cell.key := Hash(before.fields[w.cell.field := w.payload],
                              if w.expireOk then Some(w.now + expiration) else before.deadline)]
  }

  /** One call of `hset`: what is written, when, and which commands succeed. */
  datatype Write = Write(cell: Cell, payload: Json, now: int, hsetOk: bool, expireOk: bool)

  /** The key functions are injective and never yield the same key, so the
      flat keyspace holds three independent maps. */
  lemma KeysAreSeparate(c: string, d: string)
    ensures ClustersHKey() == "clusters" && HostsHKey(c) == "hosts_" + c && InfraEnvsHKey(c) == "infraenvs_" + c
    ensures HostsHKey(c) == HostsHKey(d) ==> c == d
    ensures InfraEnvsHKey(c) == InfraEnvsHKey(d) ==> c == d
    ensures HostsHKey(c) != ClustersHKey() && InfraEnvsHKey(c) != ClustersHKey()
    ensures HostsHKey(c) != InfraEnvsHKey(d)
  {
    assert HostsHKey(c)[6..] == c && HostsHKey(d)[6..] == d;
    assert InfraEnvsHKey(c)[10..] == c && InfraEnvsHKey(d)[10..] == d;
    assert HostsHKey(c)[0] == 'h' && InfraEnvsHKey(d)[0] == 'i' && InfraEnvsHKey(c)[0] == 'i' &&
           ClustersHKey()[0] == 'c';
  }

  lemma AllKeysAreSeparate()
    ensures forall c, d :: HostsHKey(c) == HostsHKey(d) ==> c == d
    ensures forall c, d :: InfraEnvsHKey(c) == InfraEnvsHKey(d) ==> c == d
    ensures forall c :: HostsHKey(c) != ClustersHKey() && InfraEnvsHKey(c) != ClustersHKey()
    ensures forall c, d :: HostsHKey(c) != InfraEnvsHKey(d)
  {
    forall c, d
      ensures HostsHKey(c) == HostsHKey(d) ==> c == d
      ensures InfraEnvsHKey(c) == InfraEnvsHKey(d) ==> c == d
      ensures HostsHKey(c) != InfraEnvsHKey(d)
    {
      KeysAreSeparate(c, d);
    }
    forall c
      ensures HostsHKey(c) != ClustersHKey() && InfraEnvsHKey(c) != ClustersHKey()
    {
      KeysAreSeparate(c, c);
    }
  }

  // -------------------------------------------------------------- Repository

  class SnapshotRepository {
    const expiration: int
    var keys: Keyspace

    constructor (expiration: int)
      ensures this.expiration == expiration && keys == map[]
    {
      this.expiration := expiration;
      this.keys := map[];
    }

    function Clusters(now: int): map<string, Json>
      reads this
    {
      Fields(keys, ClustersHKey(), now)
    }

    function Hosts(clusterID: string, now: int): map<string, Json>
      reads this
    {
      Fields(keys, HostsHKey(clusterID), now)
    }

    function InfraEnvs(clusterID: string, now: int): map<string, Json>
      reads this
    {
      Fields(keys, InfraEnvsHKey(clusterID), now)
    }

    method HSet(w: Write) returns (ok: bool)
      modifies this`keys
      ensures keys == AfterHSet(old(keys), w, expiration)
      ensures ok <==> w.hsetOk && w.expireOk
      ensures !w.hsetOk ==> keys == old(keys)
      ensures w.hsetOk ==> keys.Keys == old(keys).Keys + {w.cell.key} && keys - {w.cell.key} == old(keys) - {w.cell.key}
      ensures w.hsetOk ==> keys[w.cell.key].fields == old(Fields(keys, w.cell.key, w.now))[w.cell.field := w.payload]
      ensures w.hsetOk && w.expireOk ==> keys[w.cell.key].deadline == Some(w.now + expiration)
      ensures w.hsetOk && !w.expireOk ==>
                keys[w.cell.key].deadline == if w.cell.key in old(keys) && Live(old(keys)[w.cell.key], w.now)
                then old(keys)[w.cell.key].deadline else None
    {
      if !w.hsetOk {
        return false;
      }
      var hash := if w.cell.key in keys && Live(keys[w.cell.key], w.now) then keys[w.cell.key] else Hash(map[], None);
      hash := hash.(fields := hash.fields[w.cell.field := w.payload]);
      keys := keys[w.cell.key := hash];
      if !w.expireOk {
        return false;
      }
      keys := keys[w.cell.key := hash.(deadline := Some(w.now + expiration))];
      ok := true;
    }

    /** `SetCluster`: the cluster is readable at once, and neither the hosts
        nor the infra-envs of any cluster are affected, now or later. */
    method SetCluster(clusterID: string, payload: Json, now: int, hsetOk: bool, expireOk: bool) returns (ok: bool)
      modifies this`keys
      ensures keys == AfterHSet(old(keys), Write(Cell(ClustersHKey(), clusterID), payload, now, hsetOk, expireOk),
              expiration)
      ensures ok <==> hsetOk && expireOk
      ensures expiration > 0 ==> Clusters(now) == if hsetOk then old(Clusters(now))[clusterID := payload]
              else old(Clusters(now))
      ensures forall c, t :: Hosts(c, t) == old(Hosts(c, t)) && InfraEnvs(c, t) == old(InfraEnvs(c, t))
    {
      AllKeysAreSeparate();
      ok := HSet(Write(Cell(ClustersHKey(), clusterID), payload, now, hsetOk, expireOk));
    }

    method SetHost(clusterID: string, hostID: string, payload: Json, now: int, hsetOk: bool, expireOk: bool)
        returns (ok: bool)
      modifies this`keys
      ensures keys == AfterHSet(old(keys), Write(Cell(HostsHKey(clusterID), hostID), payload, now, hsetOk, expireOk),
              expiration)
      ensures ok <==> hsetOk && expireOk
      ensures expiration > 0 ==> Hosts(clusterID, now) == if hsetOk then old(Hosts(clusterID, now))[hostID := payload]
              else old(Hosts(clusterID, now))
      ensures forall t :: Clusters(t) == old(Clusters(t))
      ensures forall c, t :: InfraEnvs(c, t) == old(InfraEnvs(c, t))
      ensures forall c, t :: c != clusterID ==> Hosts(c, t) == old(Hosts(c, t))
    {
      AllKeysAreSeparate();
      ok := HSet(Write(Cell(HostsHKey(clusterID), hostID), payload, now, hsetOk, expireOk));
    }

    method SetInfraEnv(clusterID: string, infraEnvID: string, payload: Json, now: int, hsetOk: bool, expireOk: bool)
        returns (ok: bool)
      modifies this`keys
      ensures keys == AfterHSet(old(keys), Write(Cell(InfraEnvsHKey(clusterID), infraEnvID), payload, now, hsetOk,
              expireOk), expiration)
      ensures ok <==> hsetOk && expireOk
      ensures expiration > 0 ==> InfraEnvs(clusterID, now) == if hsetOk
              then old(InfraEnvs(clusterID, now))[infraEnvID := payload] else old(InfraEnvs(clusterID, now))
      ensures forall t :: Clusters(t) == old(Clusters(t))
      ensures forall c, t :: Hosts(c, t) == old(Hosts(c, t))
      ensures forall c, t :: c != clusterID ==> InfraEnvs(c, t) == old(InfraEnvs(c, t))
    {
      AllKeysAreSeparate();
      ok := HSet(Write(Cell(InfraEnvsHKey(clusterID), infraEnvID), payload, now, hsetOk, expireOk));
    }

    /** `GetCluster`: a missing cluster, or a failing read, is an empty one. */
    method GetCluster(clusterID: string, now: int, readOk: bool) returns (cluster: Option<Record>, ok: bool)
      ensures !readOk || clusterID !in Clusters(now) ==> ok && cluster == Some(map[])
      ensures readOk && clusterID in Clusters(now) ==>
                && (ok <==> Clusters(now)[clusterID].Obj? || Clusters(now)[clusterID].Null?)
                && (Clusters(now)[clusterID].Obj? ==> cluster == Some(Clusters(now)[clusterID].fields))
                && (Clusters(now)[clusterID].Null? ==> cluster == None)
                && (!Clusters(now)[clusterID].Obj? && !Clusters(now)[clusterID].Null? ==> cluster == Some(map[]))
    {
      if !readOk || clusterID !in Clusters(now) {
        return Some(map[]), true;
      }
      var payload := Clusters(now)[clusterID];
      return DecodedMap(payload), payload.Obj? || payload.Null?;
    }

    method GetHosts(clusterID: string, now: int, readOk: bool) returns (hosts: seq<Record>, ok: bool)
      ensures IsReadOf(hosts, ok, Hosts(clusterID, now), readOk)
    {
      hosts, ok := ReadAll(Hosts(clusterID, now), readOk);
    }

    method GetInfraEnvs(clusterID: string, now: int, readOk: bool) returns (infraEnvs: seq<Record>, ok: bool)
      ensures IsReadOf(infraEnvs, ok, InfraEnvs(clusterID, now), readOk)
    {
      infraEnvs, ok := ReadAll(InfraEnvs(clusterID, now), readOk);
    }
  }

  /** Decoding into a Go map: null makes it nil without an error, anything that
      is no object leaves it empty with one. */
  function DecodedMap(payload: Json): Option<Record> {
    match payload
    case Obj(fields) => Some(fields)
    case Null => None
    case _ => Some(map[])
  }

  /** The same where nil is read as the empty map. Nothing but objects is
      decoded in a reachable store: the payloads name their own ids. */
  function RecordOf(payload: Json): Record {
    if payload.Obj? then payload.fields else map[]
  }

  predicate Decodable(payload: Json) { payload.Obj? || payload.Null? }

  /** The records are those of some of the fields, each once, in an arbitrary
      order; of all fields if there was no error. A failing read gives none,
      and decoding stops at a payload that is neither object nor null. */
  ghost predicate IsReadOf(records: seq<Record>, ok: bool, fields: map<string, Json>, readOk: bool) {
    && (!readOk ==> !ok && records == [])
    && (readOk ==> (ok <==> forall f :: f in fields ==> Decodable(fields[f])))
    && exists fs: seq<string> ::
         && IsPartOf(fs, fields)
         && records == Image(RecordAt(fields), fs)
         && (ok ==> Enumerates(fs, fields.Keys))
  }

  function RecordAt(fields: map<string, Json>): string -> Record {
    f => RecordOf(if f in fields then fields[f] else Null)
  }

  ghost predicate IsPartOf(fs: seq<string>, fields: map<string, Json>) {
    && (forall f :: f in fs ==> f in fields)
    && (forall i, j :: 0 <= i < j < |fs| ==> fs[i] != fs[j])
  }

  /** If nothing but objects is stored, a working read gives every one of them
      once, and nothing else. */
  lemma ObjectsAreRead(records: seq<Record>, ok: bool, fields: map<string, Json>)
    requires IsReadOf(records, ok, fields, true)
    requires forall f :: f in fields ==> fields[f].Obj?
    ensures ok
    ensures exists fs: seq<string> ::
              && (forall f :: f in fs <==> f in fields)
              && (forall i, j :: 0 <= i < j < |fs| ==> fs[i] != fs[j])
              && |records| == |fs|
              && forall i :: 0 <= i < |fs| ==> Obj(records[i]) == fields[fs[i]]
  {
    assert forall f :: f in fields ==> Decodable(fields[f]);
    var fs: seq<string> :| IsPartOf(fs, fields) && records == Image(RecordAt(fields), fs) &&
        Enumerates(fs, fields.Keys);
    forall f ensures f in fs <==> f in fields { assert f in fs <==> f in fields.Keys; }
    forall i | 0 <= i < |fs|
      ensures Obj(records[i]) == fields[fs[i]]
    {
      assert fs[i] in fields;
    }
  }

  /** The loops of `GetHosts` and `GetInfraEnvs`. */
  method ReadAll(fields: map<string, Json>, readOk: bool) returns (records: seq<Record>, ok: bool)
    ensures IsReadOf(records, ok, fields, readOk)
  {
    records := [];
    ghost var fs: seq<string> := [];
    if !readOk {
      assert records == Image(RecordAt(fields), fs);
      return records, false;
    }
    var remaining := fields.Keys;
    while remaining != {}
      invariant remaining <= fields.Keys
      invariant records == Image(RecordAt(fields), fs)
      invariant forall f :: f in fs <==> f in fields.Keys && f !in remaining
      invariant forall i, j :: 0 <= i < j < |fs| ==> fs[i] != fs[j]
      invariant forall f :: f in fs ==> Decodable(fields[f])
      decreases remaining
    {
      var f :| f in remaining;
      if !(fields[f].Obj? || fields[f].Null?) {
        assert !Decodable(fields[f]);
        assert IsPartOf(fs, fields);
        return records, false;
      }
      records := records + [RecordOf(fields[f])];
      fs := fs + [f];
      remaining := remaining - {f};
    }
    assert Enumerates(fs, fields.Keys);
    assert IsPartOf(fs, fields);
    forall f | f in fields ensures Decodable(fields[f]) { assert f in fields.Keys; }
    ok := true;
  }
}
