/** What the store invariant means for the join: the infra-envs read for a
    cluster have unique string ids, so the join never panics and does not
    depend on the order in which Redis returns the fields. */
module EnrichmentInputs {
  import opened JsonValues
  import opened Enumerations
  import opened SnapshotRepository
  import opened Projection
  import opened EnrichedRecords
  import opened Pipeline
  import EventEnricher

  lemma InfraEnvFieldIsPlaced(keys: Keyspace, clusterID: string, now: int, f: string)
    requires StoreInvariant(keys) && f in Fields(keys, InfraEnvsHKey(clusterID), now)
    ensures var payload := Fields(keys, InfraEnvsHKey(clusterID), now)[f];
            && payload.Obj? && ValueFromPayload("id", payload) == Some(f)
            && ValueFromPayload("cluster_id", payload) == Some(clusterID)
  {
    AllKeysAreSeparate();
    assert WellPlaced(Cell(InfraEnvsHKey(clusterID), f), keys[InfraEnvsHKey(clusterID)].fields[f]);
  }

  /** The infra-envs read for a cluster are objects of that cluster with
      pairwise different string ids, in every order and after every failure. */
  lemma InfraEnvsAreUnique(keys: Keyspace, clusterID: string, now: int, infraEnvs: seq<Record>, ok: bool, readOk: bool)
    requires StoreInvariant(keys)
    requires IsReadOf(infraEnvs, ok, Fields(keys, InfraEnvsHKey(clusterID), now), readOk)
    ensures ok <==> readOk
    ensures EventEnricher.UniqueStringIds(infraEnvs)
    ensures forall e: Record :: e in infraEnvs ==> "cluster_id" in e && e["cluster_id"] == Str(clusterID)
  {
    var fields := Fields(keys, InfraEnvsHKey(clusterID), now);
    forall f | f in fields
      ensures fields[f].Obj? && ValueFromPayload("id", fields[f]) == Some(f)
      ensures ValueFromPayload("cluster_id", fields[f]) == Some(clusterID)
    {
      InfraEnvFieldIsPlaced(keys, clusterID, now, f);
    }
    assert forall f :: f in fields ==> Decodable(fields[f]);
    var fs: seq<string> :| IsPartOf(fs, fields) && infraEnvs == Image(RecordAt(fields), fs);
    PlacedRecordsAreUnique(fields, fs, clusterID);
  }

  lemma PlacedRecordsAreUnique(fields: map<string, Json>, fs: seq<string>, clusterID: string)
    requires IsPartOf(fs, fields)
    requires forall f :: f in fields ==>
               fields[f].Obj? && ValueFromPayload("id", fields[f]) == Some(f) &&
                   ValueFromPayload("cluster_id", fields[f]) == Some(clusterID)
    ensures EventEnricher.UniqueStringIds(Image(RecordAt(fields), fs))
    ensures forall e: Record :: e in Image(RecordAt(fields), fs) ==>
              "cluster_id" in e && e["cluster_id"] == Str(clusterID)
  {
    var records := Image(RecordAt(fields), fs);
    forall k | 0 <= k < |records|
      ensures "id" in records[k] && records[k]["id"] == Str(fs[k])
      ensures "cluster_id" in records[k] && records[k]["cluster_id"] == Str(clusterID)
    {
      assert fs[k] in fields;
    }
  }

  /** Two complete reads of one hash give the same records up to order. */
  lemma ReadsPermuted(fields: map<string, Json>, records: seq<Record>, records': seq<Record>)
    requires IsReadOf(records, true, fields, true) && IsReadOf(records', true, fields, true)
    ensures multiset(records) == multiset(records')
  {
    var fs: seq<string> :| IsPartOf(fs, fields) && records == Image(RecordAt(fields), fs) &&
        Enumerates(fs, fields.Keys);
    var fs': seq<string> :| IsPartOf(fs', fields) && records' == Image(RecordAt(fields), fs') &&
        Enumerates(fs', fields.Keys);
    EnumerationAsMultiset(fs, fields.Keys);
    EnumerationAsMultiset(fs', fields.Keys);
    ImagePermuted(RecordAt(fields), fs, fs');
  }

  /** In every store reachable by processing messages, whatever order Redis
      returns hosts and infra-envs in, the join does not panic and yields the
      same hosts up to order. */
  lemma JoinIsDeterministic(keys: Keyspace, clusterID: string, now: int,
      hosts: seq<Record>, infraEnvs: seq<Record>, hosts': seq<Record>, infraEnvs': seq<Record>)
    requires StoreInvariant(keys)
    requires IsReadOf(hosts, true, Fields(keys, HostsHKey(clusterID), now), true)
    requires IsReadOf(hosts', true, Fields(keys, HostsHKey(clusterID), now), true)
    requires IsReadOf(infraEnvs, true, Fields(keys, InfraEnvsHKey(clusterID), now), true)
    requires IsReadOf(infraEnvs', true, Fields(keys, InfraEnvsHKey(clusterID), now), true)
    ensures forall h, e :: h in hosts && e in infraEnvs ==> !EventEnricher.IdsAreUncomparable(h, e)
    ensures multiset(EventEnricher.JoinedHosts(hosts, infraEnvs))
            == multiset(EventEnricher.JoinedHosts(hosts', infraEnvs'))
  {
    InfraEnvsAreUnique(keys, clusterID, now, infraEnvs, true, true);
    InfraEnvsAreUnique(keys, clusterID, now, infraEnvs', true, true);
    ReadsPermuted(Fields(keys, HostsHKey(clusterID), now), hosts, hosts');
    ReadsPermuted(Fields(keys, InfraEnvsHKey(clusterID), now), infraEnvs, infraEnvs');
    EventEnricher.StringIdsNeverPanic(hosts, infraEnvs);
    EventEnricher.JoinPermuted(hosts, infraEnvs, hosts', infraEnvs');
  }

  /** From store to event, as in `ProcessClusterEvent`: whatever a reachable
      store holds and whichever reads fail, nothing panics, and every field of
      the event is accounted for by the records read: those of the event, of
      the stored cluster, of its hosts and of its infra-envs. */
  method EnrichFromStore(c: Codec, setup: Setup, keys: Keyspace, clusterID: string, env: Env, rest: Record)
    returns (cluster: Record, hosts: seq<Record>, infraEnvs: seq<Record>, out: Json)
    requires StoreInvariant(keys) && c.Lawful() && setup.Valid()
    ensures var stored := Fields(keys, ClustersHKey(), env.now);
            if env.clusterReadOk && clusterID in stored then Obj(cluster) == stored[clusterID] else cluster == map[]
    ensures exists ok :: IsReadOf(hosts, ok, Fields(keys, HostsHKey(clusterID), env.now), env.hostsReadOk)
    ensures exists ok :: IsReadOf(infraEnvs, ok, Fields(keys, InfraEnvsHKey(clusterID), env.now), env.infraEnvsReadOk)
    ensures IsEventOf(c, setup, rest, cluster, hosts, infraEnvs, out)
    ensures EventEnricher.HoldsSummary(c, out, ListAt(out, ["cluster", "hosts"]))
  {
    cluster, hosts, infraEnvs := ReadRecords(keys, clusterID, env);
    out := EnrichRecords(c, setup, rest, cluster, hosts, infraEnvs);
  }

  method ReadRecords(keys: Keyspace, clusterID: string, env: Env)
    returns (cluster: Record, hosts: seq<Record>, infraEnvs: seq<Record>)
    requires StoreInvariant(keys)
    ensures var stored := Fields(keys, ClustersHKey(), env.now);
            if env.clusterReadOk && clusterID in stored then Obj(cluster) == stored[clusterID] else cluster == map[]
    ensures exists ok :: IsReadOf(hosts, ok, Fields(keys, HostsHKey(clusterID), env.now), env.hostsReadOk)
    ensures exists ok :: IsReadOf(infraEnvs, ok, Fields(keys, InfraEnvsHKey(clusterID), env.now), env.infraEnvsReadOk)
    ensures EventEnricher.UniqueStringIds(infraEnvs)
  {
    var hostsOk, infraEnvsOk;
    var decoded := ReadCluster(Fields(keys, ClustersHKey(), env.now), clusterID, env.clusterReadOk);
    hosts, hostsOk := ReadAll(Fields(keys, HostsHKey(clusterID), env.now), env.hostsReadOk);
    infraEnvs, infraEnvsOk := ReadAll(Fields(keys, InfraEnvsHKey(clusterID), env.now), env.infraEnvsReadOk);
    InfraEnvsAreUnique(keys, clusterID, env.now, infraEnvs, infraEnvsOk, env.infraEnvsReadOk);
    StoredPayloadsAreObjects(keys, ClustersHKey(), env.now);
    cluster := decoded.value;
  }

  method EnrichRecords(c: Codec, setup: Setup, rest: Record, cluster: Record, hosts: seq<Record>,
      infraEnvs: seq<Record>)
    returns (out: Json)
    requires c.Lawful() && setup.Valid() && EventEnricher.UniqueStringIds(infraEnvs)
    ensures IsEventOf(c, setup, rest, cluster, hosts, infraEnvs, out)
    ensures EventEnricher.HoldsSummary(c, out, ListAt(out, ["cluster", "hosts"]))
  {
    var summary, panicked;
    var a := new Record[|hosts|](i requires 0 <= i < |hosts| => hosts[i]);
    assert a[..] == hosts;
    out, summary, panicked := EventEnricher.GetEnrichedEvent(c, setup, rest, Some(cluster), a, infraEnvs);
    EventEnricher.StringIdsNeverPanic(hosts, infraEnvs);
    RecordsAreEnriched(c, setup, rest, cluster, hosts, infraEnvs, out, summary);
  }
}
