/** Extractor and projection together: what the snapshot holds when the events
    of an archive are enriched. */
module ArchiveReplay {
  import opened JsonValues
  import opened Enumerations
  import opened SnapshotRepository
  import opened Projection
  import opened EventExtractor
  import opened Rewind

  /** The stream of an archive's envelopes as the projection reads it. */
  function Messages(es: seq<Envelope>): Log {
    Image((e: Envelope) => Decoded(e.event), es)
  }

  predicate AllNamed(es: seq<Envelope>, name: string) {
    forall e :: e in es ==> e.event.name == name
  }

  lemma {:induction false} FileEventsNamed(eventName: string, clusterIDKey: string, resources: seq<Record>)
    ensures AllNamed(FileEvents(eventName, clusterIDKey, resources), eventName)
    decreases |resources|
  {
    if resources == [] {
    } else {
      FileEventsNamed(eventName, clusterIDKey, resources[1..]);
    }
  }

  lemma {:induction false} TypeEventsNamed(m: EventTypeMatch)
    ensures AllNamed(TypeEvents(m), m.eventName)
    decreases |m.files|
  {
    if m.files == [] {
    } else {
      FileEventsNamed(m.eventName, m.clusterIDKey, m.files[0]);
      TypeEventsNamed(m.(files := m.files[1..]));
    }
  }

  /** What an archive emits before its first event. */
  function States(a: Archive): seq<Envelope> {
    var ms := EventTypesMatches(a);
    TypeEvents(ms[0]) + TypeEvents(ms[1]) + TypeEvents(ms[2])
  }

  function Events(a: Archive): seq<Envelope> {
    TypeEvents(EventTypesMatches(a)[3])
  }

  lemma EmittedInFourParts(a: Archive)
    ensures Emitted(a) == States(a) + Events(a)
  {
    var ms := EventTypesMatches(a);
    FourParts(ms[0], ms[1], ms[2], ms[3]);
  }

  /** All states are emitted before all events. */
  lemma StatesBeforeEvents(a: Archive)
    ensures Emitted(a) == States(a) + Events(a)
    ensures forall e :: e in States(a) ==> IsState(e.event)
    ensures AllNamed(Events(a), CLUSTER_EVENT)
  {
    EmittedInFourParts(a);
    var ms := EventTypesMatches(a);
    TypeEventsNamed(ms[0]);
    TypeEventsNamed(ms[1]);
    TypeEventsNamed(ms[2]);
    TypeEventsNamed(ms[3]);
  }

  lemma EventsComeLate(a: Archive, n: nat)
    requires n < |Emitted(a)| && !IsState(Emitted(a)[n].event)
    ensures |States(a)| <= n
  {
    StatesBeforeEvents(a);
    assert forall k :: 0 <= k < |States(a)| ==> Emitted(a)[k] == States(a)[k] && IsState(Emitted(a)[k].event);
  }

  predicate Marked(event: Event) {
    event.name == CLUSTER_STATE ==>
      event.payload.Obj? && "hosts" !in event.payload.fields
      && "onprem" in event.payload.fields && event.payload.fields["onprem"] == Bool(true)
  }

  /** A cluster state leaves the extractor marked as on-prem, without hosts. */
  lemma {:induction false} ClusterStatesAreMarked(eventName: string, clusterIDKey: string, resources: seq<Record>)
    ensures forall e :: e in FileEvents(eventName, clusterIDKey, resources) ==> Marked(e.event)
    decreases |resources|
  {
    if resources == [] {
    } else {
      ClusterStatesAreMarked(eventName, clusterIDKey, resources[1..]);
    }
  }

  lemma {:induction false} TypeEventsMarked(m: EventTypeMatch)
    ensures forall e :: e in TypeEvents(m) ==> Marked(e.event)
    decreases |m.files|
  {
    if m.files == [] {
    } else {
      ClusterStatesAreMarked(m.eventName, m.clusterIDKey, m.files[0]);
      TypeEventsMarked(m.(files := m.files[1..]));
    }
  }

  lemma EmittedIsMarked(a: Archive)
    ensures forall e :: e in Emitted(a) ==> Marked(e.event)
  {
    StatesBeforeEvents(a);
    var ms := EventTypesMatches(a);
    TypeEventsMarked(ms[0]);
    TypeEventsMarked(ms[1]);
    TypeEventsMarked(ms[2]);
    TypeEventsMarked(ms[3]);
  }

  /** No message at or after the first event writes to the snapshot. */
  lemma EventsWriteNothing(a: Archive, lo: nat, hi: nat, cell: Cell)
    requires |States(a)| <= lo <= hi <= |Emitted(a)|
    ensures !Writes(Messages(Emitted(a)), lo, hi, cell)
  {
    StatesBeforeEvents(a);
    forall i | lo <= i < hi
      ensures CellOf(Messages(Emitted(a))[i]) == None
    {
      assert Emitted(a)[i] == Events(a)[i - |States(a)|];
      assert Emitted(a)[i] in Events(a);
    }
  }

  /** The last payload that envelopes carry for a cell. */
  function FinalState(es: seq<Envelope>, cell: Cell): Option<Json>
    decreases |es|
  {
    if es == [] then None
    else if StateCell(es[|es| - 1].event) == Some(cell) then Some(es[|es| - 1].event.payload)
    else FinalState(es[..|es| - 1], cell)
  }

  lemma {:induction false} StraightPassIsFinal(es: seq<Envelope>, n: nat, cell: Cell)
    requires n <= |es|
    ensures Lookup(StraightPass(Messages(es), n), cell) == FinalState(es[..n], cell)
    decreases n
  {
    if n == 0 {
    } else {
      StraightPassIsFinal(es, n - 1, cell);
      assert es[..n][..n - 1] == es[..n - 1];
    }
  }

  predicate IsEventAt(es: seq<Envelope>, n: nat) {
    n < |es| && es[n].event.name == CLUSTER_EVENT
  }

  /** The snapshot an event of an archive is enriched from. */
  function SnapshotAt(es: seq<Envelope>, envs: seq<Env>, expiration: int, n: nat): Keyspace
    requires n <= |es| && n < |envs|
  {
    StoreAfter(Messages(es), envs, expiration, n)
  }

  /** When an event of an archive is enriched, a cell of the snapshot holds the
      final payload the whole archive emits for it, no matter how far apart
      they are in the archive, and nothing if there is none. */
  lemma EventsSeeFinalStates(a: Archive, es: seq<Envelope>, envs: seq<Env>, expiration: int, n: nat, cell: Cell)
    requires es == Emitted(a) && IsEventAt(es, n)
    requires n < |envs| && GoodWeather(envs, n, expiration, envs[n].now)
    ensures ReadCell(SnapshotAt(es, envs, expiration, n), cell, envs[n].now) == FinalState(es, cell)
  {
    StoreIsStraightPass(Messages(es), envs, expiration, n, envs[n].now, cell);
    EventsComeLate(a, n);
    EventsWriteNothing(a, n, |es|, cell);
    UnwrittenIsKept(Messages(es), n, |es|, cell);
    StraightPassIsFinal(es, |es|, cell);
    assert es[..|es|] == es;
  }

  ghost predicate IsStateOf(event: Event, name: string, clusterID: string, id: string) {
    && event.name == name && Carries(event.payload, "id", id)
    && (name != "ClusterState" ==> Carries(event.payload, "cluster_id", clusterID))
  }

  /** The last payload of this name that carries these ids. A cluster state
      needs no cluster id. */
  ghost function LastState(es: seq<Envelope>, name: string, clusterID: string, id: string): Option<Json>
    decreases |es|
  {
    if es == [] then None
    else if IsStateOf(es[|es| - 1].event, name, clusterID, id) then Some(es[|es| - 1].event.payload)
    else LastState(es[..|es| - 1], name, clusterID, id)
  }

  /** Where the final states are: by kind, cluster and id. */
  lemma {:induction false} FinalStatesAreFiled(es: seq<Envelope>, clusterID: string, id: string)
    ensures FinalState(es, Cell(HostsHKey(clusterID), id)) == LastState(es, "HostState", clusterID, id)
    ensures FinalState(es, Cell(InfraEnvsHKey(clusterID), id)) == LastState(es, "InfraEnv", clusterID, id)
    ensures FinalState(es, Cell(ClustersHKey(), id)) == LastState(es, "ClusterState", clusterID, id)
    decreases |es|
  {
    if es == [] {
    } else {
      FinalStatesAreFiled(es[..|es| - 1], clusterID, id);
      StatesAreFiled(es[|es| - 1].event);
    }
  }

  /** The records are the final states of this name in a cluster, each once. */
  ghost predicate AreFinalStates(records: seq<Record>, es: seq<Envelope>, name: string, clusterID: string) {
    exists ids: seq<string> ::
      && (forall id :: id in ids <==> LastState(es, name, clusterID, id).Some?)
      && (forall k, l :: 0 <= k < l < |ids| ==> ids[k] != ids[l])
      && |records| == |ids|
      && (forall k :: 0 <= k < |ids| ==> LastState(es, name, clusterID, ids[k]) == Some(Obj(records[k])))
  }

  lemma {:induction false} FinalStatesAreObjects(es: seq<Envelope>, cell: Cell)
    ensures FinalState(es, cell).Some? ==> FinalState(es, cell).value.Obj?
    decreases |es|
  {
    if es == [] {
    } else {
      FinalStatesAreObjects(es[..|es| - 1], cell);
    }
  }

  /** Composition: if a stream is exactly the emitted sequence of one archive,
      then every event of a cluster is enriched with the final state of every
      distinct well-formed host and infra-env of that cluster, each once, ... */
  lemma EnrichedWithFinalStates(a: Archive, es: seq<Envelope>, envs: seq<Env>, expiration: int, n: nat,
      clusterID: string, hosts: seq<Record>, infraEnvs: seq<Record>)
    requires es == Emitted(a) && IsEventAt(es, n)
    requires n < |envs| && GoodWeather(envs, n, expiration, envs[n].now)
    requires var keys := SnapshotAt(es, envs, expiration, n);
             && IsReadOf(hosts, true, Fields(keys, HostsHKey(clusterID), envs[n].now), true)
             && IsReadOf(infraEnvs, true, Fields(keys, InfraEnvsHKey(clusterID), envs[n].now), true)
    ensures AreFinalStates(hosts, es, "HostState", clusterID)
    ensures AreFinalStates(infraEnvs, es, "InfraEnv", clusterID)
  {
    forall id { FinalStatesAreFiled(es, clusterID, id); }
    FieldsAreFinal(a, es, envs, expiration, n, HostsHKey(clusterID));
    FieldsAreFinal(a, es, envs, expiration, n, InfraEnvsHKey(clusterID));
    var keys := SnapshotAt(es, envs, expiration, n);
    ReadsFinalStates(es, "HostState", clusterID, Fields(keys, HostsHKey(clusterID), envs[n].now), hosts);
    ReadsFinalStates(es, "InfraEnv", clusterID, Fields(keys, InfraEnvsHKey(clusterID), envs[n].now), infraEnvs);
  }

  lemma FieldsAreFinal(a: Archive, es: seq<Envelope>, envs: seq<Env>, expiration: int, n: nat, key: string)
    requires es == Emitted(a) && IsEventAt(es, n)
    requires n < |envs| && GoodWeather(envs, n, expiration, envs[n].now)
    ensures var fields := Fields(SnapshotAt(es, envs, expiration, n), key, envs[n].now);
            forall id :: FinalState(es, Cell(key, id)) == if id in fields then Some(fields[id]) else None
    ensures var fields := Fields(SnapshotAt(es, envs, expiration, n), key, envs[n].now);
            forall id :: id in fields ==> fields[id].Obj?
  {
    var fields := Fields(SnapshotAt(es, envs, expiration, n), key, envs[n].now);
    forall id
      ensures FinalState(es, Cell(key, id)) == if id in fields then Some(fields[id]) else None
      ensures id in fields ==> fields[id].Obj?
    {
      EventsSeeFinalStates(a, es, envs, expiration, n, Cell(key, id));
      FinalStatesAreObjects(es, Cell(key, id));
    }
  }

  lemma ReadsFinalStates(es: seq<Envelope>, name: string, clusterID: string, fields: map<string, Json>,
      records: seq<Record>)
    requires forall id :: id in fields ==> fields[id].Obj?
    requires forall id :: LastState(es, name, clusterID, id) == if id in fields then Some(fields[id]) else None
    requires IsReadOf(records, true, fields, true)
    ensures AreFinalStates(records, es, name, clusterID)
  {
    ObjectsAreRead(records, true, fields);
    var ids: seq<string> :|
      && (forall f :: f in ids <==> f in fields)
      && (forall i, j :: 0 <= i < j < |ids| ==> ids[i] != ids[j])
      && |records| == |ids|
      && forall i :: 0 <= i < |ids| ==> Obj(records[i]) == fields[ids[i]];
    forall id ensures id in ids <==> LastState(es, name, clusterID, id).Some? { assert id in ids <==> id in fields; }
    forall k | 0 <= k < |ids|
      ensures LastState(es, name, clusterID, ids[k]) == Some(Obj(records[k]))
    {
      assert ids[k] in ids;
    }
  }

  /** ... and with the final state of the cluster itself, which is marked as
      on-prem and holds no hosts. */
  lemma EnrichedWithFinalCluster(a: Archive, es: seq<Envelope>, envs: seq<Env>, expiration: int, n: nat,
      clusterID: string, cluster: Option<Record>)
    requires es == Emitted(a) && IsEventAt(es, n)
    requires n < |envs| && GoodWeather(envs, n, expiration, envs[n].now)
    requires IsClusterRead(cluster, Fields(SnapshotAt(es, envs, expiration, n), ClustersHKey(), envs[n].now), clusterID,
                           true)
    ensures match LastState(es, "ClusterState", clusterID, clusterID)
            case None => cluster == Some(map[])
            case Some(payload) =>
              && cluster.Some? && Obj(cluster.value) == payload
              && "hosts" !in cluster.value && "onprem" in cluster.value && cluster.value["onprem"] == Bool(true)
  {
    EventsSeeFinalStates(a, es, envs, expiration, n, Cell(ClustersHKey(), clusterID));
    EmittedIsMarked(a);
    FinalClusterIsMarked(es, clusterID);
    FinalStatesAreFiled(es, clusterID, clusterID);
  }

  lemma {:induction false} FinalClusterIsMarked(es: seq<Envelope>, clusterID: string)
    requires forall e :: e in es ==> Marked(e.event)
    ensures match FinalState(es, Cell(ClustersHKey(), clusterID))
            case None => true
            case Some(payload) => Marked(Event(CLUSTER_STATE, payload))
    decreases |es|
  {
    if es == [] {
    } else {
      FinalClusterIsMarked(es[..|es| - 1], clusterID);
      AllKeysAreSeparate();
    }
  }
}
