/** The projection: decode a message, dispatch on its name, write the snapshot
    or store an enriched event, and acknowledge. */
module Projection {
  import opened JsonValues
  import opened SnapshotRepository

  datatype Event = Event(name: string, payload: Json)

  /** The value of a Kafka message; `Undecodable` is no JSON of an event. */
  datatype Message = Undecodable | Decoded(event: Event)

  const CLUSTER_EVENT := "Event"
  const CLUSTER_STATE := "ClusterState"
  const HOST_STATE := "HostState"
  const INFRA_ENV_STATE := "InfraEnv"

  datatype Error = NoError | MalformedEvent | OtherError

  /** `GetValueFromPayload` */
  function ValueFromPayload(key: string, payload: Json): Option<string> {
    if payload.Obj? && key in payload.fields && payload.fields[key].Str? then Some(payload.fields[key].s) else None
  }

  predicate IsState(event: Event) {
    event.name == CLUSTER_STATE || event.name == HOST_STATE || event.name == INFRA_ENV_STATE
  }

  /** The cell of the snapshot a state event is written to, unless it is
      malformed. */
  function StateCell(event: Event): Option<Cell> {
    var id := ValueFromPayload("id", event.payload);
    var clusterID := ValueFromPayload("cluster_id", event.payload);
    if event.name == CLUSTER_STATE then
      if id.Some? then Some(Cell(ClustersHKey(), id.value)) else None
    else if event.name == HOST_STATE then
      if id.Some? && clusterID.Some? then Some(Cell(HostsHKey(clusterID.value), id.value)) else None
    else if event.name == INFRA_ENV_STATE then
      if id.Some? && clusterID.Some? then Some(Cell(InfraEnvsHKey(clusterID.value), id.value)) else None
    else None
  }

  /** What the surroundings decide while one message is processed. */
  datatype Env = Env(now: int, hsetOk: bool, expireOk: bool,
                     clusterReadOk: bool, hostsReadOk: bool, infraEnvsReadOk: bool, addOk: bool)

  /** What processing a message amounts to for everyone else. */
  datatype Outcome = Outcome(acks: nat, enqueued: bool, stop: bool)

  /** The ack and error table. `skipped` says that the event belongs to an
      excluded user. */
  function Handle(msg: Message, skipped: bool, env: Env): Outcome {
    match msg
    case Undecodable => Outcome(1, false, false)
    case Decoded(event) =>
      if event.name == CLUSTER_EVENT then
        if ValueFromPayload("cluster_id", event.payload).None? then Outcome(1, false, false)
        else if skipped then Outcome(0, false, false)
        else Outcome(0, env.addOk, !env.addOk)
      else if IsState(event) then
        if StateCell(event).None? then Outcome(2, false, false)
        else Outcome(1, false, !(env.hsetOk && env.expireOk))
      else Outcome(0, false, true)
  }

  /** `skipEvent` */
  predicate SkipEvent(cluster: Option<Record>, excludedUserNames: seq<string>) {
    && cluster.Some? && "user_name" in cluster.value
    && cluster.value["user_name"].Str? && cluster.value["user_name"].s in excludedUserNames
  }

  /** `None` is the nil map null is decoded to. */
  function ReadCluster(clusters: map<string, Json>, clusterID: string, readOk: bool): Option<Record> {
    if readOk && clusterID in clusters then DecodedMap(clusters[clusterID]) else Some(map[])
  }

  /** The snapshot after a message. */
  function SnapshotAfter(keys: Keyspace, msg: Message, env: Env, expiration: int): Keyspace {
    if msg.Decoded? && StateCell(msg.event).Some?
    then AfterHSet(keys, Write(StateCell(msg.event).value, msg.event.payload, env.now, env.hsetOk, env.expireOk),
        expiration)
    else keys
  }

  /** An item handed to the bulk indexer: the message it acknowledges and what
      the event is enriched with. */
  datatype BulkItem = BulkItem(offset: nat, event: Event, cluster: Option<Record>, hosts: seq<Record>,
      infraEnvs: seq<Record>)

  function Repeat(offset: nat, n: nat): seq<nat> {
    seq(n, i => offset)
  }

  // --------------------------------------------------------- In plain terms

  /** The payload holds this string under this key. */
  ghost predicate Carries(payload: Json, key: string, s: string) {
    payload.Obj? && key in payload.fields && payload.fields[key] == Str(s)
  }

  ghost predicate Lacks(payload: Json, key: string) {
    forall s :: !Carries(payload, key, s)
  }

  ghost predicate IsClusterState(event: Event, id: string) {
    event.name == "ClusterState" && Carries(event.payload, "id", id)
  }

  ghost predicate IsHostState(event: Event, clusterID: string, id: string) {
    event.name == "HostState" && Carries(event.payload, "id", id) && Carries(event.payload, "cluster_id", clusterID)
  }

  ghost predicate IsInfraEnvState(event: Event, clusterID: string, id: string) {
    event.name == "InfraEnv" && Carries(event.payload, "id", id) && Carries(event.payload, "cluster_id", clusterID)
  }

  /** A state event that lacks one of the ids it needs. */
  ghost predicate IsMalformedState(event: Event) {
    || (event.name == "ClusterState" && Lacks(event.payload, "id"))
    || (event.name in {"HostState", "InfraEnv"} && (Lacks(event.payload, "id") || Lacks(event.payload, "cluster_id")))
  }

  lemma PayloadValue(payload: Json, key: string)
    ensures forall s :: Carries(payload, key, s) <==> ValueFromPayload(key, payload) == Some(s)
    ensures Lacks(payload, key) <==> ValueFromPayload(key, payload).None?
  {
    if ValueFromPayload(key, payload).Some? {
      assert Carries(payload, key, ValueFromPayload(key, payload).value);
    }
  }

  lemma PayloadValues(payload: Json)
    ensures forall s :: Carries(payload, "id", s) <==> ValueFromPayload("id", payload) == Some(s)
    ensures Lacks(payload, "id") <==> ValueFromPayload("id", payload).None?
    ensures forall s :: Carries(payload, "cluster_id", s) <==> ValueFromPayload("cluster_id", payload) == Some(s)
    ensures Lacks(payload, "cluster_id") <==> ValueFromPayload("cluster_id", payload).None?
  {
    PayloadValue(payload, "id");
    PayloadValue(payload, "cluster_id");
  }

  /** Which events are written where: host states and no others under the key
      of the hosts of their cluster, and so on; none if an id is missing. */
  lemma StatesAreFiled(event: Event)
    ensures forall id :: StateCell(event) == Some(Cell(ClustersHKey(), id)) <==> IsClusterState(event, id)
    ensures forall c, id :: StateCell(event) == Some(Cell(HostsHKey(c), id)) <==> IsHostState(event, c, id)
    ensures forall c, id :: StateCell(event) == Some(Cell(InfraEnvsHKey(c), id)) <==> IsInfraEnvState(event, c, id)
    ensures IsState(event) <==> event.name in {"ClusterState", "HostState", "InfraEnv"}
    ensures StateCell(event).None? <==> !IsState(event) || IsMalformedState(event)
  {
    PayloadValues(event.payload);
    AllKeysAreSeparate();
  }

  /** One more entry, now. */
  ghost predicate Puts(keys: Keyspace, keys': Keyspace, key: string, id: string, payload: Json, now: int) {
    Fields(keys', key, now) == Fields(keys, key, now)[id := payload]
  }

  /** The same fields, now and at any later time. */
  ghost predicate Leaves(keys: Keyspace, keys': Keyspace, key: string) {
    forall t :: Fields(keys', key, t) == Fields(keys, key, t)
  }

  /** What an event makes of the three maps: a state event puts its payload
      under its id in the map of its kind and its cluster, provided HSET
      succeeds, and nothing else changes. */
  ghost predicate IsFiled(keys: Keyspace, keys': Keyspace, event: Event, env: Env, expiration: int) {
    && (env.hsetOk && expiration > 0 ==>
          && (forall id :: IsClusterState(event, id) ==>
                Puts(keys, keys', ClustersHKey(), id, event.payload, env.now))
          && (forall c, id :: IsHostState(event, c, id) ==>
                Puts(keys, keys', HostsHKey(c), id, event.payload, env.now))
          && (forall c, id :: IsInfraEnvState(event, c, id) ==>
                Puts(keys, keys', InfraEnvsHKey(c), id, event.payload, env.now)))
    && (!(env.hsetOk && exists id :: IsClusterState(event, id)) ==> Leaves(keys, keys', ClustersHKey()))
    && (forall c :: !(env.hsetOk && exists id :: IsHostState(event, c, id)) ==> Leaves(keys, keys', HostsHKey(c)))
    && (forall c :: !(env.hsetOk && exists id :: IsInfraEnvState(event, c, id)) ==>
          Leaves(keys, keys', InfraEnvsHKey(c)))
  }

  lemma SnapshotPuts(keys: Keyspace, event: Event, env: Env, expiration: int, cell: Cell)
    requires StateCell(event) == Some(cell) && env.hsetOk && expiration > 0
    ensures Puts(keys, SnapshotAfter(keys, Decoded(event), env, expiration), cell.key, cell.field, event.payload,
                 env.now)
  {
  }

  lemma SnapshotLeaves(keys: Keyspace, event: Event, env: Env, expiration: int, key: string)
    requires !(env.hsetOk && StateCell(event).Some? && StateCell(event).value.key == key)
    ensures Leaves(keys, SnapshotAfter(keys, Decoded(event), env, expiration), key)
  {
  }

  lemma EventsArePut(keys: Keyspace, event: Event, env: Env, expiration: int)
    requires env.hsetOk && expiration > 0
    ensures var keys' := SnapshotAfter(keys, Decoded(event), env, expiration);
            && (forall id :: IsClusterState(event, id) ==>
                  Puts(keys, keys', ClustersHKey(), id, event.payload, env.now))
            && (forall c, id :: IsHostState(event, c, id) ==>
                  Puts(keys, keys', HostsHKey(c), id, event.payload, env.now))
            && (forall c, id :: IsInfraEnvState(event, c, id) ==>
                  Puts(keys, keys', InfraEnvsHKey(c), id, event.payload, env.now))
  {
    StatesAreFiled(event);
    if StateCell(event).Some? {
      SnapshotPuts(keys, event, env, expiration, StateCell(event).value);
    }
  }

  lemma OthersAreLeft(keys: Keyspace, event: Event, env: Env, expiration: int)
    ensures var keys' := SnapshotAfter(keys, Decoded(event), env, expiration);
            && (!(env.hsetOk && exists id :: IsClusterState(event, id)) ==> Leaves(keys, keys', ClustersHKey()))
            && (forall c :: !(env.hsetOk && exists id :: IsHostState(event, c, id)) ==>
                  Leaves(keys, keys', HostsHKey(c)))
            && (forall c :: !(env.hsetOk && exists id :: IsInfraEnvState(event, c, id)) ==>
                  Leaves(keys, keys', InfraEnvsHKey(c)))
  {
    StatesAreFiled(event);
    if !(env.hsetOk && exists id :: IsClusterState(event, id)) {
      SnapshotLeaves(keys, event, env, expiration, ClustersHKey());
    }
    forall c | !(env.hsetOk && exists id :: IsHostState(event, c, id))
      ensures Leaves(keys, SnapshotAfter(keys, Decoded(event), env, expiration), HostsHKey(c))
    {
      SnapshotLeaves(keys, event, env, expiration, HostsHKey(c));
    }
    forall c | !(env.hsetOk && exists id :: IsInfraEnvState(event, c, id))
      ensures Leaves(keys, SnapshotAfter(keys, Decoded(event), env, expiration), InfraEnvsHKey(c))
    {
      SnapshotLeaves(keys, event, env, expiration, InfraEnvsHKey(c));
    }
  }

  lemma EventsAreFiled(keys: Keyspace, event: Event, env: Env, expiration: int)
    ensures IsFiled(keys, SnapshotAfter(keys, Decoded(event), env, expiration), event, env, expiration)
  {
    OthersAreLeft(keys, event, env, expiration);
    if env.hsetOk && expiration > 0 {
      EventsArePut(keys, event, env, expiration);
    }
  }

  /** How many acks the projection itself sends: a malformed state is acked
      twice, and an event only if it names no cluster. */
  ghost function Answers(msg: Message): nat {
    match msg
    case Undecodable => 1
    case Decoded(event) =>
      if event.name == "Event" then if Lacks(event.payload, "cluster_id") then 1 else 0
      else if IsMalformedState(event) then 2
      else if event.name in {"ClusterState", "HostState", "InfraEnv"} then 1
      else 0
  }

  /** An event that names a cluster, and that of no excluded user. */
  ghost predicate IsWanted(msg: Message, skipped: bool) {
    msg.Decoded? && msg.event.name == "Event" && !Lacks(msg.event.payload, "cluster_id") && !skipped
  }

  /** The errors that end the consumer. */
  ghost predicate Fails(msg: Message, skipped: bool, env: Env) {
    || (IsWanted(msg, skipped) && !env.addOk)
    || (msg.Decoded? && msg.event.name in {"ClusterState", "HostState", "InfraEnv"} && !IsMalformedState(msg.event) &&
        !(env.hsetOk && env.expireOk))
    || (msg.Decoded? && msg.event.name !in {"Event", "ClusterState", "HostState", "InfraEnv"})
  }

  lemma HandleIsTable(msg: Message, skipped: bool, env: Env)
    ensures Handle(msg, skipped, env).acks == Answers(msg)
    ensures Handle(msg, skipped, env).enqueued <==> IsWanted(msg, skipped) && env.addOk
    ensures Handle(msg, skipped, env).stop <==> Fails(msg, skipped, env)
  {
    if msg.Decoded? {
      PayloadValues(msg.event.payload);
      StatesAreFiled(msg.event);
    }
  }

  /** The cluster the event names is read, and its user is excluded. */
  ghost predicate IsExcluded(msg: Message, clusters: map<string, Json>, readOk: bool, excludedUserNames: seq<string>) {
    exists clusterID, name ::
      && msg.Decoded? && Carries(msg.event.payload, "cluster_id", clusterID)
      && readOk && clusterID in clusters && Carries(clusters[clusterID], "user_name", name)
      && name in excludedUserNames
  }

  /** A missing cluster, or one that cannot be read, is an empty one. */
  ghost predicate IsClusterRead(cluster: Option<Record>, clusters: map<string, Json>, clusterID: string, readOk: bool) {
    if !readOk || clusterID !in clusters then cluster == Some(map[])
    else match clusters[clusterID]
         case Obj(fields) => cluster == Some(fields)
         case Null => cluster == None
         case _ => cluster == Some(map[])
  }

  lemma SkippedIsExcluded(event: Event, clusters: map<string, Json>, clusterID: string, cluster: Option<Record>,
      readOk: bool, excludedUserNames: seq<string>)
    requires Carries(event.payload, "cluster_id", clusterID) && IsClusterRead(cluster, clusters, clusterID, readOk)
    ensures SkipEvent(cluster, excludedUserNames)
       <==> IsExcluded(Decoded(event), clusters, readOk, excludedUserNames)
  {
    if SkipEvent(cluster, excludedUserNames) {
      assert readOk && clusterID in clusters;
      assert Carries(clusters[clusterID], "user_name", cluster.value["user_name"].s);
    }
  }

  // ----------------------------------------------------------- Store invariant

  /** The payload says itself where it is stored. */
  predicate WellPlaced(cell: Cell, payload: Json) {
    && ValueFromPayload("id", payload) == Some(cell.field)
    && (cell.key == ClustersHKey() ||
        (var clusterID := ValueFromPayload("cluster_id", payload);
         clusterID.Some? && (cell.key == HostsHKey(clusterID.value) || cell.key == InfraEnvsHKey(clusterID.value))))
  }

  ghost predicate StoreInvariant(keys: Keyspace) {
    forall key, field :: key in keys && field in keys[key].fields ==>
        WellPlaced(Cell(key, field), keys[key].fields[field])
  }

  lemma StateCellIsWellPlaced(event: Event)
    requires StateCell(event).Some?
    ensures WellPlaced(StateCell(event).value, event.payload)
  {
  }

  /** Every message keeps the invariant, whichever commands fail and whatever
      has expired. */
  lemma SnapshotKeepsInvariant(keys: Keyspace, msg: Message, env: Env, expiration: int)
    requires StoreInvariant(keys)
    ensures StoreInvariant(SnapshotAfter(keys, msg, env, expiration))
  {
    if msg.Decoded? && StateCell(msg.event).Some? {
      StateCellIsWellPlaced(msg.event);
    }
  }

  /** So only objects are ever decoded: no map read back from the store is nil,
      and none is left empty by an error. */
  lemma StoredPayloadsAreObjects(keys: Keyspace, key: string, now: int)
    requires StoreInvariant(keys)
    ensures forall f :: f in Fields(keys, key, now) ==> Fields(keys, key, now)[f].Obj?
    ensures forall f, readOk :: ReadCluster(Fields(keys, key, now), f, readOk).Some?
  {
    forall f | f in Fields(keys, key, now)
      ensures Fields(keys, key, now)[f].Obj?
    {
      assert WellPlaced(Cell(key, f), keys[key].fields[f]);
    }
  }

  // --------------------------------------------------------------- Projection

  class EnrichedEventsProjection {
    const repo: SnapshotRepository
    const excludedUserNames: seq<string>
    /** Everything sent on the ack channel so far, in order. */
    var ackChannel: seq<nat>
    /** Everything added to the bulk indexer so far. */
    var bulk: seq<BulkItem>

    constructor (repo: SnapshotRepository, excludedUserNames: seq<string>)
      ensures this.repo == repo && this.excludedUserNames == excludedUserNames
      ensures ackChannel == [] && bulk == []
    {
      this.repo := repo;
      this.excludedUserNames := excludedUserNames;
      ackChannel, bulk := [], [];
    }

    method AckMsg(offset: nat)
      modifies this`ackChannel
      ensures ackChannel == old(ackChannel) + [offset]
    {
      ackChannel := ackChannel + [offset];
    }

    method ProcessClusterEvent(offset: nat, event: Event, env: Env) returns (err: Error)
      requires event.name == CLUSTER_EVENT
      modifies this`bulk
      ensures err.MalformedEvent? <==> Lacks(event.payload, "cluster_id")
      ensures var wanted := IsWanted(Decoded(event),
                  IsExcluded(Decoded(event), repo.Clusters(env.now), env.clusterReadOk, excludedUserNames));
              && (err.OtherError? <==> wanted && !env.addOk)
              && (wanted && env.addOk ==> IsEnqueued(old(bulk), bulk, offset, event, env))
              && (!(wanted && env.addOk) ==> bulk == old(bulk))
    {
      var clusterID := ValueFromPayload("cluster_id", event.payload);
      PayloadValue(event.payload, "cluster_id");
      if clusterID.None? {
        return MalformedEvent;
      }
      var cluster, _ := repo.GetCluster(clusterID.value, env.now, env.clusterReadOk);
      assert Carries(event.payload, "cluster_id", clusterID.value);
      assert IsClusterRead(cluster, repo.Clusters(env.now), clusterID.value, env.clusterReadOk);
      SkippedIsExcluded(event, repo.Clusters(env.now), clusterID.value, cluster, env.clusterReadOk, excludedUserNames);
      if SkipEvent(cluster, excludedUserNames) {
        return NoError;
      }
      err := EnrichAndStore(offset, event, clusterID.value, cluster, env);
    }

    /** The second half of `ProcessClusterEvent`. */
    method EnrichAndStore(offset: nat, event: Event, clusterID: string, cluster: Option<Record>, env: Env)
      returns (err: Error)
      requires IsClusterRead(cluster, repo.Clusters(env.now), clusterID, env.clusterReadOk)
      modifies this`bulk
      ensures err == if env.addOk then NoError else OtherError
      ensures !env.addOk ==> bulk == old(bulk)
      ensures env.addOk ==>
                && |bulk| == |old(bulk)| + 1 && bulk[..|old(bulk)|] == old(bulk)
                && var item := bulk[|old(bulk)|];
                   item.offset == offset && item.event == event && IsRead(item, clusterID, env)
    {
      var hosts, hostsOk := repo.GetHosts(clusterID, env.now, env.hostsReadOk);
      var infraEnvs, infraEnvsOk := repo.GetInfraEnvs(clusterID, env.now, env.infraEnvsReadOk);
      if !env.addOk {
        return OtherError;
      }
      assert IsReadOf(hosts, hostsOk, repo.Hosts(clusterID, env.now), env.hostsReadOk);
      assert IsReadOf(infraEnvs, infraEnvsOk, repo.InfraEnvs(clusterID, env.now), env.infraEnvsReadOk);
      var item := BulkItem(offset, event, cluster, hosts, infraEnvs);
      assert IsRead(item, clusterID, env);
      bulk := bulk + [item];
      err := NoError;
    }

    /** So many acks more, all for this offset. */
    ghost predicate IsAnswered(before: seq<nat>, after: seq<nat>, offset: nat, n: nat) {
      && |after| == |before| + n && after[..|before|] == before
      && forall i :: |before| <= i < |after| ==> after[i] == offset
    }

    /** One more item, made from what the snapshot holds for the cluster now. */
    ghost predicate IsEnqueued(before: seq<BulkItem>, after: seq<BulkItem>, offset: nat, event: Event, env: Env)
      reads repo
    {
      exists clusterID, item :: Carries(event.payload, "cluster_id", clusterID)
        && after == before + [item] && item.offset == offset && item.event == event && IsRead(item, clusterID, env)
    }

    ghost predicate IsRead(item: BulkItem, clusterID: string, env: Env)
      reads repo
    {
      && IsClusterRead(item.cluster, repo.Clusters(env.now), clusterID, env.clusterReadOk)
      && (exists ok :: IsReadOf(item.hosts, ok, repo.Hosts(clusterID, env.now), env.hostsReadOk))
      && (exists ok :: IsReadOf(item.infraEnvs, ok, repo.InfraEnvs(clusterID, env.now), env.infraEnvsReadOk))
    }

    /** The three state handlers. */
    method ProcessState(event: Event, env: Env) returns (err: Error)
      requires IsState(event)
      modifies repo
      ensures repo.keys == SnapshotAfter(old(repo.keys), Decoded(event), env, repo.expiration)
      ensures IsFiled(old(repo.keys), repo.keys, event, env, repo.expiration)
      ensures err.MalformedEvent? <==> IsMalformedState(event)
      ensures err.OtherError? <==> !IsMalformedState(event) && !(env.hsetOk && env.expireOk)
    {
      StatesAreFiled(event);
      EventsAreFiled(repo.keys, event, env, repo.expiration);
      var id := ValueFromPayload("id", event.payload);
      if id.None? {
        return MalformedEvent;
      }
      var ok;
      if event.name == CLUSTER_STATE {
        ok := repo.SetCluster(id.value, event.payload, env.now, env.hsetOk, env.expireOk);
      } else {
        var clusterID := ValueFromPayload("cluster_id", event.payload);
        if clusterID.None? {
          return MalformedEvent;
        }
        if event.name == HOST_STATE {
          ok := repo.SetHost(clusterID.value, id.value, event.payload, env.now, env.hsetOk, env.expireOk);
        } else {
          ok := repo.SetInfraEnv(clusterID.value, id.value, event.payload, env.now, env.hsetOk, env.expireOk);
        }
      }
      err := if ok then NoError else OtherError;
    }

    method ProcessEvent(offset: nat, event: Event, env: Env) returns (failed: bool)
      modifies this`ackChannel, this`bulk, repo
      ensures Processed(old(ackChannel), old(bulk), old(repo.keys), old(repo.Clusters(env.now)), offset,
              Decoded(event), env, failed)
    {
      var err: Error;
      StatesAreFiled(event);
      if event.name == CLUSTER_EVENT {
        err := ProcessClusterEvent(offset, event, env);
      } else if IsState(event) {
        err := ProcessState(event, env);
      } else {
        return true;
      }
      if event.name != CLUSTER_EVENT {
        AckMsg(offset);
      }
      if err.MalformedEvent? {
        AckMsg(offset);
        return false;
      }
      failed := err.OtherError?;
    }

    /** The state after a message, in terms of the state before it. */
    ghost predicate Processed(acks: seq<nat>, items: seq<BulkItem>, keys: Keyspace, clusters: map<string, Json>,
                              offset: nat, msg: Message, env: Env, failed: bool)
      reads this, repo
    {
      var skipped := IsExcluded(msg, clusters, env.clusterReadOk, excludedUserNames);
      && IsAnswered(acks, ackChannel, offset, Answers(msg))
      && (failed <==> Fails(msg, skipped, env))
      && (IsWanted(msg, skipped) && env.addOk ==> IsEnqueued(items, bulk, offset, msg.event, env))
      && (!(IsWanted(msg, skipped) && env.addOk) ==> bulk == items)
      && repo.keys == SnapshotAfter(keys, msg, env, repo.expiration)
    }

    /** `ProcessMessage`: acks, bulk items, snapshot and error follow the table
        for every message, and the store invariant is kept. */
    method ProcessMessage(offset: nat, msg: Message, env: Env) returns (failed: bool)
      requires StoreInvariant(repo.keys)
      modifies this`ackChannel, this`bulk, repo
      ensures Processed(old(ackChannel), old(bulk), old(repo.keys), old(repo.Clusters(env.now)), offset, msg, env,
              failed)
      ensures msg.Undecodable? ==> repo.keys == old(repo.keys)
      ensures msg.Decoded? ==> IsFiled(old(repo.keys), repo.keys, msg.event, env, repo.expiration)
      ensures StoreInvariant(repo.keys)
    {
      SnapshotKeepsInvariant(repo.keys, msg, env, repo.expiration);
      if msg.Undecodable? {
        AckMsg(offset);
        return false;
      }
      EventsAreFiled(repo.keys, msg.event, env, repo.expiration);
      failed := ProcessEvent(offset, msg.event, env);
    }
  }
}
