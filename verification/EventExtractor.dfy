/** The on-prem extractor: the resources of an archive become events in a fixed
    order, sent on a bounded channel nobody reads before the extractor
    returns. Archives are given as the parsed resources of their files. */
module EventExtractor {
  import opened JsonValues
  import opened SnapshotRepository
  import opened Projection

  datatype Envelope = Envelope(key: string, event: Event)

  /** Per kind of file, the files found and the resources in each. */
  datatype Archive = Archive(
    hosts: seq<seq<Record>>,
    clusters: seq<seq<Record>>,
    infraEnvs: seq<seq<Record>>,
    events: seq<seq<Record>>)

  datatype EventTypeMatch = EventTypeMatch(files: seq<seq<Record>>, eventName: string, clusterIDKey: string)

  function EventTypesMatches(a: Archive): seq<EventTypeMatch> {
    [ EventTypeMatch(a.hosts, HOST_STATE, "cluster_id"),
      EventTypeMatch(a.clusters, CLUSTER_STATE, "id"),
      EventTypeMatch(a.infraEnvs, INFRA_ENV_STATE, "cluster_id"),
      EventTypeMatch(a.events, CLUSTER_EVENT, "cluster_id") ]
  }

  /** A cluster state is marked as on-prem and loses its hosts. */
  function PayloadOf(eventName: string, resource: Record): Json {
    Obj(if eventName == CLUSTER_STATE then resource["onprem" := Bool(true)] - {"hosts"} else resource)
  }

  /** The events of one file: up to the first resource without a string
      cluster id, which ends the file. */
  function FileEvents(eventName: string, clusterIDKey: string, resources: seq<Record>): seq<Envelope>
    decreases |resources|
  {
    if resources == [] || clusterIDKey !in resources[0] || !resources[0][clusterIDKey].Str? then []
    else
      var envelope := Envelope(resources[0][clusterIDKey].s, Event(eventName, PayloadOf(eventName, resources[0])));
      [envelope] + FileEvents(eventName, clusterIDKey, resources[1..])
  }

  function TypeEvents(m: EventTypeMatch): seq<Envelope>
    decreases |m.files|
  {
    if m.files == [] then []
    else FileEvents(m.eventName, m.clusterIDKey, m.files[0]) + TypeEvents(m.(files := m.files[1..]))
  }

  function AllEvents(ms: seq<EventTypeMatch>): seq<Envelope>
    decreases |ms|
  {
    if ms == [] then [] else TypeEvents(ms[0]) + AllEvents(ms[1..])
  }

  /** Everything an archive emits, in order. */
  function Emitted(a: Archive): seq<Envelope> {
    AllEvents(EventTypesMatches(a))
  }

  // --------------------------------------------------------- In plain terms

  /** The event made from a resource; a cluster state is the cluster marked as
      on-prem, without its hosts. */
  ghost predicate IsEventFor(e: Envelope, name: string, idKey: string, resource: Record) {
    && Carries(Obj(resource), idKey, e.key)
    && e.event.name == name && e.event.payload.Obj?
    && var payload := e.event.payload.fields;
       if name == "ClusterState" then
         && "hosts" !in payload && "onprem" in payload && payload["onprem"] == Bool(true)
         && payload - {"onprem"} == resource - {"hosts", "onprem"}
       else payload == resource
  }

  /** One event for each resource of a file, up to the first that has no
      string under the id key. */
  ghost predicate IsFileOf(es: seq<Envelope>, name: string, idKey: string, resources: seq<Record>) {
    && |es| <= |resources|
    && (forall k :: 0 <= k < |es| ==> IsEventFor(es[k], name, idKey, resources[k]))
    && (|es| < |resources| ==> Lacks(Obj(resources[|es|]), idKey))
  }

  /** File after file. */
  ghost predicate AreFilesOf(es: seq<Envelope>, name: string, idKey: string, files: seq<seq<Record>>)
    decreases |files|
  {
    if files == [] then es == []
    else exists n :: 0 <= n <= |es| && IsFileOf(es[..n], name, idKey, files[0])
                     && AreFilesOf(es[n..], name, idKey, files[1..])
  }

  /** Hosts, clusters, infra-envs, events, each from its own files. */
  ghost predicate IsEmissionOf(es: seq<Envelope>, a: Archive) {
    exists hosts, clusters, infraEnvs, events ::
      && es == hosts + clusters + infraEnvs + events
      && AreFilesOf(hosts, "HostState", "cluster_id", a.hosts)
      && AreFilesOf(clusters, "ClusterState", "id", a.clusters)
      && AreFilesOf(infraEnvs, "InfraEnv", "cluster_id", a.infraEnvs)
      && AreFilesOf(events, "Event", "cluster_id", a.events)
  }

  lemma FirstIsEvent(name: string, idKey: string, resource: Record)
    requires idKey in resource && resource[idKey].Str?
    ensures IsEventFor(Envelope(resource[idKey].s, Event(name, PayloadOf(name, resource))), name, idKey, resource)
  {
    if name == CLUSTER_STATE {
      assert resource["onprem" := Bool(true)] - {"hosts"} - {"onprem"} == resource - {"hosts", "onprem"};
    }
  }

  lemma {:induction false} FileEventsAreFile(name: string, idKey: string, resources: seq<Record>)
    ensures IsFileOf(FileEvents(name, idKey, resources), name, idKey, resources)
    decreases |resources|
  {
    if resources == [] {
    } else if idKey in resources[0] && resources[0][idKey].Str? {
      FirstIsEvent(name, idKey, resources[0]);
      FileEventsAreFile(name, idKey, resources[1..]);
    }
  }

  lemma {:induction false} TypeEventsAreFiles(m: EventTypeMatch)
    ensures AreFilesOf(TypeEvents(m), m.eventName, m.clusterIDKey, m.files)
    decreases |m.files|
  {
    if m.files == [] {
    } else {
      var first, rest := FileEvents(m.eventName, m.clusterIDKey, m.files[0]), TypeEvents(m.(files := m.files[1..]));
      FileEventsAreFile(m.eventName, m.clusterIDKey, m.files[0]);
      TypeEventsAreFiles(m.(files := m.files[1..]));
      assert (first + rest)[..|first|] == first && (first + rest)[|first|..] == rest;
    }
  }

  lemma UnfoldAllEvents(m: EventTypeMatch, ms: seq<EventTypeMatch>)
    ensures AllEvents([m] + ms) == TypeEvents(m) + AllEvents(ms)
  {
    assert ([m] + ms)[1..] == ms;
  }

  lemma TwoParts(i: EventTypeMatch, e: EventTypeMatch)
    ensures AllEvents([i, e]) == TypeEvents(i) + TypeEvents(e)
  {
    assert [i, e] == [i] + [e] && [e] == [e] + [];
    UnfoldAllEvents(i, [e]);
    UnfoldAllEvents(e, []);
  }

  lemma FourParts(h: EventTypeMatch, c: EventTypeMatch, i: EventTypeMatch, e: EventTypeMatch)
    ensures AllEvents([h, c, i, e]) == TypeEvents(h) + TypeEvents(c) + TypeEvents(i) + TypeEvents(e)
  {
    assert [h, c, i, e] == [h] + [c, i, e] && [c, i, e] == [c] + [i, e];
    UnfoldAllEvents(h, [c, i, e]);
    UnfoldAllEvents(c, [i, e]);
    TwoParts(i, e);
    Reassociate(TypeEvents(h), TypeEvents(c), TypeEvents(i), TypeEvents(e));
  }

  lemma Reassociate(w: seq<Envelope>, x: seq<Envelope>, y: seq<Envelope>, z: seq<Envelope>)
    ensures w + (x + (y + z)) == w + x + y + z
  {
  }

  /** What an archive emits, in terms of its files. */
  lemma EmittedIsEmission(a: Archive)
    ensures IsEmissionOf(Emitted(a), a)
  {
    var ms := EventTypesMatches(a);
    FourParts(ms[0], ms[1], ms[2], ms[3]);
    TypeEventsAreFiles(ms[0]);
    TypeEventsAreFiles(ms[1]);
    TypeEventsAreFiles(ms[2]);
    TypeEventsAreFiles(ms[3]);
  }

  // ---------------------------------------------------------- Bounded channel

  /** A buffered Go channel without a reader. */
  class EventChannel {
    const capacity: nat
    var buffer: seq<Envelope>
    var closed: bool

    constructor (capacity: nat)
      ensures this.capacity == capacity && buffer == [] && !closed
    {
      this.capacity := capacity;
      buffer, closed := [], false;
    }

    /** `false` if the send blocks, which it then does for ever. */
    method Send(e: Envelope) returns (sent: bool)
      modifies this`buffer
      ensures sent <==> |old(buffer)| < capacity
      ensures buffer == if sent then old(buffer) + [e] else old(buffer)
    {
      sent := |buffer| < capacity;
      if sent {
        buffer := buffer + [e];
      }
    }

    /** All of `es` was sent, or the channel filled up while it was being sent. */
    ghost predicate Took(before: seq<Envelope>, es: seq<Envelope>, stuck: bool)
      reads this
    {
      && (stuck <==> |before| + |es| > capacity)
      && buffer == if stuck then (before + es)[..capacity] else before + es
    }
  }

  method TransformResourcesToEvents(eventName: string, clusterIDKey: string, resources: seq<Record>, ch: EventChannel)
    returns (stuck: bool)
    requires |ch.buffer| <= ch.capacity
    modifies ch`buffer
    ensures ch.Took(old(ch.buffer), FileEvents(eventName, clusterIDKey, resources), stuck)
  {
    ghost var before := ch.buffer;
    ghost var all := FileEvents(eventName, clusterIDKey, resources);
    for i := 0 to |resources|
      invariant |ch.buffer| <= ch.capacity
      invariant before + all == ch.buffer + FileEvents(eventName, clusterIDKey, resources[i..])
    {
      var resource := resources[i];
      assert resources[i..][1..] == resources[i + 1..];
      if clusterIDKey !in resource {
        return false;
      }
      var clusterID := resource[clusterIDKey];
      if eventName == CLUSTER_STATE {
        resource := resource["onprem" := Bool(true)];
        resource := resource - {"hosts"};
      }
      if !clusterID.Str? {
        return false;
      }
      ghost var rest := FileEvents(eventName, clusterIDKey, resources[i + 1..]);
      var envelope := Envelope(clusterID.s, Event(eventName, Obj(resource)));
      assert before + all == ch.buffer + ([envelope] + rest);
      assert ch.buffer + ([envelope] + rest) == (ch.buffer + [envelope]) + rest;
      var sent := ch.Send(envelope);
      if !sent {
        assert (before + all)[..ch.capacity] == ch.buffer;
        return true;
      }
    }
    stuck := false;
  }

  method ExtractEventsForEventType(m: EventTypeMatch, ch: EventChannel) returns (stuck: bool)
    requires |ch.buffer| <= ch.capacity
    modifies ch`buffer
    ensures ch.Took(old(ch.buffer), TypeEvents(m), stuck)
  {
    ghost var before := ch.buffer;
    ghost var all := TypeEvents(m);
    for i := 0 to |m.files|
      invariant |ch.buffer| <= ch.capacity
      invariant before + all == ch.buffer + TypeEvents(m.(files := m.files[i..]))
    {
      ghost var sent := ch.buffer;
      ghost var first := FileEvents(m.eventName, m.clusterIDKey, m.files[i]);
      ghost var rest := TypeEvents(m.(files := m.files[i + 1..]));
      assert m.files[i..][1..] == m.files[i + 1..];
      assert before + all == (sent + first) + rest;
      stuck := TransformResourcesToEvents(m.eventName, m.clusterIDKey, m.files[i], ch);
      if stuck {
        return;
      }
    }
    stuck := false;
  }

  /** `extractEvents`: kind by kind; the channel is closed at the end. */
  method ExtractAllEvents(ms: seq<EventTypeMatch>, ch: EventChannel) returns (stuck: bool)
    requires |ch.buffer| <= ch.capacity && !ch.closed
    modifies ch
    ensures ch.Took(old(ch.buffer), AllEvents(ms), stuck)
    ensures ch.closed <==> !stuck
  {
    ghost var before := ch.buffer;
    ghost var all := AllEvents(ms);
    for i := 0 to |ms|
      invariant |ch.buffer| <= ch.capacity && !ch.closed
      invariant before + all == ch.buffer + AllEvents(ms[i..])
    {
      ghost var sent := ch.buffer;
      assert ms[i..][1..] == ms[i + 1..];
      assert before + all == (sent + TypeEvents(ms[i])) + AllEvents(ms[i + 1..]);
      stuck := ExtractEventsForEventType(ms[i], ch);
      if stuck {
        return;
      }
    }
    ch.closed := true;
    stuck := false;
  }

  datatype Extraction = Failed | Stuck | Returned

  /** `ExtractEvents`: without a temp dir it fails. With one it returns if and
      only if the whole archive fits into the channel, which then holds
      exactly what the archive emits and is closed. Otherwise it is stuck with
      a full channel, since no reader has the channel before it returns. */
  method ExtractEvents(a: Archive, tempDirOk: bool, eventsBufferSize: nat)
      returns (ch: EventChannel, result: Extraction)
    ensures fresh(ch) && ch.capacity == eventsBufferSize
    ensures result.Failed? <==> !tempDirOk
    ensures tempDirOk ==> (result.Returned? <==> |Emitted(a)| <= eventsBufferSize)
    ensures result.Returned? ==> ch.closed && ch.buffer == Emitted(a)
    ensures result.Stuck? ==>
              !ch.closed && |ch.buffer| == eventsBufferSize && ch.buffer == Emitted(a)[..eventsBufferSize]
  {
    ch := new EventChannel(eventsBufferSize);
    if !tempDirOk {
      return ch, Failed;
    }
    var stuck := ExtractAllEvents(EventTypesMatches(a), ch);
    result := if stuck then Stuck else Returned;
  }
}
