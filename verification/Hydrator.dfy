/** The on-prem hydrator: a consumer, a listener and one goroutine per download
    and per archive, connected by bounded channels. */
module Hydrator {
  import opened JsonValues
  import opened EventExtractor

  datatype Header = Header(key: string, value: string)

  /** A fetched message. Its value may be no JSON of a payload. */
  datatype Delivery = Delivery(headers: seq<Header>, decodable: bool) {
    predicate Accepted() {
      exists h :: h in headers && h.key == "service" && h.value == "assisted-installer"
    }
  }

  method ShouldProcess(d: Delivery) returns (accepted: bool)
    ensures accepted <==> d.Accepted()
    ensures accepted <==> Header("service", "assisted-installer") in d.headers
  {
    for i := 0 to |d.headers|
      invariant forall j :: 0 <= j < i ==>
                  !(d.headers[j].key == "service" && d.headers[j].value == "assisted-installer")
    {
      if d.headers[i].key == "service" && d.headers[i].value == "assisted-installer" {
        assert d.headers[i] in d.headers;
        return true;
      }
    }
    accepted := false;
  }

  /** A call of the Kafka writer on behalf of a message. */
  datatype Call = Call(id: nat, envelope: Envelope)

  /** The calls on behalf of one message, in order. */
  function Written(writes: seq<Call>, id: nat): seq<Envelope>
    decreases |writes|
  {
    if writes == [] then []
    else
      var last := writes[|writes| - 1];
      Written(writes[..|writes| - 1], id) + if last.id == id then [last.envelope] else []
  }

  class EventStreamWriter {
    var calls: seq<Call>

    /** Write errors are logged and ignored, so only the call matters. */
    method NotifyEvent(id: nat, envelope: Envelope)
      modifies this
      ensures calls == old(calls) + [Call(id, envelope)]
    {
      calls := calls + [Call(id, envelope)];
    }
  }

  /** The goroutine that extracts an archive, run by itself: it acks exactly if
      the extractor returns, after writing the whole archive; otherwise it has
      written nothing. */
  method ExtractEvents(id: nat, archive: Archive, tempDirOk: bool, eventsBufferSize: nat, writer: EventStreamWriter)
    returns (acks: bool)
    modifies writer
    ensures acks <==> tempDirOk && |Emitted(archive)| <= eventsBufferSize
    ensures Written(writer.calls, id) == Written(old(writer.calls), id) + if acks then Emitted(archive) else []
    ensures forall other :: other != id ==> Written(writer.calls, other) == Written(old(writer.calls), other)
  {
    var ch, result := EventExtractor.ExtractEvents(archive, tempDirOk, eventsBufferSize);
    if !result.Returned? {
      return false;
    }
    ghost var before := writer.calls;
    var events := ch.buffer;
    for i := 0 to |events|
      invariant Written(writer.calls, id) == Written(before, id) + events[..i]
      invariant forall other :: other != id ==> Written(writer.calls, other) == Written(before, other)
    {
      ghost var calls := writer.calls;
      writer.NotifyEvent(id, events[i]);
      forall other: nat
        ensures Written(writer.calls, other) == Written(calls, other) + if other == id then [events[i]] else []
      {
        WrittenOneMore(calls, Call(id, events[i]), other);
      }
    }
    acks := true;
  }

  lemma WrittenOneMore(writes: seq<Call>, call: Call, id: nat)
    ensures Written(writes + [call], id) == Written(writes, id) + if call.id == id then [call.envelope] else []
  {
    assert (writes + [call])[..|writes|] == writes;
  }

  /** How the extractor ends, which is what `EventExtractor.ExtractEvents`
      promises. */
  function ExtractionOf(archive: Archive, tempDirOk: bool, eventsBufferSize: nat): Extraction {
    if !tempDirOk then Failed else if |Emitted(archive)| <= eventsBufferSize then Returned else Stuck
  }

  // ------------------------------------------------------------ State machine

  datatype Config = Config(downloadBuffer: nat, untarBuffer: nat, eventsBuffer: nat, ackBuffer: nat)

  /** What the consumer is blocked on. */
  datatype Pending = Idle | Acking(id: nat) | Enqueuing(id: nat)

  /** Messages are named by their position in `deliveries`. A multiset holds
      the messages of all goroutines at one point of their body. */
  datatype State = State(
    deliveries: seq<Delivery>,
    pending: Pending,
    downloadChannel: seq<nat>,
    downloading: multiset<nat>,
    downloaded: multiset<nat>,          // blocked on untarChannel
    untarChannel: seq<nat>,
    extracting: multiset<nat>,
    stuck: multiset<nat>,               // blocked for ever on a full event channel
    emitting: map<nat, seq<Envelope>>,  // what is left in the event channel
    acking: multiset<nat>,              // blocked on ackChannel
    dropped: multiset<nat>,
    ackChannel: seq<nat>,
    committed: seq<nat>,
    writes: seq<Call>,
    archives: map<nat, seq<Envelope>>,  // what was extracted, for the record
    listening: bool)

  function Init(): State {
    State([], Idle, [], multiset{}, multiset{}, [], multiset{}, multiset{}, map[], multiset{}, multiset{}, [], [], [],
        map[], true)
  }

  datatype Step =
    | Receive(d: Delivery)
    | Stop
    | SendPending
    | StartDownload
    | DownloadDone(id: nat, ok: bool)
    | SendUntar(id: nat)
    | StartUntar
    | Extract(id: nat, archive: Archive, tempDirOk: bool)
    | WriteNext(id: nat)
    | EmissionDone(id: nat)
    | SendAck(id: nat)
    | Commit

  /** A channel takes a message if its buffer has room. One without a buffer
      is given a single slot, which only adds behaviour. */
  predicate Room(ch: seq<nat>, buffer: nat) {
    |ch| < buffer || ch == []
  }

  predicate Enabled(c: Config, s: State, step: Step) {
    match step
    case Receive(_) => s.pending.Idle?
    case Stop => s.listening
    case SendPending =>
      || (s.pending.Acking? && Room(s.ackChannel, c.ackBuffer))
      || (s.pending.Enqueuing? && Room(s.downloadChannel, c.downloadBuffer))
    case StartDownload => s.listening && s.downloadChannel != []
    case DownloadDone(id, _) => id in s.downloading
    case SendUntar(id) => id in s.downloaded && Room(s.untarChannel, c.untarBuffer)
    case StartUntar => s.listening && s.untarChannel != []
    case Extract(id, _, _) => id in s.extracting
    case WriteNext(id) => id in s.emitting && s.emitting[id] != []
    case EmissionDone(id) => id in s.emitting && s.emitting[id] == []
    case SendAck(id) => id in s.acking && Room(s.ackChannel, c.ackBuffer)
    case Commit => s.ackChannel != []
  }

  function Received(s: State, d: Delivery): State {
    var id, s' := |s.deliveries|, s.(deliveries := s.deliveries + [d]);
    if !d.Accepted() then s'.(pending := Acking(id))
    else if !d.decodable then s'.(dropped := s.dropped + multiset{id})
    else s'.(pending := Enqueuing(id))
  }

  function Extracted(s: State, id: nat, result: Extraction, events: seq<Envelope>): State {
    var s' := s.(extracting := s.extracting - multiset{id});
    match result
    case Failed => s'.(dropped := s.dropped + multiset{id})
    case Stuck => s'.(stuck := s.stuck + multiset{id}, archives := s.archives[id := events])
    case Returned => s'.(emitting := s.emitting[id := events], archives := s.archives[id := events])
  }

  function After(c: Config, s: State, step: Step): State
    requires Enabled(c, s, step)
  {
    match step
    case Receive(d) => Received(s, d)
    case Stop => s.(listening := false)
    case SendPending =>
      if s.pending.Acking? then s.(pending := Idle, ackChannel := s.ackChannel + [s.pending.id])
      else s.(pending := Idle, downloadChannel := s.downloadChannel + [s.pending.id])
    case StartDownload =>
      s.(downloadChannel := s.downloadChannel[1..], downloading := s.downloading + multiset{s.downloadChannel[0]})
    case DownloadDone(id, ok) =>
      if ok then s.(downloading := s.downloading - multiset{id}, downloaded := s.downloaded + multiset{id})
      else s.(downloading := s.downloading - multiset{id}, dropped := s.dropped + multiset{id})
    case SendUntar(id) =>
      s.(downloaded := s.downloaded - multiset{id}, untarChannel := s.untarChannel + [id])
    case StartUntar =>
      s.(untarChannel := s.untarChannel[1..], extracting := s.extracting + multiset{s.untarChannel[0]})
    case Extract(id, archive, tempDirOk) =>
        Extracted(s, id, ExtractionOf(archive, tempDirOk, c.eventsBuffer), Emitted(archive))
    case WriteNext(id) =>
      s.(emitting := s.emitting[id := s.emitting[id][1..]], writes := s.writes + [Call(id, s.emitting[id][0])])
    case EmissionDone(id) =>
      s.(emitting := s.emitting - {id}, acking := s.acking + multiset{id})
    case SendAck(id) =>
      s.(acking := s.acking - multiset{id}, ackChannel := s.ackChannel + [id])
    case Commit =>
      s.(ackChannel := s.ackChannel[1..], committed := s.committed + [s.ackChannel[0]])
  }

  ghost predicate Next(c: Config, s: State, s': State) {
    exists step :: Enabled(c, s, step) && s' == After(c, s, step)
  }

  ghost predicate Run(c: Config, states: seq<State>) {
    && states != [] && states[0] == Init()
    && forall i :: 0 <= i < |states| - 1 ==> Next(c, states[i], states[i + 1])
  }

  /** What becomes of a message the consumer receives. */
  lemma ReceiveStep(c: Config, s: State, d: Delivery)
    requires s.pending.Idle?
    ensures var s', id := After(c, s, Receive(d)), |s.deliveries|;
            && s'.deliveries == s.deliveries + [d]
            && (Header("service", "assisted-installer") !in d.headers ==> s'.pending == Acking(id))
            && (Header("service", "assisted-installer") in d.headers ==>
                  s'.pending == if d.decodable then Enqueuing(id) else Idle)
            && s'.dropped == s.dropped +
                             (if Header("service", "assisted-installer") in d.headers && !d.decodable
                              then multiset{id} else multiset{})
  {
    if d.Accepted() {
      var h :| h in d.headers && h.key == "service" && h.value == "assisted-installer";
      assert h == Header("service", "assisted-installer");
    }
  }

  /** What becomes of an archive: with a temp dir, what it emits is written if
      it fits into the event channel, and stuck otherwise. */
  lemma ExtractStep(c: Config, s: State, id: nat, archive: Archive, tempDirOk: bool)
    requires id in s.extracting
    ensures exists events: seq<Envelope> ::
              IsEmissionOf(events, archive)
              && ExtractsTo(s, After(c, s, Extract(id, archive, tempDirOk)), id, tempDirOk, events, c.eventsBuffer)
  {
    EmittedIsEmission(archive);
    assert ExtractsTo(s, After(c, s, Extract(id, archive, tempDirOk)), id, tempDirOk, Emitted(archive), c.eventsBuffer);
  }

  ghost predicate ExtractsTo(s: State, s': State, id: nat, tempDirOk: bool, events: seq<Envelope>, buffer: nat) {
    var s0 := s.(extracting := s.extracting - multiset{id});
    if !tempDirOk then s' == s0.(dropped := s.dropped + multiset{id})
    else if |events| <= buffer
    then s' == s0.(emitting := s.emitting[id := events], archives := s.archives[id := events])
    else s' == s0.(stuck := s.stuck + multiset{id}, archives := s.archives[id := events])
  }

  /** A stopped listener takes nothing out of its two channels. */
  ghost predicate NothingTaken(s: State, s': State) {
    !s.listening ==>
      !s'.listening && s.downloadChannel <= s'.downloadChannel && s.untarChannel <= s'.untarChannel
  }

  predicate Bounded(ch: seq<nat>, buffer: nat) {
    |ch| <= if buffer == 0 then 1 else buffer
  }

  ghost predicate AreBounded(c: Config, s: State) {
    && Bounded(s.downloadChannel, c.downloadBuffer) && Bounded(s.untarChannel, c.untarBuffer)
    && Bounded(s.ackChannel, c.ackBuffer)
  }

  lemma TakesSendNothing(c: Config, s: State, step: Step)
    requires Enabled(c, s, step) && AreBounded(c, s) && (step.StartDownload? || step.StartUntar? || step.Commit?)
    ensures AreBounded(c, After(c, s, step))
  {
  }

  lemma ExtractedSendsNothing(c: Config, s: State, id: nat, result: Extraction, events: seq<Envelope>)
    ensures AreBounded(c, s) ==> AreBounded(c, Extracted(s, id, result, events))
    ensures NothingTaken(s, Extracted(s, id, result, events))
  {
  }

  lemma OthersSendNothing(c: Config, s: State, step: Step)
    requires Enabled(c, s, step) && !step.SendPending? && !step.SendUntar? && !step.SendAck?
    requires !step.StartDownload? && !step.StartUntar? && !step.Commit? && !step.Extract?
    ensures After(c, s, step).downloadChannel == s.downloadChannel
    ensures After(c, s, step).untarChannel == s.untarChannel
    ensures After(c, s, step).ackChannel == s.ackChannel
    ensures NothingTaken(s, After(c, s, step))
  {
  }

  lemma StepIsBounded(c: Config, s: State, step: Step)
    requires Enabled(c, s, step) && AreBounded(c, s)
    ensures AreBounded(c, After(c, s, step))
  {
    match step {
      case SendPending =>
      case SendUntar(_) =>
      case SendAck(_) =>
      case Extract(id, archive, tempDirOk) =>
        ExtractedSendsNothing(c, s, id, ExtractionOf(archive, tempDirOk, c.eventsBuffer), Emitted(archive));
      case StartDownload => TakesSendNothing(c, s, step);
      case StartUntar => TakesSendNothing(c, s, step);
      case Commit => TakesSendNothing(c, s, step);
      case _ => OthersSendNothing(c, s, step);
    }
  }

  /** No channel ever holds more than its buffer. */
  lemma {:induction false} ChannelsAreBounded(c: Config, states: seq<State>, i: nat)
    requires Run(c, states) && i < |states|
    ensures AreBounded(c, states[i])
  {
    if i == 0 {
    } else {
      ChannelsAreBounded(c, states, i - 1);
      assert Next(c, states[i - 1], states[i - 1 + 1]);
      var step :| Enabled(c, states[i - 1], step) && states[i] == After(c, states[i - 1], step);
      StepIsBounded(c, states[i - 1], step);
    }
  }

  lemma StepTakesNothing(c: Config, s: State, step: Step)
    requires Enabled(c, s, step)
    ensures NothingTaken(s, After(c, s, step))
  {
    match step {
      case SendPending =>
      case SendUntar(_) =>
      case SendAck(_) =>
      case StartDownload =>
      case StartUntar =>
      case Commit =>
      case Extract(id, archive, tempDirOk) =>
        ExtractedSendsNothing(c, s, id, ExtractionOf(archive, tempDirOk, c.eventsBuffer), Emitted(archive));
      case _ => OthersSendNothing(c, s, step);
    }
  }

  lemma RunTakesNothing(c: Config, states: seq<State>, j: nat)
    requires Run(c, states) && j + 1 < |states|
    ensures NothingTaken(states[j], states[j + 1])
  {
    assert Next(c, states[j], states[j + 1]);
    var step :| Enabled(c, states[j], step) && states[j + 1] == After(c, states[j], step);
    StepTakesNothing(c, states[j], step);
  }

  /** Once the listener has stopped, nothing leaves its two channels. */
  lemma {:induction false} StoppedTakesNothing(c: Config, states: seq<State>, i: nat, j: nat)
    requires Run(c, states) && i <= j < |states|
    ensures NothingTaken(states[i], states[j])
    decreases j
  {
    if i < j {
      StoppedTakesNothing(c, states, i, j - 1);
      RunTakesNothing(c, states, j - 1);
    }
  }

  // ---------------------------------------------------- One message at a time

  /** How often a message is on its way to being extracted. */
  function Upstream(s: State, id: nat): nat {
    (if s.pending == Enqueuing(id) then 1 else 0)
    + Count(s.downloadChannel, id) + s.downloading[id] + s.downloaded[id]
    + Count(s.untarChannel, id) + s.extracting[id]
  }

  /** How often an ack for it was sent or is about to be. */
  function Acks(s: State, id: nat): nat {
    (if s.pending == Acking(id) then 1 else 0)
    + s.acking[id] + Count(s.ackChannel, id) + Count(s.committed, id)
  }

  /** The state as one message sees it. */
  datatype View = View(
    delivery: Option<Delivery>,
    upstream: nat,
    stuck: nat,
    left: Option<seq<Envelope>>,
    acks: nat,
    dropped: nat,
    archive: Option<seq<Envelope>>,
    written: seq<Envelope>)
  {
    function Places(): nat {
      upstream + stuck + (if left.Some? then 1 else 0) + acks + dropped
    }

    predicate Accepted() { delivery.Some? && delivery.value.Accepted() }

    /** An accepted message that is acked has had its archive written. */
    predicate Delivered() { Accepted() && acks > 0 }
  }

  function LookUp<V>(m: map<nat, V>, id: nat): Option<V> {
    if id in m then Some(m[id]) else None
  }

  function ViewOf(s: State, id: nat): View {
    View(if id < |s.deliveries| then Some(s.deliveries[id]) else None,
         Upstream(s, id), s.stuck[id], LookUp(s.emitting, id), Acks(s, id), s.dropped[id],
         LookUp(s.archives, id), Written(s.writes, id))
  }

  ghost predicate IsEmission(events: seq<Envelope>) {
    exists archive :: events == Emitted(archive)
  }

  /** The invariant of one message. */
  ghost predicate Sound(c: Config, v: View) {
    && v.Places() == (if v.delivery.Some? then 1 else 0)
    && (v.upstream > 0 || v.stuck > 0 || v.left.Some? || v.Delivered() ==> v.Accepted() && v.delivery.value.decodable)
    && (v.dropped > 0 ==> v.Accepted())
    && (v.archive.Some? <==> v.stuck > 0 || v.left.Some? || v.Delivered())
    && (v.left.None? && !v.Delivered() ==> v.written == [])
    && (v.left.Some? ==> v.archive == Some(v.written + v.left.value))
    && (v.Delivered() ==> v.archive == Some(v.written))
    && (v.archive.Some? ==> IsEmission(v.archive.value) && (|v.archive.value| > c.eventsBuffer <==> v.stuck > 0))
  }

  ghost predicate Invariant(c: Config, s: State) {
    forall id: nat :: Sound(c, ViewOf(s, id))
  }

  function Count(q: seq<nat>, id: nat): nat
    decreases |q|
  {
    if q == [] then 0 else (if q[0] == id then 1 else 0) + Count(q[1..], id)
  }

  lemma {:induction false} PushCount(q: seq<nat>, id: nat, x: nat)
    ensures Count(q + [id], x) == Count(q, x) + if x == id then 1 else 0
    decreases |q|
  {
    if q == [] {
    } else {
      PushCount(q[1..], id, x);
      assert (q + [id])[1..] == q[1..] + [id];
    }
  }

  lemma {:induction false} CountIsPresence(q: seq<nat>, id: nat)
    ensures Count(q, id) > 0 <==> id in q
    decreases |q|
  {
    if q == [] {
    } else {
      CountIsPresence(q[1..], id);
      assert q == [q[0]] + q[1..];
    }
  }

  /** Steps that only move a message along. */
  predicate IsMove(step: Step) {
    step.Stop? || step.SendPending? || step.StartDownload? || (step.DownloadDone? && step.ok)
    || step.SendUntar? || step.StartUntar? || step.SendAck? || step.Commit?
  }

  lemma SendPendingKeepsView(c: Config, s: State, id: nat)
    requires Enabled(c, s, SendPending)
    ensures ViewOf(After(c, s, SendPending), id) == ViewOf(s, id)
  {
    if s.pending.Acking? {
      PushCount(s.ackChannel, s.pending.id, id);
    } else {
      PushCount(s.downloadChannel, s.pending.id, id);
    }
  }

  lemma SendUntarKeepsView(c: Config, s: State, i: nat, id: nat)
    requires Enabled(c, s, SendUntar(i))
    ensures ViewOf(After(c, s, SendUntar(i)), id) == ViewOf(s, id)
  {
    PushCount(s.untarChannel, i, id);
  }

  lemma SendAckKeepsView(c: Config, s: State, i: nat, id: nat)
    requires Enabled(c, s, SendAck(i))
    ensures ViewOf(After(c, s, SendAck(i)), id) == ViewOf(s, id)
  {
    PushCount(s.ackChannel, i, id);
  }

  lemma TakesKeepViews(c: Config, s: State, step: Step, id: nat)
    requires Enabled(c, s, step) && (step.StartDownload? || step.StartUntar? || step.Commit?)
    ensures ViewOf(After(c, s, step), id) == ViewOf(s, id)
  {
    if step.Commit? {
      PushCount(s.committed, s.ackChannel[0], id);
    }
  }

  lemma MovesKeepViews(c: Config, s: State, step: Step, id: nat)
    requires Enabled(c, s, step) && IsMove(step)
    ensures ViewOf(After(c, s, step), id) == ViewOf(s, id)
  {
    if step.SendPending? {
      SendPendingKeepsView(c, s, id);
    } else if step.SendUntar? {
      SendUntarKeepsView(c, s, step.id, id);
    } else if step.SendAck? {
      SendAckKeepsView(c, s, step.id, id);
    } else if step.StartDownload? || step.StartUntar? || step.Commit? {
      TakesKeepViews(c, s, step, id);
    }
  }

  function ViewExtracted(v: View, result: Extraction, events: seq<Envelope>): View
    requires v.upstream > 0
  {
    match result
    case Failed => v.(upstream := v.upstream - 1, dropped := v.dropped + 1)
    case Stuck => v.(upstream := v.upstream - 1, stuck := v.stuck + 1, archive := Some(events))
    case Returned => v.(upstream := v.upstream - 1, left := Some(events), archive := Some(events))
  }

  /** What the other steps do to the message they are about. */
  function ViewAfter(c: Config, v: View, step: Step): View
    requires step.DownloadDone? || step.Extract? ==> v.upstream > 0
    requires step.WriteNext? ==> v.left.Some? && v.left.value != []
  {
    match step
    case Receive(d) =>
      if !d.Accepted() then v.(delivery := Some(d), acks := v.acks + 1)
      else if !d.decodable then v.(delivery := Some(d), dropped := v.dropped + 1)
      else v.(delivery := Some(d), upstream := v.upstream + 1)
    case DownloadDone(_, _) => v.(upstream := v.upstream - 1, dropped := v.dropped + 1)
    case Extract(_, archive, tempDirOk) =>
      ViewExtracted(v, ExtractionOf(archive, tempDirOk, c.eventsBuffer), Emitted(archive))
    case WriteNext(_) => v.(left := Some(v.left.value[1..]), written := v.written + [v.left.value[0]])
    case EmissionDone(_) => v.(left := None, acks := v.acks + 1)
    case _ => v
  }

  predicate IsAbout(s: State, step: Step, id: nat) {
    match step
    case Receive(_) => id == |s.deliveries|
    case DownloadDone(i, _) => id == i
    case Extract(i, _, _) => id == i
    case WriteNext(i) => id == i
    case EmissionDone(i) => id == i
    case _ => false
  }

  lemma ReceiveChangesView(s: State, d: Delivery, id: nat)
    requires s.pending.Idle?
    ensures var v := ViewOf(s, id);
            ViewOf(Received(s, d), id) ==
              if id != |s.deliveries| then v
              else if !d.Accepted() then v.(delivery := Some(d), acks := v.acks + 1)
              else if !d.decodable then v.(delivery := Some(d), dropped := v.dropped + 1)
              else v.(delivery := Some(d), upstream := v.upstream + 1)
  {
  }

  lemma DropChangesView(c: Config, s: State, i: nat, id: nat)
    requires Enabled(c, s, DownloadDone(i, false))
    ensures id == i ==> Upstream(s, id) > 0
    ensures var v := ViewOf(s, id);
            ViewOf(After(c, s, DownloadDone(i, false)), id) ==
              if id == i then v.(upstream := v.upstream - 1, dropped := v.dropped + 1) else v
  {
  }

  lemma ExtractChangesView(s: State, i: nat, result: Extraction, events: seq<Envelope>, id: nat)
    requires i in s.extracting
    ensures id == i ==> Upstream(s, id) > 0
    ensures ViewOf(Extracted(s, i, result, events), id) ==
            if id == i then ViewExtracted(ViewOf(s, id), result, events) else ViewOf(s, id)
  {
  }

  lemma WriteChangesView(c: Config, s: State, i: nat, id: nat)
    requires Enabled(c, s, WriteNext(i))
    ensures ViewOf(After(c, s, WriteNext(i)), id) ==
            if id == i then ViewAfter(c, ViewOf(s, id), WriteNext(i)) else ViewOf(s, id)
  {
    WrittenOneMore(s.writes, Call(i, s.emitting[i][0]), id);
  }

  lemma EmissionDoneChangesView(c: Config, s: State, i: nat, id: nat)
    requires Enabled(c, s, EmissionDone(i))
    ensures ViewOf(After(c, s, EmissionDone(i)), id) ==
            if id == i then ViewAfter(c, ViewOf(s, id), EmissionDone(i)) else ViewOf(s, id)
  {
  }

  /** The other steps change the view of one message only. */
  lemma ChangesFollowView(c: Config, s: State, step: Step, id: nat)
    requires Enabled(c, s, step) && !IsMove(step)
    ensures IsAbout(s, step, id) && (step.DownloadDone? || step.Extract?) ==> Upstream(s, id) > 0
    ensures ViewOf(After(c, s, step), id) ==
            if IsAbout(s, step, id) then ViewAfter(c, ViewOf(s, id), step) else ViewOf(s, id)
  {
    match step {
      case Receive(d) => ReceiveChangesView(s, d, id);
      case DownloadDone(i, ok) => DropChangesView(c, s, i, id);
      case Extract(i, archive, tempDirOk) =>
          ExtractChangesView(s, i, ExtractionOf(archive, tempDirOk, c.eventsBuffer), Emitted(archive), id);
      case WriteNext(i) => WriteChangesView(c, s, i, id);
      case EmissionDone(i) => EmissionDoneChangesView(c, s, i, id);
    }
  }

  predicate ViewEnabled(v: View, step: Step) {
    && (step.Receive? ==> v.delivery.None?)
    && (step.DownloadDone? || step.Extract? ==> v.upstream > 0)
    && (step.WriteNext? ==> v.left.Some? && v.left.value != [])
    && (step.EmissionDone? ==> v.left == Some([]))
  }

  lemma ExtractedStaysSound(c: Config, v: View, result: Extraction, events: seq<Envelope>)
    requires Sound(c, v) && v.upstream > 0 && IsEmission(events)
    requires !result.Failed? ==> (result.Stuck? <==> |events| > c.eventsBuffer)
    ensures Sound(c, ViewExtracted(v, result, events))
  {
    assert [] + events == events;
  }

  lemma WrittenStaysSound(c: Config, v: View)
    requires Sound(c, v) && v.left.Some? && v.left.value != []
    ensures Sound(c, v.(left := Some(v.left.value[1..]), written := v.written + [v.left.value[0]]))
  {
    assert v.written + v.left.value == (v.written + [v.left.value[0]]) + v.left.value[1..];
  }

  lemma ViewStaysSound(c: Config, v: View, step: Step)
    requires Sound(c, v) && ViewEnabled(v, step)
    ensures Sound(c, ViewAfter(c, v, step))
  {
    match step {
      case Extract(_, archive, tempDirOk) =>
        assert IsEmission(Emitted(archive));
        ExtractedStaysSound(c, v, ExtractionOf(archive, tempDirOk, c.eventsBuffer), Emitted(archive));
      case WriteNext(_) => WrittenStaysSound(c, v);
      case EmissionDone(_) => assert v.written + [] == v.written;
      case _ =>
    }
  }

  lemma {:induction false} RunsKeepInvariant(c: Config, states: seq<State>, i: nat)
    requires Run(c, states) && i < |states|
    ensures Invariant(c, states[i])
  {
    if i == 0 {
    } else {
      RunsKeepInvariant(c, states, i - 1);
      var s := states[i - 1];
      assert Next(c, s, states[i - 1 + 1]);
      var step :| Enabled(c, s, step) && states[i] == After(c, s, step);
      forall id: nat
        ensures Sound(c, ViewOf(states[i], id))
      {
        if IsMove(step) {
          MovesKeepViews(c, s, step, id);
        } else {
          ChangesFollowView(c, s, step, id);
          ViewStaysSound(c, ViewOf(s, id), if IsAbout(s, step, id) then step else Stop);
        }
      }
    }
  }

  // ----------------------------------------------------------------- Theorems

  /** In how many stages a message is: held by the consumer, in one of the
      channels, with one of the goroutines, stuck, dropped or committed. */
  function Stages(s: State, id: nat): nat {
    (if !s.pending.Idle? && s.pending.id == id then 1 else 0)
    + Count(s.downloadChannel, id) + s.downloading[id] + s.downloaded[id]
    + Count(s.untarChannel, id) + s.extracting[id] + s.stuck[id]
    + (if id in s.emitting then 1 else 0) + s.acking[id] + Count(s.ackChannel, id)
    + s.dropped[id] + Count(s.committed, id)
  }

  /** In every reachable state every received message is in exactly one stage,
      and no other message is in any. */
  lemma InOneStage(c: Config, states: seq<State>, i: nat, id: nat)
    requires Run(c, states) && i < |states|
    ensures Stages(states[i], id) == if id < |states[i].deliveries| then 1 else 0
  {
    RunsKeepInvariant(c, states, i);
    assert Sound(c, ViewOf(states[i], id));
  }

  predicate IsAcked(s: State, id: nat) {
    id in s.ackChannel || id in s.committed
  }

  /** Only received messages are acked, each at most once; accepted ones only
      if their payload could be decoded. */
  lemma AckedIsReceived(c: Config, states: seq<State>, i: nat, id: nat)
    requires Run(c, states) && i < |states|
    ensures var s := states[i];
            && Count(s.ackChannel, id) + Count(s.committed, id) <= 1
            && (IsAcked(s, id) ==> id < |s.deliveries|)
            && (IsAcked(s, id) && s.deliveries[id].Accepted() ==> s.deliveries[id].decodable)
  {
    RunsKeepInvariant(c, states, i);
    assert Sound(c, ViewOf(states[i], id));
    var s := states[i];
    CountIsPresence(s.ackChannel, id);
    CountIsPresence(s.committed, id);
  }

  /** The calls of the writer on behalf of a message are always a prefix of
      what its archive emits, the whole of it once the message is acked, and
      none if it was dropped or is stuck. A message is stuck exactly if its
      archive does not fit into the event channel. */
  lemma WritesArePrefix(c: Config, states: seq<State>, i: nat, id: nat)
    requires Run(c, states) && i < |states|
    ensures var s := states[i];
            && (id !in s.archives ==> Written(s.writes, id) == [])
            && (id in s.archives ==> IsEmission(s.archives[id]) && Written(s.writes, id) <= s.archives[id])
            && (id in s.stuck <==> id in s.archives && |s.archives[id]| > c.eventsBuffer)
            && (id in s.dropped || id in s.stuck ==> Written(s.writes, id) == [])
    ensures var s := states[i];
            IsAcked(s, id) ==>
              && id < |s.deliveries|
              && (s.deliveries[id].Accepted() ==> id in s.archives && Written(s.writes, id) == s.archives[id])
  {
    RunsKeepInvariant(c, states, i);
    assert Sound(c, ViewOf(states[i], id));
    CountIsPresence(states[i].ackChannel, id);
    CountIsPresence(states[i].committed, id);
  }

  /** Nothing is left to do for any goroutine. */
  predicate Settled(s: State) {
    && s.pending.Idle? && s.downloadChannel == [] && s.downloading == multiset{} && s.downloaded == multiset{}
    && s.untarChannel == [] && s.extracting == multiset{} && s.emitting == map[] && s.acking == multiset{}
    && s.ackChannel == []
  }

  /** The bounded channels never deadlock: while the listener runs, some
      goroutine can go on exactly if the state is not settled. */
  lemma NoDeadlock(c: Config, s: State)
    requires s.listening
    ensures Settled(s) <==> forall step: Step :: Enabled(c, s, step) ==> step.Receive? || step.Stop?
  {
    if !Settled(s) {
      var step := Possible(c, s);
      assert Enabled(c, s, step);
    }
  }

  /** A step of some goroutine. The channels are drained first. */
  ghost function Possible(c: Config, s: State): (step: Step)
    requires s.listening && !Settled(s)
    ensures Enabled(c, s, step) && !step.Receive? && !step.Stop?
  {
    if s.ackChannel != [] then Commit
    else if s.downloadChannel != [] then StartDownload
    else if s.untarChannel != [] then StartUntar
    else if !s.pending.Idle? then SendPending
    else if s.downloading != multiset{} then (var id :| id in s.downloading; DownloadDone(id, true))
    else if s.downloaded != multiset{} then (var id :| id in s.downloaded; SendUntar(id))
    else if s.extracting != multiset{} then (var id :| id in s.extracting; Extract(id, Archive([], [], [], []), true))
    else if s.acking != multiset{} then (var id :| id in s.acking; SendAck(id))
    else (var id :| id in s.emitting; if s.emitting[id] == [] then EmissionDone(id) else WriteNext(id))
  }

  /** In a settled state every message was committed, dropped, or is stuck on
      an archive that does not fit into the event channel. Those of other
      services were committed; of the accepted ones exactly those whose
      archive was written. */
  lemma SettledMessages(c: Config, states: seq<State>, i: nat, id: nat)
    requires Run(c, states) && i < |states| && Settled(states[i]) && id < |states[i].deliveries|
    ensures var s := states[i];
            && Count(s.committed, id) + s.dropped[id] + s.stuck[id] == 1
            && (!s.deliveries[id].Accepted() ==> id in s.committed)
            && (id in s.stuck <==> id in s.archives && |s.archives[id]| > c.eventsBuffer)
            && (id in s.archives ==> IsEmission(s.archives[id]))
    ensures var s := states[i];
            s.deliveries[id].Accepted() ==>
              (id in s.committed <==> id in s.archives && Written(s.writes, id) == s.archives[id])
  {
    RunsKeepInvariant(c, states, i);
    assert Sound(c, ViewOf(states[i], id));
    CountIsPresence(states[i].committed, id);
    WritesArePrefix(c, states, i, id);
  }
}
