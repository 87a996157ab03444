/** Exact accounting of acknowledgements over every interleaving of the
    consumer loop, the bulk indexer's workers and the commit loop. */
module AckAccounting {
  import opened Projection

  /** One fetched message, with all that decides its fate. The same offset can
      be fetched again after a rewind: that is another delivery. */
  datatype Delivery = Delivery(offset: nat, msg: Message, skipped: bool, env: Env) {
    function Result(): Outcome { Handle(msg, skipped, env) }
  }

  datatype BulkStatus = Queued | Indexed | Rejected

  /** Deliveries are named by their position in `deliveries`. */
  datatype State = State(
    deliveries: seq<Delivery>,
    pending: seq<nat>,          // acks the consumer has still to send
    callbacks: multiset<nat>,   // acks the bulk workers have still to send
    ackChannel: seq<nat>,
    committed: seq<nat>,        // acks handed to CommitMessages
    bulk: map<nat, BulkStatus>,
    running: bool)              // false once Consume has returned

  predicate Init(s: State) {
    s == State([], [], multiset{}, [], [], map[], true)
  }

  /** Fetch and process one message. The loop fetches only after all sends of
      the previous message are done, and returns on an error. */
  predicate Fetch(log: seq<Message>, s: State, s': State, d: Delivery) {
    && s.running && s.pending == []
    && d.offset < |log| && d.msg == log[d.offset]
    && s' == s.(deliveries := s.deliveries + [d],
                pending := Repeat(|s.deliveries|, d.Result().acks),
                bulk := if d.Result().enqueued then s.bulk[|s.deliveries| := Queued] else s.bulk,
                running := !d.Result().stop)
  }

  /** The consumer sends; the channel must have room. */
  predicate Send(capacity: nat, s: State, s': State) {
    && s.pending != [] && |s.ackChannel| < capacity
    && s' == s.(pending := s.pending[1..], ackChannel := s.ackChannel + [s.pending[0]])
  }

  /** A worker reports the fate of one bulk item. */
  predicate BulkDone(s: State, s': State, id: nat, ok: bool) {
    && id in s.bulk && s.bulk[id] == Queued
    && s' == if ok then s.(bulk := s.bulk[id := Indexed], callbacks := s.callbacks + multiset{id})
             else s.(bulk := s.bulk[id := Rejected])
  }

  /** The `OnSuccess` callback sends. */
  predicate Callback(capacity: nat, s: State, s': State, id: nat) {
    && id in s.callbacks && |s.ackChannel| < capacity
    && s' == s.(callbacks := s.callbacks - multiset{id}, ackChannel := s.ackChannel + [id])
  }

  /** `listenForCommit` takes one message. */
  predicate Commit(s: State, s': State) {
    && s.ackChannel != []
    && s' == s.(ackChannel := s.ackChannel[1..], committed := s.committed + [s.ackChannel[0]])
  }

  predicate Quit(s: State, s': State) {
    s.pending == [] && s' == s.(running := false)
  }

  ghost predicate Next(log: seq<Message>, capacity: nat, s: State, s': State) {
    || (exists d :: Fetch(log, s, s', d))
    || Send(capacity, s, s')
    || (exists id, ok :: BulkDone(s, s', id, ok))
    || (exists id :: Callback(capacity, s, s', id))
    || Commit(s, s')
    || Quit(s, s')
  }

  ghost predicate Run(log: seq<Message>, capacity: nat, states: seq<State>) {
    && states != [] && Init(states[0])
    && forall i :: 0 <= i < |states| - 1 ==> Next(log, capacity, states[i], states[i + 1])
  }

  /** All acks of the system, wherever they are. */
  function Acks(s: State): multiset<nat> {
    multiset(s.pending) + s.callbacks + multiset(s.ackChannel) + multiset(s.committed)
  }

  /** The acks owed to a delivery: those of the table, and one more as soon as
      its own bulk item has been indexed. */
  function Due(s: State, id: nat): nat {
    if id >= |s.deliveries| then 0
    else s.deliveries[id].Result().acks + if id in s.bulk && s.bulk[id] == Indexed then 1 else 0
  }

  ghost predicate AcksAreDue(s: State) {
    forall id: nat :: Acks(s)[id] == Due(s, id)
  }

  ghost predicate BulkIsEnqueued(s: State) {
    forall id: nat :: id in s.bulk <==> id < |s.deliveries| && s.deliveries[id].Result().enqueued
  }

  ghost predicate IsFetched(log: seq<Message>, s: State) {
    forall id :: 0 <= id < |s.deliveries| ==>
      s.deliveries[id].offset < |log| && s.deliveries[id].msg == log[s.deliveries[id].offset]
  }

  ghost predicate Invariant(log: seq<Message>, s: State) {
    AcksAreDue(s) && BulkIsEnqueued(s) && IsFetched(log, s)
  }

  lemma {:induction false} RepeatCount(id: nat, n: nat, x: nat)
    ensures multiset(Repeat(id, n))[x] == if x == id then n else 0
    decreases n
  {
    if n == 0 {
    } else {
      assert Repeat(id, n) == Repeat(id, n - 1) + [id];
      RepeatCount(id, n - 1, x);
    }
  }

  lemma FetchAddsAcks(log: seq<Message>, s: State, s': State, d: Delivery, id: nat)
    requires Fetch(log, s, s', d)
    ensures Acks(s')[id] == Acks(s)[id] + if id == |s.deliveries| then d.Result().acks else 0
  {
    RepeatCount(|s.deliveries|, d.Result().acks, id);
  }

  lemma FetchAddsDue(log: seq<Message>, s: State, s': State, d: Delivery, id: nat)
    requires Fetch(log, s, s', d) && |s.deliveries| !in s.bulk
    ensures Due(s', id) == Due(s, id) + if id == |s.deliveries| then d.Result().acks else 0
  {
  }

  lemma FetchKeepsAcks(log: seq<Message>, s: State, s': State, d: Delivery)
    requires AcksAreDue(s) && |s.deliveries| !in s.bulk && Fetch(log, s, s', d)
    ensures AcksAreDue(s')
  {
    forall id: nat
      ensures Acks(s')[id] == Due(s', id)
    {
      FetchAddsAcks(log, s, s', d, id);
      FetchAddsDue(log, s, s', d, id);
      assert Acks(s)[id] == Due(s, id);
    }
  }

  lemma FetchKeepsInvariant(log: seq<Message>, s: State, s': State, d: Delivery)
    requires Invariant(log, s) && Fetch(log, s, s', d)
    ensures Invariant(log, s')
  {
    FetchKeepsAcks(log, s, s', d);
  }

  /** A step that only moves acks around. */
  lemma MoveKeepsInvariant(log: seq<Message>, s: State, s': State)
    requires Invariant(log, s)
    requires Acks(s') == Acks(s) && s'.deliveries == s.deliveries && s'.bulk == s.bulk
    ensures Invariant(log, s')
  {
    forall id: nat
      ensures Acks(s')[id] == Due(s', id)
    {
      assert Acks(s)[id] == Due(s, id);
    }
  }

  lemma SendKeepsAcks(capacity: nat, s: State, s': State)
    requires Send(capacity, s, s')
    ensures Acks(s') == Acks(s)
  {
    assert s.pending == [s.pending[0]] + s.pending[1..];
  }

  lemma CallbackKeepsAcks(capacity: nat, s: State, s': State, id: nat)
    requires Callback(capacity, s, s', id)
    ensures Acks(s') == Acks(s)
  {
    assert s.callbacks == s'.callbacks + multiset{id};
  }

  lemma CommitKeepsAcks(s: State, s': State)
    requires Commit(s, s')
    ensures Acks(s') == Acks(s)
  {
    assert s.ackChannel == [s.ackChannel[0]] + s.ackChannel[1..];
  }

  lemma BulkDoneAddsAcks(s: State, s': State, id: nat, ok: bool, i: nat)
    requires BulkDone(s, s', id, ok)
    ensures Acks(s')[i] == Acks(s)[i] + if ok && i == id then 1 else 0
    ensures id < |s.deliveries| ==> Due(s', i) == Due(s, i) + if ok && i == id then 1 else 0
  {
  }

  lemma BulkDoneKeepsInvariant(log: seq<Message>, s: State, s': State, id: nat, ok: bool)
    requires Invariant(log, s) && BulkDone(s, s', id, ok)
    ensures Invariant(log, s')
  {
    assert s'.deliveries == s.deliveries && s'.bulk.Keys == s.bulk.Keys;
    assert id in s.bulk ==> id < |s.deliveries|;
    forall i: nat
      ensures Acks(s')[i] == Due(s', i)
      ensures i in s'.bulk <==> i < |s'.deliveries| && s'.deliveries[i].Result().enqueued
    {
      assert Acks(s)[i] == Due(s, i);
      BulkDoneAddsAcks(s, s', id, ok, i);
      assert i in s.bulk <==> i < |s.deliveries| && s.deliveries[i].Result().enqueued;
      assert i in s'.bulk.Keys <==> i in s.bulk.Keys;
    }
  }

  lemma NextKeepsInvariant(log: seq<Message>, capacity: nat, s: State, s': State)
    requires Invariant(log, s) && Next(log, capacity, s, s')
    ensures Invariant(log, s')
  {
    if d :| Fetch(log, s, s', d) {
      FetchKeepsInvariant(log, s, s', d);
    } else if Send(capacity, s, s') {
      SendKeepsAcks(capacity, s, s');
      MoveKeepsInvariant(log, s, s');
    } else if id, ok :| BulkDone(s, s', id, ok) {
      BulkDoneKeepsInvariant(log, s, s', id, ok);
    } else if id :| Callback(capacity, s, s', id) {
      CallbackKeepsAcks(capacity, s, s', id);
      MoveKeepsInvariant(log, s, s');
    } else if Commit(s, s') {
      CommitKeepsAcks(s, s');
      MoveKeepsInvariant(log, s, s');
    } else {
      MoveKeepsInvariant(log, s, s');
    }
  }

  lemma {:induction false} RunsKeepInvariant(log: seq<Message>, capacity: nat, states: seq<State>, i: nat)
    requires Run(log, capacity, states) && i < |states|
    ensures Invariant(log, states[i])
  {
    if i == 0 {
    } else {
      RunsKeepInvariant(log, capacity, states, i - 1);
      assert Next(log, capacity, states[i - 1], states[i - 1 + 1]);
      NextKeepsInvariant(log, capacity, states[i - 1], states[i]);
    }
  }

  /** Which deliveries are handed to the bulk indexer. */
  lemma WantedAreEnqueued(log: seq<Message>, capacity: nat, states: seq<State>, i: nat, id: nat)
    requires Run(log, capacity, states) && i < |states|
    ensures var s := states[i];
            id in s.bulk <==> id < |s.deliveries| && IsWanted(s.deliveries[id].msg, s.deliveries[id].skipped)
                              && s.deliveries[id].env.addOk
  {
    RunsKeepInvariant(log, capacity, states, i);
    if id < |states[i].deliveries| {
      var d := states[i].deliveries[id];
      HandleIsTable(d.msg, d.skipped, d.env);
    }
  }

  /** The acks owed to a delivery, in terms of its message. */
  ghost function Owed(s: State, id: nat): nat
    requires id < |s.deliveries|
  {
    var d := s.deliveries[id];
    var indexed := IsWanted(d.msg, d.skipped) && d.env.addOk && id in s.bulk && s.bulk[id] == Indexed;
    Answers(d.msg) + if indexed then 1 else 0
  }

  lemma OwedIsDue(log: seq<Message>, capacity: nat, states: seq<State>, i: nat, id: nat)
    requires Run(log, capacity, states) && i < |states| && id < |states[i].deliveries|
    ensures Due(states[i], id) == Owed(states[i], id)
  {
    WantedAreEnqueued(log, capacity, states, i, id);
    var d := states[i].deliveries[id];
    HandleIsTable(d.msg, d.skipped, d.env);
  }

  /** In every reachable state the acks of every delivery, sent or still to be
      sent, are exactly those it is owed. */
  lemma AcksAreExact(log: seq<Message>, capacity: nat, states: seq<State>, i: nat, id: nat)
    requires Run(log, capacity, states) && i < |states| && id < |states[i].deliveries|
    ensures Acks(states[i])[id] == Owed(states[i], id)
  {
    RunsKeepInvariant(log, capacity, states, i);
    assert Acks(states[i])[id] == Due(states[i], id);
    OwedIsDue(log, capacity, states, i, id);
  }

  /** Only fetched messages are ever handed to commit, and none more often
      than it is owed. */
  lemma OnlyFetchedIsCommitted(log: seq<Message>, capacity: nat, states: seq<State>, i: nat, id: nat)
    requires Run(log, capacity, states) && i < |states| && id in states[i].committed
    ensures id < |states[i].deliveries|
    ensures states[i].deliveries[id].offset < |log| &&
            states[i].deliveries[id].msg == log[states[i].deliveries[id].offset]
    ensures multiset(states[i].committed)[id] <= Owed(states[i], id)
  {
    RunsKeepInvariant(log, capacity, states, i);
    assert id in multiset(states[i].committed);
    assert Acks(states[i])[id] == Due(states[i], id);
    OwedIsDue(log, capacity, states, i, id);
  }

  /** Once nothing is on its way any more, what was committed is what was
      owed. */
  lemma SettledCommits(log: seq<Message>, capacity: nat, states: seq<State>, i: nat, id: nat)
    requires Run(log, capacity, states) && i < |states| && id < |states[i].deliveries|
    requires states[i].pending == [] && states[i].callbacks == multiset{} && states[i].ackChannel == []
    ensures multiset(states[i].committed)[id] == Owed(states[i], id)
  {
    AcksAreExact(log, capacity, states, i, id);
  }

  /** Deliveries that end the consumer: an unknown name, a failed write or a
      failed enqueue. */
  ghost predicate Failed(d: Delivery) {
    Fails(d.msg, d.skipped, d.env)
  }

  lemma NextStopsOnFailure(log: seq<Message>, capacity: nat, s: State, s': State)
    requires Next(log, capacity, s, s')
    ensures s'.deliveries == s.deliveries ||
            (s.running && |s'.deliveries| == |s.deliveries| + 1 && s'.deliveries[..|s.deliveries|] == s.deliveries &&
             (s'.running <==> !Failed(s'.deliveries[|s.deliveries|])))
    ensures s'.running ==> s.running
    ensures s'.deliveries == s.deliveries && s.running && !s'.running ==> Quit(s, s')
  {
    if d :| Fetch(log, s, s', d) {
      HandleIsTable(d.msg, d.skipped, d.env);
    }
  }

  /** The consumer goes on until a delivery fails or it is told to quit; a
      delivery that fails is the last one. */
  lemma {:induction false} FailureIsLast(log: seq<Message>, capacity: nat, states: seq<State>, i: nat)
    requires Run(log, capacity, states) && i < |states|
    ensures forall id :: 0 <= id < |states[i].deliveries| && Failed(states[i].deliveries[id]) ==>
              !states[i].running && id == |states[i].deliveries| - 1
    ensures !states[i].running ==>
              || (states[i].deliveries != [] && Failed(states[i].deliveries[|states[i].deliveries| - 1]))
              || exists j :: 0 <= j < i && Quit(states[j], states[j + 1])
  {
    if i == 0 {
    } else {
      FailureIsLast(log, capacity, states, i - 1);
      assert Next(log, capacity, states[i - 1], states[i - 1 + 1]);
      NextStopsOnFailure(log, capacity, states[i - 1], states[i]);
    }
  }

  /** Acks are committed in the order in which they were sent: the log of all
      acks sent only grows. */
  lemma {:induction false} CommitsFollowSends(log: seq<Message>, capacity: nat, states: seq<State>, i: nat, j: nat)
    requires Run(log, capacity, states) && i <= j < |states|
    ensures states[i].committed + states[i].ackChannel <= states[j].committed + states[j].ackChannel
    decreases j
  {
    if i < j {
      CommitsFollowSends(log, capacity, states, i, j - 1);
      assert Next(log, capacity, states[j - 1], states[j - 1 + 1]);
      NextExtendsSends(log, capacity, states[j - 1], states[j]);
    }
  }

  lemma NextExtendsSends(log: seq<Message>, capacity: nat, s: State, s': State)
    requires Next(log, capacity, s, s')
    ensures s.committed + s.ackChannel <= s'.committed + s'.ackChannel
  {
    if Commit(s, s') {
      assert s'.committed + s'.ackChannel == s.committed + s.ackChannel;
    } else {
      assert s'.committed == s.committed && s.ackChannel <= s'.ackChannel;
    }
  }

  lemma {:induction false} AckChannelIsBounded(log: seq<Message>, capacity: nat, states: seq<State>, i: nat)
    requires Run(log, capacity, states) && i < |states|
    ensures |states[i].ackChannel| <= capacity
  {
    if i == 0 {
    } else {
      AckChannelIsBounded(log, capacity, states, i - 1);
      assert Next(log, capacity, states[i - 1], states[i - 1 + 1]);
    }
  }

  /** After an unknown name, a failed write or a failed enqueue the consumer
      has stopped for good: no message is fetched any more. */
  lemma {:induction false} StoppedFetchesNothing(log: seq<Message>, capacity: nat, states: seq<State>, i: nat, j: nat)
    requires Run(log, capacity, states) && i <= j < |states| && !states[i].running
    ensures !states[j].running && states[j].deliveries == states[i].deliveries
    decreases j
  {
    if i < j {
      StoppedFetchesNothing(log, capacity, states, i, j - 1);
      assert Next(log, capacity, states[j - 1], states[j - 1 + 1]);
    }
  }
}
