/** The snapshot over a log that is processed forward but may be rewound to any
    earlier offset, any number of times, as after a crash. Writes succeed and
    nothing expires. */
module Rewind {
  import opened Enumerations
  import opened JsonValues
  import opened SnapshotRepository
  import opened Projection

  type Log = seq<Message>

  /** The contents of the snapshot, cell by cell. */
  type Contents = map<Cell, Json>

  function CellOf(msg: Message): Option<Cell> {
    if msg.Decoded? then StateCell(msg.event) else None
  }

  function Apply(store: Contents, msg: Message): Contents {
    match CellOf(msg)
    case None => store
    case Some(cell) => store[cell := msg.event.payload]
  }

  /** One straight pass over the first `n` messages. */
  function StraightPass(log: Log, n: nat): Contents
    requires n <= |log|
  {
    if n == 0 then map[] else Apply(StraightPass(log, n - 1), log[n - 1])
  }

  /** `high` is the highest position ever reached. */
  datatype State = State(position: nat, high: nat, store: Contents)

  function Max(a: nat, b: nat): nat { if a < b then b else a }

  predicate Init(s: State) {
    s == State(0, 0, map[])
  }

  predicate Advance(log: Log, s: State, s': State) {
    && s.position < |log|
    && s' == State(s.position + 1, Max(s.high, s.position + 1), Apply(s.store, log[s.position]))
  }

  predicate RewindTo(s: State, s': State) {
    s'.position <= s.position && s'.high == s.high && s'.store == s.store
  }

  predicate Next(log: Log, s: State, s': State) {
    Advance(log, s, s') || RewindTo(s, s')
  }

  ghost predicate Run(log: Log, states: seq<State>) {
    && states != [] && Init(states[0])
    && forall i :: 0 <= i < |states| - 1 ==> Next(log, states[i], states[i + 1])
  }

  function Lookup(store: Contents, cell: Cell): Option<Json> {
    if cell in store then Some(store[cell]) else None
  }

  predicate Writes(log: Log, lo: nat, hi: nat, cell: Cell)
    requires lo <= hi <= |log|
  {
    exists i :: lo <= i < hi && CellOf(log[i]) == Some(cell)
  }

  /** Every cell that is not about to be written again agrees with the
      straight pass up to the highest position. */
  ghost predicate Invariant(log: Log, s: State) {
    && s.position <= s.high <= |log|
    && forall cell :: !Writes(log, s.position, s.high, cell) ==>
         Lookup(s.store, cell) == Lookup(StraightPass(log, s.high), cell)
  }

  lemma {:induction false} UnwrittenIsKept(log: Log, lo: nat, hi: nat, cell: Cell)
    requires lo <= hi <= |log| && !Writes(log, lo, hi, cell)
    ensures Lookup(StraightPass(log, hi), cell) == Lookup(StraightPass(log, lo), cell)
    decreases hi
  {
    if lo < hi {
      assert !Writes(log, lo, hi - 1, cell);
      UnwrittenIsKept(log, lo, hi - 1, cell);
    }
  }

  lemma AdvanceKeepsInvariant(log: Log, s: State, s': State)
    requires Invariant(log, s) && Advance(log, s, s')
    ensures Invariant(log, s')
  {
    var p := s.position;
    forall cell | !Writes(log, p + 1, s'.high, cell)
      ensures Lookup(s'.store, cell) == Lookup(StraightPass(log, s'.high), cell)
    {
      if CellOf(log[p]) == Some(cell) {
        UnwrittenIsKept(log, p + 1, s'.high, cell);
      } else {
        assert !Writes(log, p, s.high, cell);
        if s.high == p {
          assert StraightPass(log, p + 1) == Apply(StraightPass(log, p), log[p]);
        }
      }
    }
  }

  lemma RewindKeepsInvariant(log: Log, s: State, s': State)
    requires Invariant(log, s) && RewindTo(s, s')
    ensures Invariant(log, s')
  {
    forall cell | !Writes(log, s'.position, s'.high, cell)
      ensures !Writes(log, s.position, s.high, cell)
    {
    }
  }

  lemma {:induction false} RunsKeepInvariant(log: Log, states: seq<State>, i: nat)
    requires Run(log, states) && i < |states|
    ensures Invariant(log, states[i])
  {
    if i == 0 {
    } else {
      RunsKeepInvariant(log, states, i - 1);
      assert Next(log, states[i - 1], states[i - 1 + 1]);
      if Advance(log, states[i - 1], states[i]) {
        AdvanceKeepsInvariant(log, states[i - 1], states[i]);
      } else {
        RewindKeepsInvariant(log, states[i - 1], states[i]);
      }
    }
  }

  /** Convergence: whenever a run, however often rewound, stands at the highest
      position it has reached, the snapshot is that of one straight pass. */
  lemma RewindsConverge(log: Log, states: seq<State>, i: nat)
    requires Run(log, states) && i < |states| && states[i].position == states[i].high
    ensures states[i].high <= |log|
    ensures states[i].store == StraightPass(log, states[i].high)
  {
    RunsKeepInvariant(log, states, i);
    var s := states[i];
    var straight := StraightPass(log, s.high);
    forall cell
      ensures Lookup(s.store, cell) == Lookup(straight, cell)
    {
      assert !Writes(log, s.position, s.high, cell);
    }
    forall cell
      ensures cell in s.store <==> cell in straight
      ensures cell in s.store ==> s.store[cell] == straight[cell]
    {
      assert Lookup(s.store, cell) == Lookup(straight, cell);
    }
  }

  /** At any point of any run, a cell not written between the position and the
      highest position holds its last write before the position. */
  lemma UnwrittenHoldsLastWrite(log: Log, states: seq<State>, i: nat, cell: Cell)
    requires Run(log, states) && i < |states|
    requires states[i].position <= states[i].high <= |log|
    requires !Writes(log, states[i].position, states[i].high, cell)
    ensures Lookup(states[i].store, cell) == Lookup(StraightPass(log, states[i].position), cell)
  {
    RunsKeepInvariant(log, states, i);
    UnwrittenIsKept(log, states[i].position, states[i].high, cell);
  }

  /** The straight pass leaves in a cell the payload of the last message for
      it, and nothing in a cell no message is for. */
  lemma {:induction false} StraightPassIsLastWrite(log: Log, n: nat, cell: Cell)
    requires n <= |log|
    ensures !Writes(log, 0, n, cell) ==> cell !in StraightPass(log, n)
    ensures forall i :: 0 <= i < n && CellOf(log[i]) == Some(cell) && !Writes(log, i + 1, n, cell) ==>
              Lookup(StraightPass(log, n), cell) == Some(log[i].event.payload)
  {
    if !Writes(log, 0, n, cell) {
      UnwrittenIsKept(log, 0, n, cell);
    }
    forall i | 0 <= i < n && CellOf(log[i]) == Some(cell) && !Writes(log, i + 1, n, cell)
      ensures Lookup(StraightPass(log, n), cell) == Some(log[i].event.payload)
    {
      UnwrittenIsKept(log, i + 1, n, cell);
    }
  }

  // ------------------------------------------------------------ Real snapshot

  /** The keyspace after the first `n` messages, processed one after the other
      by the projection in the surroundings `envs`. */
  function StoreAfter(log: Log, envs: seq<Env>, expiration: int, n: nat): Keyspace
    requires n <= |log| && n <= |envs|
  {
    if n == 0 then map[]
    else SnapshotAfter(StoreAfter(log, envs, expiration, n - 1), log[n - 1], envs[n - 1], expiration)
  }

  /** All commands of the first `n` messages succeed, time does not run
      backwards, and at time `t` nothing has expired yet. */
  ghost predicate GoodWeather(envs: seq<Env>, n: nat, expiration: int, t: int)
    requires n <= |envs|
  {
    && (forall i :: 0 <= i < n ==> envs[i].hsetOk && envs[i].expireOk && envs[i].now <= t < envs[i].now + expiration)
    && (forall i, j :: 0 <= i < j < n ==> envs[i].now <= envs[j].now)
  }

  function ReadCell(keys: Keyspace, cell: Cell, now: int): Option<Json> {
    var fields := Fields(keys, cell.key, now);
    if cell.field in fields then Some(fields[cell.field]) else None
  }

  /** A write extends the life of its whole hash. */
  lemma ReadAfterHSet(keys: Keyspace, w: Write, expiration: int, t: int, cell: Cell)
    requires w.hsetOk && w.expireOk && t < w.now + expiration
    ensures ReadCell(AfterHSet(keys, w, expiration), cell, t) ==
            if cell == w.cell then Some(w.payload)
            else if cell.key == w.cell.key then ReadCell(keys, cell, w.now)
            else ReadCell(keys, cell, t)
  {
  }

  /** The refinement: what can be read from the keyspace, hash by hash and with
      its deadlines, is the straight pass over the cells. */
  lemma {:induction false} StoreIsStraightPass(log: Log, envs: seq<Env>, expiration: int, n: nat, t: int, cell: Cell)
    requires n <= |log| && n <= |envs| && GoodWeather(envs, n, expiration, t)
    ensures ReadCell(StoreAfter(log, envs, expiration, n), cell, t) == Lookup(StraightPass(log, n), cell)
    decreases n
  {
    if n == 0 {
    } else {
      StoreIsStraightPass(log, envs, expiration, n - 1, t, cell);
      StoreIsStraightPass(log, envs, expiration, n - 1, envs[n - 1].now, cell);
      var msg, env := log[n - 1], envs[n - 1];
      if CellOf(msg).Some? {
        var w := Write(CellOf(msg).value, msg.event.payload, env.now, env.hsetOk, env.expireOk);
        ReadAfterHSet(StoreAfter(log, envs, expiration, n - 1), w, expiration, t, cell);
      }
    }
  }

  /** A run over the real keyspace. `visited` and `envs` record which messages
      were processed, rewinds included, and in what surroundings. */
  datatype Replica = Replica(position: nat, high: nat, keys: Keyspace, visited: Log, envs: seq<Env>)

  predicate Process(log: Log, expiration: int, r: Replica, r': Replica, env: Env) {
    && r.position < |log|
    && r' == Replica(r.position + 1, Max(r.high, r.position + 1),
                     SnapshotAfter(r.keys, log[r.position], env, expiration),
                     r.visited + [log[r.position]], r.envs + [env])
  }

  predicate Restart(r: Replica, r': Replica) {
    r'.position <= r.position && r' == r.(position := r'.position)
  }

  ghost predicate ReplicaNext(log: Log, expiration: int, r: Replica, r': Replica) {
    Restart(r, r') || exists env :: Process(log, expiration, r, r', env)
  }

  ghost predicate ReplicaRun(log: Log, expiration: int, rs: seq<Replica>) {
    && rs != [] && rs[0] == Replica(0, 0, map[], [], [])
    && forall i :: 0 <= i < |rs| - 1 ==> ReplicaNext(log, expiration, rs[i], rs[i + 1])
  }

  lemma {:induction false} LongerLog(log: Log, msg: Message, n: nat)
    requires n <= |log|
    ensures StraightPass(log + [msg], n) == StraightPass(log, n)
    decreases n
  {
    if n == 0 {
    } else {
      LongerLog(log, msg, n - 1);
    }
  }

  lemma {:induction false} LongerHistory(log: Log, msg: Message, envs: seq<Env>, env: Env, expiration: int, n: nat)
    requires n <= |log| && n <= |envs|
    ensures StoreAfter(log + [msg], envs + [env], expiration, n) == StoreAfter(log, envs, expiration, n)
    decreases n
  {
    if n == 0 {
    } else {
      LongerHistory(log, msg, envs, env, expiration, n - 1);
    }
  }

  /** The keyspace is what processing the visited messages in order leaves. */
  ghost predicate FollowsHistory(expiration: int, r: Replica) {
    |r.visited| == |r.envs| && r.keys == StoreAfter(r.visited, r.envs, expiration, |r.visited|)
  }

  function Abstract(r: Replica): State {
    State(r.position, r.high, StraightPass(r.visited, |r.visited|))
  }

  lemma ReplicaStep(log: Log, expiration: int, r: Replica, r': Replica)
    requires ReplicaNext(log, expiration, r, r') && FollowsHistory(expiration, r)
    ensures FollowsHistory(expiration, r') && Next(log, Abstract(r), Abstract(r'))
  {
    if !Restart(r, r') {
      var env :| Process(log, expiration, r, r', env);
      LongerLog(r.visited, log[r.position], |r.visited|);
      LongerHistory(r.visited, log[r.position], r.envs, env, expiration, |r.visited|);
    }
  }

  lemma {:induction false} ReplicasFollowHistory(log: Log, expiration: int, rs: seq<Replica>, i: nat)
    requires ReplicaRun(log, expiration, rs) && i < |rs|
    ensures FollowsHistory(expiration, rs[i])
    ensures Run(log, Image(Abstract, rs[..i + 1]))
  {
    if i == 0 {
      assert rs[..1] == [rs[0]];
    } else {
      ReplicasFollowHistory(log, expiration, rs, i - 1);
      assert ReplicaNext(log, expiration, rs[i - 1], rs[i - 1 + 1]);
      ReplicaStep(log, expiration, rs[i - 1], rs[i]);
      var before, after := Image(Abstract, rs[..i]), Image(Abstract, rs[..i + 1]);
      assert after == before + [Abstract(rs[i])];
      forall k | 0 <= k < |after| - 1 ensures Next(log, after[k], after[k + 1]) {
        assert k < i - 1 ==> Next(log, before[k], before[k + 1]);
      }
    }
  }

  /** Convergence of the real snapshot: whenever a run stands at the highest
      position it has reached and nothing has expired, every cell reads as
      after one straight pass, however often the run was rewound. */
  lemma SnapshotsConverge(log: Log, expiration: int, rs: seq<Replica>, i: nat, t: int, cell: Cell)
    requires ReplicaRun(log, expiration, rs) && i < |rs| && rs[i].position == rs[i].high
    requires GoodWeather(rs[i].envs, |rs[i].envs|, expiration, t)
    ensures rs[i].high <= |log|
    ensures ReadCell(rs[i].keys, cell, t) == Lookup(StraightPass(log, rs[i].high), cell)
  {
    ReplicasFollowHistory(log, expiration, rs, i);
    var states := Image(Abstract, rs[..i + 1]);
    assert states[i] == Abstract(rs[i]);
    RewindsConverge(log, states, i);
    StoreIsStraightPass(rs[i].visited, rs[i].envs, expiration, |rs[i].visited|, t, cell);
  }
}
