/** Expiry over whole runs of the snapshot store: what is readable when. */
module SnapshotExpiry {
  import opened JsonValues
  import opened SnapshotRepository

  /** The keyspace after a run of `hset` calls on an empty one. */
  function After(ws: seq<Write>, expiration: int): Keyspace
    decreases |ws|
  {
    if ws == [] then map[] else AfterHSet(After(ws[..|ws| - 1], expiration), ws[|ws| - 1], expiration)
  }

  /** Both commands of every call succeed, and time does not run backwards. */
  ghost predicate GoodRun(ws: seq<Write>) {
    && (forall i :: 0 <= i < |ws| ==> ws[i].hsetOk && ws[i].expireOk)
    && (forall i, j :: 0 <= i < j < |ws| ==> ws[i].now <= ws[j].now)
  }

  /** The time of the last write to a key. */
  function LastWriteTo(ws: seq<Write>, key: string): Option<int>
    decreases |ws|
  {
    if ws == [] then None
    else if ws[|ws| - 1].cell.key == key then Some(ws[|ws| - 1].now)
    else LastWriteTo(ws[..|ws| - 1], key)
  }

  /** Write `i` is the last one to its cell. */
  predicate LastToCell(ws: seq<Write>, i: nat)
    requires i < |ws|
  {
    forall j :: i < j < |ws| ==> ws[j].cell != ws[i].cell
  }

  /** From write `i` to time `t` the hash was never left alone for as long as
      the expiration. */
  predicate KeptAlive(ws: seq<Write>, i: nat, t: int, expiration: int)
    requires i < |ws|
    decreases |ws|
  {
    var last := ws[|ws| - 1];
    if i == |ws| - 1 then t < last.now + expiration
    else if last.cell.key == ws[i].cell.key
    then KeptAlive(ws[..|ws| - 1], i, last.now, expiration) && t < last.now + expiration
    else KeptAlive(ws[..|ws| - 1], i, t, expiration)
  }

  /** A stored hash always expires one expiration after the last write to any
      of its fields; in particular all clusters expire together. */
  lemma {:induction false} DeadlineIsLastWrite(ws: seq<Write>, expiration: int, key: string)
    requires GoodRun(ws)
    ensures key in After(ws, expiration) <==> LastWriteTo(ws, key).Some?
    ensures key in After(ws, expiration) ==>
              After(ws, expiration)[key].deadline == Some(LastWriteTo(ws, key).value + expiration)
    decreases |ws|
  {
    if ws == [] {
    } else {
      DeadlineIsLastWrite(ws[..|ws| - 1], expiration, key);
    }
  }

  /** A field is readable exactly if its hash was kept alive ever since the
      last write to it, and then it holds what that write wrote. */
  lemma {:induction false} ReadableExactly(ws: seq<Write>, expiration: int, i: nat, t: int)
    requires GoodRun(ws) && i < |ws| && LastToCell(ws, i)
    ensures ws[i].cell.field in Fields(After(ws, expiration), ws[i].cell.key, t) <==> KeptAlive(ws, i, t, expiration)
    ensures KeptAlive(ws, i, t, expiration) ==>
              Fields(After(ws, expiration), ws[i].cell.key, t)[ws[i].cell.field] == ws[i].payload
    decreases |ws|
  {
    if i < |ws| - 1 {
      var init, last := ws[..|ws| - 1], ws[|ws| - 1];
      ReadableExactly(init, expiration, i, t);
      ReadableExactly(init, expiration, i, last.now);
      assert last.cell != ws[i].cell;
    }
  }

  /** A field that was never written is never readable. */
  lemma {:induction false} UnwrittenUnreadable(ws: seq<Write>, expiration: int, cell: Cell, t: int)
    requires forall i :: 0 <= i < |ws| ==> ws[i].cell != cell
    ensures cell.field !in Fields(After(ws, expiration), cell.key, t)
    decreases |ws|
  {
    if ws == [] {
    } else {
      UnwrittenUnreadable(ws[..|ws| - 1], expiration, cell, t);
      UnwrittenUnreadable(ws[..|ws| - 1], expiration, cell, ws[|ws| - 1].now);
    }
  }

  lemma {:induction false} KeptAliveForExpiration(ws: seq<Write>, i: nat, t: int, expiration: int)
    requires GoodRun(ws) && i < |ws| && ws[|ws| - 1].now <= t < ws[i].now + expiration
    ensures KeptAlive(ws, i, t, expiration)
    decreases |ws|
  {
    if i < |ws| - 1 {
      var init, last := ws[..|ws| - 1], ws[|ws| - 1];
      KeptAliveForExpiration(init, i, t, expiration);
      KeptAliveForExpiration(init, i, last.now, expiration);
    }
  }

  /** Every field is readable for at least the expiration after it is written,
      unless it is overwritten. */
  lemma ReadableForExpiration(ws: seq<Write>, expiration: int, i: nat, t: int)
    requires GoodRun(ws) && i < |ws| && LastToCell(ws, i)
    requires ws[|ws| - 1].now <= t < ws[i].now + expiration
    ensures ws[i].cell.field in Fields(After(ws, expiration), ws[i].cell.key, t)
    ensures Fields(After(ws, expiration), ws[i].cell.key, t)[ws[i].cell.field] == ws[i].payload
  {
    KeptAliveForExpiration(ws, i, t, expiration);
    ReadableExactly(ws, expiration, i, t);
  }
}
