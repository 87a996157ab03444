/** Go visits the entries of a map in an arbitrary order. An iteration is
    modelled as an enumeration of the keys, and a loop over it as a fold; a
    fold of commuting steps does not depend on the enumeration. */
module Enumerations {

  /** `ks` lists every element of `s` exactly once. */
  ghost predicate Enumerates<K(!new)>(ks: seq<K>, s: set<K>) {
    && (forall k :: k in s <==> k in ks)
    && (forall i, j :: 0 <= i < j < |ks| ==> ks[i] != ks[j])
  }

  function Fold<E, S>(op: (E, S) -> S, s: S, es: seq<E>): S
    decreases |es|
  {
    if es == [] then s else Fold(op, op(es[0], s), es[1..])
  }

  ghost predicate Commute<E, S(!new)>(op: (E, S) -> S, a: E, b: E) {
    forall s: S :: op(a, op(b, s)) == op(b, op(a, s))
  }

  ghost predicate AllCommute<E, S(!new)>(op: (E, S) -> S, es: seq<E>) {
    forall a, b :: a in es && b in es && a != b ==> Commute(op, a, b)
  }

  lemma {:induction false} FoldAppend<E, S>(op: (E, S) -> S, s: S, xs: seq<E>, ys: seq<E>)
    ensures Fold(op, s, xs + ys) == Fold(op, Fold(op, s, xs), ys)
    decreases |xs|
  {
    if xs == [] {
      assert xs + ys == ys;
    } else {
      assert (xs + ys)[1..] == xs[1..] + ys;
      FoldAppend(op, op(xs[0], s), xs[1..], ys);
    }
  }

  /** A step that commutes with all earlier ones can be taken first. */
  lemma {:induction false} FoldToFront<E, S(!new)>(op: (E, S) -> S, s: S, pre: seq<E>, e: E)
    requires forall a :: a in pre && a != e ==> Commute(op, a, e)
    ensures Fold(op, s, pre + [e]) == Fold(op, op(e, s), pre)
    decreases |pre|
  {
    if pre == [] {
      assert pre + [e] == [e];
    } else {
      assert (pre + [e])[1..] == pre[1..] + [e];
      FoldToFront(op, op(pre[0], s), pre[1..], e);
      assert pre[0] != e ==> Commute(op, pre[0], e);
    }
  }

  /** A list cut at an occurrence of `e`. */
  lemma CutAt<E>(xs: seq<E>, e: E) returns (pre: seq<E>, post: seq<E>)
    requires e in xs
    ensures xs == pre + [e] + post
    ensures multiset(pre + post) == multiset(xs) - multiset{e}
  {
    var i :| 0 <= i < |xs| && xs[i] == e;
    pre, post := xs[..i], xs[i + 1..];
    assert xs == pre + [e] + post;
  }

  lemma FoldCut<E, S(!new)>(op: (E, S) -> S, s: S, pre: seq<E>, e: E, post: seq<E>)
    requires forall a :: a in pre && a != e ==> Commute(op, a, e)
    ensures Fold(op, s, pre + [e] + post) == Fold(op, op(e, s), pre + post)
  {
    FoldAppend(op, s, pre + [e], post);
    FoldToFront(op, s, pre, e);
    FoldAppend(op, op(e, s), pre, post);
  }

  /** Commuting steps give one result in every order. */
  lemma {:induction false} FoldPermuted<E, S(!new)>(op: (E, S) -> S, s: S, xs: seq<E>, ys: seq<E>)
    requires multiset(xs) == multiset(ys)
    requires AllCommute(op, xs)
    ensures Fold(op, s, xs) == Fold(op, s, ys)
    decreases |ys|
  {
    if ys == [] {
      assert |multiset(xs)| == 0;
    } else {
      var e := ys[0];
      assert ys == [e] + ys[1..];
      assert e in multiset(xs);
      var pre, post := CutAt(xs, e);
      FoldCut(op, s, pre, e, post);
      assert multiset(pre + post) == multiset(ys[1..]);
      assert AllCommute(op, pre + post) by {
        forall a | a in pre + post ensures a in xs { assert a in multiset(xs); }
      }
      FoldPermuted(op, op(e, s), pre + post, ys[1..]);
    }
  }

  /** An enumeration holds every element once, so any two agree as bags. */
  lemma EnumerationAsMultiset<K(!new)>(ks: seq<K>, s: set<K>)
    requires Enumerates(ks, s)
    ensures multiset(ks) == multiset(s)
  {
    forall k: K
      ensures multiset(ks)[k] == multiset(s)[k]
    {
      DistinctCount(ks, k);
      assert k in s <==> k in ks;
    }
  }

  lemma {:induction false} DistinctCount<K(!new)>(ks: seq<K>, k: K)
    requires forall i, j :: 0 <= i < j < |ks| ==> ks[i] != ks[j]
    ensures multiset(ks)[k] == if k in ks then 1 else 0
    decreases |ks|
  {
    if ks == [] {
    } else {
      assert ks == [ks[0]] + ks[1..];
      DistinctCount(ks[1..], k);
      assert ks[0] !in ks[1..];
    }
  }

  /** The images of a list under `f`. */
  function Image<A, B>(f: A -> B, xs: seq<A>): (r: seq<B>)
    ensures |r| == |xs| && forall i :: 0 <= i < |xs| ==> r[i] == f(xs[i])
  {
    seq(|xs|, i requires 0 <= i < |xs| => f(xs[i]))
  }

  /** The bag of everything the elements of a list contribute. */
  function Bag<A, B>(f: A -> multiset<B>, xs: seq<A>): multiset<B>
    decreases |xs|
  {
    if xs == [] then multiset{} else f(xs[0]) + Bag(f, xs[1..])
  }

  lemma {:induction false} BagAppend<A, B>(f: A -> multiset<B>, xs: seq<A>, ys: seq<A>)
    ensures Bag(f, xs + ys) == Bag(f, xs) + Bag(f, ys)
    decreases |xs|
  {
    if xs == [] {
      assert xs + ys == ys;
    } else {
      assert (xs + ys)[1..] == xs[1..] + ys;
      BagAppend(f, xs[1..], ys);
    }
  }

  lemma BagCut<A, B>(f: A -> multiset<B>, pre: seq<A>, e: A, post: seq<A>)
    ensures Bag(f, pre + [e] + post) == f(e) + Bag(f, pre + post)
  {
    assert pre + [e] + post == pre + ([e] + post);
    BagAppend(f, pre, [e] + post);
    assert ([e] + post)[1..] == post;
    BagAppend(f, pre, post);
  }

  /** A bag does not depend on the order of the list. */
  lemma {:induction false} BagPermuted<A, B>(f: A -> multiset<B>, xs: seq<A>, ys: seq<A>)
    requires multiset(xs) == multiset(ys)
    ensures Bag(f, xs) == Bag(f, ys)
    decreases |ys|
  {
    if ys == [] {
      assert |multiset(xs)| == 0;
    } else {
      var e := ys[0];
      assert ys == [e] + ys[1..];
      assert e in multiset(xs);
      var pre, post := CutAt(xs, e);
      BagCut(f, pre, e, post);
      assert multiset(pre + post) == multiset(ys[1..]);
      BagPermuted(f, pre + post, ys[1..]);
    }
  }

  lemma {:induction false} ImageAsBag<A, B>(f: A -> B, xs: seq<A>)
    ensures multiset(Image(f, xs)) == Bag(x => multiset{f(x)}, xs)
    decreases |xs|
  {
    if xs == [] {
    } else {
      ImageAsBag(f, xs[1..]);
      assert Image(f, xs) == [f(xs[0])] + Image(f, xs[1..]);
    }
  }

  /** Mapping a permutation gives a permutation. */
  lemma ImagePermuted<A, B>(f: A -> B, xs: seq<A>, ys: seq<A>)
    requires multiset(xs) == multiset(ys)
    ensures multiset(Image(f, xs)) == multiset(Image(f, ys))
  {
    BagPermuted(x => multiset{f(x)}, xs, ys);
    ImageAsBag(f, xs);
    ImageAsBag(f, ys);
  }
}
