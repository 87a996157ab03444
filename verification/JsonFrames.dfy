/** What the passes of the path interpreter leave alone and what they do to a
    list: locations apart from every path keep their value, and the elements
    of a list are edited one by one, in place. */
module JsonFrames {
  import opened JsonValues
  import opened Enumerations
  import opened JsonEdit
  import opened JsonEditLaws

  datatype Step = Key(key: string) | Idx(index: nat)

  /** A location inside a document, through objects and lists. */
  type Loc = seq<Step>

  function At(j: Json, loc: Loc): Option<Json>
    decreases |loc|
  {
    if loc == [] then Some(j)
    else match (j, loc[0])
         case (Obj(m), Key(k)) => if k in m then At(m[k], loc[1..]) else None
         case (Arr(es), Idx(i)) => if i < |es| then At(es[i], loc[1..]) else None
         case _ => None
  }

  function KeyLoc(keys: seq<string>): Loc
    decreases |keys|
  {
    if keys == [] then [] else [Key(keys[0])] + KeyLoc(keys[1..])
  }

  /** The location and the key path part ways at some step. */
  predicate Away(loc: Loc, keys: seq<string>)
    decreases |keys|
  {
    loc != [] && keys != [] && (loc[0] != Key(keys[0]) || Away(loc[1..], keys[1..]))
  }

  /** As `Away`, for `parent[*].child`. */
  predicate AwayEach(loc: Loc, parent: seq<string>, child: seq<string>)
    decreases |parent|
  {
    && loc != []
    && if parent == [] then loc[0].Idx? ==> Away(loc[1..], child)
       else loc[0] != Key(parent[0]) || AwayEach(loc[1..], parent[1..], child)
  }

  predicate Apart(loc: Loc, path: Path) {
    match path
    case Plain(keys) => Away(loc, keys)
    case Each(parent, child) => AwayEach(loc, parent, child)
    case Unsupported => true
  }

  /** A list, null, or nothing: what the enricher puts under a `[*]` parent. */
  predicate ListLike(v: Option<Json>) {
    v.None? || v.value.Null? || v.value.Arr?
  }

  predicate ListShaped(doc: Json, path: Path) {
    path.Each? ==> ListLike(Get(doc, path.parent))
  }

  lemma {:induction false} GetIsAt(j: Json, keys: seq<string>, rest: Loc)
    ensures At(j, KeyLoc(keys) + rest) == (match Get(j, keys) case None => None case Some(v) => At(v, rest))
    decreases |keys|
  {
    if keys == [] {
      assert KeyLoc(keys) + rest == rest;
    } else {
      assert (KeyLoc(keys) + rest)[1..] == KeyLoc(keys[1..]) + rest;
      if j.Obj? && keys[0] in j.fields {
        GetIsAt(j.fields[keys[0]], keys[1..], rest);
      }
    }
  }

  // ------------------------------------------------------------------- Frames

  lemma {:induction false} UpdateFrame(j: Json, keys: seq<string>, f: Json -> Json, loc: Loc)
    requires Away(loc, keys)
    ensures At(Update(j, keys, f), loc) == At(j, loc)
    decreases |keys|
  {
    if j.Obj? && keys[0] in j.fields && loc[0] == Key(keys[0]) {
      UpdateFrame(j.fields[keys[0]], keys[1..], f, loc[1..]);
    }
  }

  /** An update of a list that edits its elements below `child`. */
  lemma {:induction false} UpdateEachFrame(j: Json, parent: seq<string>, child: seq<string>, f: Json -> Json, loc: Loc)
    requires AwayEach(loc, parent, child)
    requires Get(j, parent).Some? ==>
               forall l: Loc :: AwayEach(l, [], child) ==> At(f(Get(j, parent).value), l) == At(Get(j, parent).value, l)
    ensures At(Update(j, parent, f), loc) == At(j, loc)
    decreases |parent|
  {
    if parent != [] && j.Obj? && parent[0] in j.fields && loc[0] == Key(parent[0]) {
      UpdateEachFrame(j.fields[parent[0]], parent[1..], child, f, loc[1..]);
    }
  }

  lemma ElementsFrame(es: seq<Json>, es': seq<Json>, child: seq<string>, l: Loc)
    requires AwayEach(l, [], child) && |es| == |es'|
    requires forall i, r: Loc :: 0 <= i < |es| && Away(r, child) ==> At(es'[i], r) == At(es[i], r)
    ensures At(Arr(es'), l) == At(Arr(es), l)
  {
  }

  lemma TransformFrame(c: Codec, fn: Transformer, path: Path, doc: Json, loc: Loc)
    requires c.Lawful() && Apart(loc, path) && ListShaped(doc, path)
    ensures At(TransformPath(c, fn, path, doc), loc) == At(doc, loc)
  {
    match path
    case Plain(keys) => UpdateFrame(doc, keys, v => StepValue(c, fn, Site(path, 0), v), loc);
    case Each(parent, child) =>
      var f := v => StepEach(c, fn, path, v);
      if Get(doc, parent).Some? && Get(doc, parent).value.Arr? {
        var es := Get(doc, parent).value.elems;
        UnpackKeepsStructure(c, Arr(es));
        forall i, r: Loc | 0 <= i < |es| && Away(r, child)
          ensures At(StepChildren(c, fn, path, es)[i], r) == At(es[i], r)
        {
          UpdateFrame(es[i], child, v => StepValue(c, fn, Site(path, i), v), r);
        }
        forall l: Loc | AwayEach(l, [], child) ensures At(f(Arr(es)), l) == At(Arr(es), l) {
          ElementsFrame(es, StepChildren(c, fn, path, es), child, l);
        }
      }
      UpdateEachFrame(doc, parent, child, f, loc);
    case Unsupported =>
  }

  lemma {:induction false} RemoveFrame(j: Json, keys: seq<string>, loc: Loc)
    requires Away(loc, keys)
    ensures At(Remove(j, keys), loc) == At(j, loc)
    decreases |keys|
  {
    if j.Obj? && keys[0] in j.fields && loc[0] == Key(keys[0]) {
      RemoveFrame(j.fields[keys[0]], keys[1..], loc[1..]);
    }
  }

  lemma DeleteFrame(c: Codec, path: Path, doc: Json, loc: Loc)
    requires c.Lawful() && Apart(loc, path) && ListShaped(doc, path)
    ensures At(DeletePath(c, path, doc), loc) == At(doc, loc)
  {
    match path
    case Plain(keys) => RemoveFrame(doc, keys, loc);
    case Each(parent, child) =>
      var f := v => DeleteEach(c, child, v);
      if Get(doc, parent).Some? && Get(doc, parent).value.Arr? {
        var es := Get(doc, parent).value.elems;
        UnpackKeepsStructure(c, Arr(es));
        forall i, r: Loc | 0 <= i < |es| && Away(r, child)
          ensures At(RemoveChildren(child, es)[i], r) == At(es[i], r)
        {
          RemoveFrame(es[i], child, r);
        }
        forall l: Loc | AwayEach(l, [], child) ensures At(f(Arr(es)), l) == At(Arr(es), l) {
          ElementsFrame(es, RemoveChildren(child, es), child, l);
        }
      }
      UpdateEachFrame(doc, parent, child, f, loc);
    case Unsupported =>
  }

  lemma {:induction false} BuildFrame(keys: seq<string>, v: Json, loc: Loc)
    requires Away(loc, keys)
    ensures At(Build(keys, v), loc) == None
    decreases |keys|
  {
    if loc[0] == Key(keys[0]) {
      BuildFrame(keys[1..], v, loc[1..]);
    }
  }

  lemma {:induction false} SetFrame(j: Json, keys: seq<string>, v: Json, loc: Loc)
    requires Away(loc, keys) && Set(j, keys, v).Some?
    ensures At(Set(j, keys, v).value, loc) == At(j, loc)
    decreases |keys|
  {
    if j.Obj? && keys[0] in j.fields {
      if loc[0] == Key(keys[0]) {
        SetFrame(j.fields[keys[0]], keys[1..], v, loc[1..]);
      }
    } else {
      BuildFrame(keys, v, loc);
    }
  }

  lemma RenamePlainFrame(c: Codec, doc: Json, src: Keys, dst: Keys, loc: Loc)
    requires Away(loc, src) && Away(loc, dst)
    ensures At(RenamePlain(c, doc, src, dst), loc) == At(doc, loc)
  {
    if Get(doc, src).Some? && Set(doc, dst, c.Unpack(Get(doc, src).value)).Some? {
      var v := c.Unpack(Get(doc, src).value);
      SetFrame(doc, dst, v, loc);
      RemoveFrame(Set(doc, dst, v).value, src, loc);
    }
  }

  /** As `AwayEach` for both ends of a rename. */
  lemma {:induction false} RenameEachFrame(j: Json, parent: seq<string>, src: seq<string>, dst: seq<string>,
      f: Json -> Json, loc: Loc)
    requires AwayEach(loc, parent, src) && AwayEach(loc, parent, dst)
    requires Get(j, parent).Some? ==>
               forall l: Loc :: AwayEach(l, [], src) && AwayEach(l, [], dst) ==>
                   At(f(Get(j, parent).value), l) == At(Get(j, parent).value, l)
    ensures At(Update(j, parent, f), loc) == At(j, loc)
    decreases |parent|
  {
    if parent != [] && j.Obj? && parent[0] in j.fields && loc[0] == Key(parent[0]) {
      RenameEachFrame(j.fields[parent[0]], parent[1..], src, dst, f, loc[1..]);
    }
  }

  lemma RenameFrame(c: Codec, r: Renaming, doc: Json, loc: Loc)
    requires c.Lawful() && Apart(loc, r.src) && Apart(loc, r.dst) && ListShaped(doc, r.src)
    ensures At(RenamePath(c, r, doc), loc) == At(doc, loc)
  {
    if r.src.Plain? {
      if r.dst.Plain? {
        RenamePlainFrame(c, doc, r.src.keys, r.dst.keys, loc);
      } else {
        RemoveFrame(doc, r.src.keys, loc);
      }
    } else if InOneList(r) {
      ListRenameFrame(c, doc, r.src.parent, r.src.child, r.dst.child, loc);
    }
  }

  lemma ListRenameFrame(c: Codec, doc: Json, parent: Keys, src: Keys, dst: Keys, loc: Loc)
    requires c.Lawful() && AwayEach(loc, parent, src) && AwayEach(loc, parent, dst) && ListLike(Get(doc, parent))
    ensures At(Update(doc, parent, v => RenameEach(c, src, dst, v)), loc) == At(doc, loc)
  {
    var f := v => RenameEach(c, src, dst, v);
    if Get(doc, parent).Some? {
      var v := Get(doc, parent).value;
      UnpackKeepsStructure(c, v);
      forall l: Loc | AwayEach(l, [], src) && AwayEach(l, [], dst) ensures At(f(v), l) == At(v, l) {
        if v.Arr? && l[0].Idx? && l[0].index < |v.elems| {
          RenamePlainFrame(c, v.elems[l[0].index], src, dst, l[1..]);
        }
      }
    }
    RenameEachFrame(doc, parent, src, dst, f, loc);
  }

  // ------------------------------------------------------------- List elements

  /** The path edits the elements of the list at `at`, or stays clear of it. */
  predicate OnList(path: Path, at: Keys) {
    match path
    case Plain(keys) => Diverge(keys, at)
    case Each(parent, _) => parent == at || Diverge(parent, at)
    case Unsupported => true
  }

  /** Lists keep their length and order, and every element is rewritten by
      the steps `es` taken on it alone; null and absence are kept. */
  ghost predicate Mapped<E>(before: Option<Json>, after: Option<Json>, eop: nat -> (E, Json) -> Json, es: seq<E>) {
    && (!(before.Some? && before.value.Arr?) ==> after == before)
    && (before.Some? && before.value.Arr? ==>
          && after.Some? && after.value.Arr?
          && |after.value.elems| == |before.value.elems|
          && forall i: nat :: i < |before.value.elems| ==>
               after.value.elems[i] == Fold(eop(i), before.value.elems[i], es))
  }

  /** One step of a pass acts on every list-like value at `at` element-wise. */
  ghost predicate ActsOnList<E>(op: (E, Json) -> Json, eop: nat -> (E, Json) -> Json, e: E, at: Keys) {
    forall d: Json :: ListLike(Get(d, at)) ==> Mapped(Get(d, at), Get(op(e, d), at), eop, [e])
  }

  lemma FoldOne<E, S>(op: (E, S) -> S, s: S, e: E)
    ensures Fold(op, s, [e]) == op(e, s)
  {
    assert [e][1..] == [];
  }

  /** A whole pass acts on each element as a pass over that element. */
  lemma {:induction false} PassActsOnList<E>(op: (E, Json) -> Json, eop: nat -> (E, Json) -> Json, doc: Json,
      es: seq<E>, at: Keys)
    requires forall e :: e in es ==> ActsOnList(op, eop, e, at)
    requires ListLike(Get(doc, at))
    ensures Mapped(Get(doc, at), Get(Fold(op, doc, es), at), eop, es)
    decreases |es|
  {
    if es == [] {
    } else {
      var next := op(es[0], doc);
      assert ActsOnList(op, eop, es[0], at);
      assert Mapped(Get(doc, at), Get(next, at), eop, [es[0]]);
      PassActsOnList(op, eop, next, es[1..], at);
      if Get(doc, at).Some? && Get(doc, at).value.Arr? {
        var xs := Get(doc, at).value.elems;
        forall i: nat | i < |xs|
          ensures Get(Fold(op, doc, es), at).value.elems[i] == Fold(eop(i), xs[i], es)
        {
          FoldOne(eop(i), xs[i], es[0]);
        }
      }
    }
  }

  function TransformElement(c: Codec, fn: Transformer, at: Keys): nat -> (Path, Json) -> Json {
    (i: nat) => (path: Path, e: Json) =>
      if path.Each? && path.parent == at then Update(e, path.child, v => StepValue(c, fn, Site(path, i), v)) else e
  }

  lemma TransformActsOnList(c: Codec, fn: Transformer, path: Path, at: Keys)
    requires c.Lawful() && OnList(path, at)
    ensures ActsOnList(TransformOp(c, fn), TransformElement(c, fn, at), path, at)
  {
    forall d: Json | ListLike(Get(d, at))
      ensures Mapped(Get(d, at), Get(TransformPath(c, fn, path, d), at), TransformElement(c, fn, at), [path])
    {
      forall i: nat, x: Json
        ensures Fold(TransformElement(c, fn, at)(i), x, [path]) == TransformElement(c, fn, at)(i)(path, x)
      {
        FoldOne(TransformElement(c, fn, at)(i), x, path);
      }
      match path
      case Plain(keys) => GetElsewhere(d, keys, at, v => StepValue(c, fn, Site(path, 0), v));
      case Each(parent, _) =>
        var f := v => StepEach(c, fn, path, v);
        if parent == at {
          GetUpdated(d, at, f);
          if Get(d, at).Some? { UnpackKeepsStructure(c, Get(d, at).value); }
        } else {
          GetElsewhere(d, parent, at, f);
        }
      case Unsupported =>
    }
  }

  function DeleteElement(at: Keys): nat -> (Path, Json) -> Json {
    (i: nat) => (path: Path, e: Json) => if path.Each? && path.parent == at then Remove(e, path.child) else e
  }

  lemma DeleteActsOnList(c: Codec, path: Path, at: Keys)
    requires c.Lawful() && OnList(path, at)
    ensures ActsOnList(DeleteOp(c), DeleteElement(at), path, at)
  {
    forall d: Json | ListLike(Get(d, at))
      ensures Mapped(Get(d, at), Get(DeletePath(c, path, d), at), DeleteElement(at), [path])
    {
      forall i: nat, x: Json ensures Fold(DeleteElement(at)(i), x, [path]) == DeleteElement(at)(i)(path, x) {
        FoldOne(DeleteElement(at)(i), x, path);
      }
      match path
      case Plain(keys) => GetAfterRemove(d, keys, at);
      case Each(parent, child) =>
        var f := v => DeleteEach(c, child, v);
        if parent == at {
          GetUpdated(d, at, f);
          if Get(d, at).Some? { UnpackKeepsStructure(c, Get(d, at).value); }
        } else {
          GetElsewhere(d, parent, at, f);
        }
      case Unsupported =>
    }
  }

  /** Renaming as a total step, for documents on which nothing panics. */
  function RenameTotalOp(c: Codec): (Renaming, Json) -> Json {
    (r: Renaming, doc: Json) => RenamePath(c, r, doc)
  }

  function RenameElement(c: Codec, at: Keys): nat -> (Renaming, Json) -> Json {
    (i: nat) => (r: Renaming, e: Json) =>
      if InOneList(r) && r.src.parent == at then RenamePlain(c, e, r.src.child, r.dst.child) else e
  }

  lemma RenameActsOnList(c: Codec, r: Renaming, at: Keys)
    requires c.Lawful() && OnList(r.src, at) && OnList(r.dst, at)
    ensures ActsOnList(RenameTotalOp(c), RenameElement(c, at), r, at)
  {
    forall d: Json | ListLike(Get(d, at))
      ensures Mapped(Get(d, at), Get(RenamePath(c, r, d), at), RenameElement(c, at), [r])
    {
      forall i: nat, x: Json ensures Fold(RenameElement(c, at)(i), x, [r]) == RenameElement(c, at)(i)(r, x) {
        FoldOne(RenameElement(c, at)(i), x, r);
      }
      if r.src.Plain? {
        GetAfterSimpleRename(c, r, d, at);
      } else if InOneList(r) {
        var f := v => RenameEach(c, r.src.child, r.dst.child, v);
        if r.src.parent == at {
          GetUpdated(d, at, f);
          if Get(d, at).Some? { UnpackKeepsStructure(c, Get(d, at).value); }
        } else {
          GetElsewhere(d, r.src.parent, at, f);
        }
      }
    }
  }
}
