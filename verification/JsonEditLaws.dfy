/** Order independence of the path interpreter: passes over independent paths
    give the same document, and the same panics, in every order. */
module JsonEditLaws {
  import opened JsonValues
  import opened Enumerations
  import opened JsonEdit

  /** The locations of the two paths can never lie on one branch. */
  predicate Independent(p: Path, q: Path) {
    match (p, q)
    case (Plain(k), Plain(l)) => Diverge(k, l)
    case (Plain(k), Each(parent, _)) => Diverge(k, parent)
    case (Each(parent, _), Plain(l)) => Diverge(parent, l)
    case (Each(parent, child), Each(parent', child')) =>
      Diverge(parent, parent') || (parent == parent' && Diverge(child, child'))
    case _ => true
  }

  lemma IndependentSymmetric(p: Path, q: Path)
    requires Independent(p, q)
    ensures Independent(q, p)
  {
    match (p, q)
    case (Plain(k), Plain(l)) => DivergeSymmetric(k, l);
    case (Plain(k), Each(parent, _)) => DivergeSymmetric(k, parent);
    case (Each(parent, _), Plain(l)) => DivergeSymmetric(parent, l);
    case (Each(parent, child), Each(parent', child')) =>
      if parent == parent' && Diverge(child, child') {
        DivergeSymmetric(child, child');
      } else {
        DivergeSymmetric(parent, parent');
      }
    case _ =>
  }

  ghost predicate PairwiseIndependent(paths: seq<Path>) {
    forall p, q :: p in paths && q in paths && p != q ==> Independent(p, q)
  }

  // ---------------------------------------------------------------- Transform

  lemma StepEachCommutes(c: Codec, fn: Transformer, p: Path, q: Path, v: Json)
    requires c.Lawful() && p.Each? && q.Each? && Diverge(p.child, q.child)
    ensures StepEach(c, fn, p, StepEach(c, fn, q, v)) == StepEach(c, fn, q, StepEach(c, fn, p, v))
  {
    UnpackKeepsStructure(c, v);
    if !v.Null? && c.Unpack(v).Arr? {
      var es := c.Unpack(v).elems;
      UnpackKeepsStructure(c, Arr(StepChildren(c, fn, p, es)));
      UnpackKeepsStructure(c, Arr(StepChildren(c, fn, q, es)));
      forall i | 0 <= i < |es|
        ensures StepChildren(c, fn, p, StepChildren(c, fn, q, es))[i]
             == StepChildren(c, fn, q, StepChildren(c, fn, p, es))[i]
      {
        DivergeSymmetric(p.child, q.child);
        UpdatesCommute(es[i], q.child, v => StepValue(c, fn, Site(q, i), v),
                       p.child, v => StepValue(c, fn, Site(p, i), v));
      }
      assert StepChildren(c, fn, p, StepChildren(c, fn, q, es)) == StepChildren(c, fn, q, StepChildren(c, fn, p, es));
    }
  }

  /** Two updates by commuting functions at one location commute. */
  lemma UpdatesCommuteAt(doc: Json, at: seq<string>, f: Json -> Json, g: Json -> Json)
    requires forall v: Json :: f(g(v)) == g(f(v))
    ensures Update(Update(doc, at, g), at, f) == Update(Update(doc, at, f), at, g)
  {
    var h := v => f(g(v));
    UpdatesCompose(doc, at, g, f, h);
    UpdatesCompose(doc, at, f, g, h);
  }

  lemma TransformPathsCommute(c: Codec, fn: Transformer, p: Path, q: Path, doc: Json)
    requires c.Lawful() && Independent(p, q)
    ensures TransformPath(c, fn, p, TransformPath(c, fn, q, doc))
            == TransformPath(c, fn, q, TransformPath(c, fn, p, doc))
  {
    IndependentSymmetric(p, q);
    match (p, q)
    case (Plain(k), Plain(l)) =>
      UpdatesCommute(doc, l, v => StepValue(c, fn, Site(q, 0), v), k, v => StepValue(c, fn, Site(p, 0), v));
    case (Plain(k), Each(l, _)) =>
      UpdatesCommute(doc, l, v => StepEach(c, fn, q, v), k, v => StepValue(c, fn, Site(p, 0), v));
    case (Each(k, _), Plain(l)) =>
      UpdatesCommute(doc, l, v => StepValue(c, fn, Site(q, 0), v), k, v => StepEach(c, fn, p, v));
    case (Each(k, _), Each(l, _)) =>
      var f, g := v => StepEach(c, fn, p, v), v => StepEach(c, fn, q, v);
      if k == l && Diverge(p.child, q.child) {
        forall v: Json ensures f(g(v)) == g(f(v)) { StepEachCommutes(c, fn, p, q, v); }
        UpdatesCommuteAt(doc, k, f, g);
      } else {
        UpdatesCommute(doc, l, g, k, f);
      }
    case _ =>
  }

  /** `Transform` over independent paths does not depend on their order, for
      any transformation and any document. */
  lemma TransformOrderIndependent(c: Codec, fn: Transformer, doc: Json, paths: seq<Path>, paths': seq<Path>)
    requires c.Lawful() && PairwiseIndependent(paths) && multiset(paths) == multiset(paths')
    ensures TransformAll(c, fn, doc, paths) == TransformAll(c, fn, doc, paths')
  {
    forall p, q | p in paths && q in paths && p != q
      ensures Commute(TransformOp(c, fn), p, q)
    {
      forall d: Json
        ensures TransformOp(c, fn)(p, TransformOp(c, fn)(q, d)) == TransformOp(c, fn)(q, TransformOp(c, fn)(p, d))
      {
        TransformPathsCommute(c, fn, p, q, d);
      }
    }
    FoldPermuted(TransformOp(c, fn), doc, paths, paths');
  }

  predicate Missing(path: Path, doc: Json) {
    match path
    case Plain(keys) => Get(doc, keys).None?
    case Each(parent, _) => Get(doc, parent).None?
    case Unsupported => true
  }

  /** Missing and unsupported paths leave the document alone in all three
      operations, and a rename of one never panics. */
  lemma MissingPathsAreIgnored(c: Codec, fn: Transformer, r: Renaming, doc: Json)
    requires Missing(r.src, doc)
    ensures TransformPath(c, fn, r.src, doc) == doc
    ensures DeletePath(c, r.src, doc) == doc
    ensures !RenamePanics(c, r, doc) && RenamePath(c, r, doc) == doc
  {
    match r.src
    case Plain(keys) =>
      UpdateIdentity(doc, keys, v => StepValue(c, fn, Site(r.src, 0), v));
      RemoveMissing(doc, keys);
    case Each(parent, child) =>
      UpdateIdentity(doc, parent, v => StepEach(c, fn, r.src, v));
      UpdateIdentity(doc, parent, v => DeleteEach(c, child, v));
      if r.dst.Each? {
        UpdateIdentity(doc, parent, v => RenameEach(c, child, r.dst.child, v));
      }
    case Unsupported =>
  }

  // ------------------------------------------------------------------- Rename

  function Front(keys: Keys): seq<string> { keys[..|keys| - 1] }
  function Last(keys: Keys): string { keys[|keys| - 1] }

  /** A rename inside one object. */
  predicate Siblings(src: Keys, dst: Keys) {
    Front(src) == Front(dst) && Last(src) != Last(dst)
  }

  predicate SiblingRenaming(r: Renaming) {
    match (r.src, r.dst)
    case (Plain(src), Plain(dst)) => Siblings(src, dst)
    case (Each(parent, src), Each(parent', dst)) => parent == parent' && Siblings(src, dst)
    case _ => false
  }

  /** Both ends of the one renaming are independent of both ends of the other. */
  predicate IndependentRenamings(r: Renaming, t: Renaming) {
    && Independent(r.src, t.src) && Independent(r.src, t.dst)
    && Independent(r.dst, t.src) && Independent(r.dst, t.dst)
  }

  /** Renaming `a` to `b` in an object; other values are left alone. */
  function Relabel(c: Codec, a: string, b: string, v: Json): Json {
    if v.Obj? && a in v.fields then Obj(v.fields[b := c.Unpack(v.fields[a])] - {a}) else v
  }

  /** A sibling rename is a local update of the enclosing object. */
  lemma {:induction false} RenameIsRelabel(c: Codec, doc: Json, src: Keys, dst: Keys)
    requires Siblings(src, dst)
    ensures RenamePlain(c, doc, src, dst) == Update(doc, Front(src), v => Relabel(c, Last(src), Last(dst), v))
    decreases |src|
  {
    var f := v => Relabel(c, Last(src), Last(dst), v);
    if |src| > 1 {
      assert src[0] == Front(src)[0] == Front(dst)[0] == dst[0];
      var src', dst': Keys := src[1..], dst[1..];
      assert Front(src') == Front(src)[1..] && Front(dst') == Front(dst)[1..];
      assert Last(src') == Last(src) && Last(dst') == Last(dst);
      if doc.Obj? && src[0] in doc.fields {
        var inner := doc.fields[src[0]];
        RenameIsRelabel(c, inner, src', dst');
        UpdateCongruent(inner, Front(src'), f, v => Relabel(c, Last(src'), Last(dst'), v));
        assert Get(doc, src) == Get(inner, src');
        if Get(inner, src').Some? {
          var v := c.Unpack(Get(inner, src').value);
          assert Set(doc, dst, v) ==
                 match Set(inner, dst', v) case None => None case Some(x) => Some(Obj(doc.fields[src[0] := x]));
        } else {
          assert doc.fields[src[0] := inner] == doc.fields;
        }
        if Get(inner, src').Some? && Set(inner, dst', c.Unpack(Get(inner, src').value)).None? {
          assert doc.fields[src[0] := inner] == doc.fields;
        }
      }
    } else {
      assert Front(src) == [] && Front(dst) == [];
      assert src == [Last(src)] && dst == [Last(dst)];
      if doc.Obj? && src[0] in doc.fields {
        assert Get(doc, src) == Some(doc.fields[src[0]]);
        var v := c.Unpack(doc.fields[src[0]]);
        assert Set(doc, dst, v) == Some(Obj(doc.fields[dst[0] := v])) by {
          if dst[0] in doc.fields { assert Set(doc.fields[dst[0]], dst[1..], v) == Some(v); }
        }
      }
    }
  }

  // -------------------------------------------------------- Renames in any order

  /** A path that diverges from both ends of a rename is not moved. */
  lemma GetAfterPlainRename(c: Codec, doc: Json, src: Keys, dst: Keys, q: seq<string>)
    requires Diverge(src, q) && Diverge(dst, q)
    ensures Get(RenamePlain(c, doc, src, dst), q) == Get(doc, q)
  {
    if Get(doc, src).Some? && Set(doc, dst, c.Unpack(Get(doc, src).value)).Some? {
      var v := c.Unpack(Get(doc, src).value);
      GetAfterSet(doc, dst, v, q);
      GetAfterRemove(Set(doc, dst, v).value, src, q);
    }
  }

  /** Nor can a rename make setting there fail or succeed. */
  lemma SetAfterPlainRename(c: Codec, doc: Json, src: Keys, dst: Keys, q: seq<string>, w: Json)
    requires Diverge(src, q) && Diverge(dst, q)
    ensures Set(RenamePlain(c, doc, src, dst), q, w).Some? <==> Set(doc, q, w).Some?
    ensures Set(doc, q, w).Some? && Get(doc, src).Some? && Set(doc, dst, c.Unpack(Get(doc, src).value)).Some? ==>
              var v := c.Unpack(Get(doc, src).value);
              && Set(Set(doc, dst, v).value, q, w).Some?
              && Set(RenamePlain(c, doc, src, dst), q, w) == Some(Remove(Set(Set(doc, dst, v).value, q, w).value, src))
  {
    if Get(doc, src).Some? && Set(doc, dst, c.Unpack(Get(doc, src).value)).Some? {
      var v := c.Unpack(Get(doc, src).value);
      SetsCommute(doc, dst, v, q, w);
      DivergeSymmetric(src, q);
      SetRemoveCommute(Set(doc, dst, v).value, q, w, src);
    }
  }

  ghost predicate KeysDiverge(src: Keys, dst: Keys, src': Keys, dst': Keys) {
    Diverge(src, src') && Diverge(src, dst') && Diverge(dst, src') && Diverge(dst, dst')
  }

  /** Two renames whose ends diverge commute, whichever of them fail. */
  lemma PlainRenamesCommute(c: Codec, doc: Json, src: Keys, dst: Keys, src': Keys, dst': Keys)
    requires KeysDiverge(src, dst, src', dst')
    ensures RenamePlain(c, RenamePlain(c, doc, src', dst'), src, dst)
         == RenamePlain(c, RenamePlain(c, doc, src, dst), src', dst')
  {
    DivergeSymmetric(src, src');
    DivergeSymmetric(src, dst');
    DivergeSymmetric(dst, src');
    DivergeSymmetric(dst, dst');
    GetAfterPlainRename(c, doc, src', dst', src);
    GetAfterPlainRename(c, doc, src, dst, src');
    if Get(doc, src).Some? && Get(doc, src').Some? {
      var v, v' := c.Unpack(Get(doc, src).value), c.Unpack(Get(doc, src').value);
      SetAfterPlainRename(c, doc, src', dst', dst, v);
      SetAfterPlainRename(c, doc, src, dst, dst', v');
      if Set(doc, dst, v).Some? && Set(doc, dst', v').Some? {
        SetsCommute(doc, dst, v, dst', v');
        RemovesCommute(Set(Set(doc, dst, v).value, dst', v').value, src, src');
      }
    }
  }

  /** A rename may also lose its source, when it has a target with a `[*]`. */
  lemma RemoveAndRenameCommute(c: Codec, doc: Json, src: Keys, dst: Keys, q: Keys)
    requires Diverge(src, q) && Diverge(dst, q)
    ensures RenamePlain(c, Remove(doc, q), src, dst) == Remove(RenamePlain(c, doc, src, dst), q)
  {
    DivergeSymmetric(src, q);
    GetAfterRemove(doc, q, src);
    if Get(doc, src).Some? {
      var v := c.Unpack(Get(doc, src).value);
      SetRemoveCommute(doc, dst, v, q);
      if Set(doc, dst, v).Some? {
        RemovesCommute(Set(doc, dst, v).value, src, q);
      }
    }
  }

  lemma RenameAndUpdateCommute(c: Codec, doc: Json, src: Keys, dst: Keys, at: seq<string>, g: Json -> Json)
    requires Diverge(src, at) && Diverge(dst, at)
    ensures RenamePlain(c, Update(doc, at, g), src, dst) == Update(RenamePlain(c, doc, src, dst), at, g)
  {
    DivergeSymmetric(src, at);
    GetElsewhere(doc, at, src, g);
    if Get(doc, src).Some? {
      var v := c.Unpack(Get(doc, src).value);
      SetUpdateCommute(doc, dst, v, at, g);
      if Set(doc, dst, v).Some? {
        RemoveUpdateCommute(Set(doc, dst, v).value, src, at, g);
      }
    }
  }

  lemma RenameEachCommutes(c: Codec, src: Keys, dst: Keys, src': Keys, dst': Keys, v: Json)
    requires c.Lawful() && KeysDiverge(src, dst, src', dst')
    ensures RenameEach(c, src, dst, RenameEach(c, src', dst', v))
            == RenameEach(c, src', dst', RenameEach(c, src, dst, v))
  {
    var parsed := c.parse(c.Text(v));
    if parsed.Some? && parsed.value.Arr? {
      var es := parsed.value.elems;
      UnpackKeepsStructure(c, Arr(RenameChildren(c, es, src, dst)));
      UnpackKeepsStructure(c, Arr(RenameChildren(c, es, src', dst')));
      forall i | 0 <= i < |es|
        ensures RenameChildren(c, RenameChildren(c, es, src', dst'), src, dst)[i]
             == RenameChildren(c, RenameChildren(c, es, src, dst), src', dst')[i]
      {
        PlainRenamesCommute(c, es[i], src, dst, src', dst');
      }
      assert RenameChildren(c, RenameChildren(c, es, src', dst'), src, dst)
          == RenameChildren(c, RenameChildren(c, es, src, dst), src', dst');
    }
  }

  /** A `[*]` rename acts on its list only if the target is in the same list. */
  predicate InOneList(r: Renaming) {
    r.src.Each? && r.dst.Each? && r.src.parent == r.dst.parent
  }

  /** A simple rename keeps what lies at a path independent of both ends. */
  lemma GetAfterSimpleRename(c: Codec, r: Renaming, doc: Json, at: seq<string>)
    requires r.src.Plain? && Diverge(r.src.keys, at) && (r.dst.Plain? ==> Diverge(r.dst.keys, at))
    ensures Get(RenamePath(c, r, doc), at) == Get(doc, at)
  {
    if r.dst.Plain? {
      GetAfterPlainRename(c, doc, r.src.keys, r.dst.keys, at);
    } else {
      GetAfterRemove(doc, r.src.keys, at);
    }
  }

  /** Whether one rename panics is not affected by another one. */
  lemma PanicUnaffected(c: Codec, r: Renaming, t: Renaming, doc: Json)
    requires c.Lawful() && IndependentRenamings(r, t)
    requires !RenamePanics(c, t, doc)
    ensures RenamePanics(c, r, RenamePath(c, t, doc)) <==> RenamePanics(c, r, doc)
  {
    if InOneList(r) {
      var at := r.src.parent;
      if t.src.Plain? {
        IndependentSymmetric(r.src, t.src);
        IndependentSymmetric(r.src, t.dst);
        GetAfterSimpleRename(c, t, doc, at);
      } else if InOneList(t) {
        var step := v => RenameEach(c, t.src.child, t.dst.child, v);
        if Diverge(at, t.src.parent) {
          DivergeSymmetric(at, t.src.parent);
          GetElsewhere(doc, t.src.parent, at, step);
        } else {
          GetUpdated(doc, at, step);
          if Get(doc, at).Some? {
            UnpackKeepsStructure(c, step(Get(doc, at).value));
          }
        }
      }
    }
  }

  lemma SimpleRenamesCommute(c: Codec, r: Renaming, t: Renaming, doc: Json)
    requires r.src.Plain? && t.src.Plain? && IndependentRenamings(r, t)
    ensures RenamePath(c, r, RenamePath(c, t, doc)) == RenamePath(c, t, RenamePath(c, r, doc))
  {
    IndependentSymmetric(r.src, t.src);
    IndependentSymmetric(r.src, t.dst);
    if r.dst.Plain? && t.dst.Plain? {
      PlainRenamesCommute(c, doc, r.src.keys, r.dst.keys, t.src.keys, t.dst.keys);
    } else if r.dst.Plain? {
      RemoveAndRenameCommute(c, doc, r.src.keys, r.dst.keys, t.src.keys);
    } else if t.dst.Plain? {
      RemoveAndRenameCommute(c, doc, t.src.keys, t.dst.keys, r.src.keys);
    } else {
      RemovesCommute(doc, r.src.keys, t.src.keys);
    }
  }

  lemma SimpleAndListRenamesCommute(c: Codec, r: Renaming, t: Renaming, doc: Json)
    requires r.src.Plain? && InOneList(t) && IndependentRenamings(r, t)
    ensures RenamePath(c, r, RenamePath(c, t, doc)) == RenamePath(c, t, RenamePath(c, r, doc))
  {
    var at, g := t.src.parent, v => RenameEach(c, t.src.child, t.dst.child, v);
    if r.dst.Plain? {
      RenameAndUpdateCommute(c, doc, r.src.keys, r.dst.keys, at, g);
    } else {
      RemoveUpdateCommute(doc, r.src.keys, at, g);
    }
  }

  lemma ListRenamesCommute(c: Codec, r: Renaming, t: Renaming, doc: Json)
    requires c.Lawful() && InOneList(r) && InOneList(t) && IndependentRenamings(r, t)
    ensures RenamePath(c, r, RenamePath(c, t, doc)) == RenamePath(c, t, RenamePath(c, r, doc))
  {
    var parent, parent' := r.src.parent, t.src.parent;
    var f := v => RenameEach(c, r.src.child, r.dst.child, v);
    var g := v => RenameEach(c, t.src.child, t.dst.child, v);
    if Diverge(parent, parent') {
      DivergeSymmetric(parent, parent');
      UpdatesCommute(doc, parent', g, parent, f);
    } else {
      forall v: Json ensures f(g(v)) == g(f(v)) {
        RenameEachCommutes(c, r.src.child, r.dst.child, t.src.child, t.dst.child, v);
      }
      UpdatesCommuteAt(doc, parent, f, g);
    }
  }

  lemma IndependenceIsMutual(r: Renaming, t: Renaming)
    requires IndependentRenamings(r, t)
    ensures IndependentRenamings(t, r)
  {
    IndependentSymmetric(r.src, t.src);
    IndependentSymmetric(r.src, t.dst);
    IndependentSymmetric(r.dst, t.src);
    IndependentSymmetric(r.dst, t.dst);
  }

  lemma RenamedDocumentsCommute(c: Codec, r: Renaming, t: Renaming, doc: Json)
    requires c.Lawful() && IndependentRenamings(r, t)
    ensures RenamePath(c, r, RenamePath(c, t, doc)) == RenamePath(c, t, RenamePath(c, r, doc))
  {
    IndependenceIsMutual(r, t);
    if r.src.Plain? && t.src.Plain? {
      SimpleRenamesCommute(c, r, t, doc);
    } else if r.src.Plain? && InOneList(t) {
      SimpleAndListRenamesCommute(c, r, t, doc);
    } else if InOneList(r) && t.src.Plain? {
      SimpleAndListRenamesCommute(c, t, r, doc);
    } else if InOneList(r) && InOneList(t) {
      ListRenamesCommute(c, r, t, doc);
    }
  }

  /** Two independent renames commute on every document, and so do they with
      their panics. */
  lemma RenamePathsCommute(c: Codec, r: Renaming, t: Renaming, doc: Json)
    requires c.Lawful() && IndependentRenamings(r, t)
    ensures RenamePath(c, r, RenamePath(c, t, doc)) == RenamePath(c, t, RenamePath(c, r, doc))
    ensures RenameOp(c)(r, RenameOp(c)(t, Some(doc))) == RenameOp(c)(t, RenameOp(c)(r, Some(doc)))
  {
    RenamedDocumentsCommute(c, r, t, doc);
    IndependenceIsMutual(r, t);
    if !RenamePanics(c, t, doc) { PanicUnaffected(c, r, t, doc); }
    if !RenamePanics(c, r, doc) { PanicUnaffected(c, t, r, doc); }
  }

  ghost predicate AllIndependent(renamings: seq<Renaming>) {
    forall r, t :: r in renamings && t in renamings && r != t ==> IndependentRenamings(r, t)
  }

  /** `Rename` over independent renamings does not depend on the order in which
      Go visits the path map: either every order panics or none does, and then
      all give the same document. */
  lemma RenameOrderIndependent(c: Codec, doc: Json, renamings: seq<Renaming>, renamings': seq<Renaming>)
    requires c.Lawful() && AllIndependent(renamings) && multiset(renamings) == multiset(renamings')
    ensures RenameAll(c, doc, renamings) == RenameAll(c, doc, renamings')
  {
    var op := RenameOp(c);
    forall r, t | r in renamings && t in renamings && r != t
      ensures Commute(op, r, t)
    {
      forall d: Option<Json> ensures op(r, op(t, d)) == op(t, op(r, d)) {
        if d.Some? {
          RenamePathsCommute(c, r, t, d.value);
        }
      }
    }
    FoldPermuted(op, Some(doc), renamings, renamings');
  }
}
