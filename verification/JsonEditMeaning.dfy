/** The path operations one path at a time, in terms of what can be read from
    the document before and after. */
module JsonEditMeaning {
  import opened JsonValues
  import opened JsonEdit

  /** Null and a value whose transformation fails stay; any other value becomes
      what the transformation makes of it, read from its text if that is JSON. */
  lemma TransformedValue(c: Codec, fn: Transformer, keys: Keys, doc: Json)
    requires c.Lawful()
    ensures Get(TransformPath(c, fn, Plain(keys), doc), keys) ==
            match Get(doc, keys)
            case None => None
            case Some(v) =>
              var u := if v.Str? && c.parse(v.s).Some? then c.parse(v.s).value else v;
              if v.Null? || fn(Site(Plain(keys), 0), u).None? then Some(v) else fn(Site(Plain(keys), 0), u)
  {
    GetUpdated(doc, keys, v => StepValue(c, fn, Site(Plain(keys), 0), v));
    if Get(doc, keys).Some? {
      UnpackKeepsStructure(c, Get(doc, keys).value);
    }
  }

  /** A rename with diverging ends moves the value, re-read, unless there is
      none or a list stands in front of the target. */
  lemma RenameMoves(c: Codec, src: Keys, dst: Keys, doc: Json)
    requires Diverge(src, dst)
    ensures var after := RenamePath(c, Renaming(Plain(src), Plain(dst)), doc);
            if Get(doc, src).None? || ListInTheWay(doc, dst) then after == doc
            else Get(after, dst) == Some(c.Unpack(Get(doc, src).value)) && Get(after, src) == None
  {
    if Get(doc, src).Some? {
      var v := c.Unpack(Get(doc, src).value);
      SetIsRead(doc, dst, v);
      if Set(doc, dst, v).Some? {
        GetAfterRemove(Set(doc, dst, v).value, src, dst);
        RemovedIsGone(Set(doc, dst, v).value, src);
      }
    }
  }

  /** A simple source with a target that has a `[*]` is lost; a source with a
      `[*]` stays unless the target has one after the same parent. */
  lemma UnevenRename(c: Codec, r: Renaming, doc: Json)
    ensures r.src.Plain? && !r.dst.Plain? ==>
              && Get(RenamePath(c, r, doc), r.src.keys) == None
              && forall q :: Diverge(r.src.keys, q) ==> Get(RenamePath(c, r, doc), q) == Get(doc, q)
    ensures r.src.Each? && !(r.dst.Each? && r.dst.parent == r.src.parent) ==> RenamePath(c, r, doc) == doc
  {
    if r.src.Plain? && !r.dst.Plain? {
      RemovedIsGone(doc, r.src.keys);
      forall q | Diverge(r.src.keys, q) { GetAfterRemove(doc, r.src.keys, q); }
    }
  }

  /** A rename inside the elements of a list panics exactly if the parent is
      there and is neither a list, null, text of a list, nor text that is no
      JSON at all. */
  lemma RenamePanicsExactly(c: Codec, r: Renaming, doc: Json)
    requires c.Lawful()
    ensures RenamePanics(c, r, doc) <==>
            && r.src.Each? && r.dst.Each? && r.src.parent == r.dst.parent
            && match Get(doc, r.src.parent)
               case None => false
               case Some(Null) => false
               case Some(Arr(_)) => false
               case Some(Str(s)) => c.parse(s).Some? && !c.parse(s).value.Arr?
               case Some(_) => true
  {
    if r.src.Each? && Get(doc, r.src.parent).Some? {
      UnpackKeepsStructure(c, Get(doc, r.src.parent).value);
    }
  }

  ghost predicate IsListText(c: Codec, doc: Json, parent: Keys, es: seq<Json>) {
    && Get(doc, parent).Some? && Get(doc, parent).value.Str?
    && c.parse(Get(doc, parent).value.s) == Some(Arr(es))
  }

  /** A list that is held as text is decoded and then edited like a list. */
  lemma TextIsEditedAsList(c: Codec, fn: Transformer, parent: Keys, src: Keys, dst: Keys, doc: Json, es: seq<Json>)
    requires c.Lawful() && IsListText(c, doc, parent, es)
    ensures Set(doc, parent, Arr(es)).Some?
    ensures var decoded := Set(doc, parent, Arr(es)).value;
            && TransformPath(c, fn, Each(parent, src), doc) == TransformPath(c, fn, Each(parent, src), decoded)
            && DeletePath(c, Each(parent, src), doc) == DeletePath(c, Each(parent, src), decoded)
            && RenamePath(c, Renaming(Each(parent, src), Each(parent, dst)), doc)
               == RenamePath(c, Renaming(Each(parent, src), Each(parent, dst)), decoded)
  {
    var decode := (v: Json) => Arr(es);
    SetIsUpdate(doc, parent, Arr(es), decode);
    UnpackKeepsStructure(c, Arr(es));
    var step := v => StepEach(c, fn, Each(parent, src), v);
    UpdatesCompose(doc, parent, decode, step, step);
    var delete := v => DeleteEach(c, src, v);
    UpdatesCompose(doc, parent, decode, delete, delete);
    var rename := v => RenameEach(c, src, dst, v);
    UpdatesCompose(doc, parent, decode, rename, rename);
  }

  /** A parent that is no list, nor text of one, is left alone. */
  lemma NoListIsLeftAlone(c: Codec, fn: Transformer, parent: Keys, src: Keys, dst: Keys, doc: Json)
    requires c.Lawful() && Get(doc, parent).Some? && !Get(doc, parent).value.Arr?
    requires forall es :: !IsListText(c, doc, parent, es)
    ensures TransformPath(c, fn, Each(parent, src), doc) == doc
    ensures DeletePath(c, Each(parent, src), doc) == doc
    ensures RenamePath(c, Renaming(Each(parent, src), Each(parent, dst)), doc) == doc
  {
    var v := Get(doc, parent).value;
    UnpackKeepsStructure(c, v);
    if v.Str? && c.parse(v.s).Some? && c.parse(v.s).value.Arr? {
      assert IsListText(c, doc, parent, c.parse(v.s).value.elems);
    }
    UpdateIdentity(doc, parent, v => StepEach(c, fn, Each(parent, src), v));
    UpdateIdentity(doc, parent, v => DeleteEach(c, src, v));
    UpdateIdentity(doc, parent, v => RenameEach(c, src, dst, v));
  }
}
