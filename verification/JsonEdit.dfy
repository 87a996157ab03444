/** The path interpreter: transform, rename and delete over dotted keys with
    at most one `[*]`. The methods follow the loops of the program, with
    their swallowed and carried errors; the functions say what they compute. */
module JsonEdit {
  import opened JsonValues
  import opened Enumerations

  type Keys = ks: seq<string> | ks != [] witness ["key"]

  /** A parsed path. `Each(p, c)` is `p[*].c`; `Unsupported` holds more than
      one `[*]`. */
  datatype Path = Plain(keys: Keys) | Each(parent: Keys, child: Keys) | Unsupported

  /** Where a transformation is applied: the path, and the list position when
      the path has a `[*]`. A transformation may depend on it, so that two
      iterations over equal Go maps can still run in different orders. */
  datatype Site = Site(path: Path, index: nat)

  /** `None` is the error return of a transformation. */
  type Transformer = (Site, Json) -> Option<Json>

  datatype Renaming = Renaming(src: Path, dst: Path)

  // ---------------------------------------------------------------- Transform

  /** One value, re-read and transformed. Null is left alone, and so is a
      value whose transformation fails. */
  function StepValue(c: Codec, fn: Transformer, site: Site, v: Json): Json {
    if v.Null? then v
    else match fn(site, c.Unpack(v))
         case None => v
         case Some(x) => x
  }

  function StepChildren(c: Codec, fn: Transformer, path: Path, es: seq<Json>): (r: seq<Json>)
    requires path.Each?
    ensures |r| == |es|
  {
    seq(|es|, i requires 0 <= i < |es| =>
      Update(es[i], path.child, v => StepValue(c, fn, Site(path, i), v)))
  }

  /** The list under the parent of a `[*]` path, decoded first if it is text. */
  function StepEach(c: Codec, fn: Transformer, path: Path, v: Json): Json
    requires path.Each?
  {
    if v.Null? then v
    else match c.Unpack(v)
         case Arr(es) => Arr(StepChildren(c, fn, path, es))
         case _ => v
  }

  function TransformPath(c: Codec, fn: Transformer, path: Path, doc: Json): Json {
    match path
    case Plain(keys) => Update(doc, keys, v => StepValue(c, fn, Site(path, 0), v))
    case Each(parent, _) => Update(doc, parent, v => StepEach(c, fn, path, v))
    case Unsupported => doc
  }

  function TransformOp(c: Codec, fn: Transformer): (Path, Json) -> Json {
    (path, doc) => TransformPath(c, fn, path, doc)
  }

  function TransformAll(c: Codec, fn: Transformer, doc: Json, paths: seq<Path>): Json {
    Fold(TransformOp(c, fn), doc, paths)
  }

  /** The body of the loop of `Transform` for a path without `[*]`. `failed`
      is the error variable declared outside the loop: null does not reset it,
      so an error left by an earlier path can skip this one. The contract says
      that this is never observable. */
  method TransformPlain(c: Codec, fn: Transformer, site: Site, doc: Json, keys: Keys, failed: bool)
    returns (out: Json, stillFailed: bool)
    ensures out == Update(doc, keys, v => StepValue(c, fn, site, v))
  {
    var step := v => StepValue(c, fn, site, v);
    stillFailed := failed;
    var value := Get(doc, keys);
    if value.None? {
      UpdateIdentity(doc, keys, step);
      return doc, stillFailed;
    }
    var item := Null;
    if value.value != Null {
      var transformed := fn(site, c.Unpack(value.value));
      stillFailed := transformed.None?;
      if transformed.Some? {
        item := transformed.value;
      }
    }
    if stillFailed {
      UpdateIdentity(doc, keys, step);
      return doc, stillFailed;
    }
    SetIsUpdate(doc, keys, item, step);
    out := Set(doc, keys, item).value;
  }

  /** The closure `transformFromComplexPath` hands to `Transform`: a loop that
      drops elements which fail. None does, so length and order are kept. */
  method TransformChildren(c: Codec, fn: Transformer, path: Path, parentList: seq<Json>) returns (items: seq<Json>)
    requires path.Each?
    ensures items == StepChildren(c, fn, path, parentList)
  {
    items := [];
    for i := 0 to |parentList|
      invariant items == StepChildren(c, fn, path, parentList)[..i]
    {
      var item, _ := TransformPlain(c, fn, Site(path, i), parentList[i], path.child, false);
      items := items + [item];
    }
  }

  method TransformFromComplexPath(c: Codec, fn: Transformer, doc: Json, path: Path) returns (out: Json)
    requires path.Each?
    ensures out == TransformPath(c, fn, path, doc)
  {
    var step := v => StepEach(c, fn, path, v);
    var value := Get(doc, path.parent);
    if value.None? || (value.value != Null && !c.Unpack(value.value).Arr?) {
      UpdateIdentity(doc, path.parent, step);
      return doc;
    }
    var item := Null;
    if value.value != Null {
      var items := TransformChildren(c, fn, path, c.Unpack(value.value).elems);
      item := Arr(items);
    }
    SetIsUpdate(doc, path.parent, item, step);
    out := Set(doc, path.parent, item).value;
  }

  /** `Transform`. The carried error has no effect: the loop is a fold of the
      one-path function. */
  method Transform(c: Codec, fn: Transformer, doc: Json, paths: seq<Path>) returns (out: Json)
    ensures out == TransformAll(c, fn, doc, paths)
  {
    out := doc;
    var failed := false;
    for k := 0 to |paths|
      invariant TransformAll(c, fn, out, paths[k..]) == TransformAll(c, fn, doc, paths)
    {
      var path := paths[k];
      assert paths[k..][1..] == paths[k + 1..];
      match path
      case Each(_, _) =>
        out := TransformFromComplexPath(c, fn, out, path);
      case Plain(keys) =>
        out, failed := TransformPlain(c, fn, Site(path, 0), out, keys, failed);
      case Unsupported =>
    }
  }

  // ------------------------------------------------------------------- Delete

  function RemoveChildren(child: Keys, es: seq<Json>): (r: seq<Json>)
    ensures |r| == |es|
  {
    seq(|es|, i requires 0 <= i < |es| => Remove(es[i], child))
  }

  function DeleteEach(c: Codec, child: Keys, v: Json): Json {
    if v.Null? then v
    else match c.Unpack(v)
         case Arr(es) => Arr(RemoveChildren(child, es))
         case _ => v
  }

  function DeletePath(c: Codec, path: Path, doc: Json): Json {
    match path
    case Plain(keys) => Remove(doc, keys)
    case Each(parent, child) => Update(doc, parent, v => DeleteEach(c, child, v))
    case Unsupported => doc
  }

  function DeleteOp(c: Codec): (Path, Json) -> Json {
    (path, doc) => DeletePath(c, path, doc)
  }

  function DeleteAll(c: Codec, doc: Json, paths: seq<Path>): Json {
    Fold(DeleteOp(c), doc, paths)
  }

  /** The paths in front of the first unsupported one. */
  function SupportedPrefix(paths: seq<Path>): seq<Path>
    decreases |paths|
  {
    if paths == [] || paths[0].Unsupported? then []
    else [paths[0]] + SupportedPrefix(paths[1..])
  }

  method DeleteFromComplexPath(c: Codec, doc: Json, path: Path) returns (out: Json)
    requires path.Each?
    ensures out == DeletePath(c, path, doc)
  {
    var step := v => DeleteEach(c, path.child, v);
    var value := Get(doc, path.parent);
    if value.None? || (value.value != Null && !c.Unpack(value.value).Arr?) {
      UpdateIdentity(doc, path.parent, step);
      return doc;
    }
    var item := Null;
    if value.value != Null {
      var parentList := c.Unpack(value.value).elems;
      var items: seq<Json> := [];
      for i := 0 to |parentList|
        invariant items == RemoveChildren(path.child, parentList)[..i]
      {
        items := items + [Remove(parentList[i], path.child)];
      }
      item := Arr(items);
    }
    SetIsUpdate(doc, path.parent, item, step);
    out := Set(doc, path.parent, item).value;
  }

  /** `Delete`. Unlike `Transform` it stops with an error at an unsupported
      path and keeps what was deleted before. */
  method Delete(c: Codec, doc: Json, paths: seq<Path>) returns (out: Json, ok: bool)
    ensures ok <==> Unsupported !in paths
    ensures out == DeleteAll(c, doc, SupportedPrefix(paths))
  {
    out := doc;
    for k := 0 to |paths|
      invariant DeleteAll(c, out, SupportedPrefix(paths[k..])) == DeleteAll(c, doc, SupportedPrefix(paths))
      invariant Unsupported !in paths[..k]
    {
      var path := paths[k];
      assert paths[k..][1..] == paths[k + 1..];
      match path
      case Each(_, _) =>
        out := DeleteFromComplexPath(c, out, path);
      case Plain(keys) =>
        out := Remove(out, keys);
      case Unsupported =>
        return out, false;
    }
    ok := true;
  }

  /** What `Delete` has deleted when it stops at path `n`, or at the end. */
  lemma {:induction false} DeletedBefore(paths: seq<Path>, n: nat)
    requires n <= |paths| && Unsupported !in paths[..n] && (n < |paths| ==> paths[n].Unsupported?)
    ensures SupportedPrefix(paths) == paths[..n]
    ensures n == |paths| ==> SupportedPrefix(paths) == paths
    decreases n
  {
    if n == 0 {
    } else {
      assert paths[..n] == [paths[0]] + paths[1..][..n - 1];
      DeletedBefore(paths[1..], n - 1);
    }
  }

  // ------------------------------------------------------------------- Rename

  /** Re-read the value, set it at the target, delete the source. A target
      that cannot be set leaves the document alone. */
  function RenamePlain(c: Codec, doc: Json, src: Keys, dst: Keys): Json {
    match Get(doc, src)
    case None => doc
    case Some(v) =>
      match Set(doc, dst, c.Unpack(v))
      case None => doc
      case Some(d) => Remove(d, src)
  }

  function RenameChildren(c: Codec, es: seq<Json>, src: Keys, dst: Keys): (r: seq<Json>)
    ensures |r| == |es|
  {
    seq(|es|, i requires 0 <= i < |es| => RenamePlain(c, es[i], src, dst))
  }

  function RenameEach(c: Codec, src: Keys, dst: Keys, v: Json): Json {
    match c.parse(c.Text(v))
    case Some(Arr(es)) => Arr(RenameChildren(c, es, src, dst))
    case _ => v
  }

  /** The unchecked `unpacked.([]interface{})`: a parent whose text is JSON but
      no list panics. */
  predicate RenamePanics(c: Codec, r: Renaming, doc: Json) {
    && r.src.Each? && r.dst.Each? && r.src.parent == r.dst.parent
    && var value := Get(doc, r.src.parent);
       value.Some? && var parsed := c.parse(c.Text(value.value)); parsed.Some? && !parsed.value.Arr?
  }

  /** A target with a `[*]` names no place where a simple source could be set:
      `sjson.Set` then changes nothing, without an error, and the source is
      deleted all the same. */
  function RenamePath(c: Codec, r: Renaming, doc: Json): Json {
    match r.src
    case Plain(src) => if r.dst.Plain? then RenamePlain(c, doc, src, r.dst.keys) else Remove(doc, src)
    case Each(parent, src) =>
      if r.dst.Each? && r.dst.parent == parent
      then Update(doc, parent, v => RenameEach(c, src, r.dst.child, v))
      else doc
    case Unsupported => doc
  }

  /** Renaming with the panic as `None`. */
  function RenameOp(c: Codec): (Renaming, Option<Json>) -> Option<Json> {
    (r: Renaming, doc: Option<Json>) =>
      if doc.None? || RenamePanics(c, r, doc.value) then None
      else Some(RenamePath(c, r, doc.value))
  }

  function RenameAll(c: Codec, doc: Json, renamings: seq<Renaming>): Option<Json> {
    Fold(RenameOp(c), Some(doc), renamings)
  }

  lemma {:induction false} PanicIsFinal(c: Codec, renamings: seq<Renaming>)
    ensures Fold(RenameOp(c), None, renamings) == None
    decreases |renamings|
  {
    if renamings == [] {
    } else {
      PanicIsFinal(c, renamings[1..]);
    }
  }

  /** `Rename`, visiting the path map in the order of `renamings`. */
  method Rename(c: Codec, doc: Json, renamings: seq<Renaming>) returns (out: Json, panicked: bool)
    ensures panicked <==> RenameAll(c, doc, renamings).None?
    ensures !panicked ==> RenameAll(c, doc, renamings) == Some(out)
  {
    out := doc;
    for k := 0 to |renamings|
      invariant RenameAll(c, out, renamings[k..]) == RenameAll(c, doc, renamings)
    {
      var r := renamings[k];
      assert renamings[k..][1..] == renamings[k + 1..];
      if r.src.Each? {
        if r.dst.Each? && r.dst.parent == r.src.parent {
          var value := Get(out, r.src.parent);
          if value.Some? && c.parse(c.Text(value.value)).Some? {
            var unpacked := c.parse(c.Text(value.value)).value;
            if !unpacked.Arr? {
              PanicIsFinal(c, renamings[k + 1..]);
              return out, true;
            }
            var items: seq<Json> := [];
            for i := 0 to |unpacked.elems|
              invariant items == RenameChildren(c, unpacked.elems, r.src.child, r.dst.child)[..i]
            {
              items := items + [RenamePlain(c, unpacked.elems[i], r.src.child, r.dst.child)];
            }
            SetIsUpdate(out, r.dst.parent, Arr(items), v => RenameEach(c, r.src.child, r.dst.child, v));
            out := Set(out, r.dst.parent, Arr(items)).value;
          } else {
            UpdateIdentity(out, r.src.parent, v => RenameEach(c, r.src.child, r.dst.child, v));
          }
        }
      } else if r.src.Plain? {
        var value := Get(out, r.src.keys);
        if value.Some? {
          var renamed := if r.dst.Plain? then Set(out, r.dst.keys, c.Unpack(value.value)) else Some(out);
          if renamed.Some? {
            out := Remove(renamed.value, r.src.keys);
          }
        } else {
          RemoveMissing(out, r.src.keys);
        }
      }
    }
    panicked := false;
  }
}
