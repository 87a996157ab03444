/** JSON documents, the text codec they are read and written through, and
    the three path operations (get, set, delete) of the JSON editing
    libraries the event pipeline is built on. Everything the pipeline does to
    a document is an `Update`: a local function applied at a key path. */
module JsonValues {

  datatype Option<+T> = None | Some(value: T)

  /** A JSON value. Objects are unordered (section 4 of RFC 8259) and numbers
      are opaque, told apart by an index: nothing here computes
      with them. */
  datatype Json =
    | Null
    | Bool(b: bool)
    | Num(index: nat)
    | Str(s: string)
    | Arr(elems: seq<Json>)
    | Obj(fields: map<string, Json>)

  /** JSON text and the MD5 hex digest, kept abstract. `parse` is
      `json.Unmarshal` into an empty interface, `render` is `json.Marshal`,
      `float64` rounds. */
  datatype Codec = Codec(
    parse: string -> Option<Json>,
    render: Json -> string,
    md5Hex: string -> string,
    float64: real -> nat)
  {
    /** All that is assumed of the codec: printing is undone by parsing, the
        empty text is not JSON (section 2 of RFC 8259), a string is shorter
        than the quoted text that denotes it, and a digest has 32 digits. */
    ghost predicate Lawful() {
      && (forall j: Json :: parse(render(j)) == Some(j))
      && parse("") == None
      && (forall t: string :: parse(t).Some? && parse(t).value.Str? ==> |parse(t).value.s| < |t|)
      && (forall t: string :: |md5Hex(t)| == 32)
    }

    /** The text `gjson.Result.String` yields for a value. */
    function Text(v: Json): string {
      match v
      case Null => ""
      case Str(s) => s
      case _ => render(v)
    }

    /** A value re-read from its own text; text that is no JSON stays text. */
    function Unpack(v: Json): Json {
      match parse(Text(v))
      case Some(j) => j
      case None => Str(Text(v))
    }
  }

  /** Only strings and null are changed by being re-read: a string that is JSON
      text becomes what it denotes. */
  lemma UnpackKeepsStructure(c: Codec, v: Json)
    requires c.Lawful()
    ensures !v.Null? && !v.Str? ==> c.Unpack(v) == v && c.parse(c.Text(v)) == Some(v)
    ensures v.Null? ==> c.Unpack(v) == Str("")
    ensures v.Str? ==> c.Unpack(v) == if c.parse(v.s).Some? then c.parse(v.s).value else v
  {
    if !v.Null? && !v.Str? {
      assert c.parse(c.render(v)) == Some(v);
    }
  }

  /** `gjson.Get` with plain, non-numeric keys. */
  function Get(j: Json, keys: seq<string>): Option<Json>
    decreases |keys|
  {
    if keys == [] then Some(j)
    else match j
         case Obj(m) => if keys[0] in m then Get(m[keys[0]], keys[1..]) else None
         case _ => None
  }

  /** The nested single-key objects `sjson.Set` creates for missing keys. */
  function Build(keys: seq<string>, v: Json): Json
    decreases |keys|
  {
    if keys == [] then v else Obj(map[keys[0] := Build(keys[1..], v)])
  }

  /** `sjson.Set`: a scalar in the way is replaced by an object, an array in
      the way is an error (`None`). */
  function Set(j: Json, keys: seq<string>, v: Json): Option<Json>
    decreases |keys|
  {
    if keys == [] then Some(v)
    else match j
         case Obj(m) =>
           if keys[0] !in m then Some(Obj(m[keys[0] := Build(keys[1..], v)]))
           else (match Set(m[keys[0]], keys[1..], v)
                 case None => None
                 case Some(x) => Some(Obj(m[keys[0] := x])))
         case Arr(_) => None
         case _ => Some(Build(keys, v))
  }

  /** `sjson.Delete`: a missing path leaves the document as it is. */
  function Remove(j: Json, keys: seq<string>): Json
    requires keys != []
    decreases |keys|
  {
    match j
    case Obj(m) =>
      if keys[0] !in m then j
      else if |keys| == 1 then Obj(m - {keys[0]})
      else Obj(m[keys[0] := Remove(m[keys[0]], keys[1..])])
    case _ => j
  }

  /** Apply `f` at a location if it exists, and nowhere else. */
  function Update(j: Json, keys: seq<string>, f: Json -> Json): Json
    decreases |keys|
  {
    if keys == [] then f(j)
    else match j
         case Obj(m) =>
           if keys[0] in m then Obj(m[keys[0] := Update(m[keys[0]], keys[1..], f)]) else j
         case _ => j
  }

  /** Neither path leads to, or passes through, the other. */
  predicate Diverge(p: seq<string>, q: seq<string>)
    decreases |p|
  {
    p != [] && q != [] && (p[0] != q[0] || Diverge(p[1..], q[1..]))
  }

  lemma {:induction false} DivergeSymmetric(p: seq<string>, q: seq<string>)
    requires Diverge(p, q)
    ensures Diverge(q, p)
    decreases |p|
  {
    if p[0] == q[0] {
      DivergeSymmetric(p[1..], q[1..]);
    }
  }

  /** Setting an existing location is an update of it and never fails. */
  lemma {:induction false} SetIsUpdate(j: Json, keys: seq<string>, v: Json, f: Json -> Json)
    requires Get(j, keys).Some?
    requires f(Get(j, keys).value) == v
    ensures Set(j, keys, v) == Some(Update(j, keys, f))
    decreases |keys|
  {
    if keys == [] {
    } else {
      SetIsUpdate(j.fields[keys[0]], keys[1..], v, f);
    }
  }

  /** Deleting is an update of the enclosing object. */
  lemma {:induction false} RemoveIsUpdate(j: Json, pre: seq<string>, k: string, f: Json -> Json)
    requires forall v: Json :: f(v) == Remove(v, [k])
    ensures Remove(j, pre + [k]) == Update(j, pre, f)
    decreases |pre|
  {
    if pre == [] {
      assert pre + [k] == [k];
    } else {
      assert (pre + [k])[1..] == pre[1..] + [k];
      if j.Obj? && pre[0] in j.fields {
        RemoveIsUpdate(j.fields[pre[0]], pre[1..], k, f);
      }
    }
  }

  lemma {:induction false} GetUpdated(j: Json, keys: seq<string>, f: Json -> Json)
    ensures Get(Update(j, keys, f), keys) ==
            (match Get(j, keys) case None => None case Some(v) => Some(f(v)))
    decreases |keys|
  {
    if keys != [] && j.Obj? && keys[0] in j.fields {
      GetUpdated(j.fields[keys[0]], keys[1..], f);
    }
  }

  lemma {:induction false} GetElsewhere(j: Json, p: seq<string>, q: seq<string>, f: Json -> Json)
    requires Diverge(p, q)
    ensures Get(Update(j, p, f), q) == Get(j, q)
    decreases |p|
  {
    if j.Obj? && p[0] in j.fields && p[0] == q[0] {
      GetElsewhere(j.fields[p[0]], p[1..], q[1..], f);
    }
  }

  /** Updates at locations that diverge commute. */
  lemma {:induction false} UpdatesCommute(j: Json, p: seq<string>, f: Json -> Json, q: seq<string>, g: Json -> Json)
    requires Diverge(p, q)
    ensures Update(Update(j, p, f), q, g) == Update(Update(j, q, g), p, f)
    decreases |p|
  {
    if j.Obj? {
      var m: map<string, Json> := j.fields;
      if p[0] == q[0] {
        if p[0] in m {
          UpdatesCommute(m[p[0]], p[1..], f, q[1..], g);
        }
      } else if p[0] in m && q[0] in m {
        var x, y := Update(m[p[0]], p[1..], f), Update(m[q[0]], q[1..], g);
        assert m[p[0] := x][q[0] := y] == m[q[0] := y][p[0] := x];
      }
    }
  }

  /** Two updates at one location are the update by their composition. */
  lemma {:induction false} UpdatesCompose(j: Json, p: seq<string>, f: Json -> Json, g: Json -> Json, h: Json -> Json)
    requires Get(j, p).Some? ==> h(Get(j, p).value) == g(f(Get(j, p).value))
    ensures Update(Update(j, p, f), p, g) == Update(j, p, h)
    decreases |p|
  {
    if p != [] && j.Obj? && p[0] in j.fields {
      UpdatesCompose(j.fields[p[0]], p[1..], f, g, h);
    }
  }

  /** Two functions that agree on the value at a location update it alike. */
  lemma {:induction false} UpdateCongruent(j: Json, p: seq<string>, f: Json -> Json, g: Json -> Json)
    requires Get(j, p).Some? ==> f(Get(j, p).value) == g(Get(j, p).value)
    ensures Update(j, p, f) == Update(j, p, g)
    decreases |p|
  {
    if p != [] && j.Obj? && p[0] in j.fields {
      UpdateCongruent(j.fields[p[0]], p[1..], f, g);
    }
  }

  lemma {:induction false} UpdateIdentity(j: Json, p: seq<string>, f: Json -> Json)
    requires Get(j, p).Some? ==> f(Get(j, p).value) == Get(j, p).value
    ensures Update(j, p, f) == j
    decreases |p|
  {
    if p != [] && j.Obj? && p[0] in j.fields {
      UpdateIdentity(j.fields[p[0]], p[1..], f);
    }
  }

  /** An update below a location is an update of the value there. */
  lemma {:induction false} UpdateBelow(j: Json, p: seq<string>, q: seq<string>, f: Json -> Json, g: Json -> Json)
    requires forall v: Json :: g(v) == Update(v, q, f)
    ensures Update(j, p + q, f) == Update(j, p, g)
    decreases |p|
  {
    if p == [] {
      assert p + q == q;
    } else {
      assert (p + q)[1..] == p[1..] + q;
      if j.Obj? && p[0] in j.fields {
        UpdateBelow(j.fields[p[0]], p[1..], q, f, g);
      }
    }
  }

  // ----------------------------------------------------- Setting and deleting

  /** Some list stands in front of the last key. */
  ghost predicate ListInTheWay(j: Json, keys: seq<string>)
    decreases |keys|
  {
    exists n :: 0 <= n < |keys| && IsListAt(j, keys[..n])
  }

  ghost predicate IsListAt(j: Json, keys: seq<string>) {
    Get(j, keys).Some? && Get(j, keys).value.Arr?
  }

  lemma {:induction false} GetBuilt(keys: seq<string>, v: Json)
    ensures Get(Build(keys, v), keys) == Some(v)
    decreases |keys|
  {
    if keys == [] {
    } else {
      GetBuilt(keys[1..], v);
    }
  }

  lemma ListBelow(m: map<string, Json>, keys: seq<string>)
    requires keys != []
    ensures ListInTheWay(Obj(m), keys) <==> keys[0] in m && ListInTheWay(m[keys[0]], keys[1..])
  {
    if ListInTheWay(Obj(m), keys) {
      var n :| 0 <= n < |keys| && IsListAt(Obj(m), keys[..n]);
      assert n > 0 && keys[..n][1..] == keys[1..][..n - 1];
      assert IsListAt(m[keys[0]], keys[1..][..n - 1]);
    }
    if keys[0] in m && ListInTheWay(m[keys[0]], keys[1..]) {
      var n :| 0 <= n < |keys[1..]| && IsListAt(m[keys[0]], keys[1..][..n]);
      assert keys[..n + 1][1..] == keys[1..][..n];
      assert IsListAt(Obj(m), keys[..n + 1]);
    }
  }

  /** Setting fails exactly if a list is in the way, and otherwise the value
      can be read back, whether or not the location existed. */
  lemma {:induction false} SetIsRead(j: Json, keys: seq<string>, v: Json)
    ensures Set(j, keys, v).None? <==> ListInTheWay(j, keys)
    ensures Set(j, keys, v).Some? ==> Get(Set(j, keys, v).value, keys) == Some(v)
    decreases |keys|
  {
    if keys == [] {
    } else {
      match j
      case Obj(m) =>
        ListBelow(m, keys);
        if keys[0] in m {
          SetIsRead(m[keys[0]], keys[1..], v);
        } else {
          GetBuilt(keys[1..], v);
        }
      case Arr(_) => assert IsListAt(j, keys[..0]);
      case _ => GetBuilt(keys, v);
    }
  }

  /** What was deleted cannot be read any more. */
  lemma {:induction false} RemovedIsGone(j: Json, keys: seq<string>)
    requires keys != []
    ensures Get(Remove(j, keys), keys) == None
    decreases |keys|
  {
    if j.Obj? && keys[0] in j.fields && |keys| > 1 {
      RemovedIsGone(j.fields[keys[0]], keys[1..]);
    }
  }

  lemma {:induction false} GetAfterRemove(j: Json, keys: seq<string>, q: seq<string>)
    requires Diverge(keys, q)
    ensures Get(Remove(j, keys), q) == Get(j, q)
    decreases |keys|
  {
    if j.Obj? && keys[0] in j.fields && keys[0] == q[0] {
      GetAfterRemove(j.fields[keys[0]], keys[1..], q[1..]);
    }
  }

  lemma {:induction false} RemoveMissing(j: Json, keys: seq<string>)
    requires keys != [] && Get(j, keys).None?
    ensures Remove(j, keys) == j
    decreases |keys|
  {
    if j.Obj? && keys[0] in j.fields && |keys| > 1 {
      RemoveMissing(j.fields[keys[0]], keys[1..]);
    }
  }

  /** What `Set` creates for missing keys holds nothing else. */
  lemma {:induction false} BuildHoldsNothingElse(p: seq<string>, v: Json, q: seq<string>)
    requires Diverge(p, q)
    ensures Get(Build(p, v), q) == None
    decreases |p|
  {
    if p[0] == q[0] {
      BuildHoldsNothingElse(p[1..], v, q[1..]);
    }
  }

  lemma {:induction false} GetAfterSet(j: Json, p: seq<string>, v: Json, q: seq<string>)
    requires Diverge(p, q) && Set(j, p, v).Some?
    ensures Get(Set(j, p, v).value, q) == Get(j, q)
    decreases |p|
  {
    match j
    case Obj(m) =>
      if p[0] == q[0] {
        if p[0] in m {
          GetAfterSet(m[p[0]], p[1..], v, q[1..]);
        } else {
          BuildHoldsNothingElse(p[1..], v, q[1..]);
        }
      }
    case _ => BuildHoldsNothingElse(p, v, q);
  }

  lemma PutTwice(m: map<string, Json>, k: string, x: Json, y: Json, z: Json)
    ensures m[k := x][k := z] == m[k := z] == m[k := y][k := z]
  {
  }

  /** The value `Set` leaves under the first key. */
  function SetBelow(m: map<string, Json>, p: seq<string>, v: Json): Option<Json>
    requires p != []
  {
    if p[0] in m then Set(m[p[0]], p[1..], v) else Some(Build(p[1..], v))
  }

  lemma SetInObject(m: map<string, Json>, p: seq<string>, v: Json)
    requires p != []
    ensures Set(Obj(m), p, v) == match SetBelow(m, p, v) case None => None case Some(x) => Some(Obj(m[p[0] := x]))
  {
  }

  lemma {:induction false} BuildsCommute(p: seq<string>, v: Json, q: seq<string>, w: Json)
    requires Diverge(p, q)
    ensures Set(Build(p, v), q, w).Some?
    ensures Set(Build(p, v), q, w) == Set(Build(q, w), p, v)
    decreases |p|
  {
    var x, y := Build(p[1..], v), Build(q[1..], w);
    SetInObject(map[p[0] := x], q, w);
    SetInObject(map[q[0] := y], p, v);
    if p[0] == q[0] {
      BuildsCommute(p[1..], v, q[1..], w);
      PutTwice(map[], p[0], x, y, Set(x, q[1..], w).value);
    } else {
      assert map[p[0] := x][q[0] := y] == map[q[0] := y][p[0] := x];
    }
  }

  /** Setting at diverging locations commutes, and the one never makes the
      other fail or succeed. */
  lemma {:induction false} SetsCommute(j: Json, p: seq<string>, v: Json, q: seq<string>, w: Json)
    requires Diverge(p, q) && Set(j, p, v).Some?
    ensures Set(Set(j, p, v).value, q, w).Some? <==> Set(j, q, w).Some?
    ensures Set(j, q, w).Some? ==> Set(Set(j, p, v).value, q, w) == Set(Set(j, q, w).value, p, v)
    decreases |p|
  {
    match j
    case Obj(m) =>
      if p[0] == q[0] {
        if p[0] in m {
          SetsCommute(m[p[0]], p[1..], v, q[1..], w);
        } else {
          BuildsCommute(p[1..], v, q[1..], w);
        }
        SetsBelow(m, p, v, q, w);
      } else {
        SetsApart(m, p, v, q, w);
      }
    case _ => BuildsCommute(p, v, q, w);
  }

  lemma SetsBelow(m: map<string, Json>, p: seq<string>, v: Json, q: seq<string>, w: Json)
    requires p != [] && q != [] && p[0] == q[0] && SetBelow(m, p, v).Some?
    requires Set(SetBelow(m, p, v).value, q[1..], w).Some? <==> SetBelow(m, q, w).Some?
    requires SetBelow(m, q, w).Some? ==>
               Set(SetBelow(m, p, v).value, q[1..], w) == Set(SetBelow(m, q, w).value, p[1..], v)
    ensures Set(Set(Obj(m), p, v).value, q, w).Some? <==> Set(Obj(m), q, w).Some?
    ensures Set(Obj(m), q, w).Some? ==>
              Set(Set(Obj(m), p, v).value, q, w) == Set(Set(Obj(m), q, w).value, p, v)
  {
    SetInObject(m, p, v);
    SetInObject(m, q, w);
    var x := SetBelow(m, p, v).value;
    SetInObject(m[p[0] := x], q, w);
    if SetBelow(m, q, w).Some? {
      var y := SetBelow(m, q, w).value;
      SetInObject(m[q[0] := y], p, v);
      PutTwice(m, p[0], x, y, Set(x, q[1..], w).value);
    }
  }

  lemma SetsApart(m: map<string, Json>, p: seq<string>, v: Json, q: seq<string>, w: Json)
    requires p != [] && q != [] && p[0] != q[0] && Set(Obj(m), p, v).Some?
    ensures Set(Set(Obj(m), p, v).value, q, w).Some? <==> Set(Obj(m), q, w).Some?
    ensures Set(Obj(m), q, w).Some? ==>
              Set(Set(Obj(m), p, v).value, q, w) == Set(Set(Obj(m), q, w).value, p, v)
  {
    SetInObject(m, p, v);
    SetInObject(m, q, w);
    var x := SetBelow(m, p, v).value;
    SetInObject(m[p[0] := x], q, w);
    if SetBelow(m, q, w).Some? {
      var y := SetBelow(m, q, w).value;
      SetInObject(m[q[0] := y], p, v);
      assert m[p[0] := x][q[0] := y] == m[q[0] := y][p[0] := x];
    }
  }

  lemma SetAndRemoveApart(m: map<string, Json>, p: seq<string>, v: Json, q: seq<string>)
    requires p != [] && q != [] && p[0] != q[0]
    ensures Set(Remove(Obj(m), q), p, v).Some? <==> Set(Obj(m), p, v).Some?
    ensures Set(Obj(m), p, v).Some? ==> Set(Remove(Obj(m), q), p, v) == Some(Remove(Set(Obj(m), p, v).value, q))
  {
    if q[0] in m {
      var m' := Remove(Obj(m), q).fields;
      SetInObject(m, p, v);
      SetInObject(m', p, v);
      if Set(Obj(m), p, v).Some? {
        var x := SetBelow(m, p, v).value;
        assert m[p[0] := x] - {q[0]} == (m - {q[0]})[p[0] := x];
        assert |q| > 1 ==> m[p[0] := x][q[0] := m'[q[0]]] == m'[p[0] := x];
      }
    }
  }

  lemma {:induction false} SetRemoveCommute(j: Json, p: seq<string>, v: Json, q: seq<string>)
    requires Diverge(p, q)
    ensures Set(Remove(j, q), p, v).Some? <==> Set(j, p, v).Some?
    ensures Set(j, p, v).Some? ==> Set(Remove(j, q), p, v) == Some(Remove(Set(j, p, v).value, q))
    decreases |p|
  {
    match j
    case Obj(m) =>
      if p[0] == q[0] {
        if p[0] in m {
          SetRemoveCommute(m[p[0]], p[1..], v, q[1..]);
          var s, y := Set(m[p[0]], p[1..], v), Remove(m[p[0]], q[1..]);
          if s.Some? { PutTwice(m, p[0], s.value, y, Remove(s.value, q[1..])); }
        } else {
          BuildHoldsNothingElse(p[1..], v, q[1..]);
          RemoveMissing(Build(p[1..], v), q[1..]);
          var x := Build(p[1..], v);
          PutTwice(m, p[0], x, x, x);
        }
      } else {
        SetAndRemoveApart(m, p, v, q);
      }
    case _ =>
      BuildHoldsNothingElse(p, v, q);
      RemoveMissing(Build(p, v), q);
  }

  lemma {:induction false} RemovesCommute(j: Json, p: seq<string>, q: seq<string>)
    requires Diverge(p, q)
    ensures Remove(Remove(j, q), p) == Remove(Remove(j, p), q)
    decreases |p|
  {
    if j.Obj? && p[0] in j.fields && q[0] in j.fields {
      var m: map<string, Json> := j.fields;
      if p[0] == q[0] {
        RemovesCommute(m[p[0]], p[1..], q[1..]);
      } else {
        var x := if |p| > 1 then Remove(m[p[0]], p[1..]) else Null;
        var y := if |q| > 1 then Remove(m[q[0]], q[1..]) else Null;
        assert m[p[0] := x][q[0] := y] == m[q[0] := y][p[0] := x];
        assert m[p[0] := x] - {q[0]} == (m - {q[0]})[p[0] := x];
        assert m[q[0] := y] - {p[0]} == (m - {p[0]})[q[0] := y];
        assert m - {p[0]} - {q[0]} == m - {q[0]} - {p[0]};
      }
    }
  }

  lemma SetAndUpdateApart(m: map<string, Json>, p: seq<string>, v: Json, q: seq<string>, g: Json -> Json)
    requires p != [] && q != [] && p[0] != q[0]
    ensures Set(Update(Obj(m), q, g), p, v).Some? <==> Set(Obj(m), p, v).Some?
    ensures Set(Obj(m), p, v).Some? ==> Set(Update(Obj(m), q, g), p, v) == Some(Update(Set(Obj(m), p, v).value, q, g))
  {
    if q[0] in m {
      var m' := Update(Obj(m), q, g).fields;
      SetInObject(m, p, v);
      SetInObject(m', p, v);
      if Set(Obj(m), p, v).Some? {
        var x := SetBelow(m, p, v).value;
        assert m[p[0] := x][q[0] := m'[q[0]]] == m'[p[0] := x];
      }
    }
  }

  lemma {:induction false} SetUpdateCommute(j: Json, p: seq<string>, v: Json, q: seq<string>, g: Json -> Json)
    requires Diverge(p, q)
    ensures Set(Update(j, q, g), p, v).Some? <==> Set(j, p, v).Some?
    ensures Set(j, p, v).Some? ==> Set(Update(j, q, g), p, v) == Some(Update(Set(j, p, v).value, q, g))
    decreases |p|
  {
    match j
    case Obj(m) =>
      if p[0] == q[0] {
        if p[0] in m {
          SetUpdateCommute(m[p[0]], p[1..], v, q[1..], g);
          var s, y := Set(m[p[0]], p[1..], v), Update(m[p[0]], q[1..], g);
          if s.Some? { PutTwice(m, p[0], s.value, y, Update(s.value, q[1..], g)); }
        } else {
          BuildHoldsNothingElse(p[1..], v, q[1..]);
          UpdateIdentity(Build(p[1..], v), q[1..], g);
          var x := Build(p[1..], v);
          PutTwice(m, p[0], x, x, x);
        }
      } else {
        SetAndUpdateApart(m, p, v, q, g);
      }
    case _ =>
      BuildHoldsNothingElse(p, v, q);
      UpdateIdentity(Build(p, v), q, g);
  }

  lemma {:induction false} RemoveUpdateCommute(j: Json, p: seq<string>, q: seq<string>, g: Json -> Json)
    requires Diverge(p, q)
    ensures Remove(Update(j, q, g), p) == Update(Remove(j, p), q, g)
    decreases |p|
  {
    if j.Obj? && p[0] in j.fields && q[0] in j.fields {
      var m: map<string, Json> := j.fields;
      if p[0] == q[0] {
        RemoveUpdateCommute(m[p[0]], p[1..], q[1..], g);
      } else {
        var x := if |p| > 1 then Remove(m[p[0]], p[1..]) else Null;
        var y := Update(m[q[0]], q[1..], g);
        assert m[p[0] := x][q[0] := y] == m[q[0] := y][p[0] := x];
        assert m[q[0] := y] - {p[0]} == (m - {p[0]})[q[0] := y];
      }
    }
  }
}
