/** The transformations that unpack text fields and turn objects into lists,
    and what can be read back from such a list. */
module MapToList {
  import opened JsonValues
  import opened Enumerations
  import opened JsonEdit

  /** The order in which Go visits the entries of the object at a site. */
  type Iteration = (Site, map<string, Json>) -> seq<string>

  ghost predicate ValidIteration(order: Iteration) {
    forall site, m :: Enumerates(order(site, m), m.Keys)
  }

  // ------------------------------------------------------------------- Unpack

  /** `unpackJson` applies the identity: re-reading is its only effect. */
  function Unpacker(): Transformer {
    (site: Site, unpacked: Json) => Some(unpacked)
  }

  /** Unpacking a field twice is unpacking it once exactly if what the first
      pass leaves is not text that can be read again. */
  lemma UnpackTwice(c: Codec, site: Site, v: Json)
    requires c.Lawful()
    ensures StepValue(c, Unpacker(), site, StepValue(c, Unpacker(), site, v)) == StepValue(c, Unpacker(), site, v)
       <==> (v.Str? && c.Unpack(v).Str? ==> c.parse(c.Unpack(v).s).None?)
  {
    UnpackKeepsStructure(c, v);
    UnpackKeepsStructure(c, c.Unpack(v));
    if v.Str? && c.Unpack(v).Str? && c.parse(c.Unpack(v).s).Some? {
      var once := c.Unpack(v).s;
      assert c.parse(once).value != Str(once);
    }
  }

  // -------------------------------------------------------------- Map to list

  function Entry(m: map<string, Json>, k: string): Json {
    if k in m then m[k] else Null
  }

  /** An object gets its key as `id`; any other value is wrapped. */
  function KeyedItem(k: string, v: Json): Json {
    match v
    case Obj(fields) => Obj(fields["id" := Str(k)])
    case _ => Obj(map["key" := Str(k), "value" := v])
  }

  /** A Go slice that was never appended to is nil, and nil is encoded as null. */
  function SliceJson(items: seq<Json>): Json {
    if items == [] then Null else Arr(items)
  }

  function KeyedItems(m: map<string, Json>, ks: seq<string>): seq<Json> {
    Image(k => KeyedItem(k, Entry(m, k)), ks)
  }

  function DroppedItems(m: map<string, Json>, ks: seq<string>): seq<Json> {
    Image(k => Entry(m, k), ks)
  }

  /** The closure of `mapToListJson`; anything but an object is an error. */
  function KeyedLister(order: Iteration): Transformer {
    (site: Site, unpacked: Json) =>
      if unpacked.Obj? then Some(SliceJson(KeyedItems(unpacked.fields, order(site, unpacked.fields)))) else None
  }

  /** The closure of `mapToListJsonDropKey`. */
  function DropKeyLister(order: Iteration): Transformer {
    (site: Site, unpacked: Json) =>
      if unpacked.Obj? then Some(SliceJson(DroppedItems(unpacked.fields, order(site, unpacked.fields)))) else None
  }

  /** The entry under `k` as an item: an object gets its key as `id`, any other
      value is wrapped. */
  ghost predicate IsKeyedItem(item: Json, k: string, v: Json) {
    if v.Obj? then item == Obj(v.fields["id" := Str(k)]) else item == Obj(map["key" := Str(k), "value" := v])
  }

  /** The object as a list of items, one per entry; null if it is empty. */
  ghost predicate IsKeyedList(list: Json, m: map<string, Json>) {
    if m == map[] then list == Null
    else exists ks: seq<string> ::
           && Enumerates(ks, m.Keys) && list.Arr? && |list.elems| == |ks|
           && forall i :: 0 <= i < |ks| ==> IsKeyedItem(list.elems[i], ks[i], m[ks[i]])
  }

  /** The same with the values alone. */
  ghost predicate IsValueList(list: Json, m: map<string, Json>) {
    if m == map[] then list == Null
    else exists ks: seq<string> ::
           && Enumerates(ks, m.Keys) && list.Arr? && |list.elems| == |ks|
           && forall i :: 0 <= i < |ks| ==> list.elems[i] == m[ks[i]]
  }

  lemma KeyedItemsList(m: map<string, Json>, ks: seq<string>)
    requires Enumerates(ks, m.Keys)
    ensures IsKeyedList(SliceJson(KeyedItems(m, ks)), m)
  {
    EnumerationLength(ks, m.Keys);
    forall i | 0 <= i < |ks|
      ensures ks[i] in m && IsKeyedItem(KeyedItems(m, ks)[i], ks[i], m[ks[i]])
    {
      assert ks[i] in m.Keys;
    }
  }

  lemma DroppedItemsList(m: map<string, Json>, ks: seq<string>)
    requires Enumerates(ks, m.Keys)
    ensures IsValueList(SliceJson(DroppedItems(m, ks)), m)
  {
    EnumerationLength(ks, m.Keys);
    forall i | 0 <= i < |ks|
      ensures ks[i] in m && DroppedItems(m, ks)[i] == m[ks[i]]
    {
      assert ks[i] in m.Keys;
    }
  }

  /** Both transformations turn objects into such lists, and fail on anything
      else. */
  lemma ListersList(order: Iteration, site: Site, v: Json)
    requires ValidIteration(order)
    ensures KeyedLister(order)(site, v).Some? <==> v.Obj?
    ensures v.Obj? ==> IsKeyedList(KeyedLister(order)(site, v).value, v.fields)
    ensures DropKeyLister(order)(site, v).Some? <==> v.Obj?
    ensures v.Obj? ==> IsValueList(DropKeyLister(order)(site, v).value, v.fields)
  {
    if v.Obj? {
      KeyedItemsList(v.fields, order(site, v.fields));
      DroppedItemsList(v.fields, order(site, v.fields));
    }
  }

  /** The loop of `mapToListJson` over the entries in the order `ks`. */
  method MapToKeyedList(srcMap: map<string, Json>, ks: seq<string>) returns (dst: Json)
    requires Enumerates(ks, srcMap.Keys)
    ensures dst == SliceJson(KeyedItems(srcMap, ks))
  {
    var dstList: seq<Json> := [];
    for i := 0 to |ks|
      invariant dstList == KeyedItems(srcMap, ks)[..i]
    {
      assert ks[i] in srcMap.Keys;
      var item: Json;
      if srcMap[ks[i]].Obj? {
        item := Obj(srcMap[ks[i]].fields["id" := Str(ks[i])]);
      } else {
        item := Obj(map["key" := Str(ks[i]), "value" := srcMap[ks[i]]]);
      }
      dstList := dstList + [item];
    }
    dst := SliceJson(dstList);
  }

  /** The loop of `mapToListJsonDropKey`. */
  method MapToList(srcMap: map<string, Json>, ks: seq<string>) returns (dst: Json)
    requires Enumerates(ks, srcMap.Keys)
    ensures dst == SliceJson(DroppedItems(srcMap, ks))
  {
    var dstList: seq<Json> := [];
    for i := 0 to |ks|
      invariant dstList == DroppedItems(srcMap, ks)[..i]
    {
      assert ks[i] in srcMap.Keys;
      dstList := dstList + [srcMap[ks[i]]];
    }
    dst := SliceJson(dstList);
  }

  // --------------------------------------------------------------- Round trip

  /** What a consumer of the list can recover: an item with an `id` stands for
      an object under that key, any other for its `key` and `value`. */
  function DecodeList(list: Json): map<string, Json> {
    if list.Arr? then DecodeItems(list.elems) else map[]
  }

  function DecodeItems(items: seq<Json>): map<string, Json>
    decreases |items|
  {
    if items == [] then map[]
    else match items[0]
         case Obj(fields) =>
           var rest := DecodeItems(items[1..]);
           if "id" in fields && fields["id"].Str? then rest[fields["id"].s := Obj(fields - {"id"})]
           else if "key" in fields && "value" in fields && fields["key"].Str?
           then rest[fields["key"].s := fields["value"]]
           else rest
         case _ => DecodeItems(items[1..])
  }

  function WithoutId(v: Json): Json {
    match v
    case Obj(fields) => Obj(fields - {"id"})
    case _ => v
  }

  lemma DecodeFirst(k: string, v: Json, rest: seq<Json>)
    ensures DecodeItems([KeyedItem(k, v)] + rest) == DecodeItems(rest)[k := WithoutId(v)]
  {
    assert ([KeyedItem(k, v)] + rest)[1..] == rest;
    match v {
      case Obj(fields) => assert fields["id" := Str(k)] - {"id"} == fields - {"id"};
      case _ =>
    }
  }

  function Stripped(m: map<string, Json>, ks: seq<string>): map<string, Json> {
    map k | k in ks :: WithoutId(Entry(m, k))
  }

  lemma KeyedItemsFirst(m: map<string, Json>, ks: seq<string>)
    requires ks != []
    ensures KeyedItems(m, ks) == [KeyedItem(ks[0], Entry(m, ks[0]))] + KeyedItems(m, ks[1..])
  {
  }

  lemma {:induction false} DecodeKeyedItems(m: map<string, Json>, ks: seq<string>)
    ensures DecodeItems(KeyedItems(m, ks)) == Stripped(m, ks)
    decreases |ks|
  {
    if ks == [] {
    } else {
      DecodeKeyedItems(m, ks[1..]);
      KeyedItemsFirst(m, ks);
      DecodeFirst(ks[0], Entry(m, ks[0]), KeyedItems(m, ks[1..]));
      StrippedFirst(m, ks);
    }
  }

  lemma StrippedFirst(m: map<string, Json>, ks: seq<string>)
    requires ks != []
    ensures Stripped(m, ks) == Stripped(m, ks[1..])[ks[0] := WithoutId(Entry(m, ks[0]))]
  {
    assert ks == [ks[0]] + ks[1..];
  }

  /** For every iteration order the list has one item per entry, and decoding
      it gives back the source map up to the `id` fields of its objects. */
  lemma ListRoundTrip(m: map<string, Json>, ks: seq<string>)
    requires Enumerates(ks, m.Keys)
    ensures |KeyedItems(m, ks)| == |m|
    ensures DecodeList(SliceJson(KeyedItems(m, ks))) == map k | k in m :: WithoutId(m[k])
  {
    EnumerationLength(ks, m.Keys);
    DecodeKeyedItems(m, ks);
    assert forall k :: k in ks <==> k in m.Keys;
    assert Stripped(m, ks) == map k | k in m :: WithoutId(m[k]);
  }

  /** Decoding gives back exactly the source map if and only if no object in
      it has an `id` of its own. */
  lemma ListRoundTripExact(m: map<string, Json>, ks: seq<string>)
    requires Enumerates(ks, m.Keys)
    ensures DecodeList(SliceJson(KeyedItems(m, ks))) == m <==>
            forall k :: k in m && m[k].Obj? ==> "id" !in m[k].fields
  {
    ListRoundTrip(m, ks);
    forall k | k in m
      ensures WithoutId(m[k]) == m[k] <==> (m[k].Obj? ==> "id" !in m[k].fields)
    {
      if m[k].Obj? && "id" !in m[k].fields { assert m[k].fields - {"id"} == m[k].fields; }
    }
    var stripped := map k | k in m :: WithoutId(m[k]);
    assert stripped == m <==> forall k :: k in m ==> stripped[k] == m[k];
  }

  lemma EnumerationLength(ks: seq<string>, s: set<string>)
    requires Enumerates(ks, s)
    ensures |ks| == |s|
  {
    EnumerationAsMultiset(ks, s);
    assert |multiset(ks)| == |ks| && |multiset(s)| == |s|;
  }

  /** Dropping the keys keeps every value, as often as it occurs, whatever the
      iteration order. */
  lemma DroppedKeepsValues(m: map<string, Json>, ks: seq<string>, ks': seq<string>)
    requires Enumerates(ks, m.Keys) && Enumerates(ks', m.Keys)
    ensures multiset(DroppedItems(m, ks)) == multiset(DroppedItems(m, ks'))
    ensures |DroppedItems(m, ks)| == |m|
    ensures forall v :: v in DroppedItems(m, ks) <==> v in m.Values
  {
    EnumerationLength(ks, m.Keys);
    EnumerationAsMultiset(ks, m.Keys);
    EnumerationAsMultiset(ks', m.Keys);
    ImagePermuted(k => Entry(m, k), ks, ks');
    forall v
      ensures v in DroppedItems(m, ks) <==> v in m.Values
    {
      if v in m.Values {
        var k :| k in m && m[k] == v;
        assert k in m.Keys && k in ks;
        var i :| 0 <= i < |ks| && ks[i] == k;
        assert DroppedItems(m, ks)[i] == v;
      }
      if v in DroppedItems(m, ks) {
        var i :| 0 <= i < |ks| && DroppedItems(m, ks)[i] == v;
        assert ks[i] in m.Keys;
      }
    }
  }

  /** A second pass of either list transformation changes nothing, even if
      Go iterates differently: the first leaves a list, null or no object. */
  lemma ListingTwice(c: Codec, order: Iteration, order': Iteration, site: Site, v: Json)
    requires c.Lawful()
    ensures var once := StepValue(c, KeyedLister(order), site, v);
            StepValue(c, KeyedLister(order'), site, once) == once
    ensures var once := StepValue(c, DropKeyLister(order), site, v);
            StepValue(c, DropKeyLister(order'), site, once) == once
  {
    var u := c.Unpack(v);
    if !v.Null? && u.Obj? {
      assert KeyedLister(order)(site, u) == Some(SliceJson(KeyedItems(u.fields, order(site, u.fields))));
      assert DropKeyLister(order)(site, u) == Some(SliceJson(DroppedItems(u.fields, order(site, u.fields))));
    }
    ListedOnce(c, KeyedLister(order'), site, StepValue(c, KeyedLister(order), site, v), v);
    ListedOnce(c, DropKeyLister(order'), site, StepValue(c, DropKeyLister(order), site, v), v);
  }

  lemma ListedOnce(c: Codec, fn: Transformer, site: Site, once: Json, v: Json)
    requires c.Lawful()
    requires forall u: Json :: !u.Obj? ==> fn(site, u).None?
    requires once.Null? || once.Arr? || (once == v && !c.Unpack(v).Obj?)
    ensures StepValue(c, fn, site, once) == once
  {
    UnpackKeepsStructure(c, once);
  }
}
