/** Hash the user names, then rename them. Go visits the path table once to
    collect the keys and once more inside `Rename`, in unrelated orders. */
module Anonymize {
  import opened JsonValues
  import opened Enumerations
  import opened JsonEdit
  import opened JsonEditLaws
  import opened DefaultFields

  /** The `hash` closure: only strings are hashed. */
  function Hasher(c: Codec): Transformer {
    (site: Site, unpacked: Json) => Some(if unpacked.Str? then Str(c.md5Hex(unpacked.s)) else unpacked)
  }

  function Renamings(table: map<Path, Path>, order: seq<Path>): seq<Renaming> {
    Image(p => Renaming(p, if p in table then table[p] else Unsupported), order)
  }

  /** Both phases; `None` if the unchecked list assertion of `Rename` fails. */
  function Anonymized(c: Codec, doc: Json, table: map<Path, Path>, hashOrder: seq<Path>,
      renameOrder: seq<Path>): Option<Json> {
    RenameAll(c, TransformAll(c, Hasher(c), doc, hashOrder), Renamings(table, renameOrder))
  }

  method AnonymizeJson(c: Codec, doc: Json, table: map<Path, Path>, hashOrder: seq<Path>, renameOrder: seq<Path>)
    returns (out: Json, panicked: bool)
    requires Enumerates(hashOrder, table.Keys) && Enumerates(renameOrder, table.Keys)
    ensures panicked <==> Anonymized(c, doc, table, hashOrder, renameOrder).None?
    ensures !panicked ==> Anonymized(c, doc, table, hashOrder, renameOrder) == Some(out)
  {
    var keys: seq<Path> := [];
    for i := 0 to |hashOrder|
      invariant keys == hashOrder[..i]
    {
      keys := keys + [hashOrder[i]];
    }
    assert keys == hashOrder;
    var hashed := Transform(c, Hasher(c), doc, keys);
    out, panicked := Rename(c, hashed, Renamings(table, renameOrder));
  }

  lemma RenamingsOfTable(table: map<Path, Path>, order: seq<Path>)
    requires IndependentTable(table) && Enumerates(order, table.Keys)
    ensures AllIndependent(Renamings(table, order))
  {
    var rs := Renamings(table, order);
    forall r | r in rs
      ensures r.src in table && r.dst == table[r.src]
    {
      var i :| 0 <= i < |rs| && rs[i] == r;
      assert order[i] in table.Keys;
    }
  }

  /** Anonymising does not depend on the order in which Go visits the table,
      in either phase: all orders panic, or all give the same document. */
  lemma AnonymizeOrderIndependent(c: Codec, doc: Json, table: map<Path, Path>,
      hashOrder: seq<Path>, renameOrder: seq<Path>, hashOrder': seq<Path>, renameOrder': seq<Path>)
    requires c.Lawful() && IndependentTable(table)
    requires Enumerates(hashOrder, table.Keys) && Enumerates(renameOrder, table.Keys)
    requires Enumerates(hashOrder', table.Keys) && Enumerates(renameOrder', table.Keys)
    ensures Anonymized(c, doc, table, hashOrder, renameOrder) == Anonymized(c, doc, table, hashOrder', renameOrder')
  {
    EnumerationAsMultiset(hashOrder, table.Keys);
    EnumerationAsMultiset(hashOrder', table.Keys);
    EnumerationAsMultiset(renameOrder, table.Keys);
    EnumerationAsMultiset(renameOrder', table.Keys);
    forall p, q | p in hashOrder && q in hashOrder && p != q
      ensures Independent(p, q)
    {
      assert p in table.Keys && q in table.Keys;
      assert IndependentRenamings(Renaming(p, table[p]), Renaming(q, table[q]));
    }
    TransformOrderIndependent(c, Hasher(c), doc, hashOrder, hashOrder');
    RenamingsOfTable(table, renameOrder);
    ImagePermuted(p => Renaming(p, if p in table then table[p] else Unsupported), renameOrder, renameOrder');
    RenameOrderIndependent(c, TransformAll(c, Hasher(c), doc, hashOrder), Renamings(table, renameOrder),
        Renamings(table, renameOrder'));
  }

  // --------------------------------------------------------------- Pseudonyms

  /** What becomes of a user name: hashed in place, then re-read once more on
      its way to the target. */
  function Pseudonym(c: Codec, v: Json): Json {
    c.Unpack(StepValue(c, Hasher(c), Site(Unsupported, 0), v))
  }

  /** A user name is replaced by its own digest if and only if the digest is no
      JSON text and neither is the name, short of a name that denotes a JSON
      string with the same digest. */
  lemma PseudonymIsDigest(c: Codec, name: string)
    requires c.Lawful()
    ensures Pseudonym(c, Str(name)) == Str(c.md5Hex(name)) <==>
            && c.parse(c.md5Hex(name)).None?
            && (c.parse(name).None? ||
                (c.parse(name).value.Str? && c.md5Hex(c.parse(name).value.s) == c.md5Hex(name)))
  {
    var digest := c.md5Hex(name);
    assert |digest| == 32;
    var u := c.Unpack(Str(name));
    if u.Str? {
      var d := c.md5Hex(u.s);
      assert StepValue(c, Hasher(c), Site(Unsupported, 0), Str(name)) == Str(d);
      assert |d| == 32;
    } else {
      UnpackKeepsStructure(c, u);
    }
  }

  /** A user name that is JSON text of anything but a string is not hashed:
      the decoded value ends up in the clear as the user id. */
  lemma JsonTextIsNotHashed(c: Codec, name: string)
    requires c.Lawful() && c.parse(name).Some?
    requires !c.parse(name).value.Str? && !c.parse(name).value.Null?
    ensures Pseudonym(c, Str(name)) == c.parse(name).value
  {
    UnpackKeepsStructure(c, c.parse(name).value);
  }

  /** Null becomes the empty string, and any other value that is no string is
      kept as it is. */
  lemma PseudonymOfOthers(c: Codec, v: Json)
    requires c.Lawful() && !v.Str?
    ensures Pseudonym(c, v) == if v.Null? then Str("") else v
  {
    UnpackKeepsStructure(c, v);
  }
}
