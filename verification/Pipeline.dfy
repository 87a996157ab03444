/** The passes `getTransformedEvent` chains over an enriched event, from
    unpacking to deletion, and what they keep and change. */
module Pipeline {
  import opened JsonValues
  import opened Enumerations
  import opened JsonEdit
  import opened JsonEditLaws
  import opened JsonFrames
  import opened MapToList
  import opened DefaultFields
  import opened Anonymize

  /** Fields of a host and of the cluster that the listing tables must leave
      to the later passes. */
  const RESERVED_IN_HOST: set<string> := {"infra_env_id", "infra_env", "user_name", "user_id"}
  const RESERVED_IN_CLUSTER: set<string> := {"hosts", "user_name", "user_id"}

  /** A path of a listing table is any other field of the cluster or of the
      hosts. */
  predicate ListingPath(p: Path) {
    || (p.Plain? && |p.keys| == 2 && p.keys[0] == "cluster" && p.keys[1] !in RESERVED_IN_CLUSTER)
    || (p.Each? && p.parent == HOSTS && |p.child| == 1 && p.child[0] !in RESERVED_IN_HOST)
  }

  ghost predicate ListingTable(paths: seq<Path>) {
    && (forall i, j :: 0 <= i < j < |paths| ==> paths[i] != paths[j])
    && (forall p :: p in paths ==> ListingPath(p))
  }

  /** The three tables that unpack fields and turn objects into lists. The
      theorems hold for all tables of the kind. */
  datatype Tables = Tables(unpack: seq<Path>, dropKey: seq<Path>, keepKey: seq<Path>) {
    ghost predicate Valid() { ListingTable(unpack) && ListingTable(dropKey) && ListingTable(keepKey) }
  }

  function DefaultTables(): Tables {
    Tables(FieldsToUnpack(), FieldsMapToListDropKey(), FieldsMapToList())
  }

  lemma UnpackTableHasNoDuplicates(i: nat, j: nat)
    requires i < j < 11
    ensures FieldsToUnpack()[i] != FieldsToUnpack()[j]
  {
    assert |"feature_usage"| == 13 && |"validations_info"| == 16 && |"connectivity_majority_groups"| == 28;
    assert |"inventory"| == 9 && |"connectivity"| == 12 && |"disks_info"| == 10 && |"domain_name_resolutions"| == 23;
    assert |"free_addresses"| == 14 && |"images_status"| == 13 && |"ntp_sources"| == 11;
  }

  lemma UnpackPathIsListing(i: nat)
    requires i < 11
    ensures ListingPath(FieldsToUnpack()[i])
  {
  }

  lemma ListPathsAreListing()
    ensures forall p :: p in FieldsMapToListDropKey() ==> ListingPath(p)
    ensures forall p :: p in FieldsMapToList() ==> ListingPath(p)
  {
  }

  lemma DefaultTablesAreValid()
    ensures DefaultTables().Valid()
  {
    ListPathsAreListing();
    var t := FieldsToUnpack();
    forall i | 0 <= i < |t| ensures ListingPath(t[i]) { UnpackPathIsListing(i); }
    forall i, j | 0 <= i < j < |t| ensures t[i] != t[j] { UnpackTableHasNoDuplicates(i, j); }
    assert |"disks_info"| == 10 && |"images_status"| == 13;
  }

  /** The setup of one run of the pipeline: the listing tables, and the
      iteration orders Go happens to choose. */
  datatype Setup = Setup(tables: Tables, dropKey: Iteration, keepKey: Iteration, hashOrder: seq<Path>,
      renameOrder: seq<Path>) {
    ghost predicate Valid() {
      && tables.Valid()
      && ValidIteration(dropKey) && ValidIteration(keepKey)
      && Enumerates(hashOrder, FieldsToAnonymize().Keys)
      && Enumerates(renameOrder, FieldsToAnonymize().Keys)
    }
  }

  /** What the enricher guarantees of its base event: both lists are lists,
      null or absent. */
  predicate Shaped(doc: Json) {
    ListLike(Get(doc, HOSTS)) && ListLike(Get(doc, INFRA_ENVS))
  }

  /** The document after unpacking and both list transformations. */
  function Listed(c: Codec, setup: Setup, doc: Json): Json {
    var unpacked := TransformAll(c, Unpacker(), doc, setup.tables.unpack);
    var dropped := TransformAll(c, DropKeyLister(setup.dropKey), unpacked, setup.tables.dropKey);
    TransformAll(c, KeyedLister(setup.keepKey), dropped, setup.tables.keepKey)
  }

  /** The document after all passes; `None` if the rename pass panics. */
  function Edited(c: Codec, setup: Setup, doc: Json): Option<Json> {
    match Anonymized(c, Listed(c, setup, doc), FieldsToAnonymize(), setup.hashOrder, setup.renameOrder)
    case None => None
    case Some(d) => Some(DeleteAll(c, d, FieldsToDelete()))
  }

  // ---------------------------------------------------------- Passes on lists

  /** The path is made for shaped documents: a `[*]` follows one of the two
      lists, and nothing else comes near them. */
  predicate Edits(path: Path) {
    && (path.Each? ==> path.parent == HOSTS || path.parent == INFRA_ENVS)
    && OnList(path, HOSTS) && OnList(path, INFRA_ENVS)
  }

  predicate EditsRenaming(r: Renaming) {
    Edits(r.src) && Edits(r.dst)
  }

  lemma ListingPathEdits(p: Path)
    requires ListingPath(p)
    ensures Edits(p)
  {
    assert HOSTS[1..] == ["hosts"] && |"cluster"| == 7 && |"infra_envs"| == 10;
    if p.Plain? {
      assert "hosts" in RESERVED_IN_CLUSTER;
      assert Diverge(p.keys[1..], HOSTS[1..]);
    }
  }

  lemma ListingTableEdits(paths: seq<Path>)
    requires ListingTable(paths)
    ensures forall p :: p in paths ==> Edits(p)
  {
    forall p | p in paths { ListingPathEdits(p); }
  }

  lemma DeleteTableEdits()
    ensures forall p :: p in FieldsToDelete() ==> Edits(p)
  {
  }

  lemma RenamingsEdit()
    ensures forall p :: p in AnonymizeOrder() ==> Edits(p)
    ensures forall r :: r in AnonymizeRenamings() ==> EditsRenaming(r)
  {
  }

  lemma {:induction false} PassFrame<E>(op: (E, Json) -> Json, doc: Json, es: seq<E>, loc: Loc)
    requires Shaped(doc)
    requires forall e, d: Json :: e in es && Shaped(d) ==> Shaped(op(e, d)) && At(op(e, d), loc) == At(d, loc)
    ensures At(Fold(op, doc, es), loc) == At(doc, loc)
    decreases |es|
  {
    if es == [] {
    } else {
      PassFrame(op, op(es[0], doc), es[1..], loc);
    }
  }

  lemma TransformPass(c: Codec, fn: Transformer, doc: Json, paths: seq<Path>)
    requires c.Lawful() && Shaped(doc) && forall p :: p in paths ==> Edits(p)
    ensures Shaped(TransformAll(c, fn, doc, paths))
    ensures Mapped(Get(doc, HOSTS), Get(TransformAll(c, fn, doc, paths), HOSTS), TransformElement(c, fn, HOSTS), paths)
    ensures Mapped(Get(doc, INFRA_ENVS), Get(TransformAll(c, fn, doc, paths), INFRA_ENVS),
            TransformElement(c, fn, INFRA_ENVS), paths)
  {
    forall p | p in paths
      ensures ActsOnList(TransformOp(c, fn), TransformElement(c, fn, HOSTS), p, HOSTS)
      ensures ActsOnList(TransformOp(c, fn), TransformElement(c, fn, INFRA_ENVS), p, INFRA_ENVS)
    {
      TransformActsOnList(c, fn, p, HOSTS);
      TransformActsOnList(c, fn, p, INFRA_ENVS);
    }
    PassActsOnList(TransformOp(c, fn), TransformElement(c, fn, HOSTS), doc, paths, HOSTS);
    PassActsOnList(TransformOp(c, fn), TransformElement(c, fn, INFRA_ENVS), doc, paths, INFRA_ENVS);
  }

  lemma OneTransform(c: Codec, fn: Transformer, doc: Json, p: Path)
    requires c.Lawful() && Shaped(doc) && Edits(p)
    ensures Shaped(TransformPath(c, fn, p, doc))
  {
    TransformPass(c, fn, doc, [p]);
    FoldOne(TransformOp(c, fn), doc, p);
  }

  lemma TransformPassFrame(c: Codec, fn: Transformer, doc: Json, paths: seq<Path>, loc: Loc)
    requires c.Lawful() && Shaped(doc)
    requires forall p :: p in paths ==> Edits(p) && Apart(loc, p)
    ensures At(TransformAll(c, fn, doc, paths), loc) == At(doc, loc)
  {
    forall p, d: Json | p in paths && Shaped(d)
      ensures Shaped(TransformPath(c, fn, p, d)) && At(TransformPath(c, fn, p, d), loc) == At(d, loc)
    {
      OneTransform(c, fn, d, p);
      TransformFrame(c, fn, p, d, loc);
    }
    PassFrame(TransformOp(c, fn), doc, paths, loc);
  }

  lemma DeletePass(c: Codec, doc: Json, paths: seq<Path>)
    requires c.Lawful() && Shaped(doc) && forall p :: p in paths ==> Edits(p)
    ensures Shaped(DeleteAll(c, doc, paths))
    ensures Mapped(Get(doc, HOSTS), Get(DeleteAll(c, doc, paths), HOSTS), DeleteElement(HOSTS), paths)
    ensures Mapped(Get(doc, INFRA_ENVS), Get(DeleteAll(c, doc, paths), INFRA_ENVS), DeleteElement(INFRA_ENVS), paths)
  {
    forall p | p in paths
      ensures ActsOnList(DeleteOp(c), DeleteElement(HOSTS), p, HOSTS)
      ensures ActsOnList(DeleteOp(c), DeleteElement(INFRA_ENVS), p, INFRA_ENVS)
    {
      DeleteActsOnList(c, p, HOSTS);
      DeleteActsOnList(c, p, INFRA_ENVS);
    }
    PassActsOnList(DeleteOp(c), DeleteElement(HOSTS), doc, paths, HOSTS);
    PassActsOnList(DeleteOp(c), DeleteElement(INFRA_ENVS), doc, paths, INFRA_ENVS);
  }

  lemma DeletePassFrame(c: Codec, doc: Json, paths: seq<Path>, loc: Loc)
    requires c.Lawful() && Shaped(doc)
    requires forall p :: p in paths ==> Edits(p) && Apart(loc, p)
    ensures At(DeleteAll(c, doc, paths), loc) == At(doc, loc)
  {
    forall p, d: Json | p in paths && Shaped(d)
      ensures Shaped(DeletePath(c, p, d)) && At(DeletePath(c, p, d), loc) == At(d, loc)
    {
      DeletePass(c, d, [p]);
      FoldOne(DeleteOp(c), d, p);
      DeleteFrame(c, p, d, loc);
    }
    PassFrame(DeleteOp(c), doc, paths, loc);
  }

  lemma RenamePass(c: Codec, doc: Json, renamings: seq<Renaming>)
    requires c.Lawful() && Shaped(doc) && forall r :: r in renamings ==> EditsRenaming(r)
    ensures Shaped(Fold(RenameTotalOp(c), doc, renamings))
    ensures Mapped(Get(doc, HOSTS), Get(Fold(RenameTotalOp(c), doc, renamings), HOSTS), RenameElement(c, HOSTS),
            renamings)
    ensures Mapped(Get(doc, INFRA_ENVS), Get(Fold(RenameTotalOp(c), doc, renamings), INFRA_ENVS),
            RenameElement(c, INFRA_ENVS), renamings)
  {
    forall r | r in renamings
      ensures ActsOnList(RenameTotalOp(c), RenameElement(c, HOSTS), r, HOSTS)
      ensures ActsOnList(RenameTotalOp(c), RenameElement(c, INFRA_ENVS), r, INFRA_ENVS)
    {
      RenameActsOnList(c, r, HOSTS);
      RenameActsOnList(c, r, INFRA_ENVS);
    }
    PassActsOnList(RenameTotalOp(c), RenameElement(c, HOSTS), doc, renamings, HOSTS);
    PassActsOnList(RenameTotalOp(c), RenameElement(c, INFRA_ENVS), doc, renamings, INFRA_ENVS);
  }

  lemma RenamePassFrame(c: Codec, doc: Json, renamings: seq<Renaming>, loc: Loc)
    requires c.Lawful() && Shaped(doc)
    requires forall r :: r in renamings ==> EditsRenaming(r) && Apart(loc, r.src) && Apart(loc, r.dst)
    ensures At(Fold(RenameTotalOp(c), doc, renamings), loc) == At(doc, loc)
  {
    forall r, d: Json | r in renamings && Shaped(d)
      ensures Shaped(RenameTotalOp(c)(r, d)) && At(RenameTotalOp(c)(r, d), loc) == At(d, loc)
    {
      RenamePass(c, d, [r]);
      FoldOne(RenameTotalOp(c), d, r);
      RenameFrame(c, r, d, loc);
    }
    PassFrame(RenameTotalOp(c), doc, renamings, loc);
  }

  /** The unchecked list assertion of `Rename` never fails on a shaped
      document: null is no JSON text and leaves before it. */
  lemma {:induction false} RenameNeverPanics(c: Codec, doc: Json, renamings: seq<Renaming>)
    requires c.Lawful() && Shaped(doc) && forall r :: r in renamings ==> EditsRenaming(r)
    ensures RenameAll(c, doc, renamings) == Some(Fold(RenameTotalOp(c), doc, renamings))
    decreases |renamings|
  {
    if renamings == [] {
    } else {
      var r := renamings[0];
      assert EditsRenaming(r);
      if r.src.Each? && Get(doc, r.src.parent).Some? {
        UnpackKeepsStructure(c, Get(doc, r.src.parent).value);
      }
      RenamePass(c, doc, [r]);
      FoldOne(RenameTotalOp(c), doc, r);
      RenameNeverPanics(c, RenamePath(c, r, doc), renamings[1..]);
    }
  }

  lemma FourSteps<E, S>(op: (E, S) -> S, s: S, a: E, b: E, c: E, d: E)
    ensures Fold(op, s, [a, b, c, d]) == op(d, op(c, op(b, op(a, s))))
  {
    assert [a, b, c, d] == [a] + ([b] + ([c] + [d]));
    FoldAppend(op, s, [a], [b] + ([c] + [d]));
    FoldAppend(op, op(a, s), [b], [c] + [d]);
    FoldAppend(op, op(b, op(a, s)), [c], [d]);
    FoldOne(op, s, a);
    FoldOne(op, op(a, s), b);
    FoldOne(op, op(b, op(a, s)), c);
    FoldOne(op, op(c, op(b, op(a, s))), d);
  }

  // ------------------------------------------------------------ User pseudonyms

  const USER_NAME: Keys := ["user_name"]
  const USER_ID: Keys := ["user_id"]
  const INFRA_ENV: Keys := ["infra_env"]

  /** The user name of an object is gone and its user id is the pseudonym of
      that name; without a name the id is left alone. */
  ghost predicate Pseudonymized(c: Codec, before: Json, after: Json) {
    && Get(after, USER_NAME).None?
    && Get(after, USER_ID) == (match Get(before, USER_NAME)
                               case None => Get(before, USER_ID)
                               case Some(v) => Some(Pseudonym(c, v)))
  }

  /** Hash and rename inside one object. */
  function HashUser(c: Codec, v: Json): Json {
    Update(v, USER_NAME, w => StepValue(c, Hasher(c), Site(Unsupported, 0), w))
  }

  function AnonymizedObject(c: Codec, v: Json): Json {
    RenamePlain(c, HashUser(c, v), USER_NAME, USER_ID)
  }

  lemma AnonymizedObjectForm(c: Codec, v: Json)
    ensures Pseudonymized(c, v, AnonymizedObject(c, v))
    ensures !v.Obj? ==> AnonymizedObject(c, v) == v
    ensures forall k :: k != "user_name" && k != "user_id" ==> Get(AnonymizedObject(c, v), [k]) == Get(v, [k])
  {
    var hashed := HashUser(c, v);
    RenameIsRelabel(c, hashed, USER_NAME, USER_ID);
    assert Front(USER_NAME) == [] && Last(USER_NAME) == "user_name" && Last(USER_ID) == "user_id";
    assert AnonymizedObject(c, v) == Relabel(c, "user_name", "user_id", hashed);
  }

  // --------------------------------------------------- Closed form of elements

  const SSH_KEY: Keys := ["ssh_authorized_key"]

  /** What anonymising and deleting make of an infra-env, be it an entry of
      `infra_envs` or the copy embedded in a host. */
  function FinalInfraEnv(c: Codec, e: Json): Json {
    Remove(AnonymizedObject(c, e), SSH_KEY)
  }

  /** What they make of a host. */
  function FinalHost(c: Codec, h: Json): Json {
    Update(AnonymizedObject(c, h), INFRA_ENV, e => FinalInfraEnv(c, e))
  }

  function HashedHost(c: Codec, h: Json): Json {
    Update(HashUser(c, h), INFRA_ENV, e => HashUser(c, e))
  }

  lemma HashHost(c: Codec, i: nat, h: Json)
    ensures Fold(TransformElement(c, Hasher(c), HOSTS)(i), h, AnonymizeOrder()) == HashedHost(c, h)
  {
    var op := TransformElement(c, Hasher(c), HOSTS)(i);
    FourSteps(op, h, CLUSTER_USER.src, HOST_USER.src, HOST_INFRA_ENV_USER.src, INFRA_ENV_USER.src);
    assert INFRA_ENVS != HOSTS;
    var s := w => StepValue(c, Hasher(c), Site(Unsupported, 0), w);
    var s1 := w => StepValue(c, Hasher(c), Site(HOST_USER.src, i), w);
    var s2 := w => StepValue(c, Hasher(c), Site(HOST_INFRA_ENV_USER.src, i), w);
    UpdateCongruent(h, USER_NAME, s1, s);
    assert op(HOST_USER.src, h) == HashUser(c, h);
    var below := e => Update(e, USER_NAME, s2);
    assert INFRA_ENV + USER_NAME == ["infra_env", "user_name"];
    UpdateBelow(HashUser(c, h), INFRA_ENV, USER_NAME, s2, below);
    forall e: Json ensures below(e) == HashUser(c, e) { UpdateCongruent(e, USER_NAME, s2, s); }
    UpdateCongruent(HashUser(c, h), INFRA_ENV, below, e => HashUser(c, e));
  }

  lemma RenameUserInHost(c: Codec, h: Json)
    ensures RenamePlain(c, HashedHost(c, h), USER_NAME, USER_ID)
         == Update(AnonymizedObject(c, h), INFRA_ENV, e => HashUser(c, e))
  {
    assert Diverge(USER_NAME, INFRA_ENV) && Diverge(USER_ID, INFRA_ENV);
    RenameAndUpdateCommute(c, HashUser(c, h), USER_NAME, USER_ID, INFRA_ENV, e => HashUser(c, e));
  }

  const INFRA_ENV_USER_NAME: Keys := ["infra_env", "user_name"]
  const INFRA_ENV_USER_ID: Keys := ["infra_env", "user_id"]

  lemma RenameUserInInfraEnv(c: Codec, h: Json)
    ensures RenamePlain(c, h, INFRA_ENV_USER_NAME, INFRA_ENV_USER_ID)
         == Update(h, INFRA_ENV, e => RenamePlain(c, e, USER_NAME, USER_ID))
  {
    var src, dst := INFRA_ENV_USER_NAME, INFRA_ENV_USER_ID;
    assert Front(src) == INFRA_ENV && Front(dst) == INFRA_ENV && Front(USER_NAME) == [] && Front(USER_ID) == [];
    var below := v => Relabel(c, Last(src), Last(dst), v);
    RenameIsRelabel(c, h, src, dst);
    forall e: Json
      ensures below(e) == RenamePlain(c, e, USER_NAME, USER_ID)
    {
      RenameIsRelabel(c, e, USER_NAME, USER_ID);
    }
    UpdateCongruent(h, INFRA_ENV, below, e => RenamePlain(c, e, USER_NAME, USER_ID));
  }

  lemma RenameHost(c: Codec, i: nat, h: Json)
    ensures Fold(RenameElement(c, HOSTS)(i), HashedHost(c, h), AnonymizeRenamings())
         == Update(AnonymizedObject(c, h), INFRA_ENV, e => AnonymizedObject(c, e))
  {
    var op := RenameElement(c, HOSTS)(i);
    FourSteps(op, HashedHost(c, h), CLUSTER_USER, HOST_USER, HOST_INFRA_ENV_USER, INFRA_ENV_USER);
    assert INFRA_ENVS != HOSTS;
    RenameUserInHost(c, h);
    var y := Update(AnonymizedObject(c, h), INFRA_ENV, e => HashUser(c, e));
    assert op(HOST_USER, HashedHost(c, h)) == y;
    RenameUserInInfraEnv(c, y);
    var rename := e => RenamePlain(c, e, USER_NAME, USER_ID);
    assert op(HOST_INFRA_ENV_USER, y) == Update(y, INFRA_ENV, rename);
    UpdatesCompose(AnonymizedObject(c, h), INFRA_ENV, e => HashUser(c, e), rename, e => AnonymizedObject(c, e));
  }

  lemma DeleteInHost(c: Codec, i: nat, h: Json)
    ensures Fold(DeleteElement(HOSTS)(i), Update(AnonymizedObject(c, h), INFRA_ENV, e => AnonymizedObject(c, e)),
            FieldsToDelete())
         == FinalHost(c, h)
  {
    var op := DeleteElement(HOSTS)(i);
    var x := Update(AnonymizedObject(c, h), INFRA_ENV, e => AnonymizedObject(c, e));
    var t := FieldsToDelete();
    FourSteps(op, x, t[0], t[1], t[2], t[3]);
    assert t == [t[0], t[1], t[2], t[3]];
    assert INFRA_ENVS != HOSTS;
    var drop := e => Remove(e, SSH_KEY);
    assert INFRA_ENV + SSH_KEY == ["infra_env", "ssh_authorized_key"];
    RemoveIsUpdate(x, INFRA_ENV, "ssh_authorized_key", drop);
    UpdatesCompose(AnonymizedObject(c, h), INFRA_ENV, e => AnonymizedObject(c, e), drop, e => FinalInfraEnv(c, e));
  }

  lemma EditInfraEnv(c: Codec, i: nat, e: Json)
    ensures Fold(DeleteElement(INFRA_ENVS)(i),
              Fold(RenameElement(c, INFRA_ENVS)(i),
                Fold(TransformElement(c, Hasher(c), INFRA_ENVS)(i), e, AnonymizeOrder()),
                AnonymizeRenamings()),
              FieldsToDelete()) == FinalInfraEnv(c, e)
  {
    assert INFRA_ENVS != HOSTS;
    var hash := TransformElement(c, Hasher(c), INFRA_ENVS)(i);
    FourSteps(hash, e, CLUSTER_USER.src, HOST_USER.src, HOST_INFRA_ENV_USER.src, INFRA_ENV_USER.src);
    UpdateCongruent(e, USER_NAME, w => StepValue(c, Hasher(c), Site(INFRA_ENV_USER.src, i), w),
                    w => StepValue(c, Hasher(c), Site(Unsupported, 0), w));
    var x := HashUser(c, e);
    FourSteps(RenameElement(c, INFRA_ENVS)(i), x, CLUSTER_USER, HOST_USER, HOST_INFRA_ENV_USER, INFRA_ENV_USER);
    var t := FieldsToDelete();
    assert t == [t[0], t[1], t[2], t[3]];
    FourSteps(DeleteElement(INFRA_ENVS)(i), AnonymizedObject(c, e), t[0], t[1], t[2], t[3]);
  }

  // ----------------------------------------------------------- Whole pipeline

  /** Lists are mapped element by element; anything else is kept. */
  ghost predicate MapsTo(before: Option<Json>, after: Option<Json>, f: Json -> Json) {
    && (!(before.Some? && before.value.Arr?) ==> after == before)
    && (before.Some? && before.value.Arr? ==>
          && after.Some? && after.value.Arr?
          && |after.value.elems| == |before.value.elems|
          && forall i: nat :: i < |before.value.elems| ==> after.value.elems[i] == f(before.value.elems[i]))
  }

  lemma ListedShape(c: Codec, setup: Setup, doc: Json)
    requires c.Lawful() && setup.tables.Valid() && Shaped(doc)
    ensures Shaped(Listed(c, setup, doc))
    ensures SameLength(Get(doc, HOSTS), Get(Listed(c, setup, doc), HOSTS))
  {
    var t := setup.tables;
    ListingTableEdits(t.unpack);
    ListingTableEdits(t.dropKey);
    ListingTableEdits(t.keepKey);
    var unpacked := TransformAll(c, Unpacker(), doc, t.unpack);
    var dropped := TransformAll(c, DropKeyLister(setup.dropKey), unpacked, t.dropKey);
    TransformPass(c, Unpacker(), doc, t.unpack);
    TransformPass(c, DropKeyLister(setup.dropKey), unpacked, t.dropKey);
    TransformPass(c, KeyedLister(setup.keepKey), dropped, t.keepKey);
  }

  /** Two values that are lists of one length, or equal. */
  predicate SameLength(v: Option<Json>, w: Option<Json>) {
    v == w || (v.Some? && w.Some? && v.value.Arr? && w.value.Arr? && |v.value.elems| == |w.value.elems|)
  }

  /** Unpacking and listing leave alone what is apart from their tables. */
  predicate ApartFromListing(t: Tables, loc: Loc) {
    && (forall p :: p in t.unpack ==> Apart(loc, p))
    && (forall p :: p in t.dropKey ==> Apart(loc, p))
    && (forall p :: p in t.keepKey ==> Apart(loc, p))
  }

  lemma ListedFrame(c: Codec, setup: Setup, doc: Json, loc: Loc)
    requires c.Lawful() && setup.tables.Valid() && Shaped(doc) && ApartFromListing(setup.tables, loc)
    ensures At(Listed(c, setup, doc), loc) == At(doc, loc)
  {
    var t := setup.tables;
    ListingTableEdits(t.unpack);
    ListingTableEdits(t.dropKey);
    ListingTableEdits(t.keepKey);
    var unpacked := TransformAll(c, Unpacker(), doc, t.unpack);
    var dropped := TransformAll(c, DropKeyLister(setup.dropKey), unpacked, t.dropKey);
    TransformPass(c, Unpacker(), doc, t.unpack);
    TransformPassFrame(c, Unpacker(), doc, t.unpack, loc);
    TransformPass(c, DropKeyLister(setup.dropKey), unpacked, t.dropKey);
    TransformPassFrame(c, DropKeyLister(setup.dropKey), unpacked, t.dropKey, loc);
    TransformPassFrame(c, KeyedLister(setup.keepKey), dropped, t.keepKey, loc);
  }

  /** Hash and rename in the order of the table. */
  function AnonymizedInOrder(c: Codec, doc: Json): Json {
    Fold(RenameTotalOp(c), TransformAll(c, Hasher(c), doc, AnonymizeOrder()), AnonymizeRenamings())
  }

  lemma RenamingsInOrder()
    ensures Renamings(FieldsToAnonymize(), AnonymizeOrder()) == AnonymizeRenamings()
  {
    assert |["user_name"]| == 1 && |["infra_env", "user_name"]| == 2;
  }

  lemma AnonymizedAlways(c: Codec, setup: Setup, listed: Json)
    requires c.Lawful() && setup.Valid() && Shaped(listed)
    ensures Anonymized(c, listed, FieldsToAnonymize(), setup.hashOrder, setup.renameOrder)
            == Some(AnonymizedInOrder(c, listed))
  {
    AnonymizeTableIsIndependent();
    AnonymizeOrderEnumerates();
    AnonymizeOrderIndependent(c, listed, FieldsToAnonymize(), setup.hashOrder, setup.renameOrder, AnonymizeOrder(),
        AnonymizeOrder());
    RenamingsInOrder();
    RenamingsEdit();
    TransformPass(c, Hasher(c), listed, AnonymizeOrder());
    RenameNeverPanics(c, TransformAll(c, Hasher(c), listed, AnonymizeOrder()), AnonymizeRenamings());
  }

  /** All iteration orders agree with the order of the table, and none panics. */
  lemma EditedInOrder(c: Codec, setup: Setup, doc: Json)
    requires c.Lawful() && setup.Valid() && Shaped(doc)
    ensures Edited(c, setup, doc) == Some(DeleteAll(c, AnonymizedInOrder(c, Listed(c, setup, doc)), FieldsToDelete()))
  {
    ListedShape(c, setup, doc);
    AnonymizedAlways(c, setup, Listed(c, setup, doc));
  }

  /** In every run the pipeline finishes without a panic, keeps the number and
      order of both lists, and rewrites each host and each infra-env by one
      function of that element alone. */
  lemma EditedForm(c: Codec, setup: Setup, doc: Json)
    requires c.Lawful() && setup.Valid() && Shaped(doc)
    ensures Edited(c, setup, doc).Some? && Shaped(Edited(c, setup, doc).value)
    ensures MapsTo(Get(Listed(c, setup, doc), HOSTS), Get(Edited(c, setup, doc).value, HOSTS), h => FinalHost(c, h))
    ensures MapsTo(Get(Listed(c, setup, doc), INFRA_ENVS), Get(Edited(c, setup, doc).value, INFRA_ENVS),
                   e => FinalInfraEnv(c, e))
  {
    var listed := Listed(c, setup, doc);
    ListedShape(c, setup, doc);
    EditedInOrder(c, setup, doc);
    RenamingsEdit();
    DeleteTableEdits();
    var hashed := TransformAll(c, Hasher(c), listed, AnonymizeOrder());
    TransformPass(c, Hasher(c), listed, AnonymizeOrder());
    RenamePass(c, hashed, AnonymizeRenamings());
    DeletePass(c, AnonymizedInOrder(c, listed), FieldsToDelete());
    ComposeHosts(c, Get(listed, HOSTS), Get(hashed, HOSTS), Get(AnonymizedInOrder(c, listed), HOSTS),
        Get(Edited(c, setup, doc).value, HOSTS));
    ComposeInfraEnvs(c, Get(listed, INFRA_ENVS), Get(hashed, INFRA_ENVS),
        Get(AnonymizedInOrder(c, listed), INFRA_ENVS), Get(Edited(c, setup, doc).value, INFRA_ENVS));
  }

  lemma ComposeHosts(c: Codec, v: Option<Json>, hashed: Option<Json>, renamed: Option<Json>, deleted: Option<Json>)
    requires Mapped(v, hashed, TransformElement(c, Hasher(c), HOSTS), AnonymizeOrder())
    requires Mapped(hashed, renamed, RenameElement(c, HOSTS), AnonymizeRenamings())
    requires Mapped(renamed, deleted, DeleteElement(HOSTS), FieldsToDelete())
    ensures MapsTo(v, deleted, h => FinalHost(c, h))
  {
    if v.Some? && v.value.Arr? {
      forall i: nat | i < |v.value.elems|
        ensures deleted.value.elems[i] == FinalHost(c, v.value.elems[i])
      {
        HashHost(c, i, v.value.elems[i]);
        RenameHost(c, i, v.value.elems[i]);
        DeleteInHost(c, i, v.value.elems[i]);
      }
    }
  }

  lemma ComposeInfraEnvs(c: Codec, v: Option<Json>, hashed: Option<Json>, renamed: Option<Json>, deleted: Option<Json>)
    requires Mapped(v, hashed, TransformElement(c, Hasher(c), INFRA_ENVS), AnonymizeOrder())
    requires Mapped(hashed, renamed, RenameElement(c, INFRA_ENVS), AnonymizeRenamings())
    requires Mapped(renamed, deleted, DeleteElement(INFRA_ENVS), FieldsToDelete())
    ensures MapsTo(v, deleted, e => FinalInfraEnv(c, e))
  {
    if v.Some? && v.value.Arr? {
      forall i: nat | i < |v.value.elems|
        ensures deleted.value.elems[i] == FinalInfraEnv(c, v.value.elems[i])
      {
        EditInfraEnv(c, i, v.value.elems[i]);
      }
    }
  }

  lemma {:induction false} PassKeepsObject<E>(op: (E, Json) -> Json, doc: Json, es: seq<E>)
    requires doc.Obj? && forall e, d: Json :: d.Obj? ==> op(e, d).Obj?
    ensures Fold(op, doc, es).Obj?
    decreases |es|
  {
    if es == [] {
    } else {
      PassKeepsObject(op, op(es[0], doc), es[1..]);
    }
  }

  lemma ListedIsObject(c: Codec, setup: Setup, doc: Json)
    requires doc.Obj?
    ensures Listed(c, setup, doc).Obj?
  {
    var t := setup.tables;
    var unpacked := TransformAll(c, Unpacker(), doc, t.unpack);
    var dropped := TransformAll(c, DropKeyLister(setup.dropKey), unpacked, t.dropKey);
    PassKeepsObject(TransformOp(c, Unpacker()), doc, t.unpack);
    PassKeepsObject(TransformOp(c, DropKeyLister(setup.dropKey)), unpacked, t.dropKey);
    PassKeepsObject(TransformOp(c, KeyedLister(setup.keepKey)), dropped, t.keepKey);
  }

  lemma AnonymizedIsObject(c: Codec, doc: Json)
    requires doc.Obj?
    ensures AnonymizedInOrder(c, doc).Obj?
  {
    PassKeepsObject(TransformOp(c, Hasher(c)), doc, AnonymizeOrder());
    PassKeepsObject(RenameTotalOp(c), TransformAll(c, Hasher(c), doc, AnonymizeOrder()), AnonymizeRenamings());
  }

  lemma DeletedIsObject(c: Codec, doc: Json)
    requires doc.Obj?
    ensures DeleteAll(c, doc, FieldsToDelete()).Obj?
  {
    PassKeepsObject(DeleteOp(c), doc, FieldsToDelete());
  }

  /** The passes turn an object into an object. */
  lemma EditedIsObject(c: Codec, setup: Setup, doc: Json)
    requires c.Lawful() && setup.Valid() && Shaped(doc) && doc.Obj?
    ensures Edited(c, setup, doc).Some? && Edited(c, setup, doc).value.Obj?
  {
    EditedInOrder(c, setup, doc);
    ListedIsObject(c, setup, doc);
    AnonymizedIsObject(c, Listed(c, setup, doc));
    DeletedIsObject(c, AnonymizedInOrder(c, Listed(c, setup, doc)));
  }

  /** The iteration orders of anonymising have no effect on the outcome. */
  lemma EditedOrderIndependent(c: Codec, setup: Setup, setup': Setup, doc: Json)
    requires c.Lawful() && setup.Valid() && setup'.Valid() && Shaped(doc)
    requires setup.tables == setup'.tables && setup.dropKey == setup'.dropKey && setup.keepKey == setup'.keepKey
    ensures Edited(c, setup, doc) == Edited(c, setup', doc)
  {
    EditedInOrder(c, setup, doc);
    EditedInOrder(c, setup', doc);
  }

  predicate ApartFromEditing(t: Tables, loc: Loc) {
    && ApartFromListing(t, loc)
    && (forall r :: r in AnonymizeRenamings() ==> Apart(loc, r.src) && Apart(loc, r.dst))
    && (forall p :: p in FieldsToDelete() ==> Apart(loc, p))
  }

  lemma ApartFromSources(loc: Loc)
    requires forall r :: r in AnonymizeRenamings() ==> Apart(loc, r.src)
    ensures forall p :: p in AnonymizeOrder() ==> Apart(loc, p)
  {
    var rs, ps := AnonymizeRenamings(), AnonymizeOrder();
    forall i: nat | i < 4 ensures ps[i] == rs[i].src && rs[i] in rs {}
  }

  lemma AnonymizedFrame(c: Codec, listed: Json, loc: Loc)
    requires c.Lawful() && Shaped(listed)
    requires forall r :: r in AnonymizeRenamings() ==> Apart(loc, r.src) && Apart(loc, r.dst)
    ensures Shaped(AnonymizedInOrder(c, listed))
    ensures At(AnonymizedInOrder(c, listed), loc) == At(listed, loc)
  {
    RenamingsEdit();
    ApartFromSources(loc);
    TransformPass(c, Hasher(c), listed, AnonymizeOrder());
    TransformPassFrame(c, Hasher(c), listed, AnonymizeOrder(), loc);
    RenamePass(c, TransformAll(c, Hasher(c), listed, AnonymizeOrder()), AnonymizeRenamings());
    RenamePassFrame(c, TransformAll(c, Hasher(c), listed, AnonymizeOrder()), AnonymizeRenamings(), loc);
  }

  /** Every value outside the listed fields is unchanged, at any depth. */
  lemma EditedFrame(c: Codec, setup: Setup, doc: Json, loc: Loc)
    requires c.Lawful() && setup.Valid() && Shaped(doc) && ApartFromEditing(setup.tables, loc)
    ensures Edited(c, setup, doc).Some? && At(Edited(c, setup, doc).value, loc) == At(doc, loc)
  {
    var listed := Listed(c, setup, doc);
    ListedShape(c, setup, doc);
    ListedFrame(c, setup, doc, loc);
    EditedInOrder(c, setup, doc);
    AnonymizedFrame(c, listed, loc);
    DeleteTableEdits();
    DeletePassFrame(c, AnonymizedInOrder(c, listed), FieldsToDelete(), loc);
  }
}
