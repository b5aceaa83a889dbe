/** Pushing the roots of modified subtrees up to the main tree at commit.

    `Propagate` says what the result is, leaf by leaf and without any order.
    `PropagateRoot` is the depth-first pass that the database runs: it takes the open
    subtrees, and then the leaves to rewrite, in whatever order its maps yield them. */
module Propagation {
  import opened Common
  import opened Trees

  /** A tree opened for update: its current root, whether it was written to directly,
      and the subtrees opened below it. */
  datatype Open = Open(root: Root, dirty: bool, subs: map<Config, Open>)

  /** What propagation hands to the parent: an error, nothing to do, or a new root. */
  datatype Plan = Failed | Clean | Changed(root: Root)

  // ---------------------------------------------------------------- one leaf

  /** A pending update of a leaf: the kind of the child tree and its new root. */
  datatype Update = Update(kind: Kind, root: Root)

  /** Applies the updates of one leaf in the order given. */
  function ApplyAll(leaf: Leaf, us: seq<Update>): Result<Leaf, Error>
    decreases |us|
  {
    if us == [] then Ok(leaf)
    else match SetRoot(us[0].kind, leaf, us[0].root)
      case Err(e) => Err(e)
      case Ok(next) => ApplyAll(next, us[1..])
  }

  /** No two updates put different roots into the same field. */
  predicate Consistent(us: seq<Update>) {
    forall u, v :: u in us && v in us && FieldOf(u.kind) == FieldOf(v.kind) ==> u.root == v.root
  }

  predicate AllFit(leaf: Leaf, us: seq<Update>) {
    forall i :: 0 <= i < |us| ==> Fits(us[i].kind, leaf)
  }

  /** The root of the last update of a field, if there is one. */
  function LastFor(us: seq<Update>, f: Field): (r: Option<Root>)
    ensures r.None? <==> forall u :: u in us ==> FieldOf(u.kind) != f
    ensures r.Some? ==> exists u :: u in us && FieldOf(u.kind) == f && u.root == r.value
    ensures us != [] && FieldOf(us[|us| - 1].kind) == f ==> r == Some(us[|us| - 1].root)
    decreases |us|
  {
    if us == [] then None
    else
      var later := LastFor(us[1..], f);
      if later.None? && FieldOf(us[0].kind) == f then Some(us[0].root) else later
  }

  /** Updating a leaf never fails halfway: it succeeds when every kind fits, keeps the
      leaf's own data, and gives each field the root of its last update. */
  lemma {:induction false} ApplyAllFields(leaf: Leaf, us: seq<Update>, k: Kind)
    requires AllFit(leaf, us)
    ensures ApplyAll(leaf, us).Ok?
    ensures SameData(leaf, ApplyAll(leaf, us).value)
    ensures GetRoot(k, ApplyAll(leaf, us).value) ==
            match LastFor(us, FieldOf(k)) { case Some(r) => if Fits(k, leaf) then Ok(r) else Err(ChildRootUnknown) case None => GetRoot(k, leaf) }
    decreases |us|
  {
    if us != [] {
      RootLens(us[0].kind, leaf, us[0].root);
      var next := SetRoot(us[0].kind, leaf, us[0].root).value;
      forall i | 0 <= i < |us| - 1 ensures Fits(us[1..][i].kind, next) {
        assert Fits(us[i + 1].kind, leaf);
      }
      ApplyAllFields(next, us[1..], k);
    }
  }

  /** A leaf is determined by its data and the roots it yields. */
  lemma LeafExtensional(a: Leaf, b: Leaf)
    requires SameData(a, b)
    requires forall k: Kind :: GetRoot(k, a) == GetRoot(k, b)
    ensures a == b
  {
    assert GetRoot(Main, a) == GetRoot(Main, b);
    assert GetRoot(Votes, a) == GetRoot(Votes, b);
    assert GetRoot(Census, a) == GetRoot(Census, b);
    assert GetRoot(Nullifiers, a) == GetRoot(Nullifiers, b);
  }

  lemma SameMembers(us: seq<Update>, vs: seq<Update>)
    requires multiset(us) == multiset(vs)
    ensures forall u :: u in us <==> u in vs
  {
    assert forall u :: u in us <==> u in multiset(us);
    assert forall u :: u in vs <==> u in multiset(vs);
  }

  /** The order of the updates of one leaf does not matter when they are consistent. */
  lemma SameUpdatesSameLeaf(leaf: Leaf, us: seq<Update>, vs: seq<Update>)
    requires AllFit(leaf, us) && Consistent(us)
    requires multiset(us) == multiset(vs)
    ensures ApplyAll(leaf, us) == ApplyAll(leaf, vs)
  {
    hide ApplyAll, LastFor;
    SameMembers(us, vs);
    MembersFit(leaf, us, vs);
    forall k: Kind ensures ApplyAll(leaf, us).Ok? && ApplyAll(leaf, vs).Ok?
      ensures GetRoot(k, ApplyAll(leaf, us).value) == GetRoot(k, ApplyAll(leaf, vs).value)
    {
      ApplyAllFields(leaf, us, k);
      ApplyAllFields(leaf, vs, k);
      SameLast(us, vs, FieldOf(k));
    }
    ApplyAllFields(leaf, us, Main);
    ApplyAllFields(leaf, vs, Main);
    LeafExtensional(ApplyAll(leaf, us).value, ApplyAll(leaf, vs).value);
  }

  lemma MembersFit(leaf: Leaf, us: seq<Update>, vs: seq<Update>)
    requires AllFit(leaf, us) && forall u :: u in us <==> u in vs
    ensures AllFit(leaf, vs)
  {
    forall i | 0 <= i < |vs| ensures Fits(vs[i].kind, leaf) {
      assert vs[i] in us;
    }
  }

  lemma SameLast(us: seq<Update>, vs: seq<Update>, f: Field)
    requires Consistent(us) && forall u :: u in us <==> u in vs
    ensures LastFor(us, f) == LastFor(vs, f)
  {
    hide LastFor;
    if LastFor(us, f).Some? && LastFor(vs, f).Some? {
      var u :| u in us && FieldOf(u.kind) == f && u.root == LastFor(us, f).value;
      var v :| v in vs && FieldOf(v.kind) == f && v.root == LastFor(vs, f).value;
    }
  }

  /** ... and it matters as soon as two of them disagree on a field: then moving
      either one to the end decides which root the leaf keeps. */
  lemma OrderIndependence(leaf: Leaf, us: seq<Update>)
    requires AllFit(leaf, us)
    ensures Consistent(us) <==>
            forall vs: seq<Update> :: multiset(vs) == multiset(us) ==> ApplyAll(leaf, vs) == ApplyAll(leaf, us)
  {
    if Consistent(us) {
      forall vs: seq<Update> | multiset(vs) == multiset(us) ensures ApplyAll(leaf, vs) == ApplyAll(leaf, us) {
        SameUpdatesSameLeaf(leaf, us, vs);
      }
    } else {
      var u, v :| u in us && v in us && FieldOf(u.kind) == FieldOf(v.kind) && u.root != v.root;
      var i :| 0 <= i < |us| && us[i] == u;
      var j :| 0 <= j < |us| && us[j] == v;
      var a, b := MovedLast(us, i), MovedLast(us, j);
      MovedLastDecides(leaf, us, i);
      MovedLastDecides(leaf, us, j);
      assert GetRoot(us[i].kind, ApplyAll(leaf, a).value) != GetRoot(us[i].kind, ApplyAll(leaf, b).value);
    }
  }

  function MovedLast(us: seq<Update>, i: nat): seq<Update>
    requires i < |us|
  {
    us[..i] + us[i + 1..] + [us[i]]
  }

  lemma MovedLastDecides(leaf: Leaf, us: seq<Update>, i: nat)
    requires AllFit(leaf, us) && i < |us|
    ensures multiset(MovedLast(us, i)) == multiset(us)
    ensures ApplyAll(leaf, MovedLast(us, i)).Ok?
    ensures forall k: Kind :: FieldOf(k) == FieldOf(us[i].kind) ==> GetRoot(k, ApplyAll(leaf, MovedLast(us, i)).value) == Ok(us[i].root)
  {
    assert us == us[..i] + [us[i]] + us[i + 1..];
    var vs := MovedLast(us, i);
    forall j | 0 <= j < |vs| ensures Fits(vs[j].kind, leaf) {
      assert vs[j] in us;
    }
    ApplyAllFields(leaf, vs, us[i].kind);
    forall k: Kind | FieldOf(k) == FieldOf(us[i].kind) ensures GetRoot(k, ApplyAll(leaf, vs).value) == Ok(us[i].root) {
      ApplyAllFields(leaf, vs, k);
    }
  }

  // ---------------------------------------------------------------- one tree

  /** A leaf with the roots of the changed subtrees that hang from it. */
  function Rewritten(leaf: Leaf, key: Bytes, ups: map<Config, Root>): Leaf {
    match leaf
    case Raw(_) => leaf
    case RootLeaf(r) => RootLeaf(New(ups, Config(Main, key)).GetOr(r))
    case ProcessLeaf(p, votes, census, nullifiers) =>
      ProcessLeaf(p,
        Either(New(ups, Config(Votes, key)), votes),
        Either(New(ups, Config(CensusPoseidon, key)), Either(New(ups, Config(Census, key)), census)),
        Either(New(ups, Config(Nullifiers, key)), nullifiers))
  }

  function New(ups: map<Config, Root>, c: Config): Option<Root> {
    if c in ups then Some(ups[c]) else None
  }

  function Either<T>(a: Option<T>, b: Option<T>): Option<T> {
    if a.Some? then a else b
  }

  /** No two configurations keep their root in the same place. */
  predicate Separate(cs: set<Config>) {
    forall a, b :: a in cs && b in cs && a.key == b.key && FieldOf(a.kind) == FieldOf(b.kind) ==> a == b
  }

  /** No two new roots for one place differ. */
  predicate Agree(ups: map<Config, Root>) {
    forall a, b :: a in ups && b in ups && a.key == b.key && FieldOf(a.kind) == FieldOf(b.kind) ==> ups[a] == ups[b]
  }

  predicate HaveLeaves(leaves: map<Bytes, Leaf>, ups: map<Config, Root>) {
    forall c :: c in ups ==> c.key in leaves && Fits(c.kind, leaves[c.key])
  }

  function RewriteLeaves(r: Root, ups: map<Config, Root>): Root {
    Root(map k | k in r.leaves :: Rewritten(r.leaves[k], k, ups))
  }

  /** The outcome of propagation, without an order: it fails if a subtree fails or a
      changed subtree has no fitting leaf, it is idle if nothing below changed, and
      otherwise every leaf gets the new roots of its changed subtrees. */
  function Propagate(n: Open): Plan
    decreases n
  {
    var ups := Updates(n);
    if exists c :: c in n.subs && Propagate(n.subs[c]).Failed? then Failed
    else if ups == map[] && !n.dirty then Clean
    else if !HaveLeaves(n.root.leaves, ups) then Failed
    else Changed(RewriteLeaves(n.root, ups))
  }

  /** The subtrees that changed, with their new roots. */
  function Updates(n: Open): map<Config, Root>
    decreases n, 0
  {
    map c | c in n.subs && Propagate(n.subs[c]).Changed? :: Propagate(n.subs[c]).root
  }

  /** The root a tree has after propagation. */
  function Final(n: Open): Root {
    match Propagate(n)
    case Changed(r) => r
    case _ => n.root
  }

  /** No tree that is open anywhere below shares its root's place with another. */
  predicate DeepSeparate(n: Open)
    decreases n
  {
    Separate(n.subs.Keys) && forall c :: c in n.subs ==> DeepSeparate(n.subs[c])
  }

  /** At no depth do two changed subtrees put different roots into one place. */
  predicate DeepAgree(n: Open)
    decreases n
  {
    Agree(Updates(n)) && forall c :: c in n.subs ==> DeepAgree(n.subs[c])
  }

  lemma {:induction false} SeparateAgrees(n: Open)
    requires DeepSeparate(n)
    ensures DeepAgree(n)
    decreases n
  {
    forall c | c in n.subs ensures DeepAgree(n.subs[c]) {
      SeparateAgrees(n.subs[c]);
    }
    forall a, b | a in Updates(n) && b in Updates(n) && a.key == b.key && FieldOf(a.kind) == FieldOf(b.kind)
      ensures Updates(n)[a] == Updates(n)[b]
    {
      assert a in n.subs.Keys && b in n.subs.Keys;
    }
  }

  /** The database holds the nodes of every open tree. */
  predicate Backed(d: Dir, n: Open)
    decreases n
  {
    && Stored(d, n.root)
    && forall c :: c in n.subs ==> c in d.kids && Backed(d.kids[c], n.subs[c])
  }

  /** What propagation may do to the database: write nodes of open trees, among them
      those of the final root, and touch nothing else. */
  predicate Grown(d: Dir, d': Dir, n: Open)
    decreases n
  {
    && d.roots <= d'.roots
    && d'.noState == d.noState
    && d'.kids.Keys == d.kids.Keys
    && Stored(d', Final(n))
    && (forall c :: c in d.kids && c !in n.subs ==> d'.kids[c] == d.kids[c])
    && (forall c :: c in d.kids && c in n.subs ==> Grown(d.kids[c], d'.kids[c], n.subs[c]))
  }

  /** The updates gathered for one leaf, in any order, are those of the changed
      subtrees with that leaf as parent. */
  ghost predicate Gathered(us: seq<Update>, key: Bytes, ups: map<Config, Root>) {
    forall u :: u in us <==> Config(u.kind, key) in ups && ups[Config(u.kind, key)] == u.root
  }

  /** The new root of a field of a leaf, whichever kind of tree it comes from. */
  function NewRoot(ups: map<Config, Root>, key: Bytes, f: Field): Option<Root> {
    match f
    case WholeLeaf => New(ups, Config(Main, key))
    case VotesRoot => New(ups, Config(Votes, key))
    case CensusRoot => Either(New(ups, Config(CensusPoseidon, key)), New(ups, Config(Census, key)))
    case NullifiersRoot => New(ups, Config(Nullifiers, key))
  }

  lemma NewRootOfKind(ups: map<Config, Root>, key: Bytes, k: Kind)
    requires Agree(ups) && Config(k, key) in ups
    ensures NewRoot(ups, key, FieldOf(k)) == Some(ups[Config(k, key)])
  {
    assert forall j: Kind :: Config(j, key) in ups && FieldOf(j) == FieldOf(k) ==> ups[Config(j, key)] == ups[Config(k, key)];
  }

  lemma NewRootFrom(ups: map<Config, Root>, key: Bytes, f: Field) returns (k: Kind)
    requires NewRoot(ups, key, f).Some?
    ensures FieldOf(k) == f && Config(k, key) in ups && NewRoot(ups, key, f) == Some(ups[Config(k, key)])
  {
    match f
    case WholeLeaf => k := Main;
    case VotesRoot => k := Votes;
    case CensusRoot => k := if Config(CensusPoseidon, key) in ups then CensusPoseidon else Census;
    case NullifiersRoot => k := Nullifiers;
  }

  lemma GatheredLast(us: seq<Update>, key: Bytes, ups: map<Config, Root>, f: Field)
    requires Gathered(us, key, ups) && Agree(ups)
    ensures LastFor(us, f) == NewRoot(ups, key, f)
  {
    hide LastFor, NewRoot, Agree, FieldOf;
    var last := LastFor(us, f);
    if NewRoot(ups, key, f).Some? {
      var k := NewRootFrom(ups, key, f);
      assert Update(k, ups[Config(k, key)]) in us;
    }
    if last.Some? {
      var u :| u in us && FieldOf(u.kind) == f && u.root == last.value;
      NewRootOfKind(ups, key, u.kind);
    }
  }

  lemma NotRewritten(leaf: Leaf, key: Bytes, ups: map<Config, Root>)
    requires forall c :: c in ups ==> c.key != key
    ensures Rewritten(leaf, key, ups) == leaf
  {
  }

  lemma RewrittenRoot(leaf: Leaf, key: Bytes, ups: map<Config, Root>, k: Kind)
    ensures SameData(leaf, Rewritten(leaf, key, ups))
    ensures GetRoot(k, Rewritten(leaf, key, ups)) ==
            match NewRoot(ups, key, FieldOf(k)) { case Some(r) => if Fits(k, leaf) then Ok(r) else Err(ChildRootUnknown) case None => GetRoot(k, leaf) }
  {
  }

  lemma GatheredRewrites(leaf: Leaf, key: Bytes, ups: map<Config, Root>, us: seq<Update>)
    requires Gathered(us, key, ups) && Agree(ups)
    requires forall c :: c in ups && c.key == key ==> Fits(c.kind, leaf)
    ensures ApplyAll(leaf, us) == Ok(Rewritten(leaf, key, ups))
  {
    forall i | 0 <= i < |us| ensures Fits(us[i].kind, leaf) {
      assert us[i] in us;
      assert Config(us[i].kind, key) in ups;
    }
    ApplyAllFields(leaf, us, Main);
    var a, b := ApplyAll(leaf, us).value, Rewritten(leaf, key, ups);
    forall k: Kind ensures GetRoot(k, a) == GetRoot(k, b) {
      ApplyAllFields(leaf, us, k);
      GatheredLast(us, key, ups, FieldOf(k));
      RewrittenRoot(leaf, key, ups, k);
    }
    RewrittenRoot(leaf, key, ups, Main);
    LeafExtensional(a, b);
  }

  lemma {:induction false} ApplyAllNeedsFit(leaf: Leaf, us: seq<Update>)
    requires ApplyAll(leaf, us).Ok?
    ensures AllFit(leaf, us)
    decreases |us|
  {
    if us != [] {
      RootLens(us[0].kind, leaf, us[0].root);
      ApplyAllNeedsFit(SetRoot(us[0].kind, leaf, us[0].root).value, us[1..]);
      forall i | 0 <= i < |us| ensures Fits(us[i].kind, leaf) {
        assert i > 0 ==> us[i] == us[1..][i - 1];
      }
    }
  }

  /** Updating one leaf succeeds exactly when every changed subtree that hangs from it has a
      place in it. */
  lemma LeafUpdates(leaf: Leaf, key: Bytes, ups: map<Config, Root>, us: seq<Update>)
    requires Gathered(us, key, ups)
    ensures ApplyAll(leaf, us).Ok? <==> forall c :: c in ups && c.key == key ==> Fits(c.kind, leaf)
  {
    if ApplyAll(leaf, us).Ok? {
      ApplyAllNeedsFit(leaf, us);
      forall c | c in ups && c.key == key ensures Fits(c.kind, leaf) {
        assert Update(c.kind, ups[c]) in us;
      }
    }
    if forall c :: c in ups && c.key == key ==> Fits(c.kind, leaf) {
      forall i | 0 <= i < |us| ensures Fits(us[i].kind, leaf) {
        assert us[i] in us;
      }
      ApplyAllFields(leaf, us, Main);
    }
  }

  /** ... and then yields the rewritten leaf, if the changed subtrees agree. */
  lemma LeafOutcome(leaf: Leaf, key: Bytes, ups: map<Config, Root>, us: seq<Update>)
    requires Gathered(us, key, ups) && Agree(ups)
    ensures ApplyAll(leaf, us).Ok? <==> forall c :: c in ups && c.key == key ==> Fits(c.kind, leaf)
    ensures ApplyAll(leaf, us).Ok? ==> ApplyAll(leaf, us).value == Rewritten(leaf, key, ups)
  {
    LeafUpdates(leaf, key, ups, us);
    if ApplyAll(leaf, us).Ok? {
      GatheredRewrites(leaf, key, ups, us);
    }
  }

  // ---------------------------------------------------------------- the pass

  /** The pending updates by leaf key are exactly those of the changed subtrees. */
  ghost predicate Collected(byKey: map<Bytes, seq<Update>>, ups: map<Config, Root>) {
    && (forall key :: key in byKey ==> byKey[key] != [] && Gathered(byKey[key], key, ups))
    && (forall c :: c in ups ==> c.key in byKey)
  }
}
