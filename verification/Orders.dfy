/** The pass of a commit over all orders: which roots it can end with, and exactly when there
    is only one. */
module Orders {
  import opened Common
  import opened Trees
  import opened Propagation

  // ------------------------------------------------ all orders

  predicate NoRepeat(us: seq<Update>) {
    forall i, j :: 0 <= i < j < |us| ==> us[i] != us[j]
  }

  /** Lists of updates by leaf key, each update of the changed subtrees once, in any order. */
  ghost predicate InSomeOrder(byKey: map<Bytes, seq<Update>>, ups: map<Config, Root>) {
    Collected(byKey, ups) && forall key :: key in byKey ==> NoRepeat(byKey[key])
  }

  function Updated(leaf: Leaf, us: seq<Update>): Leaf {
    match ApplyAll(leaf, us)
    case Ok(after) => after
    case Err(_) => leaf
  }

  function LevelRoot(r: Root, byKey: map<Bytes, seq<Update>>): Root {
    Root(map k | k in r.leaves :: if k in byKey then Updated(r.leaves[k], byKey[k]) else r.leaves[k])
  }

  /** The pass can end with this root of a tree in which something changed: its changed
      subtrees end with some roots, and these go into the leaves in some order. */
  ghost predicate PassTo(n: Open, r: Root)
    decreases n, 1
  {
    exists ups: map<Config, Root>, byKey: map<Bytes, seq<Update>> :: PassBy(n, ups, byKey, r)
  }

  ghost predicate PassBy(n: Open, ups: map<Config, Root>, byKey: map<Bytes, seq<Update>>, r: Root)
    decreases n, 0
  {
    && ups.Keys == Updates(n).Keys
    && (forall c :: c in n.subs && c in ups ==> PassTo(n.subs[c], ups[c]))
    && InSomeOrder(byKey, ups)
    && r == LevelRoot(n.root, byKey)
  }

  // ------------------------------------------------ orders with a chosen last kind

  function Gather(ups: map<Config, Root>, key: Bytes, kinds: seq<Kind>): seq<Update> {
    if kinds == [] then []
    else
      var c := Config(kinds[0], key);
      (if c in ups then [Update(kinds[0], ups[c])] else []) + Gather(ups, key, kinds[1..])
  }

  /** All kinds but one. */
  function Others(last: Kind): seq<Kind> {
    match last
    case Main => [Votes, Census, CensusPoseidon, Nullifiers]
    case Votes => [Main, Census, CensusPoseidon, Nullifiers]
    case Census => [Main, Votes, CensusPoseidon, Nullifiers]
    case CensusPoseidon => [Main, Votes, Census, Nullifiers]
    case Nullifiers => [Main, Votes, Census, CensusPoseidon]
  }

  function OrderedLast(ups: map<Config, Root>, key: Bytes, last: Kind): seq<Update> {
    Gather(ups, key, Others(last)) + Gather(ups, key, [last])
  }

  predicate Different(kinds: seq<Kind>) {
    forall i, j :: 0 <= i < j < |kinds| ==> kinds[i] != kinds[j]
  }

  lemma {:induction false} GatherHas(ups: map<Config, Root>, key: Bytes, kinds: seq<Kind>)
    ensures forall u :: u in Gather(ups, key, kinds) <==>
              u.kind in kinds && Config(u.kind, key) in ups && ups[Config(u.kind, key)] == u.root
    ensures Different(kinds) ==> NoRepeat(Gather(ups, key, kinds))
    decreases |kinds|
  {
    if kinds != [] {
      GatherHas(ups, key, kinds[1..]);
      assert kinds == [kinds[0]] + kinds[1..];
    }
  }

  lemma OthersAre(last: Kind)
    ensures Different(Others(last)) && forall k: Kind :: k in Others(last) <==> k != last
  {
  }

  lemma GatherOne(ups: map<Config, Root>, key: Bytes, k: Kind)
    ensures Gather(ups, key, [k]) == if Config(k, key) in ups then [Update(k, ups[Config(k, key)])] else []
  {
    assert [k][1..] == [];
    assert Gather(ups, key, []) == [];
  }

  lemma OrderedLastGathers(ups: map<Config, Root>, key: Bytes, last: Kind)
    ensures Gathered(OrderedLast(ups, key, last), key, ups) && NoRepeat(OrderedLast(ups, key, last))
    ensures Config(last, key) in ups ==>
              var us := OrderedLast(ups, key, last);
              us != [] && us[|us| - 1] == Update(last, ups[Config(last, key)])
  {
    hide Gather, Others, Different;
    OthersAre(last);
    GatherHas(ups, key, Others(last));
    GatherOne(ups, key, last);
    var a, b := Gather(ups, key, Others(last)), Gather(ups, key, [last]);
    assert forall u :: u in a + b <==> u in a || u in b;
  }

  function LeafKeys(ups: map<Config, Root>): set<Bytes> {
    set c | c in ups :: c.key
  }

  /** For every leaf key the updates in order, at one key with a chosen kind last. */
  ghost function InOrder(ups: map<Config, Root>, key: Bytes, last: Kind): map<Bytes, seq<Update>> {
    map k | k in LeafKeys(ups) :: OrderedLast(ups, k, if k == key then last else CensusPoseidon)
  }

  lemma InOrderIsOne(ups: map<Config, Root>, key: Bytes, last: Kind)
    ensures InSomeOrder(InOrder(ups, key, last), ups)
    ensures forall c :: c in ups ==> c.key in InOrder(ups, key, last)
  {
    hide OrderedLast, Gathered, NoRepeat;
    var byKey := InOrder(ups, key, last);
    forall k | k in byKey ensures byKey[k] != [] && Gathered(byKey[k], k, ups) && NoRepeat(byKey[k]) {
      OrderedLastGathers(ups, k, if k == key then last else CensusPoseidon);
      var c :| c in ups && c.key == k;
      HasMember(byKey[k], k, ups, c);
    }
  }

  lemma HasMember(us: seq<Update>, key: Bytes, ups: map<Config, Root>, c: Config)
    requires Gathered(us, key, ups) && c in ups && c.key == key
    ensures us != []
  {
    assert Update(c.kind, ups[c]) in us;
  }

  /** The root of the kind that comes last stays in its field. */
  lemma LastStays(leaf: Leaf, key: Bytes, ups: map<Config, Root>, last: Kind)
    requires Config(last, key) in ups && forall c :: c in ups && c.key == key ==> Fits(c.kind, leaf)
    ensures GetRoot(last, Updated(leaf, OrderedLast(ups, key, last))) == Ok(ups[Config(last, key)])
  {
    var us := OrderedLast(ups, key, last);
    OrderedLastGathers(ups, key, last);
    hide OrderedLast;
    forall i | 0 <= i < |us| ensures Fits(us[i].kind, leaf) {
      assert us[i] in us;
    }
    ApplyAllFields(leaf, us, last);
  }

  // ------------------------------------------------ one order is that of the definition

  lemma CanonicalLast(ups: map<Config, Root>, key: Bytes, f: Field)
    ensures LastFor(OrderedLast(ups, key, CensusPoseidon), f) == NewRoot(ups, key, f)
  {
    var us := OrderedLast(ups, key, CensusPoseidon);
    OrderedLastGathers(ups, key, CensusPoseidon);
    hide OrderedLast, LastFor;
    if NewRoot(ups, key, f).Some? {
      var k := NewRootFrom(ups, key, f);
      assert Update(k, ups[Config(k, key)]) in us;
    }
    if LastFor(us, f).Some? {
      var u :| u in us && FieldOf(u.kind) == f && u.root == LastFor(us, f).value;
    }
  }

  lemma CanonicalLeaf(leaf: Leaf, key: Bytes, ups: map<Config, Root>)
    requires forall c :: c in ups && c.key == key ==> Fits(c.kind, leaf)
    ensures Updated(leaf, OrderedLast(ups, key, CensusPoseidon)) == Rewritten(leaf, key, ups)
  {
    var us := OrderedLast(ups, key, CensusPoseidon);
    OrderedLastGathers(ups, key, CensusPoseidon);
    hide OrderedLast;
    forall i | 0 <= i < |us| ensures Fits(us[i].kind, leaf) {
      assert us[i] in us;
    }
    ApplyAllFields(leaf, us, Main);
    var a, b := ApplyAll(leaf, us).value, Rewritten(leaf, key, ups);
    forall k: Kind ensures GetRoot(k, a) == GetRoot(k, b) {
      ApplyAllFields(leaf, us, k);
      CanonicalLast(ups, key, FieldOf(k));
      RewrittenRoot(leaf, key, ups, k);
    }
    RewrittenRoot(leaf, key, ups, Main);
    LeafExtensional(a, b);
  }

  lemma CanonicalLevel(r: Root, ups: map<Config, Root>)
    requires HaveLeaves(r.leaves, ups)
    ensures LevelRoot(r, InOrder(ups, [], CensusPoseidon)) == RewriteLeaves(r, ups)
  {
    var byKey := InOrder(ups, [], CensusPoseidon);
    InOrderIsOne(ups, [], CensusPoseidon);
    forall k | k in r.leaves ensures (if k in byKey then Updated(r.leaves[k], byKey[k]) else r.leaves[k]) == Rewritten(r.leaves[k], k, ups) {
      if k in byKey {
        CanonicalLeaf(r.leaves[k], k, ups);
      } else {
        NotRewritten(r.leaves[k], k, ups);
      }
    }
    hide Rewritten, Updated, OrderedLast;
    assert LevelRoot(r, byKey).leaves == RewriteLeaves(r, ups).leaves;
  }

  /** The definition without an order is one of the outcomes. */
  lemma {:induction false} CanonicalPass(n: Open)
    requires Propagate(n).Changed?
    ensures PassTo(n, Propagate(n).root)
    decreases n
  {
    var ups := Updates(n);
    forall c | c in n.subs && c in ups ensures PassTo(n.subs[c], ups[c]) {
      CanonicalPass(n.subs[c]);
    }
    CanonicalLevel(n.root, ups);
    InOrderIsOne(ups, [], CensusPoseidon);
    assert PassBy(n, ups, InOrder(ups, [], CensusPoseidon), Propagate(n).root);
  }

  // ------------------------------------------------ agreement is enough

  lemma AgreedLevel(r: Root, ups: map<Config, Root>, byKey: map<Bytes, seq<Update>>)
    requires HaveLeaves(r.leaves, ups) && Agree(ups) && Collected(byKey, ups)
    ensures LevelRoot(r, byKey) == RewriteLeaves(r, ups)
  {
    forall k | k in r.leaves ensures (if k in byKey then Updated(r.leaves[k], byKey[k]) else r.leaves[k]) == Rewritten(r.leaves[k], k, ups) {
      if k in byKey {
        LeafOutcome(r.leaves[k], k, ups, byKey[k]);
      } else {
        NotRewritten(r.leaves[k], k, ups);
      }
    }
    hide Rewritten, Updated, Gathered;
    assert LevelRoot(r, byKey).leaves == RewriteLeaves(r, ups).leaves;
  }

  lemma SomeOrderCollects(byKey: map<Bytes, seq<Update>>, ups: map<Config, Root>)
    requires InSomeOrder(byKey, ups)
    ensures Collected(byKey, ups)
  {
  }

  lemma {:induction false} AgreedPass(n: Open, r: Root)
    requires Propagate(n).Changed? && DeepAgree(n) && PassTo(n, r)
    ensures r == Propagate(n).root
    decreases n
  {
    hide Agree, InSomeOrder, LevelRoot, RewriteLeaves;
    var ups, byKey :| PassBy(n, ups, byKey, r);
    forall c | c in ups ensures ups[c] == Updates(n)[c] {
      assert c in Updates(n).Keys && c in n.subs;
      AgreedPass(n.subs[c], ups[c]);
    }
    assert ups == Updates(n);
    SomeOrderCollects(byKey, ups);
    AgreedLevel(n.root, ups, byKey);
  }

  // ------------------------------------------------ ... and needed

  /** Two outcomes of the pass. */
  ghost predicate Ambiguous(n: Open) {
    exists r, r' :: PassTo(n, r) && PassTo(n, r') && r != r'
  }

  lemma PassWith(n: Open, ups: map<Config, Root>, key: Bytes, last: Kind)
    requires ups.Keys == Updates(n).Keys && forall c :: c in n.subs && c in ups ==> PassTo(n.subs[c], ups[c])
    ensures PassTo(n, LevelRoot(n.root, InOrder(ups, key, last)))
  {
    hide PassTo;
    InOrderIsOne(ups, key, last);
    PassByTo(n, ups, InOrder(ups, key, last));
  }

  lemma PassByTo(n: Open, ups: map<Config, Root>, byKey: map<Bytes, seq<Update>>)
    requires ups.Keys == Updates(n).Keys && forall c :: c in n.subs && c in ups ==> PassTo(n.subs[c], ups[c])
    requires InSomeOrder(byKey, ups)
    ensures PassTo(n, LevelRoot(n.root, byKey))
  {
    assert PassBy(n, ups, byKey, LevelRoot(n.root, byKey));
  }

  /** Two choices that leave different roots for one place give two outcomes. */
  lemma TwoOutcomes(n: Open, ups: map<Config, Root>, ups': map<Config, Root>, a: Config, b: Config)
    requires Propagate(n).Changed? && ups.Keys == ups'.Keys == Updates(n).Keys
    requires forall c :: c in n.subs && c in ups ==> PassTo(n.subs[c], ups[c])
    requires forall c :: c in n.subs && c in ups' ==> PassTo(n.subs[c], ups'[c])
    requires a in ups && b in ups && a.key == b.key && FieldOf(a.kind) == FieldOf(b.kind) && ups[a] != ups'[b]
    ensures Ambiguous(n)
  {
    hide PassTo, Updated, OrderedLast;
    PassWith(n, ups, a.key, a.kind);
    PassWith(n, ups', b.key, b.kind);
    var r, r' := LevelRoot(n.root, InOrder(ups, a.key, a.kind)), LevelRoot(n.root, InOrder(ups', b.key, b.kind));
    LevelKeeps(n, ups, a);
    LevelKeeps(n, ups', b);
    assert ChildRoot(r, a) == Ok(ups[a]) && ChildRoot(r', b) == Ok(ups'[b]);
    SameFieldSameRoot(r, a, b);
    assert r != r';
  }

  lemma LevelKeeps(n: Open, ups: map<Config, Root>, a: Config)
    requires Propagate(n).Changed? && ups.Keys == Updates(n).Keys && a in ups
    ensures ChildRoot(LevelRoot(n.root, InOrder(ups, a.key, a.kind)), a) == Ok(ups[a])
  {
    assert a in Updates(n) && HaveLeaves(n.root.leaves, Updates(n));
    forall c | c in ups && c.key == a.key ensures Fits(c.kind, n.root.leaves[a.key]) {
      assert c in Updates(n);
    }
    InOrderIsOne(ups, a.key, a.kind);
    LastStays(n.root.leaves[a.key], a.key, ups, a.kind);
    hide Updated, OrderedLast, GetRoot;
  }

  lemma SameFieldSameRoot(r: Root, a: Config, b: Config)
    requires a.key == b.key && FieldOf(a.kind) == FieldOf(b.kind)
    ensures ChildRoot(r, a) == ChildRoot(r, b)
  {
  }

  /** A tree that did not change, at any depth, agrees. */
  lemma {:induction false} CleanAgrees(n: Open)
    requires Propagate(n).Clean?
    ensures DeepAgree(n)
    decreases n
  {
    forall c | c in n.subs ensures DeepAgree(n.subs[c]) {
      assert Propagate(n.subs[c]).Changed? ==> c in Updates(n);
      CleanAgrees(n.subs[c]);
    }
  }

  lemma {:induction false} DisagreedPass(n: Open)
    requires Propagate(n).Changed? && !DeepAgree(n)
    ensures Ambiguous(n)
    decreases n
  {
    hide PassTo, RewriteLeaves, HaveLeaves;
    var ups := Updates(n);
    forall c | c in n.subs && c in ups ensures PassTo(n.subs[c], ups[c]) {
      CanonicalPass(n.subs[c]);
    }
    if !Agree(ups) {
      var a, b :| a in ups && b in ups && a.key == b.key && FieldOf(a.kind) == FieldOf(b.kind) && ups[a] != ups[b];
      TwoOutcomes(n, ups, ups, a, b);
    } else {
      var c :| c in n.subs && !DeepAgree(n.subs[c]);
      if Propagate(n.subs[c]).Clean? {
        CleanAgrees(n.subs[c]);
      }
      DisagreedPass(n.subs[c]);
      TwoBelow(n, c);
    }
  }

  lemma TwoBelow(n: Open, c: Config)
    requires Propagate(n).Changed? && c in Updates(n) && c in n.subs && Ambiguous(n.subs[c])
    requires forall d :: d in n.subs && d in Updates(n) ==> PassTo(n.subs[d], Updates(n)[d])
    ensures Ambiguous(n)
  {
    hide PassTo, Propagate, Updates;
    var x, y :| PassTo(n.subs[c], x) && PassTo(n.subs[c], y) && x != y;
    var ups := Updates(n);
    TwoOutcomes(n, ups[c := x], ups[c := y], c, c);
  }

  /** The pass as a whole, over all orders of open subtrees and updated leaves at every depth,
      ends with one root if and only if at no depth two changed subtrees put different roots
      into one place; and that root is the one of the definition. */
  lemma PassIsOrderFreeIffAgreed(n: Open)
    requires Propagate(n).Changed?
    ensures PassTo(n, Propagate(n).root)
    ensures DeepAgree(n) <==> !Ambiguous(n)
  {
    CanonicalPass(n);
    if DeepAgree(n) {
      OneOutcome(n);
    } else {
      DisagreedPass(n);
    }
    hide Ambiguous, DeepAgree, Propagate;
  }

  lemma OneOutcome(n: Open)
    requires Propagate(n).Changed? && DeepAgree(n)
    ensures !Ambiguous(n)
  {
    forall r, r' | PassTo(n, r) && PassTo(n, r') ensures r == r' {
      AgreedPass(n, r);
      AgreedPass(n, r');
    }
    hide PassBy;
  }
}
