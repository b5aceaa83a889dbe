/** Concrete inputs on the failing side of the exact conditions on trees. */
module TreeWitnesses {
  import opened Common
  import opened LittleEndian
  import opened Trees
  import opened Propagation
  import opened Commits
  import opened Transactions
  import opened Orders
  import CensusTree

  // ------------------------------------------------ two rolling censuses on one leaf

  function OneLeaf(b: byte): Open {
    Open(Root(map[[0] := Raw([b])]), true, map[])
  }

  /** A process with both kinds of rolling census open and written to. */
  function BothOpen(): Open {
    Open(LeafWith(EMPTY_ROOT), false, map[Config(Census, [0]) := OneLeaf(1), Config(CensusPoseidon, [0]) := OneLeaf(2)])
  }

  function LeafWith(census: Root): Root {
    Root(map[[0] := ProcessLeaf([], Some(EMPTY_ROOT), Some(census), Some(EMPTY_ROOT))])
  }

  lemma PassOfOneLeaf(b: byte)
    ensures Propagate(OneLeaf(b)).Changed? && PassTo(OneLeaf(b), OneLeaf(b).root)
  {
    var n := OneLeaf(b);
    assert Updates(n) == map[];
    assert LevelRoot(n.root, map[]).leaves == n.root.leaves;
    assert PassBy(n, map[], map[], n.root);
  }

  function Roots(): map<Config, Root> {
    map[Config(Census, [0]) := OneLeaf(1).root, Config(CensusPoseidon, [0]) := OneLeaf(2).root]
  }

  /** Both updates, in one of the two orders. */
  predicate BothUpdates(us: seq<Update>) {
    var a, b := Update(Census, OneLeaf(1).root), Update(CensusPoseidon, OneLeaf(2).root);
    us == [a, b] || us == [b, a]
  }

  lemma EitherOrder(us: seq<Update>)
    requires BothUpdates(us)
    ensures InSomeOrder(map[[0] := us], Roots())
  {
    var byKey := map[[0] := us];
    assert us[0] in us && us[1] in us;
    assert Gathered(us, [0], Roots());
    forall c | c in Roots() ensures c.key in byKey {
    }
    assert NoRepeat(us);
  }

  lemma LastWins(us: seq<Update>)
    requires BothUpdates(us)
    ensures LevelRoot(LeafWith(EMPTY_ROOT), map[[0] := us]) == LeafWith(us[1].root)
  {
    hide OneLeaf;
    var leaf := LeafWith(EMPTY_ROOT).leaves[[0]];
    var one := SetRoot(us[0].kind, leaf, us[0].root).value;
    assert us[1..] == [us[1]] && [us[1]][1..] == [];
    assert ApplyAll(one, [us[1]]) == Ok(LeafWith(us[1].root).leaves[[0]]);
    assert ApplyAll(leaf, us) == ApplyAll(one, us[1..]);
    assert LevelRoot(LeafWith(EMPTY_ROOT), map[[0] := us]).leaves == LeafWith(us[1].root).leaves;
  }

  lemma BothChanged()
    ensures Updates(BothOpen()).Keys == Roots().Keys
  {
    hide Propagate, OneLeaf, LeafWith;
    PassOfOneLeaf(1);
    PassOfOneLeaf(2);
  }

  lemma PassInOrder(us: seq<Update>)
    requires BothUpdates(us)
    ensures PassTo(BothOpen(), LeafWith(us[1].root))
  {
    hide OneLeaf, BothUpdates, InSomeOrder, LevelRoot, LeafWith, PassTo, Propagate, Updates;
    var n := BothOpen();
    PassOfOneLeaf(1);
    PassOfOneLeaf(2);
    BothChanged();
    EitherOrder(us);
    LastWins(us);
    PassByTo(n, Roots(), map[[0] := us]);
  }

  /** A commit of a process with both kinds of rolling census changed ends with either of two
      roots. */
  lemma OrderDecidesRoot()
    ensures PassTo(BothOpen(), LeafWith(OneLeaf(1).root)) && PassTo(BothOpen(), LeafWith(OneLeaf(2).root))
    ensures LeafWith(OneLeaf(1).root) != LeafWith(OneLeaf(2).root)
  {
    PassInOrder([Update(CensusPoseidon, OneLeaf(2).root), Update(Census, OneLeaf(1).root)]);
    PassInOrder([Update(Census, OneLeaf(1).root), Update(CensusPoseidon, OneLeaf(2).root)]);
    assert LeafWith(OneLeaf(1).root).leaves[[0]].census.value.leaves[[0]] == Raw([1]);
    assert LeafWith(OneLeaf(2).root).leaves[[0]].census.value.leaves[[0]] == Raw([2]);
  }

  // ------------------------------------------------ an error that turns into an answer

  /** The root of a main tree with one subtree, which nobody has opened. */
  function OneSubtree(): Root {
    Root(map[[0] := RootLeaf(EMPTY_ROOT)])
  }

  /** Reading a tree that nobody has opened fails; once a transaction has opened it, the same
      read at the same root succeeds. */
  lemma EmptyTreeTurnsIntoAnswer()
    ensures var r, path := OneSubtree(), [Config(Main, [0])];
            var d := Dir({r}, map[], map[]);
            && ViewTree(d, r, path) == Err(EmptyTree)
            && ViewTree(Apply(Tx(d, Open(r, false, map[])), Op.Get(path, [])).dir, r, path) == Ok(EMPTY_ROOT)
  {
    var r, c := OneSubtree(), Config(Main, [0]);
    var path, d, n := [c], Dir({r}, map[], map[]), Open(r, false, map[]);
    assert path[1..] == [];
    assert Child(d, n, c) == Ok(Open(EMPTY_ROOT, false, map[]));
    assert OpenPath(Sub(d, c), Open(EMPTY_ROOT, false, map[]), path[1..]).dir == EMPTY_DIR;
    var d' := OpenPath(d, n, path).dir;
    assert d'.kids == map[c := EMPTY_DIR];
    assert ViewTree(d'.kids[c], EMPTY_ROOT, path[1..]) == Ok(EMPTY_ROOT);
  }

  // ------------------------------------------------ an import that does not count

  /** A weighted census that imports one leaf counts none. */
  lemma ImportCountsNothing()
    ensures var shape, s, dump := CensusTree.Shape(false, 1), CensusTree.Store(map[], 0, 0, map[]), map[[0] := [1]];
            && CensusTree.WeightedOk(shape, s)
            && CensusTree.Imported(shape, s, dump).index == 0 && |CensusTree.Imported(shape, s, dump).leaves| == 1
            && !CensusTree.WeightedOk(shape, CensusTree.Imported(shape, s, dump))
  {
    var shape, s, dump := CensusTree.Shape(false, 1), CensusTree.Store(map[], 0, 0, map[]), map[[0] := [1]];
    assert Pow256(1) == 256;
    assert CensusTree.WeightedOk(shape, s) by {
      assert CensusTree.LeafTotal(map[]) == 0;
    }
    CensusTree.ImportLeavesCounter(shape, s, dump);
    assert |dump| == 1;
  }

  // ------------------------------------------------ a key that is registered again

  /** A key verifies against the root of its census, and no longer does once it has been
      registered again. */
  lemma RegisteredAgainFails()
    ensures var shape := CensusTree.Shape(true, 8);
            var s := CensusTree.AddEach(shape, CensusTree.Store(map[], 0, 0, map[]), [[1]], None);
            && CensusTree.VerifyProof(shape, s, [], [1], s.leaves)
            && !CensusTree.VerifyProof(shape, CensusTree.AddEach(shape, s, [[1]], None), [], [1], s.leaves)
  {
    hide CensusTree.VerifyProof, Encode, Pow256;
    var shape, empty := CensusTree.Shape(true, 8), CensusTree.Store(map[], 0, 0, map[]);
    var s := CensusTree.AddEach(shape, empty, [[1]], None);
    assert CensusTree.IndexedOk(empty);
    CensusTree.AddEachIndexed(shape, empty, [[1]]);
    CensusTree.NumbersKept(shape, empty, [[1]], [1]);
    assert s.keyIndex[[1]] in s.leaves && s.leaves[s.keyIndex[[1]]] == [1];
    CensusTree.EarlierRootVerifiesIff(shape, s, [[1]], [], [1]);
    CensusTree.VerifiesIffRegistered(shape, s, [], [1]);
  }
}
