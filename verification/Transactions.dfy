/** Update transactions over the state database: opening nested trees on demand, writing
    leaves, committing versions, and what that means for earlier versions. */
module Transactions {
  import opened Common
  import opened Trees
  import opened Propagation
  import opened Commits

  // ------------------------------------------------ opening and writing

  /** The database and the tree after opening a path, and what stopped it if it failed. */
  datatype Opened = Opened(dir: Dir, tree: Open, error: Option<Error>)

  /** Opens the trees along a path, one by one; those opened before a failure stay open.
      Opening a tree creates its prefix in the database. */
  function OpenPath(d: Dir, n: Open, path: seq<Config>): Opened
    decreases |path|
  {
    if path == [] then Opened(d, n, None)
    else
      var c := path[0];
      match Child(d, n, c)
      case Err(e) =>
        Opened(if e.RootNotStored? then d.(kids := d.kids[c := Sub(d, c)]) else d, n, Some(e))
      case Ok(m) =>
        var below := OpenPath(Sub(d, c), m, path[1..]);
        Opened(d.(kids := d.kids[c := below.dir]), n.(subs := n.subs[c := below.tree]), below.error)
  }

  predicate IsOpen(n: Open, path: seq<Config>)
    decreases |path|
  {
    path == [] || (path[0] in n.subs && IsOpen(n.subs[path[0]], path[1..]))
  }

  function At(n: Open, path: seq<Config>): Open
    requires IsOpen(n, path)
    decreases |path|
  {
    if path == [] then n else At(n.subs[path[0]], path[1..])
  }

  /** The tree and the database with an open tree changed to a new root and marked. */
  function Replace(n: Open, path: seq<Config>, r: Root): Open
    requires IsOpen(n, path)
    decreases |path|
  {
    if path == [] then n.(root := r, dirty := true)
    else n.(subs := n.subs[path[0] := Replace(n.subs[path[0]], path[1..], r)])
  }

  function Store(d: Dir, path: seq<Config>, r: Root): Dir
    decreases |path|
  {
    if path == [] then d.(roots := d.roots + {r})
    else d.(kids := d.kids[path[0] := Store(Sub(d, path[0]), path[1..], r)])
  }

  function StoreNoState(d: Dir, path: seq<Config>, key: Bytes, value: Bytes): Dir
    decreases |path|
  {
    if path == [] then d.(noState := d.noState[key := value])
    else d.(kids := d.kids[path[0] := StoreNoState(Sub(d, path[0]), path[1..], key, value)])
  }

  /** An open transaction: the database it has written to, and the main tree. */
  datatype Tx = Tx(dir: Dir, main: Open)

  datatype Op =
    | Get(path: seq<Config>, key: Bytes)
    | Add(path: seq<Config>, key: Bytes, leaf: Leaf)
    | Set(path: seq<Config>, key: Bytes, leaf: Leaf)
    | NoState(path: seq<Config>, key: Bytes, value: Bytes)

  /** One operation on a nested tree.  Adding under a key that is taken fails, yet marks
      the tree as written. */
  function Apply(tx: Tx, op: Op): Tx {
    var o := OpenPath(tx.dir, tx.main, op.path);
    if o.error.Some? then Tx(o.dir, o.tree)
    else
      OpenPathOpens(tx.dir, tx.main, op.path);
      var r := At(o.tree, op.path).root;
      match op
      case Get(_, _) => Tx(o.dir, o.tree)
      case NoState(path, key, value) => Tx(StoreNoState(o.dir, path, key, value), o.tree)
      case Set(path, key, leaf) => Written(o, path, Root(r.leaves[key := leaf]))
      case Add(path, key, leaf) => Written(o, path, if key in r.leaves then r else Root(r.leaves[key := leaf]))
  }

  function Written(o: Opened, path: seq<Config>, r: Root): Tx
    requires IsOpen(o.tree, path)
  {
    Tx(Store(o.dir, path, r), Replace(o.tree, path, r))
  }

  lemma {:induction false} OpenPathOpens(d: Dir, n: Open, path: seq<Config>)
    ensures OpenPath(d, n, path).error.None? <==> OpenTree(d, n, path).Ok?
    ensures OpenPath(d, n, path).error.None? ==>
              && IsOpen(OpenPath(d, n, path).tree, path)
              && At(OpenPath(d, n, path).tree, path) == OpenTree(d, n, path).value
    ensures OpenPath(d, n, path).error.Some? ==> OpenTree(d, n, path) == Err(OpenPath(d, n, path).error.value)
    decreases |path|
  {
    if path != [] && Child(d, n, path[0]).Ok? {
      OpenPathOpens(Sub(d, path[0]), Child(d, n, path[0]).value, path[1..]);
    }
  }

  // ------------------------------------------------ opening is invisible

  function Seen(r: Result<Open, Error>): Result<Root, Error> {
    match r
    case Err(e) => Err(e)
    case Ok(n) => Ok(n.root)
  }

  /** Opening trees changes no read of the transaction, at any path. */
  lemma {:induction false} OpeningIsInvisible(d: Dir, n: Open, path: seq<Config>, q: seq<Config>)
    ensures var o := OpenPath(d, n, path);
            Seen(OpenTree(o.dir, o.tree, q)) == Seen(OpenTree(d, n, q))
    decreases |path|
  {
    if path != [] && q != [] && Child(d, n, path[0]).Ok? && q[0] == path[0] {
      OpeningIsInvisible(Sub(d, path[0]), Child(d, n, path[0]).value, path[1..], q[1..]);
    }
    if path != [] && q != [] && (Child(d, n, path[0]).Err? || q[0] != path[0]) {
      var o := OpenPath(d, n, path);
      assert Sub(o.dir, q[0]) == Sub(d, q[0]);
      assert Child(o.dir, o.tree, q[0]) == Child(d, n, q[0]);
    }
  }

  lemma {:induction false} WriteIsRead(d: Dir, n: Open, path: seq<Config>, r: Root)
    requires IsOpen(n, path)
    ensures Seen(OpenTree(Store(d, path, r), Replace(n, path, r), path)) == Ok(r)
    decreases |path|
  {
    if path != [] {
      WriteIsRead(Sub(d, path[0]), n.subs[path[0]], path[1..], r);
    }
  }

  /** A write is read back at its path and changes no read elsewhere: not above it, not
      beside it, and not below other leaves of the same tree. */
  lemma {:induction false} WriteIsLocal(d: Dir, n: Open, path: seq<Config>, r: Root, q: seq<Config>)
    requires IsOpen(n, path)
    ensures Seen(OpenTree(Store(d, path, r), Replace(n, path, r), path)) == Ok(r)
    ensures !(path <= q) ==> Seen(OpenTree(Store(d, path, r), Replace(n, path, r), q)) == Seen(OpenTree(d, n, q))
    decreases |path|
  {
    WriteIsRead(d, n, path, r);
    if path != [] && q != [] {
      var c := path[0];
      if q[0] == c {
        WriteIsLocal(Sub(d, c), n.subs[c], path[1..], r, q[1..]);
        PrefixTail(path, q);
      } else {
        assert Child(Store(d, path, r), Replace(n, path, r), q[0]) == Child(d, n, q[0]);
      }
    }
  }

  lemma PrefixTail(path: seq<Config>, q: seq<Config>)
    requires path != [] && q != [] && path[0] == q[0]
    ensures path[1..] <= q[1..] ==> path <= q
  {
    assert path == [path[0]] + path[1..] && q == [q[0]] + q[1..];
  }

  /** The new root gives a subtree the child root it had, or the subtree is open anyway. */
  predicate SameBelow(m: Open, r: Root, c: Config) {
    c in m.subs || ChildRoot(r, c) == ChildRoot(m.root, c)
  }

  lemma {:induction false} WriteBelow(d: Dir, n: Open, path: seq<Config>, r: Root, c: Config, rest: seq<Config>)
    requires IsOpen(n, path) && SameBelow(At(n, path), r, c)
    ensures Seen(OpenTree(Store(d, path, r), Replace(n, path, r), path + [c] + rest)) == Seen(OpenTree(d, n, path + [c] + rest))
    decreases |path|
  {
    var q := path + [c] + rest;
    if path == [] {
      assert q[0] == c && Child(Store(d, path, r), Replace(n, path, r), c) == Child(d, n, c);
    } else {
      assert q[0] == path[0] && q[1..] == path[1..] + [c] + rest;
      WriteBelow(Sub(d, path[0]), n.subs[path[0]], path[1..], r, c, rest);
    }
  }

  /** A subtree that hangs from a new leaf with an empty root opens empty. */
  lemma {:induction false} FreshBelow(d: Dir, n: Open, path: seq<Config>, r: Root, c: Config)
    requires IsOpen(n, path) && c !in At(n, path).subs && ChildRoot(r, c) == Ok(EMPTY_ROOT)
    ensures Seen(OpenTree(Store(d, path, r), Replace(n, path, r), path + [c])) == Ok(EMPTY_ROOT)
    decreases |path|
  {
    var q := path + [c];
    if path == [] {
      assert q[0] == c && q[1..] == [];
    } else {
      assert q[0] == path[0] && q[1..] == path[1..] + [c];
      FreshBelow(Sub(d, path[0]), n.subs[path[0]], path[1..], r, c);
    }
  }

  lemma {:induction false} SideIsInvisible(d: Dir, n: Open, path: seq<Config>, key: Bytes, value: Bytes, q: seq<Config>)
    requires IsOpen(n, path)
    ensures Seen(OpenTree(StoreNoState(d, path, key, value), n, q)) == Seen(OpenTree(d, n, q))
    decreases |path|
  {
    if path != [] && q != [] {
      if q[0] == path[0] {
        SideIsInvisible(Sub(d, path[0]), n.subs[path[0]], path[1..], key, value, q[1..]);
      } else {
        assert Sub(StoreNoState(d, path, key, value), q[0]) == Sub(d, q[0]);
      }
    }
  }

  lemma {:induction false} OpenedIsCreated(d: Dir, n: Open, path: seq<Config>)
    requires OpenPath(d, n, path).error.None?
    ensures Created(OpenPath(d, n, path).dir, path)
    decreases |path|
  {
    if path != [] {
      OpenedIsCreated(Sub(d, path[0]), Child(d, n, path[0]).value, path[1..]);
    }
  }

  /** The root that an addition or a set leaves at the tree it names. */
  function Edited(r: Root, op: Op): Root
    requires op.Add? || op.Set?
  {
    if op.Add? && op.key in r.leaves then r else Root(r.leaves[op.key := op.leaf])
  }

  /** What one operation does to every read: nothing if its path does not open, and otherwise
      nothing but the edit at its path, and below the leaf it edits. */
  lemma OpReads(tx: Tx, op: Op, q: seq<Config>)
    ensures var t, after := OpenTree(tx.dir, tx.main, op.path), Apply(tx, op);
            var before, now := Seen(OpenTree(tx.dir, tx.main, q)), Seen(OpenTree(after.dir, after.main, q));
            && (t.Err? || op.Get? || op.NoState? || !(op.path <= q) ==> now == before)
            && (t.Ok? && (op.Add? || op.Set?) && q == op.path ==> now == Ok(Edited(t.value.root, op)))
            && (t.Ok? && (op.Add? || op.Set?) && op.path < q && SameBelow(t.value, Edited(t.value.root, op), q[|op.path|]) ==> now == before)
  {
    hide OpenPath, Replace, Store, StoreNoState;
    var o := OpenPath(tx.dir, tx.main, op.path);
    OpenPathOpens(tx.dir, tx.main, op.path);
    OpeningIsInvisible(tx.dir, tx.main, op.path, q);
    if o.error.None? {
      if op.NoState? {
        SideIsInvisible(o.dir, o.tree, op.path, op.key, op.value, q);
      } else if !op.Get? {
        var m := At(o.tree, op.path);
        var r := Edited(m.root, op);
        WriteIsLocal(o.dir, o.tree, op.path, r, q);
        if op.path < q && SameBelow(m, r, q[|op.path|]) {
          var k := |op.path|;
          assert q == op.path + [q[k]] + q[k + 1..];
          WriteBelow(o.dir, o.tree, op.path, r, q[k], q[k + 1..]);
        }
      }
    }
  }

  /** A subtree under a new leaf of the edited tree. */
  lemma OpReadsFresh(tx: Tx, op: Op, c: Config)
    requires op.Add? || op.Set?
    requires var t := OpenTree(tx.dir, tx.main, op.path);
             t.Ok? && c !in t.value.subs && ChildRoot(Edited(t.value.root, op), c) == Ok(EMPTY_ROOT)
    ensures Seen(OpenTree(Apply(tx, op).dir, Apply(tx, op).main, op.path + [c])) == Ok(EMPTY_ROOT)
  {
    hide OpenPath, Replace, Store;
    var o := OpenPath(tx.dir, tx.main, op.path);
    OpenPathOpens(tx.dir, tx.main, op.path);
    FreshBelow(o.dir, o.tree, op.path, Edited(At(o.tree, op.path).root, op), c);
  }

  // ------------------------------------------------ what every operation keeps

  /** Every open subtree hangs from a leaf that yields a root for it, and it is the root
      the subtree has unless the subtree was written to. */
  predicate Linked(n: Open)
    decreases n
  {
    forall c :: c in n.subs ==>
      && ChildRoot(n.root, c).Ok?
      && (!n.subs[c].dirty ==> ChildRoot(n.root, c) == Ok(n.subs[c].root))
      && Linked(n.subs[c])
  }

  /** The database holds every open tree, and no two share a root's place. */
  predicate Sound(d: Dir, n: Open) {
    Backed(d, n) && DeepSeparate(n)
  }

  /** The operation writes no leaf directly, or keeps the roots of the open trees that
      hang from the leaf it writes. */
  predicate KeepsRoots(tx: Tx, op: Op) {
    op.Set? && OpenTree(tx.dir, tx.main, op.path).Ok? ==>
      var m := OpenTree(tx.dir, tx.main, op.path).value;
      forall c :: c in m.subs && c.key == op.key ==> GetRoot(c.kind, op.leaf) == ChildRoot(m.root, c)
  }

  /** Storing a process again, with other data in its leaf, keeps the roots of its trees. */
  lemma ProcessUpdateKeepsRoots(tx: Tx, op: Op)
    requires op.Set? && op.leaf.ProcessLeaf?
    requires OpenTree(tx.dir, tx.main, op.path).Ok?
    requires var m := OpenTree(tx.dir, tx.main, op.path).value;
             op.key in m.root.leaves && m.root.leaves[op.key].ProcessLeaf? &&
             op.leaf == m.root.leaves[op.key].(process := op.leaf.process)
    ensures KeepsRoots(tx, op)
  {
  }

  /** A sound subtree put in place of another, or opened anew, keeps the parent sound. */
  lemma {:induction false} GraftKeeps(d: Dir, n: Open, c: Config, kid: Dir, m: Open)
    requires Sound(d, n) && Sound(kid, m)
    requires Separate(n.subs.Keys + {c})
    ensures Sound(d.(kids := d.kids[c := kid]), n.(subs := n.subs[c := m]))
  {
    var d', n' := d.(kids := d.kids[c := kid]), n.(subs := n.subs[c := m]);
    assert n'.subs.Keys == n.subs.Keys + {c};
    assert Backed(d', n');
    assert DeepSeparate(n');
  }

  lemma GraftLinks(n: Open, c: Config, m: Open)
    requires Linked(n) && Linked(m)
    requires ChildRoot(n.root, c).Ok? && (!m.dirty ==> ChildRoot(n.root, c) == Ok(m.root))
    ensures Linked(n.(subs := n.subs[c := m]))
  {
  }

  lemma FailedOpenKeeps(d: Dir, n: Open, c: Config)
    requires Backed(d, n)
    ensures Backed(d.(kids := d.kids[c := Sub(d, c)]), n)
  {
  }

  lemma {:induction false} OpenPathKeeps(d: Dir, n: Open, path: seq<Config>)
    requires Sound(d, n) && Unambiguous(n, path)
    ensures var o := OpenPath(d, n, path);
            && Sound(o.dir, o.tree)
            && (Linked(n) ==> Linked(o.tree))
            && o.tree.root == n.root && o.tree.dirty == n.dirty
    decreases |path|
  {
    if path != [] && Child(d, n, path[0]).Ok? {
      var c := path[0];
      var m := Child(d, n, c).value;
      OpenPathKeeps(Sub(d, c), m, path[1..]);
      var below := OpenPath(Sub(d, c), m, path[1..]);
      GraftKeeps(d, n, c, below.dir, below.tree);
      if Linked(n) {
        GraftLinks(n, c, below.tree);
      }
    } else if path != [] {
      FailedOpenKeeps(d, n, path[0]);
    }
  }

  /** The new root gives every open subtree the child root it had. */
  predicate SameChildren(n: Open, r: Root) {
    forall c :: c in n.subs ==> ChildRoot(r, c) == ChildRoot(n.root, c)
  }

  lemma {:induction false} ReplaceKeeps(d: Dir, n: Open, path: seq<Config>, r: Root)
    requires Sound(d, n) && IsOpen(n, path)
    ensures Sound(Store(d, path, r), Replace(n, path, r))
    ensures Linked(n) && SameChildren(At(n, path), r) ==> Linked(Replace(n, path, r))
    ensures path != [] ==> Replace(n, path, r).root == n.root && Replace(n, path, r).dirty == n.dirty
    decreases |path|
  {
    if path == [] {
      assert forall c :: c in n.subs ==> Store(d, path, r).kids[c] == d.kids[c];
    } else {
      var c := path[0];
      ReplaceKeeps(d.kids[c], n.subs[c], path[1..], r);
      assert n.subs.Keys + {c} == n.subs.Keys;
      var m := Replace(n.subs[c], path[1..], r);
      GraftKeeps(d, n, c, Store(d.kids[c], path[1..], r), m);
      if Linked(n) && SameChildren(At(n, path), r) {
        GraftLinks(n, c, m);
      }
    }
  }

  lemma {:induction false} NoStateKeeps(d: Dir, n: Open, path: seq<Config>, key: Bytes, value: Bytes)
    requires Backed(d, n) && IsOpen(n, path)
    ensures Backed(StoreNoState(d, path, key, value), n)
    decreases |path|
  {
    if path != [] {
      NoStateKeeps(d.kids[path[0]], n.subs[path[0]], path[1..], key, value);
    }
  }

  /** Every operation keeps the transaction sound; one that keeps the embedded child
      roots also keeps the open trees linked to their parents. */
  lemma ApplyKeeps(tx: Tx, op: Op)
    requires Sound(tx.dir, tx.main) && Unambiguous(tx.main, op.path)
    ensures Sound(Apply(tx, op).dir, Apply(tx, op).main)
    ensures Linked(tx.main) && KeepsRoots(tx, op) ==> Linked(Apply(tx, op).main)
    ensures !Apply(tx, op).main.dirty ==> Apply(tx, op).main.root == tx.main.root && !tx.main.dirty
  {
    hide Backed, DeepSeparate, OpenPath, OpenTree, Store, Unambiguous;
    var o := OpenPath(tx.dir, tx.main, op.path);
    OpenPathKeeps(tx.dir, tx.main, op.path);
    OpenPathOpens(tx.dir, tx.main, op.path);
    if o.error.None? {
      var m := At(o.tree, op.path);
      match op
      case Get(_, _) =>
      case NoState(path, key, value) => NoStateKeeps(o.dir, o.tree, path, key, value);
      case Set(path, key, leaf) => ReplaceKeeps(o.dir, o.tree, path, Root(m.root.leaves[key := leaf]));
      case Add(path, key, leaf) =>
        if Linked(o.tree) {
          AtLinked(o.tree, path);
        }
        ReplaceKeeps(o.dir, o.tree, path, if key in m.root.leaves then m.root else Root(m.root.leaves[key := leaf]));
    }
  }

  lemma {:induction false} AtLinked(n: Open, path: seq<Config>)
    requires Linked(n) && IsOpen(n, path)
    ensures Linked(At(n, path))
    decreases |path|
  {
    if path != [] {
      AtLinked(n.subs[path[0]], path[1..]);
    }
  }

  /** Commit cannot fail, and preserves reads, in a sound transaction. */
  lemma {:induction false} LinkedCommits(n: Open)
    requires Linked(n)
    ensures !Propagate(n).Failed?
    ensures Coherent(n)
    ensures Propagate(n).Clean? ==> !n.dirty
    decreases n
  {
    forall c | c in n.subs
      ensures !Propagate(n.subs[c]).Failed? && Coherent(n.subs[c]) && (Propagate(n.subs[c]).Clean? ==> !n.subs[c].dirty)
    {
      LinkedCommits(n.subs[c]);
    }
    forall c | c in Updates(n) ensures c.key in n.root.leaves && Fits(c.kind, n.root.leaves[c.key]) {
    }
  }

  function ApplyOps(tx: Tx, ops: seq<Op>): Tx
    decreases |ops|
  {
    if ops == [] then tx else ApplyOps(Apply(tx, ops[0]), ops[1..])
  }

  /** The operations, each in its turn, keep the embedded child roots and open no second
      kind of tree on a field in use. */
  predicate AllKeepRoots(tx: Tx, ops: seq<Op>)
    decreases |ops|
  {
    ops == [] ||
    (&& Unambiguous(tx.main, ops[0].path)
     && KeepsRoots(tx, ops[0])
     && AllKeepRoots(Apply(tx, ops[0]), ops[1..]))
  }

  lemma {:induction false} OpsKeep(tx: Tx, ops: seq<Op>)
    requires Sound(tx.dir, tx.main) && Linked(tx.main) && AllKeepRoots(tx, ops)
    ensures var after := ApplyOps(tx, ops);
            && Sound(after.dir, after.main) && Linked(after.main)
            && (!after.main.dirty ==> !tx.main.dirty && after.main.root == tx.main.root)
    decreases |ops|
  {
    if ops != [] {
      ApplyKeeps(tx, ops[0]);
      OpsKeep(Apply(tx, ops[0]), ops[1..]);
    }
  }
}
