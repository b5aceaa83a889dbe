/** The state database and its update transactions as objects.  A handle on an open
    subtree is the path of configurations that leads to it. */
module StateDB {
  import opened Common
  import opened Trees
  import opened Propagation
  import opened Passes
  import opened Sides
  import opened Commits
  import opened Transactions
  import opened Versions

  // ------------------------------------------------ one step of opening

  /** Opening a path in two parts. */
  lemma {:induction false} OpenPathAppend(d: Dir, n: Open, p: seq<Config>, q: seq<Config>)
    ensures var o := OpenPath(d, n, p);
            && (o.error.Some? ==> OpenPath(d, n, p + q) == o)
            && (o.error.None? ==> OpenPath(o.dir, o.tree, p + q) == OpenPath(d, n, p + q))
    decreases |p|
  {
    if p != [] {
      var c := p[0];
      assert (p + q)[0] == c && (p + q)[1..] == p[1..] + q;
      if Child(d, n, c).Ok? {
        var m := Child(d, n, c).value;
        OpenPathAppend(Sub(d, c), m, p[1..], q);
        var o, below := OpenPath(d, n, p), OpenPath(Sub(d, c), m, p[1..]);
        assert Child(o.dir, o.tree, c) == Ok(below.tree) && Sub(o.dir, c) == below.dir;
        var b := OpenPath(below.dir, below.tree, p[1..] + q);
        assert o.dir.kids[c := b.dir] == d.kids[c := b.dir] && o.tree.subs[c := b.tree] == n.subs[c := b.tree];
      }
    }
  }

  /** Opening the next tree of a path whose first trees are open. */
  lemma OpenNext(d: Dir, n: Open, path: seq<Config>, i: nat)
    requires Sound(d, n) && Unambiguous(n, path) && i < |path|
    requires OpenPath(d, n, path[..i]).error.None?
    ensures var o, next := OpenPath(d, n, path[..i]), OpenPath(d, n, path[..i + 1]);
            && next == OpenPath(o.dir, o.tree, path[..i] + [path[i]])
            && Sound(next.dir, next.tree)
            && (next.error.Some? ==> next == OpenPath(d, n, path))
            && (next.error.None? ==> IsOpen(next.tree, path[..i + 1]))
  {
    OpenPathAppend(d, n, path[..i], [path[i]]);
    assert path[..i] + [path[i]] == path[..i + 1];
    UnambiguousPrefix(n, path, i + 1);
    OpenPathKeeps(d, n, path[..i + 1]);
    OpenPathAppend(d, n, path[..i + 1], path[i + 1..]);
    assert path[..i + 1] + path[i + 1..] == path;
    OpenPathOpens(d, n, path[..i + 1]);
  }

  function DirAt(d: Dir, path: seq<Config>): Dir
    decreases |path|
  {
    if path == [] then d else DirAt(Sub(d, path[0]), path[1..])
  }

  lemma {:induction false} SideOfDir(d: Dir, path: seq<Config>, key: Bytes)
    ensures var side := DirAt(d, path).noState;
            SideGet(d, path, key) == if key in side then Some(side[key]) else None
    decreases |path|
  {
    if path != [] {
      SubSides(d, path[0], path, key);
      SideOfDir(Sub(d, path[0]), path[1..], key);
    }
  }

  /** The database with the prefix of a path created. */
  function Create(d: Dir, path: seq<Config>): Dir
    decreases |path|
  {
    if path == [] then d else d.(kids := d.kids[path[0] := Create(Sub(d, path[0]), path[1..])])
  }

  /** The tree with one more open subtree. */
  function Attach(n: Open, path: seq<Config>, c: Config, m: Open): Open
    requires IsOpen(n, path)
    decreases |path|
  {
    if path == [] then n.(subs := n.subs[c := m])
    else n.(subs := n.subs[path[0] := Attach(n.subs[path[0]], path[1..], c, m)])
  }

  lemma {:induction false} OpenStep(d: Dir, n: Open, at: seq<Config>, c: Config)
    requires Backed(d, n) && IsOpen(n, at)
    ensures var o := OpenPath(d, n, at + [c]);
            match Child(DirAt(d, at), At(n, at), c)
            case Err(e) => o == Opened(if e.RootNotStored? then Create(d, at + [c]) else d, n, Some(e))
            case Ok(m) => o == Opened(Create(d, at + [c]), Attach(n, at, c, m), None)
    decreases |at|
  {
    if at == [] {
      assert ([] + [c])[1..] == [];
    } else {
      var k := at[0];
      assert (at + [c])[0] == k && (at + [c])[1..] == at[1..] + [c];
      OpenStep(d.kids[k], n.subs[k], at[1..], c);
      assert d.kids[k := d.kids[k]] == d.kids && n.subs[k := n.subs[k]] == n.subs;
    }
  }

  class StateDB {
    var created: bool
    var dir: Dir
    var versions: map<uint32, Root>
    var current: uint32

    constructor ()
      ensures Value() == DB(false, EMPTY_DIR, map[], 0) && DbOk(Value())
    {
      created, dir, versions, current := false, EMPTY_DIR, map[], 0;
    }

    ghost function Value(): DB
      reads this
    {
      DB(created, dir, versions, current)
    }

    /** Opens the main tree for reading at a root, by default that of the last version. */
    method TreeView(root: Option<Root>) returns (r: Result<Root, Error>)
      requires DbOk(Value())
      ensures !created ==> r == Err(EmptyTree)
      ensures created && root.None? ==> r == VersionRoot(Value(), current)
      ensures created && root.Some? ==> r == if Stored(dir, root.value) then Ok(root.value) else Err(RootNotStored)
    {
      var at := root.GetOr(if current in versions then versions[current] else EMPTY_ROOT);
      if !created {
        return Err(EmptyTree);
      }
      if !Stored(dir, at) {
        return Err(RootNotStored);
      }
      return Ok(at);
    }

    method BeginTx() returns (tx: TreeTx)
      requires DbOk(Value())
      ensures fresh(tx) && tx.sdb == this && tx.base == Value()
      ensures tx.Value() == Begin(Value()) && tx.Valid()
    {
      tx := new TreeTx(this, if current in versions then versions[current] else EMPTY_ROOT);
    }
  }

  class TreeTx {
    const sdb: StateDB
    ghost const base: DB
    var dir: Dir
    var main: Open

    constructor (sdb: StateDB, root: Root)
      requires DbOk(sdb.Value()) && VersionRoot(sdb.Value(), sdb.current) == Ok(root)
      ensures this.sdb == sdb && base == sdb.Value()
      ensures Value() == Begin(base) && Valid()
    {
      this.sdb, base := sdb, sdb.Value();
      dir, main := sdb.dir, Open(root, false, map[]);
      GrowsReflexive(sdb.dir);
    }

    ghost function Value(): Tx
      reads this
    {
      Tx(dir, main)
    }

    ghost predicate Valid()
      reads this
    {
      && DbOk(base)
      && Sound(dir, main)
      && Grows(base.dir, dir)
      && (!main.dirty ==> Ok(main.root) == VersionRoot(base, base.current))
    }

    /** Opens one subtree of an open tree, unless it is open already. */
    method SubTree(at: seq<Config>, c: Config) returns (error: Option<Error>)
      requires Backed(dir, main) && IsOpen(main, at)
      modifies this
      ensures Opened(dir, main, error) == OpenPath(old(dir), old(main), at + [c])
    {
      OpenStep(dir, main, at, c);
      var parent := At(main, at);
      if c in parent.subs {
        AttachSame(dir, main, at, c);
        return None;
      }
      var root := ChildRoot(parent.root, c);
      if root.Err? {
        return Some(root.error);
      }
      var store := Sub(DirAt(dir, at), c);
      dir := Create(dir, at + [c]);
      if !Stored(store, root.value) {
        return Some(RootNotStored);
      }
      main := Attach(main, at, c, Open(root.value, false, map[]));
      return None;
    }

    /** Opens every tree along a path, from the main tree down. */
    method DeepSubTree(path: seq<Config>) returns (error: Option<Error>)
      requires Sound(dir, main) && Unambiguous(main, path)
      modifies this
      ensures Opened(dir, main, error) == OpenPath(old(dir), old(main), path)
      ensures Sound(dir, main)
      ensures error.None? ==> IsOpen(main, path)
    {
      ghost var d, n := dir, main;
      for i := 0 to |path|
        invariant Opened(dir, main, None) == OpenPath(d, n, path[..i])
        invariant Sound(dir, main) && IsOpen(main, path[..i])
      {
        OpenNext(d, n, path, i);
        error := SubTree(path[..i], path[i]);
        if error.Some? {
          return;
        }
      }
      assert path[..|path|] == path;
      error := None;
    }

    /** Adds a leaf to an open tree.  The tree counts as written even if the key is taken. */
    method Add(at: seq<Config>, key: Bytes, leaf: Leaf) returns (error: Option<Error>)
      requires Sound(dir, main) && IsOpen(main, at)
      modifies this
      ensures error == if key in At(old(main), at).root.leaves then Some(KeyExists) else None
      ensures var r := At(old(main), at).root;
              Value() == Written(Opened(old(dir), old(main), None), at, if error.Some? then r else Root(r.leaves[key := leaf]))
    {
      var r := At(main, at).root;
      if key in r.leaves {
        StoreSame(dir, main, at);
        main := Replace(main, at, r);
        return Some(KeyExists);
      }
      r := Root(r.leaves[key := leaf]);
      dir, main := Store(dir, at, r), Replace(main, at, r);
      return None;
    }

    /** Adds or overwrites a leaf of an open tree. */
    method Set(at: seq<Config>, key: Bytes, leaf: Leaf)
      requires IsOpen(main, at)
      modifies this
      ensures Value() == Written(Opened(old(dir), old(main), None), at, Root(At(old(main), at).root.leaves[key := leaf]))
    {
      var r := Root(At(main, at).root.leaves[key := leaf]);
      dir, main := Store(dir, at, r), Replace(main, at, r);
    }

    method DeepGet(key: Bytes, path: seq<Config>) returns (r: Result<Leaf, Error>)
      requires Valid() && Unambiguous(main, path)
      modifies this
      ensures Value() == Apply(old(Value()), Get(path, key)) && Valid()
      ensures r == OpenGet(old(dir), old(main), path, key)
      ensures forall q: seq<Config> :: Seen(OpenTree(dir, main, q)) == Seen(OpenTree(old(dir), old(main), q))
    {
      ghost var before := Value();
      OpenPathOpens(dir, main, path);
      ApplyValid(base, before, Get(path, key));
      forall q: seq<Config> ensures
        var o := OpenPath(before.dir, before.main, path);
        Seen(OpenTree(o.dir, o.tree, q)) == Seen(OpenTree(before.dir, before.main, q))
      {
        OpeningIsInvisible(before.dir, before.main, path, q);
      }
      var error := DeepSubTree(path);
      if error.Some? {
        return Err(error.value);
      }
      return Lookup(At(main, path).root, key);
    }

    method DeepAdd(key: Bytes, leaf: Leaf, path: seq<Config>) returns (error: Option<Error>)
      requires Valid() && Unambiguous(main, path)
      modifies this
      ensures Value() == Apply(old(Value()), Op.Add(path, key, leaf)) && Valid()
      ensures error.None? <==> OpenGet(old(dir), old(main), path, key) == Err(KeyNotFound) && OpenTree(old(dir), old(main), path).Ok?
    {
      OpenPathOpens(dir, main, path);
      ApplyValid(base, Value(), Op.Add(path, key, leaf));
      error := DeepSubTree(path);
      if error.None? {
        error := Add(path, key, leaf);
      }
    }

    method DeepSet(key: Bytes, leaf: Leaf, path: seq<Config>) returns (error: Option<Error>)
      requires Valid() && Unambiguous(main, path)
      modifies this
      ensures Value() == Apply(old(Value()), Op.Set(path, key, leaf)) && Valid()
      ensures error.None? <==> OpenTree(old(dir), old(main), path).Ok?
    {
      OpenPathOpens(dir, main, path);
      ApplyValid(base, Value(), Op.Set(path, key, leaf));
      error := DeepSubTree(path);
      if error.None? {
        Set(path, key, leaf);
      }
    }

    /** Writes to the side storage of a nested tree, which no root covers. */
    method DeepSetNoState(key: Bytes, value: Bytes, path: seq<Config>) returns (error: Option<Error>)
      requires Valid() && Unambiguous(main, path)
      modifies this
      ensures Value() == Apply(old(Value()), NoState(path, key, value)) && Valid()
      ensures error.None? <==> OpenTree(old(dir), old(main), path).Ok?
      ensures error.None? ==> SideGet(dir, path, key) == Some(value)
    {
      OpSides(Value(), NoState(path, key, value), path, key);
      OpenPathOpens(dir, main, path);
      ApplyValid(base, Value(), NoState(path, key, value));
      error := DeepSubTree(path);
      if error.None? {
        dir := StoreNoState(dir, path, key, value);
      }
    }

    /** Reads from the side storage of a nested tree, which opens it. */
    method DeepGetNoState(key: Bytes, path: seq<Config>) returns (r: Result<Bytes, Error>)
      requires Valid() && Unambiguous(main, path)
      modifies this
      ensures Value() == Apply(old(Value()), Get(path, key)) && Valid()
      ensures r.Ok? <==> OpenTree(old(dir), old(main), path).Ok? && SideGet(old(dir), path, key).Some?
      ensures r.Ok? ==> SideGet(old(dir), path, key) == Some(r.value)
    {
      OpSides(Value(), Get(path, key), path, key);
      OpenPathOpens(dir, main, path);
      ApplyValid(base, Value(), Get(path, key));
      var error := DeepSubTree(path);
      if error.Some? {
        return Err(error.value);
      }
      var side := DirAt(dir, path).noState;
      SideOfDir(dir, path, key);
      if key !in side {
        return Err(KeyNotFound);
      }
      return Ok(side[key]);
    }

    /** Propagates the roots, records the version and makes the writes of the transaction
        the contents of the database.  On failure the database is unchanged. */
    method Commit(version: uint32) returns (ok: bool)
      requires Valid() && sdb.Value() == base
      modifies this, sdb
      ensures ok <==> !Propagate(old(main)).Failed?
      ensures !ok ==> sdb.Value() == base
      ensures ok ==> CommitsTo(base, old(Value()), version, sdb.Value()) && DbOk(sdb.Value())
    {
      ghost var before := Value();
      SeparateAgrees(main);
      var plan, dir' := PropagateRoot(main, dir);
      if plan.Failed? {
        return false;
      }
      main := main.(subs := map[]);
      var root :=
        if plan.Changed? then plan.root
        else if sdb.current in sdb.versions then sdb.versions[sdb.current]
        else EMPTY_ROOT;
      dir := dir';
      sdb.dir, sdb.created := dir', true;
      sdb.versions, sdb.current := sdb.versions[version := root], version;
      CommitOk(base, before, version, sdb.Value());
      return true;
    }
  }

  lemma {:induction false} StoreSame(d: Dir, n: Open, path: seq<Config>)
    requires Backed(d, n) && IsOpen(n, path) && At(n, path).root != EMPTY_ROOT
    ensures Store(d, path, At(n, path).root) == d
    decreases |path|
  {
    if path == [] {
      assert d.roots + {n.root} == d.roots;
    } else {
      StoreSame(d.kids[path[0]], n.subs[path[0]], path[1..]);
      assert d.kids[path[0] := d.kids[path[0]]] == d.kids;
    }
  }

  /** Every operation keeps the transaction object valid. */
  lemma ApplyValid(base: DB, tx: Tx, op: Op)
    requires Sound(tx.dir, tx.main) && Grows(base.dir, tx.dir) && Unambiguous(tx.main, op.path)
    ensures var after := Apply(tx, op);
            && Sound(after.dir, after.main) && Grows(base.dir, after.dir)
            && (!after.main.dirty ==> !tx.main.dirty && after.main.root == tx.main.root)
  {
    ApplyKeeps(tx, op);
    ApplyGrows(tx, op);
    GrowsTransitive(base.dir, tx.dir, Apply(tx, op).dir);
  }

  lemma {:induction false} AttachSame(d: Dir, n: Open, at: seq<Config>, c: Config)
    requires Backed(d, n) && IsOpen(n, at) && c in At(n, at).subs
    ensures Attach(n, at, c, At(n, at).subs[c]) == n
    ensures Create(d, at + [c]) == d
    decreases |at|
  {
    if at == [] {
      assert ([] + [c])[1..] == [];
      assert n.subs[c := n.subs[c]] == n.subs && d.kids[c := d.kids[c]] == d.kids;
    } else {
      var k := at[0];
      assert (at + [c])[1..] == at[1..] + [c];
      AttachSame(d.kids[k], n.subs[k], at[1..], c);
      assert d.kids[k := d.kids[k]] == d.kids && n.subs[k := n.subs[k]] == n.subs;
    }
  }

  lemma {:induction false} UnambiguousPrefix(n: Open, path: seq<Config>, i: nat)
    requires Unambiguous(n, path) && i <= |path|
    ensures Unambiguous(n, path[..i])
    decreases i
  {
    if i > 0 && path[0] in n.subs {
      assert path[..i][1..] == path[1..][..i - 1];
      UnambiguousPrefix(n.subs[path[0]], path[1..], i - 1);
    }
  }
}
