/** The unhashed storage beside each tree: it keeps exactly what was last written under a path
    and a key, whatever else happens to the trees, and commits and drops with them. */
module Sides {
  import opened Common
  import opened Trees
  import opened Propagation
  import opened Commits
  import opened Transactions
  import opened Versions
  import opened Nested
  import opened Books

  /** What the storage beside a tree holds under a key. */
  function SideGet(d: Dir, path: seq<Config>, key: Bytes): Option<Bytes>
    decreases |path|
  {
    if path == [] then (if key in d.noState then Some(d.noState[key]) else None)
    else if path[0] in d.kids then SideGet(d.kids[path[0]], path[1..], key)
    else None
  }

  lemma {:induction false} EmptySides(path: seq<Config>, key: Bytes)
    ensures SideGet(EMPTY_DIR, path, key) == None
  {
  }

  /** Changing one prefix leaves the storage under all others. */
  lemma GraftSides(d: Dir, c: Config, kid: Dir, path: seq<Config>, key: Bytes)
    ensures SideGet(d.(kids := d.kids[c := kid]), path, key) ==
            if path != [] && path[0] == c then SideGet(kid, path[1..], key) else SideGet(d, path, key)
  {
  }

  lemma SubSides(d: Dir, c: Config, path: seq<Config>, key: Bytes)
    requires path != [] && path[0] == c
    ensures SideGet(d, path, key) == SideGet(Sub(d, c), path[1..], key)
  {
    EmptySides(path[1..], key);
  }

  lemma {:induction false} OpenPathSides(d: Dir, n: Open, path: seq<Config>, q: seq<Config>, key: Bytes)
    ensures SideGet(OpenPath(d, n, path).dir, q, key) == SideGet(d, q, key)
    decreases |path|
  {
    if path != [] {
      var c := path[0];
      if q != [] && q[0] == c {
        SubSides(d, c, q, key);
      }
      GraftSides(d, c, Sub(d, c), q, key);
      if Child(d, n, c).Ok? {
        var below := OpenPath(Sub(d, c), Child(d, n, c).value, path[1..]);
        GraftSides(d, c, below.dir, q, key);
        if q != [] {
          OpenPathSides(Sub(d, c), Child(d, n, c).value, path[1..], q[1..], key);
        }
      }
    }
  }

  lemma {:induction false} StoreSides(d: Dir, path: seq<Config>, r: Root, q: seq<Config>, key: Bytes)
    ensures SideGet(Store(d, path, r), q, key) == SideGet(d, q, key)
    decreases |path|
  {
    if path != [] {
      var c := path[0];
      GraftSides(d, c, Store(Sub(d, c), path[1..], r), q, key);
      if q != [] && q[0] == c {
        SubSides(d, c, q, key);
        StoreSides(Sub(d, c), path[1..], r, q[1..], key);
      }
    }
  }

  lemma {:induction false} StoreNoStateSides(d: Dir, path: seq<Config>, key: Bytes, value: Bytes, q: seq<Config>, k: Bytes)
    ensures SideGet(StoreNoState(d, path, key, value), q, k) == if q == path && k == key then Some(value) else SideGet(d, q, k)
    decreases |path|
  {
    if path != [] {
      var c := path[0];
      GraftSides(d, c, StoreNoState(Sub(d, c), path[1..], key, value), q, k);
      if q != [] && q[0] == c {
        SubSides(d, c, q, k);
        StoreNoStateSides(Sub(d, c), path[1..], key, value, q[1..], k);
        assert q == path <==> q[1..] == path[1..];
      }
    }
  }

  /** A write beside a tree that opens is read back, and leaves every other key and tree; no
      other operation, and none whose path does not open, changes anything there. */
  lemma OpSides(tx: Tx, op: Op, q: seq<Config>, k: Bytes)
    ensures SideGet(Apply(tx, op).dir, q, k) ==
            if op.NoState? && OpenTree(tx.dir, tx.main, op.path).Ok? && q == op.path && k == op.key then Some(op.value)
            else SideGet(tx.dir, q, k)
  {
    hide OpenPath, OpenTree, Replace, Store, StoreNoState, SideGet;
    var o := OpenPath(tx.dir, tx.main, op.path);
    OpenPathOpens(tx.dir, tx.main, op.path);
    OpenPathSides(tx.dir, tx.main, op.path, q, k);
    if o.error.None? {
      if op.NoState? {
        StoreNoStateSides(o.dir, op.path, op.key, op.value, q, k);
      } else if !op.Get? {
        StoreSides(o.dir, op.path, Edited(At(o.tree, op.path).root, op), q, k);
      }
    }
  }

  lemma {:induction false} GrownSides(d: Dir, d': Dir, n: Open, q: seq<Config>, k: Bytes)
    requires Grown(d, d', n)
    ensures SideGet(d', q, k) == SideGet(d, q, k)
    decreases |q|
  {
    if q != [] && q[0] in d.kids && q[0] in n.subs {
      GrownSides(d.kids[q[0]], d'.kids[q[0]], n.subs[q[0]], q[1..], k);
    }
  }

  /** A commit keeps all of it, and the next transaction starts with it. */
  lemma CommitSides(db: DB, tx: Tx, version: uint32, db': DB, q: seq<Config>, k: Bytes)
    requires DbOk(db) && DbOk(db') && CommitsTo(db, tx, version, db')
    ensures SideGet(db'.dir, q, k) == SideGet(tx.dir, q, k) && SideGet(Begin(db').dir, q, k) == SideGet(tx.dir, q, k)
  {
    GrownSides(tx.dir, db'.dir, tx.main, q, k);
  }

  // ------------------------------------------------ reading beside a committed version

  /** Reads the storage beside a tree of a committed version. */
  function ViewSide(d: Dir, r: Root, path: seq<Config>, key: Bytes): Result<Bytes, Error> {
    match ViewTree(d, r, path)
    case Err(e) => Err(e)
    case Ok(_) => (match SideGet(d, path, key) case None => Err(KeyNotFound) case Some(value) => Ok(value))
  }

  /** The storage is not versioned: whatever version its tree is opened at, it holds what was
      last committed. */
  lemma SidesAreNotVersioned(d: Dir, r: Root, r': Root, path: seq<Config>, key: Bytes)
    requires ViewTree(d, r, path).Ok? && ViewTree(d, r', path).Ok?
    ensures ViewSide(d, r, path, key) == ViewSide(d, r', path, key)
  {
  }

  // ------------------------------------------------ whole lives

  type SideMap = map<(seq<Config>, Bytes), Bytes>

  /** The storage beside all trees is a map from path and key. */
  ghost predicate SidesAre(m: SideMap, d: Dir) {
    forall q: seq<Config>, k: Bytes :: SideGet(d, q, k) == if (q, k) in m then Some(m[(q, k)]) else None
  }

  datatype SideBook = SideBook(committed: SideMap, working: SideMap)

  /** What happens to the map: a write beside a tree that opens sets one entry, a commit keeps
      the current map and a drop goes back to the one that was kept. */
  function SideTurn(p: Bytes, w: World, a: Doing, b: SideBook): SideBook {
    match a
    case Write(ch) =>
      var op := OpOf(p, w.tx, ch);
      if op.NoState? && OpenTree(w.tx.dir, w.tx.main, op.path).Ok? then b.(working := b.working[(op.path, op.key) := op.value]) else b
    case Record(_) => b.(committed := b.working)
    case Drop => b.(working := b.committed)
  }

  ghost predicate SidesInStep(b: SideBook, w: World) {
    SidesAre(b.committed, w.db.dir) && SidesAre(b.working, w.tx.dir)
  }

  lemma HappensKeepsSides(p: Bytes, w: World, a: Doing, w': World, b: SideBook)
    requires SidesInStep(b, w) && Happens(p, w, a, w') && (a.Record? ==> DbOk(w'.db))
    ensures SidesInStep(SideTurn(p, w, a, b), w')
  {
    hide SideGet, OpenTree, Apply, OpOf, Grown, Propagate;
    match a
    case Write(ch) =>
      forall q: seq<Config>, k: Bytes ensures SideGet(w'.tx.dir, q, k) ==
        if (q, k) in SideTurn(p, w, a, b).working then Some(SideTurn(p, w, a, b).working[(q, k)]) else None
      {
        OpSides(w.tx, OpOf(p, w.tx, ch), q, k);
      }
    case Record(v) =>
      forall q: seq<Config>, k: Bytes ensures SideGet(w'.db.dir, q, k) == SideGet(w.tx.dir, q, k) {
        CommitSides(w.db, w.tx, v, w'.db, q, k);
      }
    case Drop =>
  }

  function SideBookOf(p: Bytes, b: SideBook, ws: seq<World>, deeds: seq<Doing>): SideBook
    requires |ws| > |deeds|
    decreases |deeds|
  {
    if deeds == [] then b
    else var k := |deeds| - 1; SideTurn(p, ws[k], deeds[k], SideBookOf(p, b, ws, deeds[..k]))
  }

  /** Through any life of a database the storage beside its trees is the map of the writes that
      were made, with what was dropped taken back. */
  lemma {:induction false} LifeKeepsSides(p: Bytes, b: Book, side: SideBook, ws: seq<World>, deeds: seq<Doing>)
    requires Life(p, ws, deeds) && InStep(p, b, ws[0]) && AllPossible(p, b, deeds) && SidesInStep(side, ws[0])
    ensures SidesInStep(SideBookOf(p, side, ws, deeds), ws[|deeds|])
    decreases |deeds|
  {
    hide InStep, Happens, Possible, SidesInStep, SideTurn, BookOf;
    if deeds != [] {
      var k := |deeds| - 1;
      LifePrefix(p, b, ws, deeds);
      LifeKeepsSides(p, b, side, ws[..k + 1], deeds[..k]);
      SameSideBook(p, side, ws, deeds[..k]);
      assert Happens(p, ws[k], deeds[k], ws[k + 1]);
      LifeInStep(p, b, ws, deeds);
      InStepDb(p, BookOf(p, b, deeds), ws[k + 1]);
      HappensKeepsSides(p, ws[k], deeds[k], ws[k + 1], SideBookOf(p, side, ws, deeds[..k]));
    }
  }

  lemma InStepDb(p: Bytes, b: Book, w: World)
    requires InStep(p, b, w)
    ensures DbOk(w.db)
  {
  }

  lemma LifePrefix(p: Bytes, b: Book, ws: seq<World>, deeds: seq<Doing>)
    requires Life(p, ws, deeds) && AllPossible(p, b, deeds) && deeds != []
    ensures Life(p, ws[..|deeds|], deeds[..|deeds| - 1]) && AllPossible(p, b, deeds[..|deeds| - 1])
  {
    hide Happens, Possible, BookOf;
    var k := |deeds| - 1;
    forall i | 0 <= i < k ensures Possible(p, BookOf(p, b, deeds[..k][..i]), deeds[..k][i]) {
      assert deeds[..k][..i] == deeds[..i];
    }
  }

  lemma {:induction false} SameSideBook(p: Bytes, b: SideBook, ws: seq<World>, deeds: seq<Doing>)
    requires |ws| > |deeds|
    ensures SideBookOf(p, b, ws[..|deeds| + 1], deeds) == SideBookOf(p, b, ws, deeds)
    decreases |deeds|
  {
    hide SideTurn;
    if deeds != [] {
      var k := |deeds| - 1;
      SameSideBook(p, b, ws, deeds[..k]);
      SameSideBook(p, b, ws[..k + 2], deeds[..k]);
      assert ws[..k + 2][..k + 1] == ws[..k + 1];
    }
  }

  lemma GenesisSides(p: Bytes)
    ensures SidesInStep(SideBook(map[], map[]), Genesis(p))
  {
    hide Apply;
    forall q: seq<Config>, k: Bytes ensures SideGet(EMPTY_DB.dir, q, k) == None && SideGet(Genesis(p).tx.dir, q, k) == None {
      EmptySides(q, k);
      OpSides(Begin(EMPTY_DB), Op.Add([], p, RootLeaf(EMPTY_ROOT)), q, k);
    }
  }
}
