/** The versioned database: what a commit records, and that committed versions stay. */
module Versions {
  import opened Common
  import opened Trees
  import opened Propagation
  import opened Commits
  import opened Transactions

  /** A state database: whether its main tree exists, its nodes, the main root of each
      version and the number of the last one. */
  datatype DB = DB(created: bool, dir: Dir, versions: map<uint32, Root>, current: uint32)

  /** The root of a version.  Version 0 exists from the start and is empty. */
  function VersionRoot(db: DB, v: uint32): Result<Root, Error> {
    if v in db.versions then Ok(db.versions[v])
    else if v == 0 then Ok(EMPTY_ROOT)
    else Err(KeyNotFound)
  }

  predicate DbOk(db: DB) {
    && VersionRoot(db, db.current).Ok?
    && forall v :: v in db.versions ==> Stored(db.dir, db.versions[v])
  }

  /** A transaction starts from the main tree of the last version. */
  function Begin(db: DB): Tx
    requires DbOk(db)
  {
    Tx(db.dir, Open(VersionRoot(db, db.current).value, false, map[]))
  }

  /** What a successful commit does: it records, as the new version, the propagated main
      root, or the root of the last version when nothing changed. */
  ghost predicate CommitsTo(db: DB, tx: Tx, version: uint32, db': DB)
    requires DbOk(db)
  {
    var plan := Propagate(tx.main);
    var root := if plan.Changed? then plan.root else VersionRoot(db, db.current).value;
    && !plan.Failed?
    && Grown(tx.dir, db'.dir, tx.main)
    && db' == DB(true, db'.dir, db.versions[version := root], version)
  }

  // ------------------------------------------------ reading a committed version

  /** Whatever is done in a transaction that keeps the embedded child roots, commit
      succeeds and the new version reads as the transaction did. */
  lemma NewVersionReads(db: DB, ops: seq<Op>, version: uint32, db': DB, path: seq<Config>, key: Bytes)
    requires DbOk(db) && AllKeepRoots(Begin(db), ops)
    ensures var tx := ApplyOps(Begin(db), ops);
            && !Propagate(tx.main).Failed?
            && (CommitsTo(db, tx, version, db') && Created(db'.dir, path) && Unambiguous(tx.main, path) ==>
                  var before := OpenGet(tx.dir, tx.main, path, key);
                  var after := ViewGet(db'.dir, VersionRoot(db', version).value, path, key);
                  if before.Ok? then after.Ok? && SameData(before.value, after.value) else after == before)
  {
    var tx := ApplyOps(Begin(db), ops);
    OpsKeep(Begin(db), ops);
    LinkedCommits(tx.main);
    if CommitsTo(db, tx, version, db') && Created(db'.dir, path) && Unambiguous(tx.main, path) {
      assert VersionRoot(db', version).value == Final(tx.main);
      CommitPreservesLeaves(tx.dir, db'.dir, tx.main, path, key);
    }
  }

  /** A tree that was not open reads as itself. */
  lemma {:induction false} UnopenedIsFinal(d: Dir, r: Root, path: seq<Config>)
    ensures var t := OpenTree(d, Open(r, false, map[]), path);
            t.Ok? ==> t.value == Open(t.value.root, false, map[]) && Final(t.value) == t.value.root
    decreases |path|
  {
    if path == [] {
      assert Updates(Open(r, false, map[])) == map[];
    } else if Child(d, Open(r, false, map[]), path[0]).Ok? {
      UnopenedIsFinal(Sub(d, path[0]), Child(d, Open(r, false, map[]), path[0]).value.root, path[1..]);
    }
  }

  /** The transaction after a commit reads, at every path and errors included, what the
      committed one read just before. */
  lemma {:induction false} ReopenReads(d: Dir, d': Dir, n: Open, path: seq<Config>)
    requires !Propagate(n).Failed? && Grown(d, d', n) && Backed(d, n) && Coherent(n) && Unambiguous(n, path)
    ensures Seen(OpenTree(d', Open(Final(n), false, map[]), path)) == FinalOf(OpenTree(d, n, path))
    decreases |path|
  {
    if path != [] {
      var c := path[0];
      FinalChild(n, c);
      if c in n.subs {
        ReopenReads(d.kids[c], d'.kids[c], n.subs[c], path[1..]);
      } else {
        assert Sub(d', c) == Sub(d, c);
        assert Child(d', Open(Final(n), false, map[]), c) == Child(d, n, c);
        if Child(d, n, c).Ok? {
          UnopenedIsFinal(Sub(d, c), Child(d, n, c).value.root, path[1..]);
        }
      }
    }
    hide RewriteLeaves, HaveLeaves, Separate;
  }

  /** No tree that is open at any depth was written to. */
  predicate Untouched(n: Open)
    decreases n
  {
    !n.dirty && forall c :: c in n.subs ==> Untouched(n.subs[c])
  }

  lemma {:induction false} UntouchedIsClean(n: Open)
    ensures Untouched(n) <==> Propagate(n).Clean?
    decreases n
  {
    forall c | c in n.subs ensures Untouched(n.subs[c]) <==> Propagate(n.subs[c]).Clean? {
      UntouchedIsClean(n.subs[c]);
    }
    assert Updates(n) == map[] <==> forall c :: c in n.subs ==> !Propagate(n.subs[c]).Changed? by {
      forall c | c in n.subs && Propagate(n.subs[c]).Changed? ensures c in Updates(n) {
      }
    }
  }

  predicate Writes(op: Op) {
    op.Add? || op.Set?
  }

  lemma {:induction false} OpenPathUntouched(d: Dir, n: Open, path: seq<Config>)
    requires Untouched(n)
    ensures Untouched(OpenPath(d, n, path).tree)
    decreases |path|
  {
    if path != [] && Child(d, n, path[0]).Ok? {
      OpenPathUntouched(Sub(d, path[0]), Child(d, n, path[0]).value, path[1..]);
    }
  }

  lemma {:induction false} NoWritesUntouched(tx: Tx, ops: seq<Op>)
    requires Untouched(tx.main) && forall i :: 0 <= i < |ops| ==> !Writes(ops[i])
    ensures Untouched(ApplyOps(tx, ops).main)
    decreases |ops|
  {
    if ops != [] {
      OpenPathUntouched(tx.dir, tx.main, ops[0].path);
      NoWritesUntouched(Apply(tx, ops[0]), ops[1..]);
    }
  }

  /** A commit after reads and writes to the unhashed storage only, at any depth, records
      the root of the last version. */
  lemma IdleCommitKeepsRoot(db: DB, ops: seq<Op>, version: uint32, db': DB)
    requires DbOk(db) && forall i :: 0 <= i < |ops| ==> !Writes(ops[i])
    requires CommitsTo(db, ApplyOps(Begin(db), ops), version, db')
    ensures VersionRoot(db', version) == VersionRoot(db, db.current)
  {
    NoWritesUntouched(Begin(db), ops);
    UntouchedIsClean(ApplyOps(Begin(db), ops).main);
  }

  // ------------------------------------------------ earlier versions

  /** Everything stored stays stored, at every depth. */
  predicate Grows(d: Dir, d': Dir)
    decreases d
  {
    && d.roots <= d'.roots
    && forall c :: c in d.kids ==> c in d'.kids && Grows(d.kids[c], d'.kids[c])
  }

  lemma GrowsReflexive(d: Dir)
    ensures Grows(d, d)
    decreases d
  {
    forall c | c in d.kids ensures Grows(d.kids[c], d.kids[c]) {
      GrowsReflexive(d.kids[c]);
    }
  }

  lemma {:induction false} GrowsTransitive(a: Dir, b: Dir, c: Dir)
    requires Grows(a, b) && Grows(b, c)
    ensures Grows(a, c)
    decreases a
  {
    forall k | k in a.kids ensures k in c.kids && Grows(a.kids[k], c.kids[k]) {
      GrowsTransitive(a.kids[k], b.kids[k], c.kids[k]);
    }
  }

  /** Changing one prefix only by growth. */
  lemma GraftGrows(d: Dir, c: Config, kid: Dir)
    requires Grows(Sub(d, c), kid)
    ensures Grows(d, d.(kids := d.kids[c := kid]))
  {
    forall k | k in d.kids && k != c ensures Grows(d.kids[k], d.kids[k]) {
      GrowsReflexive(d.kids[k]);
    }
  }

  lemma {:induction false} OpenPathGrows(d: Dir, n: Open, path: seq<Config>)
    ensures Grows(d, OpenPath(d, n, path).dir)
    decreases |path|
  {
    GrowsReflexive(d);
    if path != [] {
      var c := path[0];
      GrowsReflexive(Sub(d, c));
      GraftGrows(d, c, Sub(d, c));
      if Child(d, n, c).Ok? {
        OpenPathGrows(Sub(d, c), Child(d, n, c).value, path[1..]);
        GraftGrows(d, c, OpenPath(Sub(d, c), Child(d, n, c).value, path[1..]).dir);
      }
    }
  }

  lemma {:induction false} StoreGrows(d: Dir, path: seq<Config>, r: Root)
    ensures Grows(d, Store(d, path, r))
    decreases |path|
  {
    GrowsReflexive(d);
    if path != [] {
      StoreGrows(Sub(d, path[0]), path[1..], r);
      GraftGrows(d, path[0], Store(Sub(d, path[0]), path[1..], r));
    }
  }

  lemma {:induction false} StoreNoStateGrows(d: Dir, path: seq<Config>, key: Bytes, value: Bytes)
    ensures Grows(d, StoreNoState(d, path, key, value))
    decreases |path|
  {
    GrowsReflexive(d);
    if path != [] {
      StoreNoStateGrows(Sub(d, path[0]), path[1..], key, value);
      GraftGrows(d, path[0], StoreNoState(Sub(d, path[0]), path[1..], key, value));
    }
  }

  lemma {:induction false} OpsGrow(tx: Tx, ops: seq<Op>)
    ensures Grows(tx.dir, ApplyOps(tx, ops).dir)
    decreases |ops|
  {
    GrowsReflexive(tx.dir);
    if ops != [] {
      var next := Apply(tx, ops[0]);
      ApplyGrows(tx, ops[0]);
      OpsGrow(next, ops[1..]);
      GrowsTransitive(tx.dir, next.dir, ApplyOps(tx, ops).dir);
    }
  }

  lemma ApplyGrows(tx: Tx, op: Op)
    ensures Grows(tx.dir, Apply(tx, op).dir)
  {
    var o := OpenPath(tx.dir, tx.main, op.path);
    OpenPathGrows(tx.dir, tx.main, op.path);
    OpenPathOpens(tx.dir, tx.main, op.path);
    if o.error.None? && !op.Get? {
      if op.NoState? {
        StoreNoStateGrows(o.dir, op.path, op.key, op.value);
      } else {
        forall r: Root ensures Grows(o.dir, Store(o.dir, op.path, r)) {
          StoreGrows(o.dir, op.path, r);
        }
      }
      GrowsTransitive(tx.dir, o.dir, Apply(tx, op).dir);
    }
  }

  lemma {:induction false} GrownGrows(d: Dir, d': Dir, n: Open)
    requires Grown(d, d', n)
    ensures Grows(d, d')
    decreases n
  {
    forall c | c in d.kids ensures Grows(d.kids[c], d'.kids[c]) {
      if c in n.subs {
        GrownGrows(d.kids[c], d'.kids[c], n.subs[c]);
      } else {
        GrowsReflexive(d.kids[c]);
      }
    }
  }

  /** The read depends on what the database does not hold yet. */
  predicate Unsettled(r: Result<Root, Error>) {
    r.Err? && (r.error.EmptyTree? || r.error.RootNotStored?)
  }

  lemma {:induction false} SettledReadsStay(d: Dir, d': Dir, r: Root, path: seq<Config>)
    requires Grows(d, d') && !Unsettled(ViewTree(d, r, path))
    ensures ViewTree(d', r, path) == ViewTree(d, r, path)
    decreases |path|
  {
    if path != [] && ChildRoot(r, path[0]).Ok? {
      SettledReadsStay(d.kids[path[0]], d'.kids[path[0]], ChildRoot(r, path[0]).value, path[1..]);
    }
  }

  /** The database in which every tree that a read asks for has been stored. */
  function Revealed(d: Dir, r: Root, path: seq<Config>): Dir
    decreases |path|
  {
    if path == [] || ChildRoot(r, path[0]).Err? then d
    else
      var c, x := path[0], ChildRoot(r, path[0]).value;
      d.(kids := d.kids[c := Revealed(Sub(d, c).(roots := Sub(d, c).roots + {x}), x, path[1..])])
  }

  lemma {:induction false} RevealedSettles(d: Dir, r: Root, path: seq<Config>)
    ensures Grows(d, Revealed(d, r, path))
    ensures !Unsettled(ViewTree(Revealed(d, r, path), r, path))
    decreases |path|
  {
    GrowsReflexive(d);
    if path != [] && ChildRoot(r, path[0]).Ok? {
      var c, x := path[0], ChildRoot(r, path[0]).value;
      var kid := Sub(d, c).(roots := Sub(d, c).roots + {x});
      RevealedSettles(kid, x, path[1..]);
      StoreGrows(Sub(d, c), [], x);
      GrowsTransitive(Sub(d, c), kid, Revealed(kid, x, path[1..]));
      GraftGrows(d, c, Revealed(kid, x, path[1..]));
    }
  }

  /** A read of a committed root survives everything the database may later gain exactly
      when it did not fail for want of a tree or a root: an empty-tree error turns into an
      answer once that tree is created, whatever version is read. */
  lemma ReadsStayIffSettled(d: Dir, r: Root, path: seq<Config>)
    ensures !Unsettled(ViewTree(d, r, path)) <==>
            forall d': Dir :: Grows(d, d') ==> ViewTree(d', r, path) == ViewTree(d, r, path)
  {
    if Unsettled(ViewTree(d, r, path)) {
      RevealedSettles(d, r, path);
    } else {
      forall d': Dir | Grows(d, d') ensures ViewTree(d', r, path) == ViewTree(d, r, path) {
        SettledReadsStay(d, d', r, path);
      }
    }
  }

  /** A transaction of a history: its operations, and the version it is committed as, or
      none if it is discarded. */
  datatype Step = Step(ops: seq<Op>, version: Option<uint32>)

  /** The states of a database between transactions. */
  ghost predicate History(dbs: seq<DB>, steps: seq<Step>) {
    && |dbs| == |steps| + 1 && DbOk(dbs[0])
    && forall i :: 0 <= i < |steps| ==> Follows(dbs[i], steps[i], dbs[i + 1])
  }

  /** The step leads from one sound state to another. */
  ghost predicate Follows(db: DB, step: Step, db': DB) {
    DbOk(db) ==>
      match step.version
      case None => db' == db
      case Some(v) => CommitsTo(db, ApplyOps(Begin(db), step.ops), v, db')
  }

  /** The version roots stay in the database, the new one included. */
  lemma CommitOk(db: DB, tx: Tx, version: uint32, db': DB)
    requires DbOk(db) && Grows(db.dir, tx.dir) && CommitsTo(db, tx, version, db')
    ensures DbOk(db')
  {
    GrownGrows(tx.dir, db'.dir, tx.main);
    GrowsTransitive(db.dir, tx.dir, db'.dir);
  }

  lemma FollowsGrows(db: DB, step: Step, db': DB, v: uint32)
    requires DbOk(db) && Follows(db, step, db')
    ensures DbOk(db') && Grows(db.dir, db'.dir)
    ensures step.version != Some(v) ==> VersionRoot(db', v) == VersionRoot(db, v)
  {
    GrowsReflexive(db.dir);
    if step.version.Some? {
      var tx := ApplyOps(Begin(db), step.ops);
      OpsGrow(Begin(db), step.ops);
      CommitOk(db, tx, step.version.value, db');
      GrownGrows(tx.dir, db'.dir, tx.main);
      GrowsTransitive(db.dir, tx.dir, db'.dir);
    }
  }

  /** Committed versions are immutable: after any later transactions, committed or
      discarded, a version that none of them rewrote has the same root, and every nested
      read at it that was settled gives the same tree. */
  lemma {:induction false} VersionsAreImmutable(dbs: seq<DB>, steps: seq<Step>, v: uint32, path: seq<Config>)
    requires History(dbs, steps)
    requires forall i :: 0 <= i < |steps| ==> steps[i].version != Some(v)
    requires VersionRoot(dbs[0], v).Ok?
    ensures var first, last := dbs[0], dbs[|dbs| - 1];
            var root := VersionRoot(first, v).value;
            && DbOk(last) && VersionRoot(last, v) == Ok(root)
            && (!Unsettled(ViewTree(first.dir, root, path)) ==> ViewTree(last.dir, root, path) == ViewTree(first.dir, root, path))
    decreases |steps|
  {
    hide ViewTree, CommitsTo, ApplyOps, Grows;
    if steps != [] {
      assert Follows(dbs[0], steps[0], dbs[1]);
      FollowsGrows(dbs[0], steps[0], dbs[1], v);
      var root := VersionRoot(dbs[0], v).value;
      if !Unsettled(ViewTree(dbs[0].dir, root, path)) {
        SettledReadsStay(dbs[0].dir, dbs[1].dir, root, path);
      }
      HistoryTail(dbs, steps);
      forall i | 0 <= i < |steps| - 1 ensures steps[1..][i].version != Some(v) {
      }
      VersionsAreImmutable(dbs[1..], steps[1..], v, path);
    }
  }

  lemma HistoryTail(dbs: seq<DB>, steps: seq<Step>)
    requires History(dbs, steps) && steps != [] && DbOk(dbs[1])
    ensures History(dbs[1..], steps[1..])
  {
    hide Follows;
    forall i | 0 <= i < |steps| - 1 ensures Follows(dbs[1..][i], steps[1..][i], dbs[1..][i + 1]) {
      assert Follows(dbs[i + 1], steps[i + 1], dbs[i + 2]);
    }
  }

  predicate CommitsAs(step: Step, v: uint32) {
    step.version == Some(v)
  }

  /** The versions of a database are zero and those that were committed, and its current one is
      the last of them. */
  lemma {:induction false} VersionsAreThoseCommitted(dbs: seq<DB>, steps: seq<Step>, v: uint32)
    requires History(dbs, steps) && dbs[0].versions == map[] && dbs[0].current == 0
    ensures var last := dbs[|steps|];
            && DbOk(last)
            && (VersionRoot(last, v).Ok? <==> v == 0 || exists i :: 0 <= i < |steps| && CommitsAs(steps[i], v))
            && (v in last.versions <==> exists i :: 0 <= i < |steps| && CommitsAs(steps[i], v))
            && (steps != [] && steps[|steps| - 1].version.Some? ==> last.current == steps[|steps| - 1].version.value)
            && (steps != [] && steps[|steps| - 1].version.None? ==> last == dbs[|steps| - 1])
    decreases |steps|
  {
    hide ApplyOps, Grown, Propagate;
    if steps != [] {
      var k := |steps| - 1;
      forall i | 0 <= i < k ensures Follows(dbs[..k + 1][i], steps[..k][i], dbs[..k + 1][i + 1]) {
        assert Follows(dbs[i], steps[i], dbs[i + 1]);
      }
      VersionsAreThoseCommitted(dbs[..k + 1], steps[..k], v);
      assert Follows(dbs[k], steps[k], dbs[k + 1]);
      FollowsGrows(dbs[k], steps[k], dbs[k + 1], v);
      assert forall i :: 0 <= i < k ==> steps[..k][i] == steps[i];
      if CommitsAs(steps[k], v) {
        assert v in dbs[k + 1].versions;
      }
    }
  }
}
