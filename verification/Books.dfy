/** The life of a state database, from the empty one through any changes, commits and drops:
    it stays in step with a book of plain nested maps, and the root of every version is a
    function of the map alone. */
module Books {
  import opened Common
  import opened Trees
  import opened Propagation
  import opened Commits
  import opened Transactions
  import opened Versions
  import opened Nested

  // ------------------------------------------------ saving

  /** No tree hangs from a leaf without roots, so a commit does not touch such leaves. */
  lemma PlainIsFinal(n: Open)
    requires Linked(n) && Plain(n.root)
    ensures Final(n) == n.root
  {
    PlainHasNoSubs(n);
    assert Updates(n) == map[];
    assert RewriteLeaves(n.root, map[]).leaves == n.root.leaves by {
      forall k | k in n.root.leaves ensures Rewritten(n.root.leaves[k], k, map[]) == n.root.leaves[k] {
        NotRewritten(n.root.leaves[k], k, map[]);
      }
    }
  }

  /** What a transaction reads after a commit. */
  ghost predicate Reopened(tx: Tx, tx': Tx) {
    && Grown(tx.dir, tx'.dir, tx.main)
    && tx'.main == Open(Final(tx.main), false, map[])
  }

  lemma ReopenedReads(tx: Tx, tx': Tx, q: seq<Config>)
    requires Fine(tx) && Reopened(tx, tx') && PathFree(q)
    ensures Reads(tx', q) == FinalOf(OpenTree(tx.dir, tx.main, q))
  {
    LinkedCommits(tx.main);
    FreeUnambiguous(tx.main, q);
    ReopenReads(tx.dir, tx'.dir, tx.main, q);
  }

  lemma ReopenedTree(tx: Tx, tx': Tx, q: seq<Config>, m: map<Bytes, Bytes>)
    requires Fine(tx) && Reopened(tx, tx') && PathFree(q) && TreeHolds(tx, q, m)
    ensures TreeHolds(tx', q, m)
  {
    hide OpenTree, Created, Sound, CensusFree, Linked, PathFree, Final, Grown;
    ReopenedReads(tx, tx', q);
    OpenTreeLinked(tx.dir, tx.main, q);
    PlainIsFinal(OpenTree(tx.dir, tx.main, q).value);
    if m != map[] {
      GrownGrows(tx.dir, tx'.dir, tx.main);
      CreatedGrows(tx.dir, tx'.dir, q);
    }
  }

  lemma {:induction false} OpenTreeFree(d: Dir, n: Open, path: seq<Config>)
    requires CensusFree(n) && OpenTree(d, n, path).Ok?
    ensures CensusFree(OpenTree(d, n, path).value)
    decreases |path|
  {
    if path != [] {
      OpenTreeFree(Sub(d, path[0]), Child(d, n, path[0]).value, path[1..]);
    }
  }

  lemma FinalHasRoots(n: Open, c: Config)
    requires Linked(n) && CensusFree(n) && !c.kind.Census?
    ensures ChildRoot(Final(n), c).Ok? <==> ChildRoot(n.root, c).Ok?
  {
    hide Propagate, Final, Separate, CensusFree, ChildRoot;
    LinkedCommits(n);
    FreeSeparate(n, c);
    FinalChild(n, c);
  }

  lemma FreeSeparate(n: Open, c: Config)
    requires CensusFree(n) && !c.kind.Census?
    ensures Separate(n.subs.Keys + {c})
  {
    assert forall a :: a in n.subs.Keys + {c} ==> !a.kind.Census?;
    NoCensusSeparate(n.subs.Keys + {c});
  }

  lemma NoCensusSeparate(cs: set<Config>)
    requires forall c :: c in cs ==> !c.kind.Census?
    ensures Separate(cs)
  {
    forall a, b | a in cs && b in cs && a.key == b.key && FieldOf(a.kind) == FieldOf(b.kind) ensures a == b {
      assert a.kind == b.kind;
    }
  }

  lemma FinalMain(p: Bytes, n: Content, m: Open)
    requires MainHolds(p, n, m.root)
    ensures MainHolds(p, n, Final(m))
  {
    hide Final;
    forall k ensures k in m.root.leaves <==> k in Final(m).leaves
      ensures k in Final(m).leaves ==> Final(m).leaves[k].RootLeaf?
    {
      FinalLeaf(m, k);
    }
  }

  lemma FinalLeaves(n: Content, m: Open)
    requires Linked(m) && CensusFree(m) && LeavesHold(n, m.root)
    ensures LeavesHold(n, Final(m))
  {
    hide Final, Linked, CensusFree;
    forall pid ensures LeafHolds(n, Final(m), pid) {
      assert LeafHolds(n, m.root, pid);
      FinalLeaf(m, pid);
      forall k: Kind | ChildKind(k) && pid in m.root.leaves
        ensures GetRoot(k, Final(m).leaves[pid]).Ok? <==> Config(k, pid) in n.trees
      {
        FinalHasRoots(m, Config(k, pid));
      }
    }
  }

  /** The transaction after a commit reads as the map did. */
  lemma ReopenedAgrees(p: Bytes, n: Content, tx: Tx, tx': Tx)
    requires Fine(tx) && Agrees(p, n, tx) && Reopened(tx, tx')
    ensures Agrees(p, n, tx')
  {
    hide Fine, OpenTree, MainHolds, TreeHolds, LeavesHold, Final, Grown, WellFormed;
    FinalMain(p, n, tx.main);
    var q := [Processes(p)];
    ReopenedReads(tx, tx', q);
    ReopenedProcesses(p, n, tx);
    forall k | k in n.singles ensures TreeHolds(tx', [Config(Main, k)], n.singles[k]) {
      ReopenedTree(tx, tx', [Config(Main, k)], n.singles[k]);
    }
    forall c | c in n.trees ensures TreeHolds(tx', [Processes(p), c], n.trees[c]) {
      KindFree(p, n, c);
      ReopenedTree(tx, tx', [Processes(p), c], n.trees[c]);
    }
  }

  lemma KindFree(p: Bytes, n: Content, c: Config)
    requires WellFormed(p, n) && c in n.trees
    ensures !c.kind.Census?
  {
  }

  lemma ReopenedProcesses(p: Bytes, n: Content, tx: Tx)
    requires Fine(tx) && ProcessesHold(p, n, tx)
    ensures LeavesHold(n, Final(ProcessTree(p, tx)))
  {
    hide OpenTree, LeavesHold, Final, Linked, CensusFree;
    OpenTreeLinked(tx.dir, tx.main, [Processes(p)]);
    OpenTreeFree(tx.dir, tx.main, [Processes(p)]);
    FinalLeaves(n, ProcessTree(p, tx));
  }

  // ------------------------------------------------ the root of a map

  function TreeRoot(n: Content, c: Config): Option<Root> {
    if c in n.trees then Some(Raws(n.trees[c])) else None
  }

  function ProcessesRoot(n: Content): Root {
    Root(map pid | pid in n.processes :: ProcessLeaf(n.processes[pid],
      TreeRoot(n, Config(Votes, pid)), TreeRoot(n, Config(CensusPoseidon, pid)), TreeRoot(n, Config(Nullifiers, pid))))
  }

  /** The main root as a function of the map alone. */
  function MainRoot(p: Bytes, n: Content): Root {
    Root(map k | k in n.singles.Keys + {p} :: RootLeaf(if k == p || k !in n.singles then ProcessesRoot(n) else Raws(n.singles[k])))
  }

  function Unopened(d: Dir, r: Root): Tx {
    Tx(d, Open(r, false, map[]))
  }

  lemma UnopenedTwo(d: Dir, r: Root, a: Config, b: Config)
    ensures Reads(Unopened(d, r), [a]).Ok? ==> ChildRoot(r, a) == Reads(Unopened(d, r), [a])
    ensures Reads(Unopened(d, r), [a, b]).Ok? ==>
              Reads(Unopened(d, r), [a]).Ok? && ChildRoot(Reads(Unopened(d, r), [a]).value, b) == Reads(Unopened(d, r), [a, b])
  {
    OpenTwo(d, Open(r, false, map[]), a, b);
    assert [a][1..] == [];
  }

  lemma UnopenedProcesses(p: Bytes, n: Content, d: Dir, r: Root)
    requires Agrees(p, n, Unopened(d, r))
    ensures Reads(Unopened(d, r), [Processes(p)]) == Ok(ProcessesRoot(n))
  {
    hide OpenTree, Created, MainHolds;
    var x := Reads(Unopened(d, r), [Processes(p)]).value;
    forall pid ensures pid in x.leaves <==> pid in ProcessesRoot(n).leaves
      ensures pid in x.leaves ==> x.leaves[pid] == ProcessesRoot(n).leaves[pid]
    {
      assert LeafHolds(n, x, pid);
      if pid in x.leaves {
        UnopenedLeafRoot(p, n, d, r, Config(Votes, pid));
        UnopenedLeafRoot(p, n, d, r, Config(CensusPoseidon, pid));
        UnopenedLeafRoot(p, n, d, r, Config(Nullifiers, pid));
      }
    }
    assert x.leaves == ProcessesRoot(n).leaves;
  }

  lemma UnopenedLeafRoot(p: Bytes, n: Content, d: Dir, r: Root, c: Config)
    requires Agrees(p, n, Unopened(d, r)) && ChildKind(c.kind) && c.key in n.processes
    ensures var x := Reads(Unopened(d, r), [Processes(p)]).value;
            c.key in x.leaves && GetRoot(c.kind, x.leaves[c.key]) == if c in n.trees then Ok(Raws(n.trees[c])) else Err(ChildRootUnknown)
  {
    hide OpenTree, Created, MainHolds;
    var x := Reads(Unopened(d, r), [Processes(p)]).value;
    assert LeafHolds(n, x, c.key);
    UnopenedTwo(d, r, Processes(p), c);
    assert c == Config(c.kind, c.key);
  }

  /** The main root of a transaction in which nothing is open is determined by the map. */
  lemma UnopenedRoot(p: Bytes, n: Content, d: Dir, r: Root)
    requires Agrees(p, n, Unopened(d, r))
    ensures r == MainRoot(p, n)
  {
    hide OpenTree, Created, ProcessesHold, LeavesHold, ProcessesRoot;
    UnopenedProcesses(p, n, d, r);
    forall k | k in r.leaves ensures k in MainRoot(p, n).leaves && r.leaves[k] == MainRoot(p, n).leaves[k] {
      UnopenedTwo(d, r, Config(Main, k), Config(Main, k));
      assert k != p ==> TreeHolds(Unopened(d, r), [Config(Main, k)], n.singles[k]);
    }
    assert r.leaves == MainRoot(p, n).leaves;
  }

  /** A committed version shows a tree of the map, or that it was never opened and is empty. */
  predicate ViewHolds(d: Dir, r: Root, path: seq<Config>, m: map<Bytes, Bytes>) {
    ViewTree(d, r, path) == if Created(d, path) then Ok(Raws(m)) else Err(EmptyTree)
  }

  lemma UnopenedViews(d: Dir, r: Root, path: seq<Config>, m: map<Bytes, Bytes>)
    requires TreeHolds(Unopened(d, r), path, m)
    ensures ViewHolds(d, r, path, m) && (!Created(d, path) ==> m == map[])
  {
    hide OpenTree, ViewTree, Created;
    if Created(d, path) {
      UnopenedReads(d, r, path);
      UnopenedIsFinal(d, r, path);
    } else {
      UncreatedUnopened(d, r, path);
    }
  }

  // ------------------------------------------------ whole lives of a database

  /** A database with its open transaction, and what can be done with it: a change, a commit
      as a version, or dropping what was not committed. */
  datatype World = World(db: DB, tx: Tx)

  datatype Doing = Write(ch: Change) | Record(version: uint32) | Drop

  ghost predicate Happens(p: Bytes, w: World, a: Doing, w': World) {
    match a
    case Write(ch) => w' == World(w.db, ChangeTx(p, w.tx, ch))
    case Record(v) => DbOk(w.db) && CommitsTo(w.db, w.tx, v, w'.db) && w'.tx == Unopened(w'.db.dir, w'.db.versions[v])
    case Drop => DbOk(w.db) && w' == World(w.db, Begin(w.db))
  }

  /** The same with maps: the content of every version, and the current one. */
  datatype Book = Book(versions: map<uint32, Content>, current: uint32, working: Content)

  function Turn(p: Bytes, b: Book, a: Doing): Book {
    match a
    case Write(ch) => b.(working := ChangeMap(p, b.working, ch))
    case Record(v) => Book(b.versions[v := b.working], v, b.working)
    case Drop => if b.current in b.versions then b.(working := b.versions[b.current]) else b
  }

  predicate Possible(p: Bytes, b: Book, a: Doing) {
    (a.Write? ==> Valid(p, a.ch)) && (a.Drop? ==> b.current in b.versions)
  }

  ghost predicate VersionsHold(p: Bytes, versions: map<uint32, Content>, db: DB) {
    forall v :: v in versions ==> WellFormed(p, versions[v]) && VersionRoot(db, v) == Ok(MainRoot(p, versions[v]))
  }

  ghost predicate DbHolds(p: Bytes, versions: map<uint32, Content>, db: DB) {
    && DbOk(db) && VersionsHold(p, versions, db)
    && (db.current in versions ==> Agrees(p, versions[db.current], Begin(db)))
  }

  ghost predicate TxHolds(p: Bytes, n: Content, db: DB, tx: Tx) {
    && Grows(db.dir, tx.dir) && Fine(tx) && Agrees(p, n, tx)
    && (!tx.main.dirty ==> Ok(tx.main.root) == VersionRoot(db, db.current))
  }

  /** Database and book are in step: the open transaction reads as the current map, and every
      version has the root of its map. */
  ghost predicate InStep(p: Bytes, b: Book, w: World) {
    DbHolds(p, b.versions, w.db) && b.current == w.db.current && TxHolds(p, b.working, w.db, w.tx)
  }

  lemma UnopenedFine(d: Dir, r: Root)
    requires Stored(d, r)
    ensures Fine(Unopened(d, r))
  {
  }

  lemma WriteInStep(p: Bytes, n: Content, db: DB, tx: Tx, ch: Change)
    requires TxHolds(p, n, db, tx) && Valid(p, ch)
    ensures TxHolds(p, ChangeMap(p, n, ch), db, ChangeTx(p, tx, ch))
  {
    hide Agrees, Valid, ChangeMap, OpOf, Apply, Grows, VersionRoot, Sound, Linked, CensusFree;
    ChangeAgrees(p, n, tx, ch);
    ChangeKeepsFine(p, n, tx, ch);
    ApplyGrows(tx, OpOf(p, tx, ch));
    GrowsTransitive(db.dir, tx.dir, ChangeTx(p, tx, ch).dir);
  }

  lemma SaveReopens(p: Bytes, n: Content, db: DB, tx: Tx, v: uint32, db': DB)
    requires DbOk(db) && TxHolds(p, n, db, tx) && CommitsTo(db, tx, v, db')
    ensures DbOk(db') && db'.current == v && v in db'.versions
    ensures Reopened(tx, Unopened(db'.dir, db'.versions[v])) && Begin(db') == Unopened(db'.dir, db'.versions[v])
    ensures forall u :: u != v ==> VersionRoot(db', u) == VersionRoot(db, u)
  {
    hide Agrees, Sound, CensusFree, Linked, Grows, Grown, Propagate;
    LinkedCommits(tx.main);
    CommitOk(db, tx, v, db');
  }

  lemma SaveInStep(p: Bytes, b: Book, w: World, v: uint32, w': World)
    requires InStep(p, b, w) && Happens(p, w, Record(v), w')
    ensures InStep(p, Turn(p, b, Record(v)), w')
  {
    hide Agrees, Fine, Reopened, CommitsTo, MainRoot, VersionsHold;
    var n, b' := b.working, Turn(p, b, Record(v));
    SaveReopens(p, n, w.db, w.tx, v, w'.db);
    ReopenedAgrees(p, n, w.tx, w'.tx);
    UnopenedRoot(p, n, w'.db.dir, w'.db.versions[v]);
    UnopenedFine(w'.db.dir, w'.db.versions[v]);
    GrowsReflexive(w'.db.dir);
    AgreesIsFormed(p, n, w.tx);
    SaveVersions(p, b, w.db, v, w'.db);
  }

  lemma SaveVersions(p: Bytes, b: Book, db: DB, v: uint32, db': DB)
    requires VersionsHold(p, b.versions, db) && WellFormed(p, b.working) && VersionRoot(db', v) == Ok(MainRoot(p, b.working))
    requires forall u :: u != v ==> VersionRoot(db', u) == VersionRoot(db, u)
    ensures VersionsHold(p, b.versions[v := b.working], db')
  {
    hide VersionRoot, MainRoot, WellFormed;
  }

  lemma DropInStep(p: Bytes, b: Book, w: World)
    requires InStep(p, b, w) && b.current in b.versions
    ensures InStep(p, Turn(p, b, Drop), World(w.db, Begin(w.db)))
  {
    hide Agrees, MainRoot, Fine;
    UnopenedFine(w.db.dir, VersionRoot(w.db, w.db.current).value);
    GrowsReflexive(w.db.dir);
  }

  lemma HappensInStep(p: Bytes, b: Book, w: World, a: Doing, w': World)
    requires InStep(p, b, w) && Happens(p, w, a, w') && Possible(p, b, a)
    ensures InStep(p, Turn(p, b, a), w')
  {
    hide Agrees, Fine, CommitsTo, MainRoot, ChangeMap, ChangeTx, Valid, DbOk, VersionsHold;
    match a
    case Write(ch) => WriteInStep(p, b.working, w.db, w.tx, ch);
    case Record(v) => SaveInStep(p, b, w, v, w');
    case Drop => DropInStep(p, b, w);
  }

  function BookOf(p: Bytes, b: Book, deeds: seq<Doing>): Book
    decreases |deeds|
  {
    if deeds == [] then b else Turn(p, BookOf(p, b, deeds[..|deeds| - 1]), deeds[|deeds| - 1])
  }

  ghost predicate Life(p: Bytes, ws: seq<World>, deeds: seq<Doing>) {
    |ws| == |deeds| + 1 && forall i :: 0 <= i < |deeds| ==> Happens(p, ws[i], deeds[i], ws[i + 1])
  }

  predicate AllPossible(p: Bytes, b: Book, deeds: seq<Doing>) {
    forall i :: 0 <= i < |deeds| ==> Possible(p, BookOf(p, b, deeds[..i]), deeds[i])
  }

  /** Through any changes, commits and drops, database and book stay in step. */
  lemma {:induction false} LifeInStep(p: Bytes, b: Book, ws: seq<World>, deeds: seq<Doing>)
    requires Life(p, ws, deeds) && InStep(p, b, ws[0]) && AllPossible(p, b, deeds)
    ensures InStep(p, BookOf(p, b, deeds), ws[|deeds|])
    decreases |deeds|
  {
    hide InStep, Happens, Possible, Turn;
    if deeds != [] {
      var k := |deeds| - 1;
      forall i | 0 <= i < k ensures Possible(p, BookOf(p, b, deeds[..k][..i]), deeds[..k][i]) {
        assert deeds[..k][..i] == deeds[..i];
      }
      LifeInStep(p, b, ws[..k + 1], deeds[..k]);
      assert Happens(p, ws[k], deeds[k], ws[k + 1]) && Possible(p, BookOf(p, b, deeds[..k]), deeds[k]);
      HappensInStep(p, BookOf(p, b, deeds[..k]), ws[k], deeds[k], ws[k + 1]);
    }
  }

  // ------------------------------------------------ from the empty database on

  const NOTHING: Content := Content(map[], map[], map[])

  const EMPTY_DB: DB := DB(false, EMPTY_DIR, map[], 0)

  /** A new database, in whose first transaction the process tree has been added. */
  function Genesis(p: Bytes): World {
    World(EMPTY_DB, Apply(Begin(EMPTY_DB), Op.Add([], p, RootLeaf(EMPTY_ROOT))))
  }

  lemma GenesisInStep(p: Bytes)
    ensures InStep(p, Book(map[], 0, NOTHING), Genesis(p))
  {
    var tx, op := Begin(EMPTY_DB), Op.Add([], p, RootLeaf(EMPTY_ROOT));
    var tx' := Apply(tx, op);
    assert tx == Unopened(EMPTY_DIR, EMPTY_ROOT) && tx'.main == Open(Root(map[p := RootLeaf(EMPTY_ROOT)]), true, map[]);
    UnopenedFine(EMPTY_DIR, EMPTY_ROOT);
    OpKeepsFine(tx, op);
    ApplyGrows(tx, op);
    NewSingleHolds(tx, op);
    assert Raws(map[]) == EMPTY_ROOT;
  }

  /** Any life of a database from the start: whatever is open and in whatever order it was
      written, commit never fails, every version has the root of its map, and the last
      version shows exactly the trees of its map. */
  lemma DatabaseIsNestedMap(p: Bytes, ws: seq<World>, deeds: seq<Doing>)
    requires Life(p, ws, deeds) && ws[0] == Genesis(p) && AllPossible(p, Book(map[], 0, NOTHING), deeds)
    ensures var b, w := BookOf(p, Book(map[], 0, NOTHING), deeds), ws[|deeds|];
            && Agrees(p, b.working, w.tx)
            && !Propagate(w.tx.main).Failed?
            && (forall v :: v in b.versions ==> VersionRoot(w.db, v) == Ok(MainRoot(p, b.versions[v])))
            && (b.current in b.versions ==> Shows(p, b.versions[b.current], w.db.dir, MainRoot(p, b.versions[b.current])))
  {
    hide BookOf, Agrees, MainRoot, Genesis, Propagate, AllPossible, Linked;
    var b := Book(map[], 0, NOTHING);
    GenesisInStep(p);
    LifeInStep(p, b, ws, deeds);
    var b', w := BookOf(p, b, deeds), ws[|deeds|];
    LinkedCommits(w.tx.main);
    if b'.current in b'.versions {
      UnopenedShows(p, b'.versions[b'.current], w.db.dir, MainRoot(p, b'.versions[b'.current]));
    }
  }

  /** A committed root shows a map: every tree of the map and no other. */
  ghost predicate Shows(p: Bytes, n: Content, d: Dir, r: Root) {
    && (forall k :: k in n.singles ==> ViewHolds(d, r, [Config(Main, k)], n.singles[k]))
    && (forall c :: c in n.trees ==> ViewHolds(d, r, [Processes(p), c], n.trees[c]))
    && (forall c :: c in n.trees && n.trees[c] != map[] ==> Created(d, [Processes(p), c]))
    && (forall c: Config :: ChildKind(c.kind) && c !in n.trees ==> ViewTree(d, r, [Processes(p), c]).Err?)
  }

  lemma UnopenedShows(p: Bytes, n: Content, d: Dir, r: Root)
    requires Agrees(p, n, Unopened(d, r)) && Stored(d, r)
    ensures Shows(p, n, d, r)
  {
    hide ViewHolds, TreeHolds, Created, OpenTree, MainHolds, ProcessesHold, WellFormed;
    forall k | k in n.singles ensures ViewHolds(d, r, [Config(Main, k)], n.singles[k]) {
      UnopenedViews(d, r, [Config(Main, k)], n.singles[k]);
    }
    forall c | c in n.trees ensures ViewHolds(d, r, [Processes(p), c], n.trees[c]) && (n.trees[c] != map[] ==> Created(d, [Processes(p), c])) {
      UnopenedViews(d, r, [Processes(p), c], n.trees[c]);
    }
    forall c: Config | ChildKind(c.kind) && c !in n.trees ensures ViewTree(d, r, [Processes(p), c]).Err? {
      UnopenedAbsent(p, n, d, r, c);
    }
  }

  lemma UnopenedAbsent(p: Bytes, n: Content, d: Dir, r: Root, c: Config)
    requires ProcessesHold(p, n, Unopened(d, r)) && Stored(d, r) && ChildKind(c.kind) && c !in n.trees
    ensures ViewTree(d, r, [Processes(p), c]).Err?
  {
    hide ProcessesHold, Created, OpenTree;
    UnopenedFine(d, r);
    AbsentTree(p, n, Unopened(d, r), c);
    var q := [Processes(p), c];
    if Created(d, q) {
      UnopenedReads(d, r, q);
    } else {
      UncreatedUnopened(d, r, q);
    }
  }

  lemma AgreesIsFormed(p: Bytes, n: Content, tx: Tx)
    requires Agrees(p, n, tx)
    ensures WellFormed(p, n)
  {
  }

  // ------------------------------------------------ equal roots, equal maps

  lemma RawsInjective(m: map<Bytes, Bytes>, m': map<Bytes, Bytes>)
    requires Raws(m) == Raws(m')
    ensures m == m'
  {
    assert m.Keys == Raws(m).leaves.Keys && m'.Keys == Raws(m').leaves.Keys;
    forall k | k in m ensures m[k] == m'[k] {
      assert Raws(m).leaves[k] == Raw(m[k]) && Raws(m').leaves[k] == Raw(m'[k]);
    }
  }

  lemma TreeRootInjective(n: Content, n': Content, c: Config)
    requires TreeRoot(n, c) == TreeRoot(n', c)
    ensures c in n.trees <==> c in n'.trees
    ensures c in n.trees ==> n.trees[c] == n'.trees[c]
  {
    hide Raws;
    if c in n.trees {
      RawsInjective(n.trees[c], n'.trees[c]);
    }
  }

  lemma ProcessesRootInjective(p: Bytes, n: Content, n': Content)
    requires WellFormed(p, n) && WellFormed(p, n') && ProcessesRoot(n) == ProcessesRoot(n')
    ensures n.processes == n'.processes && n.trees == n'.trees
  {
    hide TreeRoot, Raws;
    var x, x' := ProcessesRoot(n).leaves, ProcessesRoot(n').leaves;
    assert n.processes.Keys == x.Keys && n'.processes.Keys == x'.Keys;
    forall pid | pid in n.processes ensures n.processes[pid] == n'.processes[pid] {
      assert x[pid].process == n.processes[pid] && x'[pid].process == n'.processes[pid];
    }
    forall c: Config ensures c in n.trees <==> c in n'.trees
      ensures c in n.trees ==> n.trees[c] == n'.trees[c]
    {
      if ChildKind(c.kind) && c.key in n.processes {
        assert x[c.key] == x'[c.key] && c == Config(c.kind, c.key);
        TreeRootInjective(n, n', c);
      }
    }
  }

  /** Two maps have the same main root exactly if they are equal. */
  lemma SameRootIffSameMap(p: Bytes, n: Content, n': Content)
    requires WellFormed(p, n) && WellFormed(p, n')
    ensures MainRoot(p, n) == MainRoot(p, n') <==> n == n'
  {
    hide ProcessesRoot, Raws, WellFormed;
    if MainRoot(p, n) == MainRoot(p, n') {
      var x, x' := MainRoot(p, n).leaves, MainRoot(p, n').leaves;
      assert p !in n.singles && p !in n'.singles by { AgreesKey(p, n); AgreesKey(p, n'); }
      assert x[p].root == ProcessesRoot(n) && x'[p].root == ProcessesRoot(n');
      ProcessesRootInjective(p, n, n');
      forall k ensures k in n.singles <==> k in n'.singles
        ensures k in n.singles ==> n.singles[k] == n'.singles[k]
      {
        assert k in n.singles <==> k in x && k != p;
        assert k in n'.singles <==> k in x' && k != p;
        if k in n.singles {
          assert x[k].root == Raws(n.singles[k]) && x'[k].root == Raws(n'.singles[k]);
          RawsInjective(n.singles[k], n'.singles[k]);
        }
      }
    }
  }

  lemma AgreesKey(p: Bytes, n: Content)
    requires WellFormed(p, n)
    ensures p !in n.singles
  {
  }

  /** Two databases, whatever their lives, have the same root at two versions exactly if the
      maps saved as those versions are equal. */
  lemma VersionsAgreeIffMapsDo(p: Bytes, ws: seq<World>, deeds: seq<Doing>, ws': seq<World>, deeds': seq<Doing>, v: uint32, v': uint32)
    requires Life(p, ws, deeds) && ws[0] == Genesis(p) && AllPossible(p, Book(map[], 0, NOTHING), deeds)
    requires Life(p, ws', deeds') && ws'[0] == Genesis(p) && AllPossible(p, Book(map[], 0, NOTHING), deeds')
    requires v in BookOf(p, Book(map[], 0, NOTHING), deeds).versions && v' in BookOf(p, Book(map[], 0, NOTHING), deeds').versions
    ensures VersionRoot(ws[|deeds|].db, v).Ok? && VersionRoot(ws'[|deeds'|].db, v').Ok?
    ensures VersionRoot(ws[|deeds|].db, v) == VersionRoot(ws'[|deeds'|].db, v') <==>
            BookOf(p, Book(map[], 0, NOTHING), deeds).versions[v] == BookOf(p, Book(map[], 0, NOTHING), deeds').versions[v']
  {
    hide BookOf, Agrees, MainRoot, Genesis, AllPossible, Life, WellFormed, TxHolds;
    var b := Book(map[], 0, NOTHING);
    GenesisInStep(p);
    LifeInStep(p, b, ws, deeds);
    LifeInStep(p, b, ws', deeds');
    SameRootIffSameMap(p, BookOf(p, b, deeds).versions[v], BookOf(p, b, deeds').versions[v']);
  }
}
