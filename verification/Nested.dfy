/** The state database is a plain nested map: whatever is written, saved or dropped, in
    nested trees that open on demand, its reads and its roots are those of the map. */
module Nested {
  import opened Common
  import opened Trees
  import opened Propagation
  import opened Commits
  import opened Transactions
  import opened Versions

  /** What the trees hold: the singleton trees under the main tree, the data of every process,
      and the trees that hang from processes. */
  datatype Content = Content(singles: map<Bytes, map<Bytes, Bytes>>, processes: map<Bytes, Bytes>, trees: map<Config, map<Bytes, Bytes>>)

  /** The kinds of trees that hang from a process. */
  predicate ChildKind(k: Kind) {
    k.Votes? || k.CensusPoseidon? || k.Nullifiers?
  }

  function Raws(m: map<Bytes, Bytes>): Root {
    Root(map k | k in m :: Raw(m[k]))
  }

  predicate Plain(r: Root) {
    forall k :: k in r.leaves ==> r.leaves[k].Raw?
  }

  // ------------------------------------------------ writing

  /** One operation of the state on its trees: a new singleton tree, a leaf of one, a new
      process, its data, a leaf of one of its trees, new or not, or a mere visit that opens
      trees and writes at most beside them. */
  datatype Change =
    | NewSingle(key: Bytes)
    | SetSingle(key: Bytes, leaf: Bytes, value: Bytes)
    | NewProcess(pid: Bytes, data: Bytes, registers: bool)
    | SetProcess(pid: Bytes, data: Bytes)
    | Insert(tree: Config, leaf: Bytes, value: Bytes)
    | Put(tree: Config, leaf: Bytes, value: Bytes)
    | Visit(op: Op)

  predicate Valid(p: Bytes, ch: Change) {
    match ch
    case SetSingle(key, _, _) => key != p
    case Insert(c, _, _) => ChildKind(c.kind)
    case Put(c, _, _) => ChildKind(c.kind)
    case Visit(op) => (op.Get? || op.NoState?) && PathFree(op.path)
    case _ => true
  }

  function Processes(p: Bytes): Config {
    Config(Main, p)
  }

  function NewLeaf(data: Bytes, registers: bool): Leaf {
    var root := if registers then Some(EMPTY_ROOT) else None;
    ProcessLeaf(data, Some(EMPTY_ROOT), root, root)
  }

  /** The operation on the trees; `p` is the key of the process tree. */
  function OpOf(p: Bytes, tx: Tx, ch: Change): Op {
    match ch
    case NewSingle(key) => Op.Add([], key, RootLeaf(EMPTY_ROOT))
    case SetSingle(key, leaf, value) => Op.Set([Config(Main, key)], leaf, Raw(value))
    case NewProcess(pid, data, registers) => Op.Add([Processes(p)], pid, NewLeaf(data, registers))
    case SetProcess(pid, data) =>
      (match OpenGet(tx.dir, tx.main, [Processes(p)], pid)
       case Ok(ProcessLeaf(_, votes, census, nullifiers)) => Op.Set([Processes(p)], pid, ProcessLeaf(data, votes, census, nullifiers))
       case _ => Op.Get([Processes(p)], pid))
    case Insert(c, leaf, value) => Op.Add([Processes(p), c], leaf, Raw(value))
    case Put(c, leaf, value) => Op.Set([Processes(p), c], leaf, Raw(value))
    case Visit(op) => op
  }

  function ChangeTx(p: Bytes, tx: Tx, ch: Change): Tx {
    Apply(tx, OpOf(p, tx, ch))
  }

  /** The same operation on the map. */
  function ChangeMap(p: Bytes, n: Content, ch: Change): Content {
    match ch
    case NewSingle(key) => if key == p || key in n.singles then n else n.(singles := n.singles[key := map[]])
    case SetSingle(key, leaf, value) =>
      if key in n.singles then n.(singles := n.singles[key := n.singles[key][leaf := value]]) else n
    case NewProcess(pid, data, registers) =>
      if pid in n.processes then n
      else
        var trees := n.trees[Config(Votes, pid) := map[]];
        n.(processes := n.processes[pid := data],
           trees := if registers then trees[Config(CensusPoseidon, pid) := map[]][Config(Nullifiers, pid) := map[]] else trees)
    case SetProcess(pid, data) => if pid in n.processes then n.(processes := n.processes[pid := data]) else n
    case Insert(c, leaf, value) =>
      if c in n.trees && leaf !in n.trees[c] then n.(trees := n.trees[c := n.trees[c][leaf := value]]) else n
    case Put(c, leaf, value) =>
      if c in n.trees then n.(trees := n.trees[c := n.trees[c][leaf := value]]) else n
    case Visit(_) => n
  }

  // ------------------------------------------------ agreement

  predicate WellFormed(p: Bytes, n: Content) {
    p !in n.singles && forall c :: c in n.trees ==> ChildKind(c.kind) && c.key in n.processes
  }

  predicate MainHolds(p: Bytes, n: Content, r: Root) {
    && r.leaves.Keys == n.singles.Keys + {p}
    && forall k :: k in r.leaves ==> r.leaves[k].RootLeaf?
  }

  /** The leaf of a process has its data, and a root for each of its trees. */
  predicate LeafHolds(n: Content, r: Root, pid: Bytes) {
    && (pid in r.leaves <==> pid in n.processes)
    && (pid in r.leaves ==>
          && r.leaves[pid].ProcessLeaf? && r.leaves[pid].process == n.processes[pid]
          && forall k: Kind :: ChildKind(k) ==> (GetRoot(k, r.leaves[pid]).Ok? <==> Config(k, pid) in n.trees))
  }

  ghost predicate LeavesHold(n: Content, r: Root) {
    forall pid :: LeafHolds(n, r, pid)
  }

  function Reads(tx: Tx, path: seq<Config>): Result<Root, Error> {
    Seen(OpenTree(tx.dir, tx.main, path))
  }

  /** A tree reads as a map, and was created if it has leaves. */
  predicate TreeHolds(tx: Tx, path: seq<Config>, m: map<Bytes, Bytes>) {
    Reads(tx, path) == Ok(Raws(m)) && (m != map[] ==> Created(tx.dir, path))
  }

  ghost predicate SinglesHold(n: Content, tx: Tx) {
    forall k :: k in n.singles ==> TreeHolds(tx, [Config(Main, k)], n.singles[k])
  }

  ghost predicate TreesHold(p: Bytes, n: Content, tx: Tx) {
    forall c :: c in n.trees ==> TreeHolds(tx, [Processes(p), c], n.trees[c])
  }

  ghost predicate ProcessesHold(p: Bytes, n: Content, tx: Tx) {
    Reads(tx, [Processes(p)]).Ok? && LeavesHold(n, Reads(tx, [Processes(p)]).value)
  }

  /** The transaction reads as the map. */
  ghost predicate Agrees(p: Bytes, n: Content, tx: Tx) {
    WellFormed(p, n) && MainHolds(p, n, tx.main.root) && ProcessesHold(p, n, tx) && SinglesHold(n, tx) && TreesHold(p, n, tx)
  }

  // ------------------------------------------------ sound transactions

  /** No tree of the kind that shares its place with another is open, at any depth. */
  predicate CensusFree(n: Open)
    decreases n
  {
    forall c :: c in n.subs ==> !c.kind.Census? && CensusFree(n.subs[c])
  }

  predicate PathFree(path: seq<Config>) {
    forall i :: 0 <= i < |path| ==> !path[i].kind.Census?
  }

  predicate Fine(tx: Tx) {
    Sound(tx.dir, tx.main) && Linked(tx.main) && CensusFree(tx.main)
  }

  lemma {:induction false} FreeUnambiguous(n: Open, path: seq<Config>)
    requires CensusFree(n) && PathFree(path)
    ensures Unambiguous(n, path)
    decreases |path|
  {
    if path != [] && path[0] in n.subs {
      FreeUnambiguous(n.subs[path[0]], path[1..]);
    }
  }

  lemma {:induction false} OpenPathFree(d: Dir, n: Open, path: seq<Config>)
    requires CensusFree(n) && PathFree(path)
    ensures CensusFree(OpenPath(d, n, path).tree)
    decreases |path|
  {
    if path != [] && Child(d, n, path[0]).Ok? {
      OpenPathFree(Sub(d, path[0]), Child(d, n, path[0]).value, path[1..]);
    }
  }

  lemma {:induction false} ReplaceFree(n: Open, path: seq<Config>, r: Root)
    requires CensusFree(n) && IsOpen(n, path)
    ensures CensusFree(Replace(n, path, r))
    decreases |path|
  {
    if path != [] {
      ReplaceFree(n.subs[path[0]], path[1..], r);
    }
  }

  lemma OpKeepsFine(tx: Tx, op: Op)
    requires Fine(tx) && PathFree(op.path) && KeepsRoots(tx, op)
    ensures Fine(Apply(tx, op))
    ensures !Apply(tx, op).main.dirty ==> Apply(tx, op).main.root == tx.main.root && !tx.main.dirty
  {
    hide Sound, Linked, OpenPath, Replace, Store, KeepsRoots, Unambiguous, PathFree, CensusFree;
    FreeUnambiguous(tx.main, op.path);
    ApplyKeeps(tx, op);
    OpenPathFree(tx.dir, tx.main, op.path);
    OpenPathOpens(tx.dir, tx.main, op.path);
    var o := OpenPath(tx.dir, tx.main, op.path);
    if o.error.None? && (op.Add? || op.Set?) {
      ReplaceFree(o.tree, op.path, Edited(At(o.tree, op.path).root, op));
    }
  }

  lemma {:induction false} OpenTreeLinked(d: Dir, n: Open, path: seq<Config>)
    requires Linked(n) && OpenTree(d, n, path).Ok?
    ensures Linked(OpenTree(d, n, path).value)
    decreases |path|
  {
    if path != [] {
      OpenTreeLinked(Sub(d, path[0]), Child(d, n, path[0]).value, path[1..]);
    }
  }

  lemma PlainHasNoSubs(n: Open)
    requires Linked(n) && Plain(n.root)
    ensures n.subs == map[]
  {
  }

  lemma {:induction false} CreatedGrows(d: Dir, d': Dir, path: seq<Config>)
    requires Grows(d, d') && Created(d, path)
    ensures Created(d', path)
    decreases |path|
  {
    if path != [] {
      CreatedGrows(d.kids[path[0]], d'.kids[path[0]], path[1..]);
    }
  }

  lemma OpCreates(tx: Tx, op: Op)
    requires OpenTree(tx.dir, tx.main, op.path).Ok?
    ensures Created(Apply(tx, op).dir, op.path)
  {
    hide OpenPath, Replace, Store, StoreNoState, Created, Grows;
    var o := OpenPath(tx.dir, tx.main, op.path);
    OpenPathOpens(tx.dir, tx.main, op.path);
    OpenedIsCreated(tx.dir, tx.main, op.path);
    if op.NoState? {
      StoreNoStateGrows(o.dir, op.path, op.key, op.value);
    } else if op.Get? {
      GrowsReflexive(o.dir);
    } else {
      StoreGrows(o.dir, op.path, Edited(At(o.tree, op.path).root, op));
    }
    CreatedGrows(o.dir, Apply(tx, op).dir, op.path);
  }

  // ------------------------------------------------ each change keeps the agreement

  lemma Unmoved(tx: Tx, op: Op, path: seq<Config>, m: map<Bytes, Bytes>)
    requires TreeHolds(tx, path, m) && Reads(Apply(tx, op), path) == Reads(tx, path)
    ensures TreeHolds(Apply(tx, op), path, m)
  {
    hide Apply, OpenTree, Created, Grows;
    ApplyGrows(tx, op);
    if m != map[] {
      CreatedGrows(tx.dir, Apply(tx, op).dir, path);
    }
  }

  lemma RawsOneMore(m: map<Bytes, Bytes>, k: Bytes, v: Bytes)
    ensures Root(Raws(m).leaves[k := Raw(v)]) == Raws(m[k := v])
    ensures k in Raws(m).leaves <==> k in m
  {
    assert Raws(m).leaves[k := Raw(v)] == Raws(m[k := v]).leaves;
  }

  /** What an edit of a plain tree leaves there. */
  function Entry(m: map<Bytes, Bytes>, op: Op): map<Bytes, Bytes>
    requires (op.Add? || op.Set?) && op.leaf.Raw?
  {
    if op.Add? && op.key in m then m else m[op.key := op.leaf.data]
  }

  lemma EntryHolds(tx: Tx, op: Op, m: map<Bytes, Bytes>)
    requires (op.Add? || op.Set?) && op.leaf.Raw? && TreeHolds(tx, op.path, m)
    ensures TreeHolds(Apply(tx, op), op.path, Entry(m, op))
  {
    hide Apply, OpenTree, Created;
    OpReads(tx, op, op.path);
    OpCreates(tx, op);
    RawsOneMore(m, op.key, op.leaf.data);
  }

  lemma MainReads(tx: Tx)
    ensures Reads(tx, []) == Ok(tx.main.root)
  {
  }

  /** An operation that writes to a singleton tree, or to a tree of a process, or nothing. */
  lemma LeafOpMain(p: Bytes, n: Content, tx: Tx, op: Op)
    requires MainHolds(p, n, tx.main.root) && (op.path != [] || op.Get? || op.NoState?)
    ensures MainHolds(p, n, Apply(tx, op).main.root)
  {
    hide Apply, OpenTree;
    OpReads(tx, op, []);
    MainReads(tx);
    MainReads(Apply(tx, op));
  }

  lemma LeafOpProcesses(p: Bytes, n: Content, tx: Tx, op: Op)
    requires ProcessesHold(p, n, tx)
    requires op.Get? || op.NoState? || !(op.path <= [Processes(p)])
    ensures ProcessesHold(p, n, Apply(tx, op))
  {
    hide Apply, OpenTree, LeavesHold;
    OpReads(tx, op, [Processes(p)]);
  }

  lemma LeafOpSingle(tx: Tx, op: Op, k: Bytes, m: map<Bytes, Bytes>)
    requires TreeHolds(tx, [Config(Main, k)], m)
    requires op.Get? || op.NoState? || OpenTree(tx.dir, tx.main, op.path).Err? || (op.path != [] && op.path != [Config(Main, k)])
    ensures TreeHolds(Apply(tx, op), [Config(Main, k)], m)
  {
    hide Apply, OpenTree, TreeHolds;
    var q := [Config(Main, k)];
    assert op.path <= q ==> op.path == [] || op.path == q;
    OpReads(tx, op, q);
    Unmoved(tx, op, q, m);
  }

  lemma LeafOpTree(p: Bytes, tx: Tx, op: Op, c: Config, m: map<Bytes, Bytes>)
    requires TreeHolds(tx, [Processes(p), c], m)
    requires op.Get? || op.NoState? || OpenTree(tx.dir, tx.main, op.path).Err? || (op.path != [] && op.path != [Processes(p)] && op.path != [Processes(p), c])
    ensures TreeHolds(Apply(tx, op), [Processes(p), c], m)
  {
    hide Apply, OpenTree, TreeHolds;
    var q := [Processes(p), c];
    assert op.path <= q ==> op.path == [] || op.path == [Processes(p)] || op.path == q;
    OpReads(tx, op, q);
    Unmoved(tx, op, q, m);
  }

  lemma VisitAgrees(p: Bytes, n: Content, tx: Tx, op: Op)
    requires Agrees(p, n, tx) && (op.Get? || op.NoState?)
    ensures Agrees(p, n, Apply(tx, op))
  {
    hide Apply, MainHolds, ProcessesHold, TreeHolds, WellFormed;
    LeafOpMain(p, n, tx, op);
    LeafOpProcesses(p, n, tx, op);
    forall k | k in n.singles ensures TreeHolds(Apply(tx, op), [Config(Main, k)], n.singles[k]) {
      LeafOpSingle(tx, op, k, n.singles[k]);
    }
    forall c | c in n.trees ensures TreeHolds(Apply(tx, op), [Processes(p), c], n.trees[c]) {
      LeafOpTree(p, tx, op, c, n.trees[c]);
    }
  }

  /** A tree that the map does not have does not open. */
  lemma AbsentSingle(p: Bytes, n: Content, tx: Tx, k: Bytes)
    requires MainHolds(p, n, tx.main.root) && Linked(tx.main) && k != p && k !in n.singles
    ensures OpenTree(tx.dir, tx.main, [Config(Main, k)]).Err?
  {
    assert Config(Main, k) !in tx.main.subs;
  }

  lemma OpenTwo(d: Dir, n: Open, a: Config, b: Config)
    ensures OpenTree(d, n, [a, b]) ==
            match OpenTree(d, n, [a]) case Err(e) => Err(e) case Ok(m) => Child(Sub(d, a), m, b)
  {
    assert [a, b][1..] == [b] && [b][1..] == [] && [a][1..] == [];
    if Child(d, n, a).Ok? {
      var m := Child(d, n, a).value;
      assert OpenTree(d, n, [a, b]) == OpenTree(Sub(d, a), m, [b]);
      assert OpenTree(d, n, [a]) == OpenTree(Sub(d, a), m, []);
      if Child(Sub(d, a), m, b).Ok? {
        assert OpenTree(Sub(d, a), m, [b]) == OpenTree(Sub(Sub(d, a), b), Child(Sub(d, a), m, b).value, []);
      }
    }
  }

  /** The process tree of a transaction. */
  function ProcessTree(p: Bytes, tx: Tx): Open
    requires Reads(tx, [Processes(p)]).Ok?
  {
    OpenTree(tx.dir, tx.main, [Processes(p)]).value
  }

  lemma AbsentTree(p: Bytes, n: Content, tx: Tx, c: Config)
    requires ProcessesHold(p, n, tx) && Linked(tx.main) && ChildKind(c.kind) && c !in n.trees
    ensures ChildRoot(ProcessTree(p, tx).root, c).Err? && c !in ProcessTree(p, tx).subs
    ensures OpenTree(tx.dir, tx.main, [Processes(p), c]).Err?
  {
    hide OpenTree;
    var m := ProcessTree(p, tx);
    OpenTreeLinked(tx.dir, tx.main, [Processes(p)]);
    OpenTwo(tx.dir, tx.main, Processes(p), c);
    assert LeafHolds(n, m.root, c.key);
    assert c == Config(c.kind, c.key);
    assert ChildRoot(m.root, c).Err?;
    assert c !in m.subs;
  }

  lemma SingleAgrees(p: Bytes, n: Content, tx: Tx, ch: Change)
    requires Agrees(p, n, tx) && Linked(tx.main) && ch.SetSingle? && Valid(p, ch)
    ensures Agrees(p, ChangeMap(p, n, ch), ChangeTx(p, tx, ch))
  {
    hide Apply, OpenTree, MainHolds, LeavesHold, TreeHolds;
    var op, n' := OpOf(p, tx, ch), ChangeMap(p, n, ch);
    LeafOpMain(p, n, tx, op);
    MainSame(p, n, n', Apply(tx, op).main.root);
    assert op.path[0] != Processes(p);
    LeafOpProcesses(p, n, tx, op);
    ProcessesSame(p, n, n', Apply(tx, op));
    if ch.key !in n.singles {
      AbsentSingle(p, n, tx, ch.key);
    }
    forall k | k in n'.singles ensures TreeHolds(Apply(tx, op), [Config(Main, k)], n'.singles[k]) {
      if k == ch.key {
        EntryHolds(tx, op, n.singles[k]);
      } else {
        assert [Config(Main, k)] != op.path;
        LeafOpSingle(tx, op, k, n.singles[k]);
      }
    }
    forall c | c in n'.trees ensures TreeHolds(Apply(tx, op), [Processes(p), c], n'.trees[c]) {
      assert op.path != [Processes(p)];
      LeafOpTree(p, tx, op, c, n.trees[c]);
    }
  }

  lemma MainSame(p: Bytes, n: Content, n': Content, r: Root)
    requires MainHolds(p, n, r) && n'.singles.Keys == n.singles.Keys
    ensures MainHolds(p, n', r)
  {
  }

  lemma ProcessesSame(p: Bytes, n: Content, n': Content, tx: Tx)
    requires ProcessesHold(p, n, tx) && n'.processes == n.processes && n'.trees.Keys == n.trees.Keys
    ensures ProcessesHold(p, n', tx)
  {
    hide OpenTree;
    forall pid ensures LeafHolds(n', Reads(tx, [Processes(p)]).value, pid) {
      assert LeafHolds(n, Reads(tx, [Processes(p)]).value, pid);
      assert forall c :: c in n'.trees <==> c in n.trees.Keys;
    }
  }

  lemma EntryAgrees(p: Bytes, n: Content, tx: Tx, ch: Change)
    requires Agrees(p, n, tx) && Linked(tx.main) && (ch.Insert? || ch.Put?) && Valid(p, ch)
    ensures Agrees(p, ChangeMap(p, n, ch), ChangeTx(p, tx, ch))
  {
    hide Apply, OpenTree, MainHolds, LeavesHold, TreeHolds;
    var op, n' := OpOf(p, tx, ch), ChangeMap(p, n, ch);
    LeafOpMain(p, n, tx, op);
    MainSame(p, n, n', Apply(tx, op).main.root);
    LeafOpProcesses(p, n, tx, op);
    ProcessesSame(p, n, n', Apply(tx, op));
    if ch.tree !in n.trees {
      AbsentTree(p, n, tx, ch.tree);
    }
    forall k | k in n'.singles ensures TreeHolds(Apply(tx, op), [Config(Main, k)], n'.singles[k]) {
      LeafOpSingle(tx, op, k, n.singles[k]);
    }
    forall c | c in n'.trees ensures TreeHolds(Apply(tx, op), [Processes(p), c], n'.trees[c]) {
      if c == ch.tree {
        EntryHolds(tx, op, n.trees[c]);
      } else {
        assert op.path[1] != c;
        LeafOpTree(p, tx, op, c, n.trees[c]);
      }
    }
  }

  // ------------------------------------------------ new trees

  /** A new leaf of the main tree leaves every tree below the others alone. */
  lemma MainOpBelow(tx: Tx, op: Op, q: seq<Config>, m: map<Bytes, Bytes>)
    requires op.Add? && op.path == [] && q != [] && (op.key in tx.main.root.leaves || q[0].key != op.key)
    ensures Reads(Apply(tx, op), q) == Reads(tx, q)
    ensures TreeHolds(tx, q, m) ==> TreeHolds(Apply(tx, op), q, m)
  {
    hide Apply, TreeHolds;
    OpReads(tx, op, q);
    assert SameBelow(tx.main, Edited(tx.main.root, op), q[0]);
    if TreeHolds(tx, q, m) {
      Unmoved(tx, op, q, m);
    }
  }

  lemma NewSingleAgrees(p: Bytes, n: Content, tx: Tx, ch: Change)
    requires Agrees(p, n, tx) && Linked(tx.main) && ch.NewSingle?
    ensures Agrees(p, ChangeMap(p, n, ch), ChangeTx(p, tx, ch))
  {
    hide Apply, OpenTree, LeavesHold, TreeHolds, Created;
    var op, n' := OpOf(p, tx, ch), ChangeMap(p, n, ch);
    OpReads(tx, op, []);
    MainReads(tx);
    MainReads(Apply(tx, op));
    MainOpBelow(tx, op, [Processes(p)], map[]);
    ProcessesSame(p, n, n', Apply(tx, op));
    forall k | k in n.singles ensures TreeHolds(Apply(tx, op), [Config(Main, k)], n.singles[k]) {
      MainOpBelow(tx, op, [Config(Main, k)], n.singles[k]);
    }
    forall c | c in n.trees ensures TreeHolds(Apply(tx, op), [Processes(p), c], n.trees[c]) {
      MainOpBelow(tx, op, [Processes(p), c], n.trees[c]);
    }
    if ch.key != p && ch.key !in n.singles {
      NewSingleHolds(tx, op);
    }
  }

  lemma NewSingleHolds(tx: Tx, op: Op)
    requires Linked(tx.main) && op == Op.Add([], op.key, RootLeaf(EMPTY_ROOT)) && op.key !in tx.main.root.leaves
    ensures TreeHolds(Apply(tx, op), [Config(Main, op.key)], map[])
  {
    hide Apply;
    var c := Config(Main, op.key);
    assert c !in tx.main.subs;
    OpReadsFresh(tx, op, c);
    assert [] + [c] == [c];
    assert Raws(map[]) == EMPTY_ROOT;
  }

  /** Writing the leaf of a process, new or with the same roots, leaves the trees of all
      processes that were there alone. */
  lemma ProcessOpBelow(p: Bytes, tx: Tx, op: Op, c: Config, m: map<Bytes, Bytes>)
    requires (op.Add? || op.Set?) && op.path == [Processes(p)] && Reads(tx, op.path).Ok?
    requires SameBelow(ProcessTree(p, tx), Edited(ProcessTree(p, tx).root, op), c)
    requires TreeHolds(tx, [Processes(p), c], m)
    ensures TreeHolds(Apply(tx, op), [Processes(p), c], m)
  {
    hide Apply, TreeHolds, OpenTree;
    OpReads(tx, op, [Processes(p), c]);
    Unmoved(tx, op, [Processes(p), c], m);
  }

  lemma ProcessOpAgrees(p: Bytes, n: Content, tx: Tx, op: Op)
    requires (op.Add? || op.Set?) && op.path == [Processes(p)] && Agrees(p, n, tx)
    requires forall c :: c in n.trees ==> SameBelow(ProcessTree(p, tx), Edited(ProcessTree(p, tx).root, op), c)
    ensures MainHolds(p, n, Apply(tx, op).main.root) && SinglesHold(n, Apply(tx, op)) && TreesHold(p, n, Apply(tx, op))
    ensures Reads(Apply(tx, op), [Processes(p)]) == Ok(Edited(ProcessTree(p, tx).root, op))
  {
    hide Apply, OpenTree, MainHolds, LeavesHold, TreeHolds, SameBelow;
    LeafOpMain(p, n, tx, op);
    OpReads(tx, op, op.path);
    forall k | k in n.singles ensures TreeHolds(Apply(tx, op), [Config(Main, k)], n.singles[k]) {
      assert op.path[0] != Config(Main, k);
      LeafOpSingle(tx, op, k, n.singles[k]);
    }
    forall c | c in n.trees ensures TreeHolds(Apply(tx, op), [Processes(p), c], n.trees[c]) {
      ProcessOpBelow(p, tx, op, c, n.trees[c]);
    }
  }

  lemma SetProcessAgrees(p: Bytes, n: Content, tx: Tx, ch: Change)
    requires Agrees(p, n, tx) && ch.SetProcess?
    ensures Agrees(p, ChangeMap(p, n, ch), ChangeTx(p, tx, ch))
  {
    hide Apply, OpenTree, MainHolds, TreeHolds;
    var op, n' := OpOf(p, tx, ch), ChangeMap(p, n, ch);
    var r := ProcessTree(p, tx).root;
    assert LeafHolds(n, r, ch.pid);
    if ch.pid !in n.processes {
      VisitAgrees(p, n, tx, op);
    } else {
      var r' := Edited(r, op);
      forall c | c in n.trees ensures SameBelow(ProcessTree(p, tx), r', c) {
        assert LeafHolds(n, r, c.key);
      }
      ProcessOpAgrees(p, n, tx, op);
      MainSame(p, n, n', Apply(tx, op).main.root);
      forall pid ensures LeafHolds(n', r', pid) {
        assert LeafHolds(n, r, pid);
      }
    }
  }

  lemma NewProcessLeaves(n: Content, n': Content, r: Root, p: Bytes, tx: Tx, ch: Change)
    requires ch.NewProcess? && LeavesHold(n, r) && WellFormed(p, n) && n' == ChangeMap(p, n, ch)
    ensures LeavesHold(n', Edited(r, OpOf(p, tx, ch))) && WellFormed(p, n')
  {
    var r' := Edited(r, OpOf(p, tx, ch));
    assert LeafHolds(n, r, ch.pid);
    forall pid ensures LeafHolds(n', r', pid) {
      assert LeafHolds(n, r, pid);
    }
  }

  lemma NewProcessRoots(n: Content, m: Open, p: Bytes, tx: Tx, ch: Change, c: Config)
    requires ch.NewProcess? && LeafHolds(n, m.root, ch.pid) && WellFormed(p, n) && c in ChangeMap(p, n, ch).trees
    ensures c in n.trees ==> ChangeMap(p, n, ch).trees[c] == n.trees[c] && SameBelow(m, Edited(m.root, OpOf(p, tx, ch)), c)
    ensures c !in n.trees ==> ChangeMap(p, n, ch).trees[c] == map[] && ChildRoot(Edited(m.root, OpOf(p, tx, ch)), c) == Ok(EMPTY_ROOT) && ChildKind(c.kind)
  {
  }

  lemma NewProcessAgrees(p: Bytes, n: Content, tx: Tx, ch: Change)
    requires Agrees(p, n, tx) && Linked(tx.main) && ch.NewProcess?
    ensures Agrees(p, ChangeMap(p, n, ch), ChangeTx(p, tx, ch))
  {
    hide Apply, OpenTree, MainHolds, TreeHolds, Linked, LeavesHold, LeafHolds, WellFormed, SameBelow, Edited;
    var op, n' := OpOf(p, tx, ch), ChangeMap(p, n, ch);
    var m := ProcessTree(p, tx);
    LeafHoldsFor(n, m.root, ch.pid);
    forall c | c in n.trees ensures SameBelow(m, Edited(m.root, op), c) {
      NewProcessRoots(n, m, p, tx, ch, c);
    }
    ProcessOpAgrees(p, n, tx, op);
    MainSame(p, n, n', Apply(tx, op).main.root);
    NewProcessLeaves(n, n', m.root, p, tx, ch);
    forall c | c in n'.trees ensures TreeHolds(Apply(tx, op), [Processes(p), c], n'.trees[c]) {
      NewProcessRoots(n, m, p, tx, ch, c);
      if c !in n.trees {
        AbsentTree(p, n, tx, c);
        NewTreeHolds(p, tx, op, c);
      }
    }
  }

  lemma LeafHoldsFor(n: Content, r: Root, pid: Bytes)
    requires LeavesHold(n, r)
    ensures LeafHolds(n, r, pid)
  {
  }

  lemma NewTreeHolds(p: Bytes, tx: Tx, op: Op, c: Config)
    requires op.Add? && op.path == [Processes(p)] && Reads(tx, op.path).Ok? && c !in ProcessTree(p, tx).subs
    requires ChildRoot(Edited(ProcessTree(p, tx).root, op), c) == Ok(EMPTY_ROOT)
    ensures TreeHolds(Apply(tx, op), [Processes(p), c], map[])
  {
    hide Apply, OpenTree;
    OpReadsFresh(tx, op, c);
    assert op.path + [c] == [Processes(p), c];
    assert Raws(map[]) == EMPTY_ROOT;
  }

  /** Every change does to the trees what it does to the map. */
  lemma ChangeAgrees(p: Bytes, n: Content, tx: Tx, ch: Change)
    requires Agrees(p, n, tx) && Linked(tx.main) && Valid(p, ch)
    ensures Agrees(p, ChangeMap(p, n, ch), ChangeTx(p, tx, ch))
  {
    hide Agrees, Apply, OpOf, ChangeMap, ChangeTx, Linked;
    match ch
    case NewSingle(_) => NewSingleAgrees(p, n, tx, ch);
    case SetSingle(_, _, _) => SingleAgrees(p, n, tx, ch);
    case NewProcess(_, _, _) => NewProcessAgrees(p, n, tx, ch);
    case SetProcess(_, _) => SetProcessAgrees(p, n, tx, ch);
    case Insert(_, _, _) => EntryAgrees(p, n, tx, ch);
    case Put(_, _, _) => EntryAgrees(p, n, tx, ch);
    case Visit(op) => VisitChange(p, n, tx, op);
  }

  lemma VisitChange(p: Bytes, n: Content, tx: Tx, op: Op)
    requires Agrees(p, n, tx) && Valid(p, Visit(op))
    ensures Agrees(p, ChangeMap(p, n, Visit(op)), ChangeTx(p, tx, Visit(op)))
  {
    VisitAgrees(p, n, tx, op);
  }

  lemma ChangeKeepsRoots(p: Bytes, n: Content, tx: Tx, ch: Change)
    requires Agrees(p, n, tx) && Linked(tx.main) && Valid(p, ch)
    ensures KeepsRoots(tx, OpOf(p, tx, ch)) && PathFree(OpOf(p, tx, ch).path)
  {
    hide OpenTree, Created, MainHolds, LeavesHold;
    var op := OpOf(p, tx, ch);
    var t := OpenTree(tx.dir, tx.main, op.path);
    if t.Ok? {
      OpenTreeLinked(tx.dir, tx.main, op.path);
      match ch
      case SetSingle(k, _, _) =>
        if k !in n.singles {
          AbsentSingle(p, n, tx, k);
        }
        PlainHasNoSubs(t.value);
      case Put(c, _, _) =>
        if c !in n.trees {
          AbsentTree(p, n, tx, c);
        }
        PlainHasNoSubs(t.value);
      case _ =>
    }
  }

  lemma ChangeKeepsFine(p: Bytes, n: Content, tx: Tx, ch: Change)
    requires Agrees(p, n, tx) && Fine(tx) && Valid(p, ch)
    ensures Fine(ChangeTx(p, tx, ch))
    ensures var after := ChangeTx(p, tx, ch); !after.main.dirty ==> after.main.root == tx.main.root && !tx.main.dirty
  {
    hide Agrees, Apply, OpOf, KeepsRoots, PathFree, Sound, Linked, CensusFree;
    ChangeKeepsRoots(p, n, tx, ch);
    OpKeepsFine(tx, OpOf(p, tx, ch));
  }
}
