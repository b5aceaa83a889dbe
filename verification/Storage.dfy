/** The voting state in the database: what every move writes, and that through every run of a
    node the trees hold its state and each version has the root that the state determines. */
module Storage {
  import opened Common
  import opened LittleEndian
  import opened Trees
  import opened Nested
  import opened Accounts
  import opened Voting
  import opened Moves
  import Chain

  /** How the state is encoded: the key of the process tree, vote identifiers, the bytes of
      records, and the trees that hold the ledger. */
  datatype Layout = Layout(
    processes: Bytes,
    voteId: (Bytes, Bytes) -> Bytes, vote: Vote -> Bytes,
    process: Process -> Bytes,
    address: Address -> Bytes, weight: int -> Bytes,
    ledger: Ledger -> map<Bytes, map<Bytes, Bytes>>)

  /** Vote identifiers are hashes of process and nullifier, addresses have their own bytes, and
      the process tree has a key of its own. */
  ghost predicate NoCollision(layout: Layout) {
    && (forall p, n, m :: layout.voteId(p, n) == layout.voteId(p, m) ==> n == m)
    && Injective(layout.address)
    && (forall l :: layout.processes !in layout.ledger(l))
  }

  // ------------------------------------------------ the content of a state

  ghost predicate Injective<K(!new)>(key: K -> Bytes) {
    forall a, b :: key(a) == key(b) ==> a == b
  }

  /** The leaves of a tree: a map with its keys and values encoded. */
  ghost function Encoded<K(!new), V>(m: map<K, V>, key: K -> Bytes, value: V -> Bytes): map<Bytes, Bytes>
    requires Injective(key)
  {
    map k | k in m :: key(k) := value(m[k])
  }

  lemma EncodedOneMore<K(!new), V>(m: map<K, V>, key: K -> Bytes, value: V -> Bytes, k: K, v: V)
    requires Injective(key)
    ensures k in m <==> key(k) in Encoded(m, key, value)
    ensures Encoded(m[k := v], key, value) == Encoded(m, key, value)[key(k) := value(v)]
  {
    var a, b := Encoded(m[k := v], key, value), Encoded(m, key, value)[key(k) := value(v)];
    forall x | x in a ensures x in b {
      var j :| j in m[k := v] && x == key(j);
      assert j != k ==> j in m;
    }
    forall x | x in b ensures x in a {
      if x != key(k) {
        var j :| j in m && x == key(j);
        assert j in m[k := v];
      } else {
        assert k in m[k := v];
      }
    }
  }

  ghost function VoteLeaves(layout: Layout, pid: Bytes, votes: map<Bytes, Vote>): map<Bytes, Bytes>
    requires NoCollision(layout)
  {
    Encoded(votes, n => layout.voteId(pid, n), layout.vote)
  }

  function IndexKey(i: uint64): Bytes {
    Encode(8, i)
  }

  lemma IndexInjective()
    ensures Injective(IndexKey)
  {
    Pow256Of8();
    forall i: uint64, j: uint64 | IndexKey(i) == IndexKey(j) ensures i == j {
      EncodeInjective(8, i, j);
    }
  }

  ghost function CensusLeaves(leaves: map<uint64, Bytes>): map<Bytes, Bytes> {
    IndexInjective();
    Encoded(leaves, IndexKey, Same)
  }

  function WeightsOf(used: map<(Bytes, Address), int>, pid: Bytes): map<Address, int> {
    map k | k in used && k.0 == pid :: k.1 := used[k]
  }

  ghost function WeightLeaves(layout: Layout, pid: Bytes, used: map<(Bytes, Address), int>): map<Bytes, Bytes>
    requires NoCollision(layout)
  {
    Encoded(WeightsOf(used, pid), layout.address, layout.weight)
  }

  function Same(leaf: Bytes): Bytes {
    leaf
  }

  /** The trees a process has. */
  predicate HasTree(p: Process, k: Kind) {
    k.Votes? || (p.mode.preRegister && (k.CensusPoseidon? || k.Nullifiers?))
  }

  function TreeKeys(ps: map<Bytes, Process>): (cs: set<Config>)
    ensures forall c: Config :: c in cs <==> c.key in ps && HasTree(ps[c.key], c.kind)
  {
    (set pid | pid in ps :: Config(Votes, pid)) +
    (set pid | pid in ps && ps[pid].mode.preRegister :: Config(CensusPoseidon, pid)) +
    (set pid | pid in ps && ps[pid].mode.preRegister :: Config(Nullifiers, pid))
  }

  ghost function TreeOf(layout: Layout, e: Elections, c: Config): map<Bytes, Bytes>
    requires NoCollision(layout)
  {
    match c.kind
    case Votes => if c.key in e.votes then VoteLeaves(layout, c.key, e.votes[c.key]) else map[]
    case CensusPoseidon => if c.key in e.censuses then CensusLeaves(e.censuses[c.key].leaves) else map[]
    case Nullifiers => WeightLeaves(layout, c.key, e.usedWeight)
    case _ => map[]
  }

  /** The bytes of a process; the root of its census is not among them. */
  function Data(layout: Layout, p: Process): Bytes {
    layout.process(p.(rollingCensusRoot := map[]))
  }

  function ProcessData(layout: Layout, ps: map<Bytes, Process>): map<Bytes, Bytes> {
    map pid | pid in ps :: Data(layout, ps[pid])
  }

  ghost function TreesOf(layout: Layout, e: Elections): map<Config, map<Bytes, Bytes>>
    requires NoCollision(layout)
  {
    map c | c in TreeKeys(e.processes) :: TreeOf(layout, e, c)
  }

  ghost function ContentWith(layout: Layout, singles: map<Bytes, map<Bytes, Bytes>>, e: Elections): Content
    requires NoCollision(layout)
  {
    Content(singles, ProcessData(layout, e.processes), TreesOf(layout, e))
  }

  ghost function ContentOf(layout: Layout, s: Chain.State): Content
    requires NoCollision(layout)
  {
    ContentWith(layout, layout.ledger(s.ledger), s.elections)
  }

  // ------------------------------------------------ what a move writes

  function MoveWrites(layout: Layout, e: Elections, m: Move, height: uint32): seq<Change> {
    match m
    case Idle => []
    case Cast(vote) => [Insert(Config(Votes, vote.processId), layout.voteId(vote.processId, vote.nullifier), layout.vote(vote.(height := height)))]
    case Create(pid, p) => [NewProcess(pid, Data(layout, p), p.mode.preRegister)]
    case Amend(pid, q) => [SetProcess(pid, Data(layout, q))]
    case Publish(pid, slot, key) =>
      if pid in e.processes && slot < |e.processes[pid].publicKeys|
      then [SetProcess(pid, Data(layout, Published(e.processes[pid], slot, key)))] else []
    case Reveal(pid, slot, key) =>
      if pid in e.processes && slot < |e.processes[pid].privateKeys| && e.processes[pid].keyIndex.Some? && e.processes[pid].keyIndex.value >= 1
      then [SetProcess(pid, Data(layout, Revealed(e.processes[pid], slot, key)))] else []
    case Register(pid, owner, used, key) =>
      [Put(Config(Nullifiers, pid), layout.address(owner), layout.weight(used))] +
      if pid in e.censuses then [Insert(Config(CensusPoseidon, pid), IndexKey(e.censuses[pid].length), key)] else []
  }

  function ChangeAll(p: Bytes, n: Content, chs: seq<Change>): Content
    decreases |chs|
  {
    if chs == [] then n else ChangeAll(p, ChangeMap(p, n, chs[0]), chs[1..])
  }

  /** Used weights are those of processes that exist. */
  predicate Tidy(e: Elections) {
    forall k :: k in e.usedWeight ==> k.0 in e.processes
  }

  ghost predicate WritesMove(layout: Layout, singles: map<Bytes, map<Bytes, Bytes>>, env: Env, e: Elections, m: Move, height: uint32)
    requires NoCollision(layout) && Enabled(env, e, m, height)
  {
    && ChangeAll(layout.processes, ContentWith(layout, singles, e), MoveWrites(layout, e, m, height)) ==
       ContentWith(layout, singles, Make(env, e, m, height))
    && Tidy(Make(env, e, m, height))
  }

  lemma OneChange(p: Bytes, n: Content, ch: Change)
    ensures ChangeAll(p, n, [ch]) == ChangeMap(p, n, ch)
  {
    assert [ch][1..] == [];
  }

  /** States that differ in one tree only. */
  lemma OneTreeReplaced(layout: Layout, e: Elections, f: Elections, c: Config)
    requires NoCollision(layout) && f.processes == e.processes && c in TreeKeys(e.processes)
    requires forall d :: d in TreeKeys(e.processes) && d != c ==> TreeOf(layout, f, d) == TreeOf(layout, e, d)
    ensures TreesOf(layout, f) == TreesOf(layout, e)[c := TreeOf(layout, f, c)]
  {
    hide TreeOf, TreeKeys, NoCollision;
  }

  lemma VoteTrees(layout: Layout, e: Elections, f: Elections, pid: Bytes, nullifier: Bytes, vote: Vote)
    requires NoCollision(layout) && pid in e.processes && pid in e.votes && nullifier !in e.votes[pid]
    requires f == e.(votes := e.votes[pid := e.votes[pid][nullifier := vote]], voteCount := f.voteCount)
    ensures var c := Config(Votes, pid);
            && c in TreesOf(layout, e) && layout.voteId(pid, nullifier) !in TreesOf(layout, e)[c]
            && TreesOf(layout, f) == TreesOf(layout, e)[c := TreesOf(layout, e)[c][layout.voteId(pid, nullifier) := layout.vote(vote)]]
  {
    hide VoteLeaves, CensusLeaves, WeightLeaves, NoCollision, TreeKeys;
    var c := Config(Votes, pid);
    assert c in TreeKeys(e.processes);
    OneMoreVoteLeaf(layout, pid, e.votes[pid], nullifier, vote);
    forall d | d in TreeKeys(e.processes) && d != c ensures TreeOf(layout, f, d) == TreeOf(layout, e, d) {
      assert d.kind.Votes? ==> d.key != pid;
    }
    OneTreeReplaced(layout, e, f, c);
  }

  lemma CastWrites(layout: Layout, singles: map<Bytes, map<Bytes, Bytes>>, env: Env, e: Elections, m: Move, height: uint32)
    requires NoCollision(layout) && Tidy(e) && Enabled(env, e, m, height) && m.Cast?
    ensures WritesMove(layout, singles, env, e, m, height)
  {
    hide NoCollision, TreesOf, VoteGate;
    VoteTrees(layout, e, Make(env, e, m, height), m.vote.processId, m.vote.nullifier, m.vote.(height := height));
    OneChange(layout.processes, ContentWith(layout, singles, e), MoveWrites(layout, e, m, height)[0]);
  }

  lemma OneMoreVoteLeaf(layout: Layout, pid: Bytes, votes: map<Bytes, Vote>, nullifier: Bytes, vote: Vote)
    requires NoCollision(layout)
    ensures nullifier in votes <==> layout.voteId(pid, nullifier) in VoteLeaves(layout, pid, votes)
    ensures VoteLeaves(layout, pid, votes[nullifier := vote]) == VoteLeaves(layout, pid, votes)[layout.voteId(pid, nullifier) := layout.vote(vote)]
  {
    hide Encoded;
    EncodedOneMore(votes, n => layout.voteId(pid, n), layout.vote, nullifier, vote);
  }

  /** A tree depends on the votes, the census and the weights of its process only. */
  lemma SameTree(layout: Layout, e: Elections, f: Elections, c: Config)
    requires NoCollision(layout) && f.usedWeight == e.usedWeight
    requires c.key in f.votes <==> c.key in e.votes
    requires c.key in e.votes ==> f.votes[c.key] == e.votes[c.key]
    requires c.key in f.censuses <==> c.key in e.censuses
    requires c.key in e.censuses ==> f.censuses[c.key] == e.censuses[c.key]
    ensures TreeOf(layout, f, c) == TreeOf(layout, e, c)
  {
    hide NoCollision, VoteLeaves, CensusLeaves, WeightLeaves;
  }

  lemma SameTrees(layout: Layout, e: Elections, f: Elections)
    requires NoCollision(layout) && f == e.(processes := f.processes) && f.processes.Keys == e.processes.Keys
    requires forall pid :: pid in e.processes ==> f.processes[pid].mode == e.processes[pid].mode
    ensures TreesOf(layout, f) == TreesOf(layout, e)
  {
    hide NoCollision, TreeOf, TreeKeys;
    forall c: Config ensures c in TreeKeys(f.processes) <==> c in TreeKeys(e.processes) {
    }
    forall c | c in TreeKeys(e.processes) ensures TreeOf(layout, f, c) == TreeOf(layout, e, c) {
      SameTree(layout, e, f, c);
    }
  }

  lemma ProcessWrites(layout: Layout, singles: map<Bytes, map<Bytes, Bytes>>, e: Elections, pid: Bytes, q: Process)
    requires NoCollision(layout) && pid in e.processes && q.mode == e.processes[pid].mode
    ensures ChangeAll(layout.processes, ContentWith(layout, singles, e), [SetProcess(pid, Data(layout, q))]) ==
            ContentWith(layout, singles, e.(processes := e.processes[pid := q]))
  {
    hide NoCollision, TreesOf, Data;
    OneChange(layout.processes, ContentWith(layout, singles, e), SetProcess(pid, Data(layout, q)));
    SameTrees(layout, e, e.(processes := e.processes[pid := q]));
  }

  lemma AmendWrites(layout: Layout, singles: map<Bytes, map<Bytes, Bytes>>, env: Env, e: Elections, m: Move, height: uint32)
    requires NoCollision(layout) && Tidy(e) && Enabled(env, e, m, height) && (m.Amend? || m.Publish? || m.Reveal?)
    ensures WritesMove(layout, singles, env, e, m, height)
  {
    hide NoCollision, ContentWith, ChangeAll, Data;
    ProcessWrites(layout, singles, e, m.pid, Make(env, e, m, height).processes[m.pid]);
  }

  lemma NewTrees(layout: Layout, e: Elections, f: Elections, pid: Bytes, p: Process)
    requires NoCollision(layout) && Tidy(e) && pid !in e.processes && (p.mode.preRegister ==> pid in f.censuses && f.censuses[pid].leaves == map[])
    requires f == e.(processes := e.processes[pid := p], votes := e.votes[pid := map[]], censuses := f.censuses, startIndex := f.startIndex)
    requires forall q :: q != pid ==> (q in f.censuses <==> q in e.censuses) && (q in e.censuses ==> f.censuses[q] == e.censuses[q])
    ensures var trees := TreesOf(layout, e)[Config(Votes, pid) := map[]];
            TreesOf(layout, f) == if p.mode.preRegister then trees[Config(CensusPoseidon, pid) := map[]][Config(Nullifiers, pid) := map[]] else trees
  {
    hide NoCollision, TreeOf, TreeKeys;
    var trees := TreesOf(layout, e)[Config(Votes, pid) := map[]];
    var after := if p.mode.preRegister then trees[Config(CensusPoseidon, pid) := map[]][Config(Nullifiers, pid) := map[]] else trees;
    forall c | c in TreeKeys(f.processes) ensures TreesOf(layout, f)[c] == if c.key == pid then map[] else TreeOf(layout, e, c) {
      if c.key == pid {
        NewTreesEmpty(layout, f, c);
      } else {
        SameTree(layout, e, f, c);
      }
    }
    forall c: Config ensures c in TreesOf(layout, f) <==> c in after
      ensures c in after ==> TreesOf(layout, f)[c] == after[c]
    {
      assert c == Config(c.kind, c.key);
    }
  }

  lemma NewTreesEmpty(layout: Layout, f: Elections, c: Config)
    requires NoCollision(layout) && c.key in f.votes && f.votes[c.key] == map[]
    requires c.kind.CensusPoseidon? && c.key in f.censuses ==> f.censuses[c.key].leaves == map[]
    requires forall k :: k in f.usedWeight ==> k.0 != c.key
    ensures TreeOf(layout, f, c) == map[]
  {
  }

  lemma CreatedState(env: Env, e: Elections, m: Move, height: uint32)
    requires Enabled(env, e, m, height) && m.Create? && Tidy(e)
    ensures var f, pid := Make(env, e, m, height), m.pid;
            && pid !in e.processes && pid in f.processes && Tidy(f)
            && f.processes[pid] == (if m.process.mode.preRegister then m.process.(rollingCensusRoot := map[]) else m.process)
            && f == e.(processes := e.processes[pid := f.processes[pid]], votes := e.votes[pid := map[]], censuses := f.censuses, startIndex := f.startIndex)
            && (m.process.mode.preRegister ==> pid in f.censuses && f.censuses[pid].leaves == map[])
            && forall q :: q != pid ==> (q in f.censuses <==> q in e.censuses) && (q in e.censuses ==> f.censuses[q] == e.censuses[q])
  {
  }

  lemma CreateWrites(layout: Layout, singles: map<Bytes, map<Bytes, Bytes>>, env: Env, e: Elections, m: Move, height: uint32)
    requires NoCollision(layout) && Tidy(e) && Enabled(env, e, m, height) && m.Create?
    ensures WritesMove(layout, singles, env, e, m, height)
  {
    hide NoCollision, TreesOf, Enabled, Make, Tidy;
    var f, n := Make(env, e, m, height), ContentWith(layout, singles, e);
    CreatedState(env, e, m, height);
    NewTrees(layout, e, f, m.pid, f.processes[m.pid]);
    OneChange(layout.processes, n, MoveWrites(layout, e, m, height)[0]);
    NewData(layout, e.processes, m.pid, f.processes[m.pid]);
  }

  lemma NewData(layout: Layout, ps: map<Bytes, Process>, pid: Bytes, p: Process)
    ensures ProcessData(layout, ps[pid := p]) == ProcessData(layout, ps)[pid := Data(layout, p)]
  {
    hide Data;
  }

  // ------------------------------------------------ registering a key

  lemma OneMoreWeight(layout: Layout, pid: Bytes, used: map<(Bytes, Address), int>, owner: Address, w: int)
    requires NoCollision(layout)
    ensures WeightLeaves(layout, pid, used[(pid, owner) := w]) == WeightLeaves(layout, pid, used)[layout.address(owner) := layout.weight(w)]
  {
    hide Encoded;
    var after := used[(pid, owner) := w];
    assert WeightsOf(after, pid) == WeightsOf(used, pid)[owner := w] by {
      hide Injective;
      WeightsOfOne(used, pid, owner, w);
    }
    EncodedOneMore(WeightsOf(used, pid), layout.address, layout.weight, owner, w);
  }

  lemma WeightsOfOne(used: map<(Bytes, Address), int>, pid: Bytes, owner: Address, w: int)
    ensures WeightsOf(used[(pid, owner) := w], pid) == WeightsOf(used, pid)[owner := w]
  {
    var after := used[(pid, owner) := w];
    var a, b := WeightsOf(after, pid), WeightsOf(used, pid)[owner := w];
    forall x: Address ensures (x in a <==> x in b) && (x in a ==> a[x] == b[x]) {
      WeightIn(after, pid, x);
      WeightIn(used, pid, x);
    }
  }

  lemma WeightIn(used: map<(Bytes, Address), int>, pid: Bytes, owner: Address)
    ensures owner in WeightsOf(used, pid) <==> (pid, owner) in used
    ensures owner in WeightsOf(used, pid) ==> WeightsOf(used, pid)[owner] == used[(pid, owner)]
  {
    if (pid, owner) in used {
      assert (pid, owner).1 in WeightsOf(used, pid);
    }
  }

  lemma OtherWeights(layout: Layout, q: Bytes, used: map<(Bytes, Address), int>, after: map<(Bytes, Address), int>)
    requires NoCollision(layout)
    requires forall k: (Bytes, Address) :: k.0 == q ==> (k in after <==> k in used) && (k in used ==> after[k] == used[k])
    ensures WeightLeaves(layout, q, after) == WeightLeaves(layout, q, used)
  {
    assert WeightsOf(after, q) == WeightsOf(used, q) by {
      forall x: Address ensures (x in WeightsOf(after, q) <==> x in WeightsOf(used, q))
        ensures x in WeightsOf(after, q) ==> WeightsOf(after, q)[x] == WeightsOf(used, q)[x]
      {
        WeightIn(after, q, x);
        WeightIn(used, q, x);
      }
    }
  }

  lemma OneMoreKeyLeaf(leaves: map<uint64, Bytes>, i: uint64, key: Bytes)
    ensures i in leaves <==> IndexKey(i) in CensusLeaves(leaves)
    ensures CensusLeaves(leaves[i := key]) == CensusLeaves(leaves)[IndexKey(i) := key]
  {
    hide Encoded, Encode;
    IndexInjective();
    EncodedOneMore(leaves, IndexKey, Same, i, key);
  }

  lemma WeightWrites(layout: Layout, e: Elections, pid: Bytes, owner: Address, used: int)
    requires NoCollision(layout) && pid in e.processes && e.processes[pid].mode.preRegister
    ensures var c := Config(Nullifiers, pid);
            && c in TreesOf(layout, e)
            && TreesOf(layout, e.(usedWeight := e.usedWeight[(pid, owner) := used])) ==
               TreesOf(layout, e)[c := TreesOf(layout, e)[c][layout.address(owner) := layout.weight(used)]]
  {
    hide NoCollision, TreeKeys, VoteLeaves, CensusLeaves, WeightLeaves;
    var c, f := Config(Nullifiers, pid), e.(usedWeight := e.usedWeight[(pid, owner) := used]);
    assert c in TreeKeys(e.processes);
    OneMoreWeight(layout, pid, e.usedWeight, owner, used);
    forall d | d in TreeKeys(e.processes) && d != c ensures TreeOf(layout, f, d) == TreeOf(layout, e, d) {
      if d.kind.Nullifiers? {
        assert d.key != pid;
        OtherWeights(layout, d.key, e.usedWeight, f.usedWeight);
      }
    }
    OneTreeReplaced(layout, e, f, c);
  }

  lemma KeyWrites(layout: Layout, e: Elections, pid: Bytes, i: uint64, key: Bytes, length: uint64)
    requires NoCollision(layout) && pid in e.processes && e.processes[pid].mode.preRegister && pid in e.censuses
    ensures var c := Config(CensusPoseidon, pid);
            && c in TreesOf(layout, e) && (i in e.censuses[pid].leaves <==> IndexKey(i) in TreesOf(layout, e)[c])
            && TreesOf(layout, e.(censuses := e.censuses[pid := Voting.Census.Census(e.censuses[pid].leaves[i := key], length)])) ==
               TreesOf(layout, e)[c := TreesOf(layout, e)[c][IndexKey(i) := key]]
  {
    hide NoCollision, TreeKeys, VoteLeaves, CensusLeaves, WeightLeaves, IndexKey;
    var c, f := Config(CensusPoseidon, pid), e.(censuses := e.censuses[pid := Voting.Census.Census(e.censuses[pid].leaves[i := key], length)]);
    assert c in TreeKeys(e.processes);
    OneMoreKeyLeaf(e.censuses[pid].leaves, i, key);
    forall d | d in TreeKeys(e.processes) && d != c ensures TreeOf(layout, f, d) == TreeOf(layout, e, d) {
      assert d.kind.CensusPoseidon? ==> d.key != pid;
    }
    OneTreeReplaced(layout, e, f, c);
  }

  lemma TwoChanges(p: Bytes, n: Content, a: Change, b: Change)
    ensures ChangeAll(p, n, [a] + [b]) == ChangeMap(p, ChangeMap(p, n, a), b)
  {
    hide ChangeMap;
    assert ([a] + [b])[1..] == [b];
    OneChange(p, ChangeMap(p, n, a), b);
  }

  lemma RegisterWrites(layout: Layout, singles: map<Bytes, map<Bytes, Bytes>>, env: Env, e: Elections, m: Move, height: uint32)
    requires NoCollision(layout) && Tidy(e) && Enabled(env, e, m, height) && m.Register?
    ensures WritesMove(layout, singles, env, e, m, height)
  {
    hide NoCollision, TreesOf, IndexKey, ProcessData;
    var pid, n, p := m.pid, ContentWith(layout, singles, e), layout.processes;
    var f := e.(usedWeight := e.usedWeight[(pid, m.owner) := m.used]);
    var length := e.censuses[pid].length;
    var ws := MoveWrites(layout, e, m, height);
    WeightWrites(layout, e, pid, m.owner, m.used);
    KeyWrites(layout, f, pid, length, m.key, Add64(length, 1));
    assert ChangeMap(p, n, ws[0]) == ContentWith(layout, singles, f);
    TwoChanges(p, n, ws[0], ws[1]);
    assert ws == [ws[0]] + [ws[1]];
  }

  /** What every move writes leaves the trees with the content of the state after it. */
  lemma MoveIsWritten(layout: Layout, singles: map<Bytes, map<Bytes, Bytes>>, env: Env, e: Elections, m: Move, height: uint32)
    requires NoCollision(layout) && Tidy(e) && Enabled(env, e, m, height)
    ensures WritesMove(layout, singles, env, e, m, height)
  {
    hide NoCollision, WritesMove, Enabled;
    match m
    case Idle => IdleWrites(layout, singles, env, e, height);
    case Cast(_) => CastWrites(layout, singles, env, e, m, height);
    case Create(_, _) => CreateWrites(layout, singles, env, e, m, height);
    case Amend(_, _) => AmendWrites(layout, singles, env, e, m, height);
    case Publish(_, _, _) => AmendWrites(layout, singles, env, e, m, height);
    case Reveal(_, _, _) => AmendWrites(layout, singles, env, e, m, height);
    case Register(_, _, _, _) => RegisterWrites(layout, singles, env, e, m, height);
  }

  lemma IdleWrites(layout: Layout, singles: map<Bytes, map<Bytes, Bytes>>, env: Env, e: Elections, height: uint32)
    requires NoCollision(layout) && Tidy(e)
    ensures WritesMove(layout, singles, env, e, Idle, height)
  {
  }
}
