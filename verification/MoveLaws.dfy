/** What every move of the voting state machine keeps. */
module MoveLaws {
  import opened Common
  import opened Accounts
  import opened Voting
  import opened VotingLaws
  import opened VotingInvariants
  import opened Chain
  import opened Moves

  /** The state after a move is sound and later. */
  ghost predicate Kept(env: Env, e: Elections, m: Move, height: uint32)
    requires Enabled(env, e, m, height)
  {
    ElectionsOk(env, Make(env, e, m, height)) && Later(e, Make(env, e, m, height))
  }

  /** Processes change by moving on and votes only grow; every invariant holds again. */
  lemma MoveKeeps(env: Env, e: Elections, m: Move, height: uint32)
    requires ElectionsOk(env, e) && Enabled(env, e, m, height)
    ensures Kept(env, e, m, height)
  {
    match m
    case Idle => SameLater(e);
    case Cast(_) => CastKeeps(env, e, m, height);
    case Create(_, _) => CreateKeeps(env, e, m, height);
    case Amend(_, _) => ChangeKeeps(env, e, m, height);
    case Publish(_, _, _) => ChangeKeeps(env, e, m, height);
    case Reveal(_, _, _) => ChangeKeeps(env, e, m, height);
    case Register(pid, owner, used, key) => RegisterKeeps(env, e, pid, owner, used, key);
  }

  lemma CastKeeps(env: Env, e: Elections, m: Move, height: uint32)
    requires ElectionsOk(env, e) && Enabled(env, e, m, height) && m.Cast?
    ensures Kept(env, e, m, height)
  {
    AddVoteOk(env, e, m.vote, height);
    CastIsLater(e, m.vote, height);
  }

  lemma CastIsLater(e: Elections, vote: Vote, height: uint32)
    requires vote.processId in e.processes && VoteGate(e.processes[vote.processId], height).Ok? && AddVote(e, vote, height).Ok?
    ensures Later(e, AddVote(e, vote, height).value)
  {
    AddVoteLater(e, vote, height);
  }

  lemma CreateKeeps(env: Env, e: Elections, m: Move, height: uint32)
    requires ElectionsOk(env, e) && Enabled(env, e, m, height) && m.Create?
    ensures Kept(env, e, m, height)
  {
    AddProcessOk(env, e, m.pid, m.process);
    AddProcessLater(env, e, m.pid, m.process);
  }

  /** The move changes one existing process and nothing else. */
  predicate Changes(m: Move) {
    m.Amend? || m.Publish? || m.Reveal?
  }

  function Changed(e: Elections, m: Move): Process
    requires Changes(m) && m.pid in e.processes
    requires m.Publish? ==> m.slot < |e.processes[m.pid].publicKeys|
    requires m.Reveal? ==> m.slot < |e.processes[m.pid].privateKeys| && e.processes[m.pid].keyIndex.Some? && e.processes[m.pid].keyIndex.value >= 1
  {
    match m
    case Amend(_, q) => q
    case Publish(pid, slot, key) => Published(e.processes[pid], slot, key)
    case Reveal(pid, slot, key) => Revealed(e.processes[pid], slot, key)
  }

  lemma ChangeIsLater(env: Env, e: Elections, m: Move, height: uint32)
    requires Enabled(env, e, m, height) && Changes(m)
    ensures var p, q := e.processes[m.pid], Changed(e, m);
            && LaterProcess(p, q) && |m.pid| == PROCESS_ID_SIZE
            && q.rollingCensusRoot == p.rollingCensusRoot && q.rollingCensusSize == p.rollingCensusSize
            && Make(env, e, m, height) == e.(processes := e.processes[m.pid := q])
  {
  }

  lemma ChangeKeeps(env: Env, e: Elections, m: Move, height: uint32)
    requires ElectionsOk(env, e) && Enabled(env, e, m, height) && Changes(m)
    ensures Kept(env, e, m, height)
  {
    ChangeIsLater(env, e, m, height);
    ProcessMoveKeeps(env, e, m.pid, Changed(e, m));
  }

  lemma SameLater(e: Elections)
    ensures Later(e, e)
  {
    SameVotesLater(e.processes, e.votes);
    forall pid | pid in e.processes ensures LaterProcess(e.processes[pid], e.processes[pid]) {
      SameProcessLater(e.processes[pid]);
    }
  }

  lemma ProcessMoveKeeps(env: Env, e: Elections, pid: Bytes, q: Process)
    requires ElectionsOk(env, e) && pid in e.processes && |pid| == PROCESS_ID_SIZE && LaterProcess(e.processes[pid], q)
    ensures ElectionsOk(env, e.(processes := e.processes[pid := q]))
    ensures Later(e, e.(processes := e.processes[pid := q]))
  {
    UpdateOk(env, e, pid, q);
    UpdateLater(e, pid, q);
  }

  lemma RegisterKeeps(env: Env, e: Elections, pid: Bytes, owner: Address, used: int, key: Bytes)
    requires ElectionsOk(env, e) && pid in e.processes && pid in e.censuses && e.processes[pid].mode.preRegister
    requires e.censuses[pid].length < e.processes[pid].maxCensusSize.value
    ensures var f := e.(usedWeight := e.usedWeight[(pid, owner) := used]);
            var g := AddToRollingCensus(f, pid, key);
            && g.Ok? && ElectionsOk(env, g.value) && Later(e, g.value)
            && g.value.processes == e.processes && g.value.censuses == e.censuses[pid := g.value.censuses[pid]]
  {
    hide LaterProcesses, LaterVotes, VotesOk, CensusesOk, IndexOk;
    var f := e.(usedWeight := e.usedWeight[(pid, owner) := used]);
    RegisterOk(env, f, pid, key);
    SameLater(e);
  }

  // ------------------------------------------------ revealed keys

  predicate AnyKey(keys: seq<Bytes>) {
    exists i :: 0 <= i < |keys| && keys[i] != []
  }

  /** The process takes no votes at any greater height. */
  predicate Over(p: Process, height: uint32) {
    Frozen(p.status) || height >= EndBlock(p)
  }

  predicate RevealOk(p: Process, height: uint32) {
    NeedsKeys(p) && AnyKey(p.privateKeys) ==> Over(p, height)
  }

  predicate RevealsOk(ps: map<Bytes, Process>, height: uint32) {
    forall pid :: pid in ps ==> RevealOk(ps[pid], height)
  }

  /** A private key is out only when its process takes no more votes after this block. */
  lemma MoveKeepsReveals(env: Env, e: Elections, m: Move, height: uint32)
    requires Enabled(env, e, m, height) && RevealsOk(e.processes, height)
    ensures RevealsOk(Make(env, e, m, height).processes, height)
  {
    match m
    case Idle =>
    case Cast(_) =>
    case Create(pid, p) => assert RevealOk(Make(env, e, m, height).processes[pid], height);
    case Amend(pid, q) => assert RevealOk(e.processes[pid], height);
    case Publish(pid, _, _) => assert RevealOk(e.processes[pid], height);
    case Reveal(pid, slot, key) => assert Over(e.processes[pid], height);
    case Register(_, _, _, _) =>
  }

  /** No vote passes the gate of a process that is over, at any greater height. */
  lemma OverTakesNoVotes(p: Process, q: Process, height: uint32, later: uint32)
    requires Over(p, height) && LaterProcess(p, q) && height < later
    ensures VoteGate(q, later).Err?
  {
  }

  // ------------------------------------------------ key accounting

  function CountKeys(keys: seq<Bytes>): nat {
    if keys == [] then 0 else (if keys[0] != [] then 1 else 0) + CountKeys(keys[1..])
  }

  lemma {:induction false} OneMoreKeyCounts(keys: seq<Bytes>, i: nat, key: Bytes)
    requires i < |keys| && keys[i] == [] && key != []
    ensures CountKeys(keys[i := key]) == CountKeys(keys) + 1
    decreases |keys|
  {
    if i > 0 {
      assert keys[i := key][1..] == keys[1..][i - 1 := key];
      OneMoreKeyCounts(keys[1..], i - 1, key);
    } else {
      assert keys[i := key][1..] == keys[1..];
    }
  }

  lemma {:induction false} CountKeysBound(keys: seq<Bytes>)
    ensures CountKeys(keys) <= |keys|
    decreases |keys|
  {
    if keys != [] {
      CountKeysBound(keys[1..]);
    }
  }

  lemma {:induction false} NoKeysCount(n: nat)
    ensures CountKeys(seq(n, _ => [])) == 0
    decreases n
  {
    if n > 0 {
      var keys: seq<Bytes> := seq(n, _ => []);
      assert keys[1..] == seq(n - 1, _ => []);
      NoKeysCount(n - 1);
    }
  }

  /** The key index counts the keys published and not yet revealed, and every revealed key
      belongs to the public key in its slot. */
  predicate Accounted(env: Env, p: Process) {
    NeedsKeys(p) ==>
      && p.keyIndex.GetOr(0) == CountKeys(p.publicKeys) - CountKeys(p.privateKeys)
      && |p.privateKeys| == |p.publicKeys| <= MAX_KEY_INDEX
      && forall i :: 0 <= i < |p.privateKeys| && p.privateKeys[i] != [] ==>
           p.publicKeys[i] != [] && env.publicKeyOf(p.privateKeys[i]) == Some(p.publicKeys[i])
  }

  predicate AccountedAt(env: Env, ps: map<Bytes, Process>, pid: Bytes) {
    pid in ps ==> Accounted(env, ps[pid])
  }

  /** The move publishes and reveals no empty key of a process, and does not create it with
      keys already counted. */
  predicate WellKeyed(m: Move, pid: Bytes) {
    && (m.Publish? && m.pid == pid ==> m.key != [])
    && (m.Reveal? && m.pid == pid ==> m.key != [])
    && (m.Create? && m.pid == pid && NeedsKeys(m.process) ==> m.process.keyIndex.GetOr(0) == 0)
  }

  lemma PublishAccounts(env: Env, p: Process, slot: uint32, key: Bytes)
    requires Accounted(env, p) && NeedsKeys(p) && 1 <= slot < |p.publicKeys| && p.publicKeys[slot] == []
    ensures Accounted(env, Published(p, slot, key)) <==> key != []
  {
    CountKeysBound(p.publicKeys);
    if key != [] {
      OneMoreKeyCounts(p.publicKeys, slot, key);
    } else {
      assert p.publicKeys[slot := key] == p.publicKeys;
    }
  }

  lemma RevealAccounts(env: Env, e: Elections, pid: Bytes, slot: uint32, key: Bytes, height: uint32)
    requires Enabled(env, e, Reveal(pid, slot, key), height) && Accounted(env, e.processes[pid])
    ensures Accounted(env, Revealed(e.processes[pid], slot, key)) <==> key != []
  {
    var keys := e.processes[pid].privateKeys;
    if key != [] {
      OneMoreKeyCounts(keys, slot, key);
    } else {
      assert keys[slot := key] == keys;
    }
  }

  lemma CreateAccounts(env: Env, e: Elections, m: Move, height: uint32)
    requires Enabled(env, e, m, height) && m.Create?
    ensures Accounted(env, Make(env, e, m, height).processes[m.pid]) <==> WellKeyed(m, m.pid)
  {
    NoKeysCount(MAX_KEY_INDEX);
    var p := Make(env, e, m, height).processes[m.pid];
    assert NeedsKeys(p) ==> p.publicKeys == EmptyKeys() && p.privateKeys == EmptyKeys();
  }

  lemma ChangeAccounts(env: Env, e: Elections, m: Move, height: uint32)
    requires Enabled(env, e, m, height) && Changes(m) && Accounted(env, e.processes[m.pid])
    ensures Accounted(env, Changed(e, m)) <==> WellKeyed(m, m.pid)
  {
    match m
    case Amend(_, _) =>
    case Publish(pid, slot, key) => PublishAccounts(env, e.processes[pid], slot, key);
    case Reveal(pid, slot, key) => RevealAccounts(env, e, pid, slot, key, height);
  }

  /** A move keeps the key index of a process right exactly if it is well keyed for it. */
  lemma MoveKeepsAccounts(env: Env, e: Elections, m: Move, height: uint32, pid: Bytes)
    requires Enabled(env, e, m, height) && AccountedAt(env, e.processes, pid)
    ensures AccountedAt(env, Make(env, e, m, height).processes, pid) <==> WellKeyed(m, pid)
  {
    hide Accounted;
    if m.Create? && m.pid == pid {
      CreateAccounts(env, e, m, height);
    } else if Changes(m) && m.pid == pid {
      ChangeAccounts(env, e, m, height);
    }
  }

  // ------------------------------------------------ rolling censuses of started processes

  /** From its start block on, a process whose voters registered knows its census: the root
      it carries is that of the census. */
  predicate RootsOk(ps: map<Bytes, Process>, cs: map<Bytes, Census>, height: int) {
    forall pid :: pid in ps && pid in cs && ps[pid].mode.preRegister && height >= ps[pid].startBlock
      ==> ps[pid].rollingCensusRoot == cs[pid].leaves
  }

  /** ... and so is the size. */
  predicate SizedAt(ps: map<Bytes, Process>, cs: map<Bytes, Census>, pid: Bytes, height: int) {
    pid in ps && pid in cs && ps[pid].mode.preRegister && height >= ps[pid].startBlock ==>
      ps[pid].rollingCensusSize == Some(cs[pid].length)
  }

  /** If the move creates the process, for voters to register, its start lies ahead. */
  predicate StartsLater(m: Move, pid: Bytes, height: uint32) {
    m.Create? && m.pid == pid && m.process.mode.preRegister ==> m.process.startBlock > height
  }

  /** Censuses stay, but those of processes that have not started may grow, and processes
      keep the sizes and roots they carry. */
  predicate CensusesKept(e: Elections, f: Elections, height: uint32) {
    && f.processes.Keys == e.processes.Keys && f.censuses.Keys == e.censuses.Keys
    && (forall pid :: pid in e.processes ==> SameRolling(e.processes[pid], f.processes[pid]))
    && forall pid :: pid in e.processes && pid in e.censuses && height >= e.processes[pid].startBlock ==>
         f.censuses[pid] == e.censuses[pid]
  }

  lemma RegisterKeepsCensuses(env: Env, e: Elections, m: Move, height: uint32)
    requires ElectionsOk(env, e) && Enabled(env, e, m, height) && m.Register?
    ensures CensusesKept(e, Make(env, e, m, height), height)
  {
    hide ElectionsOk, Later, AddToRollingCensus, AddVote, AddProcess, VoteGate, UpdateProcess;
    RegisterKeeps(env, e, m.pid, m.owner, m.used, m.key);
  }

  lemma ChangeKeepsCensuses(env: Env, e: Elections, m: Move, height: uint32)
    requires Enabled(env, e, m, height) && Changes(m)
    ensures CensusesKept(e, Make(env, e, m, height), height)
  {
    ChangeIsLater(env, e, m, height);
    hide Make, Enabled, Changed, KeysKept, Reaches;
  }

  lemma MoveKeepsCensuses(env: Env, e: Elections, m: Move, height: uint32)
    requires ElectionsOk(env, e) && Enabled(env, e, m, height) && !m.Create?
    ensures CensusesKept(e, Make(env, e, m, height), height)
  {
    hide ElectionsOk;
    match m
    case Register(_, _, _, _) => RegisterKeepsCensuses(env, e, m, height);
    case Idle =>
    case Cast(_) =>
    case _ => ChangeKeepsCensuses(env, e, m, height);
  }

  predicate SameRolling(p: Process, q: Process) {
    && q.startBlock == p.startBlock && q.mode == p.mode
    && q.rollingCensusRoot == p.rollingCensusRoot && q.rollingCensusSize == p.rollingCensusSize
  }

  lemma MoveKeepsRoots(env: Env, e: Elections, m: Move, height: uint32)
    requires ElectionsOk(env, e) && Enabled(env, e, m, height) && RootsOk(e.processes, e.censuses, height)
    ensures var f := Make(env, e, m, height);
            RootsOk(f.processes, f.censuses, height)
  {
    if m.Create? {
      CreateRoots(env, e, m.pid, m.process, height);
    } else {
      MoveKeepsCensuses(env, e, m, height);
      hide Make, Enabled, ElectionsOk;
    }
  }

  lemma CreateRoots(env: Env, e: Elections, pid: Bytes, p: Process, height: uint32)
    requires AddProcess(env, e, pid, p).Ok? && TermsOk(p)
    ensures var f := AddProcess(env, e, pid, p).value;
            RootsOk(e.processes, e.censuses, height) ==> RootsOk(f.processes, f.censuses, height)
  {
  }

  lemma MoveKeepsSize(env: Env, e: Elections, m: Move, height: uint32, pid: Bytes)
    requires ElectionsOk(env, e) && Enabled(env, e, m, height) && StartsLater(m, pid, height)
    requires SizedAt(e.processes, e.censuses, pid, height)
    ensures var f := Make(env, e, m, height);
            SizedAt(f.processes, f.censuses, pid, height)
  {
    if !m.Create? {
      MoveKeepsCensuses(env, e, m, height);
      hide Make, Enabled, ElectionsOk;
    }
  }
}
