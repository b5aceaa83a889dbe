/** Safety of the voting state machine over whole runs of a node: any blocks, deliveries,
    mempool checks, cache evictions, commits and blocks dropped before their commit. */
module Runs {
  import opened Common
  import opened Accounts
  import opened Voting
  import opened VotingLaws
  import opened VotingInvariants
  import opened Chain
  import opened Moves
  import opened MoveLaws
  import opened Histories

  // ------------------------------------------------ the invariant of a node

  /** Votes are filed under their process and nullifier. */
  predicate Filed(votes: map<Bytes, map<Bytes, Vote>>) {
    forall pid, nullifier :: pid in votes && nullifier in votes[pid] ==>
      votes[pid][nullifier].processId == pid && votes[pid][nullifier].nullifier == nullifier
  }

  /** A sound voting state at a height; `rooted` bounds the start blocks of the processes
      that carry the root of their census. */
  ghost predicate StateOk(env: Env, e: Elections, height: uint32, rooted: int) {
    && ElectionsOk(env, e)
    && Filed(e.votes)
    && RevealsOk(e.processes, height)
    && RootsOk(e.processes, e.censuses, rooted)
  }

  predicate CacheOk(cache: map<Tx, Vote>) {
    forall tx :: tx in cache ==> CacheFits(tx, Some(cache[tx]))
  }

  ghost predicate NodeOk(env: Env, n: Node) {
    && StateOk(env, n.committed.elections, n.saved, TWO32)
    && StateOk(env, n.working.elections, n.height, n.height)
    && Later(n.committed.elections, n.working.elections)
    && (n.height == n.saved || n.height == n.saved + 1)
    && CacheOk(n.cache)
  }

  /** A node without processes or votes. */
  lemma EmptyNodeOk(env: Env, s: State, height: uint32)
    requires s.elections == Elections(map[], map[], 0, map[], map[], map[])
    ensures NodeOk(env, Node(s, height, s, height, map[]))
  {
    assert VoteSizes(s.elections.votes) == map[];
    SameLater(s.elections);
  }

  // ------------------------------------------------ one step

  lemma DeliverKeeps(env: Env, s: State, tx: Tx, height: uint32, cached: Option<Vote>)
    requires StateOk(env, s.elections, height, height) && CacheFits(tx, cached)
    ensures var f := AddTx(env, s, tx, height, cached).state.elections;
            StateOk(env, f, height, height) && Later(s.elections, f)
  {
    var e, m := s.elections, MoveOf(env, s, tx, height, cached);
    TransactionsMove(env, s, tx, height, cached);
    MoveKeeps(env, e, m, height);
    MoveKeepsReveals(env, e, m, height);
    MoveKeepsRoots(env, e, m, height);
    MoveKeepsFiled(env, e, m, height);
  }

  lemma MoveKeepsFiled(env: Env, e: Elections, m: Move, height: uint32)
    requires Enabled(env, e, m, height) && Filed(e.votes)
    ensures Filed(Make(env, e, m, height).votes)
  {
  }

  lemma SaveKeeps(env: Env, e: Elections, height: uint32)
    requires StateOk(env, e, height, height)
    ensures var f := Save(env, e, height);
            f.Ok? && StateOk(env, f.value, height, TWO32) && Later(e, f.value)
  {
    SaveOk(env, e, height);
    SaveLater(env, e, height);
    SaveReveals(env, e, height);
    SaveRoots(env, e, height);
  }

  lemma SaveReveals(env: Env, e: Elections, height: uint32)
    requires Save(env, e, height).Ok? && RevealsOk(e.processes, height)
    ensures RevealsOk(Save(env, e, height).value.processes, height)
  {
    SaveLater(env, e, height);
    var f := Save(env, e, height).value;
    forall pid | pid in f.processes ensures RevealOk(f.processes[pid], height) {
      assert RevealOk(e.processes[pid], height);
    }
  }

  lemma SaveRoots(env: Env, e: Elections, height: uint32)
    requires Save(env, e, height).Ok?
    ensures var f := Save(env, e, height).value;
            RootsOk(f.processes, f.censuses, TWO32)
  {
  }

  lemma RestartKeeps(env: Env, n: Node)
    requires NodeOk(env, n) && n.saved + 1 < TWO32
    ensures StateOk(env, n.committed.elections, n.saved + 1, n.saved + 1)
    ensures Later(n.committed.elections, n.committed.elections)
  {
    hide ElectionsOk, Later, Filed, CacheOk, RevealOk;
    var e := n.committed.elections;
    SameLater(e);
    forall pid | pid in e.processes ensures RevealOk(e.processes[pid], n.saved + 1) {
      LaterHeight(e.processes[pid], n.saved);
    }
  }

  lemma LaterHeight(p: Process, height: uint32)
    requires RevealOk(p, height) && height + 1 < TWO32
    ensures RevealOk(p, height + 1)
  {
  }

  ghost predicate StepKept(env: Env, n: Node, m: Node) {
    NodeOk(env, m) && Later(n.committed.elections, m.committed.elections) && n.saved <= m.saved
  }

  lemma BeginKeeps(env: Env, n: Node)
    requires NodeOk(env, n)
    ensures StepKept(env, n, Next(env, n, BeginBlock))
  {
    SameLater(n.committed.elections);
    if n.saved + 1 < TWO32 {
      RestartKeeps(env, n);
    }
  }

  lemma DeliverTxKeeps(env: Env, n: Node, tx: Tx)
    requires NodeOk(env, n)
    ensures StepKept(env, n, Next(env, n, DeliverTx(tx)))
  {
    hide StateOk, Later, AddTx, TakesCached, VoteEnvelopeCheck, Save;
    SameLater(n.committed.elections);
    DeliverKeeps(env, n.working, tx, n.height, Cached(n, tx));
    LaterTransitive(n.committed.elections, n.working.elections, Next(env, n, DeliverTx(tx)).working.elections);
  }

  lemma CommitKeeps(env: Env, n: Node)
    requires NodeOk(env, n)
    ensures StepKept(env, n, Next(env, n, Commit))
  {
    SaveKeeps(env, n.working.elections, n.height);
    var f := Save(env, n.working.elections, n.height).value;
    LaterTransitive(n.committed.elections, n.working.elections, f);
    SameLater(f);
    CommittedRooted(f.processes, f.censuses, n.height);
  }

  lemma CommittedRooted(ps: map<Bytes, Process>, cs: map<Bytes, Census>, height: uint32)
    requires RootsOk(ps, cs, TWO32)
    ensures RootsOk(ps, cs, height)
  {
  }

  lemma CacheKeeps(env: Env, n: Node, cache: map<Tx, Vote>)
    requires NodeOk(env, n) && CacheOk(cache)
    ensures StepKept(env, n, n.(cache := cache))
  {
    SameLater(n.committed.elections);
  }

  lemma CheckTxKeeps(env: Env, n: Node, tx: Tx)
    requires NodeOk(env, n)
    ensures StepKept(env, n, Next(env, n, CheckTx(tx)))
  {
    CheckFillsCache(env, n, tx);
    CacheKeeps(env, n, Next(env, n, CheckTx(tx)).cache);
  }

  lemma CheckFillsCache(env: Env, n: Node, tx: Tx)
    requires CacheOk(n.cache)
    ensures var m := Next(env, n, CheckTx(tx));
            m == n.(cache := m.cache) && CacheOk(m.cache)
  {
  }

  /** Every step keeps the invariant and moves the committed state on. */
  lemma NextKeeps(env: Env, n: Node, step: Step)
    requires NodeOk(env, n)
    ensures StepKept(env, n, Next(env, n, step))
  {
    match step
    case BeginBlock => BeginKeeps(env, n);
    case DeliverTx(tx) => DeliverTxKeeps(env, n, tx);
    case CheckTx(tx) => CheckTxKeeps(env, n, tx);
    case Evict(txs) => CacheKeeps(env, n, n.cache - txs);
    case Commit => CommitKeeps(env, n);
  }

  /** Every reachable node is sound, and its committed state is later than the first one. */
  lemma {:induction false} RunKeeps(env: Env, n: Node, steps: seq<Step>)
    requires NodeOk(env, n)
    ensures var m := Run(env, n, steps);
            && NodeOk(env, m)
            && Later(n.committed.elections, m.committed.elections)
            && Later(n.committed.elections, m.working.elections)
            && n.saved <= m.saved
    decreases |steps|
  {
    if steps == [] {
      SameLater(n.committed.elections);
    } else {
      var next := Next(env, n, steps[0]);
      NextKeeps(env, n, steps[0]);
      RunKeeps(env, next, steps[1..]);
      LaterTransitive(n.committed.elections, next.committed.elections, Run(env, n, steps).committed.elections);
      LaterTransitive(n.committed.elections, next.committed.elections, Run(env, n, steps).working.elections);
    }
  }

  // ------------------------------------------------ votes

  /** A process and its votes in a later state. */
  predicate FrozenAs(e: Elections, f: Elections, pid: Bytes)
    requires pid in e.processes && pid in e.votes
  {
    var status := e.processes[pid].status;
    && pid in f.processes && pid in f.votes
    && f.votes[pid] == e.votes[pid]
    && (f.processes[pid].status == status || (status.Ended? && f.processes[pid].status.Results?))
  }

  lemma FrozenLater(e: Elections, f: Elections, pid: Bytes)
    requires Later(e, f) && pid in e.processes && pid in e.votes && Frozen(e.processes[pid].status)
    ensures FrozenAs(e, f, pid)
  {
    assert LaterProcess(e.processes[pid], f.processes[pid]);
  }

  lemma RunLater(env: Env, n: Node, steps: seq<Step>)
    requires NodeOk(env, n)
    ensures Later(n.committed.elections, Run(env, n, steps).committed.elections)
    ensures Later(n.committed.elections, Run(env, n, steps).working.elections)
    ensures n.committed.elections.votes.Keys == n.committed.elections.processes.Keys
  {
    RunKeeps(env, n, steps);
  }

  /** Frozen tallies: once a committed process has ended, was canceled or has results, then in
      every later state, committed or not, its votes are the same; a canceled process stays
      canceled, one with results keeps that status, and an ended one can only get results. */
  lemma FrozenTallies(env: Env, n: Node, steps: seq<Step>, pid: Bytes)
    requires NodeOk(env, n)
    requires pid in n.committed.elections.processes && Frozen(n.committed.elections.processes[pid].status)
    ensures pid in n.committed.elections.votes
    ensures FrozenAs(n.committed.elections, Run(env, n, steps).committed.elections, pid)
    ensures FrozenAs(n.committed.elections, Run(env, n, steps).working.elections, pid)
  {
    RunLater(env, n, steps);
    FrozenLater(n.committed.elections, Run(env, n, steps).committed.elections, pid);
    FrozenLater(n.committed.elections, Run(env, n, steps).working.elections, pid);
  }

  predicate EventsFit(es: seq<Event>) {
    forall k :: 0 <= k < |es| && es[k].Delivery? ==> CacheFits(es[k].tx, es[k].cached)
  }

  lemma StepLogsFit(env: Env, n: Node, step: Step, log: Log)
    requires CacheOk(n.cache) && EventsFit(log.committed) && EventsFit(log.working)
    ensures EventsFit(Logged(env, n, step, log).committed) && EventsFit(Logged(env, n, step, log).working)
  {
    if step.DeliverTx? {
      assert CacheFits(step.tx, Cached(n, step.tx));
    }
    hide CacheFits;
  }

  /** Every cache entry that a history uses is about the process of its transaction. */
  lemma {:induction false} RunLogsFit(env: Env, n: Node, steps: seq<Step>, log: Log)
    requires NodeOk(env, n) && EventsFit(log.committed) && EventsFit(log.working)
    ensures EventsFit(LogOf(env, n, steps, log).working)
    decreases |steps|
  {
    hide StateOk, Later, EventsFit, Next, Logged;
    if steps != [] {
      NextKeeps(env, n, steps[0]);
      StepLogsFit(env, n, steps[0], log);
      RunLogsFit(env, Next(env, n, steps[0]), steps[1..], Logged(env, n, steps[0], log));
    }
  }

  /** Frozen from the very delivery that froze it: through the history of any state of a run, a
      process that is frozen after some event keeps its votes, and its status but for results,
      after every later event, in the same block or a later one. */
  lemma FrozenFromDelivery(env: Env, n: Node, steps: seq<Step>, i: nat, j: nat, pid: Bytes)
    requires NodeOk(env, n) && n.working == n.committed
    requires var s, es := n.committed, HistoryOf(env, n, steps);
             && i <= j <= |es|
             && var e := Replay(env, s, es[..i]).elections;
                pid in e.processes && Frozen(e.processes[pid].status)
    ensures var s, es := n.committed, HistoryOf(env, n, steps);
            && Run(env, n, steps).working == Replay(env, s, es)
            && pid in Replay(env, s, es[..i]).elections.votes
            && FrozenAs(Replay(env, s, es[..i]).elections, Replay(env, s, es[..j]).elections, pid)
  {
    hide Run, LogOf, Replay, Later, FrozenAs, Filed, RevealsOk, RootsOk, CacheOk, CacheFits, ProcessesOk, CensusesOk, IndexOk;
    var s, es := n.committed, HistoryOf(env, n, steps);
    HistoryReplays(env, n, steps);
    RunLogsFit(env, n, steps, Log([], []));
    ReplayIsLater(env, s, es, i, i);
    ReplayIsLater(env, s, es, i, j);
    FrozenLater(Replay(env, s, es[..i]).elections, Replay(env, s, es[..j]).elections, pid);
  }

  /** One vote per nullifier and an exact count: in every reachable state votes carry the
      process and the nullifier they are filed under, those committed before are all there
      unchanged, and the counter is the number of votes, whatever blocks were dropped. */
  lemma VotesAreKeptAndCounted(env: Env, n: Node, steps: seq<Step>)
    requires NodeOk(env, n)
    ensures var m := Run(env, n, steps);
            forall e :: e in {m.committed.elections, m.working.elections} ==>
              && Filed(e.votes)
              && e.voteCount == VoteTotal(e) % TWO64
              && forall pid :: pid in n.committed.elections.votes ==>
                   pid in e.votes && VotesKept(n.committed.elections.votes[pid], e.votes[pid])
  {
    RunKeeps(env, n, steps);
  }

  /** Delivering a vote adds exactly that vote, or nothing. */
  lemma VoteAddsOne(env: Env, s: State, tx: Tx, height: uint32, cached: Option<Vote>)
    requires ElectionsOk(env, s.elections) && tx.payload.VoteTx? && CacheFits(tx, cached)
    ensures var r := AddTx(env, s, tx, height, cached);
            && (r.error.Some? ==> r.state == s)
            && (r.error.None? ==> VoteTotal(r.state.elections) == VoteTotal(s.elections) + 1)
  {
    var vote := VoteEnvelopeCheck(env, s.elections, tx.payload.envelope, tx.signer, height, cached, true);
    if vote.Ok? && AddVote(s.elections, vote.value, height).Ok? {
      AddVoteOk(env, s.elections, vote.value, height);
    }
  }

  // ------------------------------------------------ encryption keys

  /** Key reveal safety: once a committed process has a revealed private key, no vote for it
      is accepted in any later block. */
  lemma NoVoteAfterReveal(env: Env, n: Node, steps: seq<Step>, tx: Tx)
    requires NodeOk(env, n) && tx.payload.VoteTx?
    requires var pid := tx.payload.envelope.processId;
             && pid in n.committed.elections.processes
             && NeedsKeys(n.committed.elections.processes[pid])
             && AnyKey(n.committed.elections.processes[pid].privateKeys)
    requires Run(env, n, steps).height > n.saved
    ensures var m := Run(env, n, steps);
            AddTx(env, m.working, tx, m.height, Cached(m, tx)).error.Some?
  {
    var m, pid := Run(env, n, steps), tx.payload.envelope.processId;
    RunLater(env, n, steps);
    ClosedAfterReveal(n.committed.elections, m.working.elections, pid, n.saved, m.height);
    ClosedRejects(env, m.working, tx, m.height, Cached(m, tx));
  }

  lemma ClosedRejects(env: Env, s: State, tx: Tx, height: uint32, cached: Option<Vote>)
    requires tx.payload.VoteTx? && tx.payload.envelope.processId in s.elections.processes
    requires VoteGate(s.elections.processes[tx.payload.envelope.processId], height).Err?
    ensures AddTx(env, s, tx, height, cached).error.Some?
  {
  }

  lemma ClosedAfterReveal(e: Elections, f: Elections, pid: Bytes, height: uint32, later: uint32)
    requires Later(e, f) && RevealsOk(e.processes, height) && height < later
    requires pid in e.processes && NeedsKeys(e.processes[pid]) && AnyKey(e.processes[pid].privateKeys)
    ensures pid in f.processes && VoteGate(f.processes[pid], later).Err?
  {
    assert RevealOk(e.processes[pid], height);
    OverTakesNoVotes(e.processes[pid], f.processes[pid], height, later);
  }

  /** A delivery publishes and reveals no empty key of a process and does not create it with
      keys already counted, if it is accepted and about that process. */
  predicate KeysGiven(env: Env, n: Node, step: Step, pid: Bytes) {
    step.DeliverTx? ==> WellKeyed(MoveOf(env, n.working, step.tx, n.height, Cached(n, step.tx)), pid)
  }

  predicate KeysGivenIn(env: Env, n: Node, steps: seq<Step>, pid: Bytes)
    decreases |steps|
  {
    steps == [] || (KeysGiven(env, n, steps[0], pid) && KeysGivenIn(env, Next(env, n, steps[0]), steps[1..], pid))
  }

  lemma DeliverKeepsAccounts(env: Env, s: State, tx: Tx, height: uint32, cached: Option<Vote>, pid: Bytes)
    requires AccountedAt(env, s.elections.processes, pid) && CacheFits(tx, cached)
    ensures AccountedAt(env, AddTx(env, s, tx, height, cached).state.elections.processes, pid) <==>
            WellKeyed(MoveOf(env, s, tx, height, cached), pid)
  {
    hide AddTx, Accounted, Enabled, Make, MoveOf, WellKeyed;
    TransactionsMove(env, s, tx, height, cached);
    MoveKeepsAccounts(env, s.elections, MoveOf(env, s, tx, height, cached), height, pid);
  }

  lemma SaveKeepsAccounts(env: Env, e: Elections, height: uint32, pid: Bytes)
    requires Save(env, e, height).Ok? && AccountedAt(env, e.processes, pid)
    ensures AccountedAt(env, Save(env, e, height).value.processes, pid)
  {
  }

  /** Key accounting: in every reachable state the key index of a process is the number of
      keys published minus those revealed, and each revealed key opens the public key in its
      slot, if no empty key of that process was accepted.  (That no key is ever replaced is
      part of `Later`.) */
  lemma {:induction false} KeysAreAccounted(env: Env, n: Node, steps: seq<Step>, pid: Bytes)
    requires CacheOk(n.cache) && KeysGivenIn(env, n, steps, pid)
    requires AccountedAt(env, n.committed.elections.processes, pid) && AccountedAt(env, n.working.elections.processes, pid)
    ensures var m := Run(env, n, steps);
            AccountedAt(env, m.committed.elections.processes, pid) && AccountedAt(env, m.working.elections.processes, pid)
    decreases |steps|
  {
    hide AddTx, Save, MoveOf, WellKeyed, Accounted, VoteEnvelopeCheck, TakesCached;
    if steps != [] {
      match steps[0] {
        case DeliverTx(tx) => DeliverKeepsAccounts(env, n.working, tx, n.height, Cached(n, tx), pid);
        case Commit =>
          if Save(env, n.working.elections, n.height).Ok? {
            SaveKeepsAccounts(env, n.working.elections, n.height, pid);
          }
        case CheckTx(tx) => CheckFillsCache(env, n, tx);
        case _ =>
      }
      KeysAreAccounted(env, Next(env, n, steps[0]), steps[1..], pid);
    }
  }

  /** An oracle that publishes an empty key spoils the account. */
  lemma EmptyKeySpoilsAccount(env: Env, e: Elections, pid: Bytes, slot: uint32, height: uint32)
    requires Enabled(env, e, Publish(pid, slot, []), height) && Accounted(env, e.processes[pid])
    ensures !Accounted(env, Make(env, e, Publish(pid, slot, []), height).processes[pid])
  {
    PublishAccounts(env, e.processes[pid], slot, []);
  }

  // ------------------------------------------------ rolling censuses

  /** If the delivery creates the process, for voters to register, then it starts after the
      current block. */
  predicate CreatesAhead(env: Env, n: Node, step: Step, pid: Bytes) {
    step.DeliverTx? && pid !in n.working.elections.processes && pid in Next(env, n, step).working.elections.processes ==>
      var p := Next(env, n, step).working.elections.processes[pid];
      p.mode.preRegister ==> p.startBlock > n.height
  }

  predicate CreatesAheadIn(env: Env, n: Node, steps: seq<Step>, pid: Bytes)
    decreases |steps|
  {
    steps == [] || (CreatesAhead(env, n, steps[0], pid) && CreatesAheadIn(env, Next(env, n, steps[0]), steps[1..], pid))
  }

  predicate NodeSized(n: Node, pid: Bytes) {
    && SizedAt(n.committed.elections.processes, n.committed.elections.censuses, pid, n.saved + 1)
    && SizedAt(n.working.elections.processes, n.working.elections.censuses, pid, n.height)
  }

  lemma CreatesLater(env: Env, n: Node, tx: Tx, pid: Bytes)
    requires CacheOk(n.cache) && CreatesAhead(env, n, DeliverTx(tx), pid)
    ensures StartsLater(MoveOf(env, n.working, tx, n.height, Cached(n, tx)), pid, n.height)
  {
    hide MoveOf, AddTx;
    TransactionsMove(env, n.working, tx, n.height, Cached(n, tx));
  }

  lemma DeliverKeepsSize(env: Env, n: Node, tx: Tx, pid: Bytes)
    requires ElectionsOk(env, n.working.elections) && CacheOk(n.cache) && CreatesAhead(env, n, DeliverTx(tx), pid)
    requires SizedAt(n.working.elections.processes, n.working.elections.censuses, pid, n.height)
    ensures var f := AddTx(env, n.working, tx, n.height, Cached(n, tx)).state.elections;
            SizedAt(f.processes, f.censuses, pid, n.height)
  {
    hide AddTx, MoveOf, Enabled, Make, ElectionsOk, StartsLater, SizedAt;
    TransactionsMove(env, n.working, tx, n.height, Cached(n, tx));
    CreatesLater(env, n, tx, pid);
    MoveKeepsSize(env, n.working.elections, MoveOf(env, n.working, tx, n.height, Cached(n, tx)), n.height, pid);
  }

  lemma ListedAtStart(env: Env, e: Elections, pid: Bytes)
    requires IndexOk(env, e.processes, e.startIndex) && pid in e.processes
    ensures pid in StartingAt(env, e, e.processes[pid].startBlock)
  {
    assert pid in Listed(e.startIndex, env.startKey(e.processes[pid].startBlock));
  }

  /** Committing the block before a process starts fixes its size. */
  lemma SaveFixesSize(env: Env, e: Elections, height: uint32, pid: Bytes)
    requires IndexOk(env, e.processes, e.startIndex) && SizedAt(e.processes, e.censuses, pid, height) && Save(env, e, height).Ok?
    ensures var f := Save(env, e, height).value;
            SizedAt(f.processes, f.censuses, pid, height + 1)
  {
    if pid in e.processes {
      ListedAtStart(env, e, pid);
      if height < e.processes[pid].startBlock && height + 1 >= e.processes[pid].startBlock {
        assert Add32(height, 1) == e.processes[pid].startBlock;
      }
    }
  }

  lemma NextKeepsSize(env: Env, n: Node, step: Step, pid: Bytes)
    requires NodeOk(env, n) && NodeSized(n, pid) && CreatesAhead(env, n, step, pid)
    ensures NodeSized(Next(env, n, step), pid)
  {
    hide AddTx, Save, VoteEnvelopeCheck, TakesCached, Later, Filed, RevealsOk, RootsOk, CreatesAhead;
    match step
    case DeliverTx(tx) => DeliverKeepsSize(env, n, tx, pid);
    case Commit =>
      SaveOk(env, n.working.elections, n.height);
      SaveFixesSize(env, n.working.elections, n.height, pid);
    case CheckTx(tx) => CheckFillsCache(env, n, tx);
    case _ =>
  }

  /** Rolling census agreement: in every reachable state the census of every process is
      numbered without gaps up to its length, within its limit; and if a process was created
      before the block it starts at, then from that block on, forever, the size it carries is
      the number of keys in its census. */
  lemma {:induction false} RollingCensusAgrees(env: Env, n: Node, steps: seq<Step>, pid: Bytes)
    requires NodeOk(env, n) && NodeSized(n, pid) && CreatesAheadIn(env, n, steps, pid)
    ensures NodeOk(env, Run(env, n, steps)) && NodeSized(Run(env, n, steps), pid)
    decreases |steps|
  {
    hide Next, NodeOk, NodeSized, CreatesAhead, Later;
    if steps != [] {
      NextKeeps(env, n, steps[0]);
      NextKeepsSize(env, n, steps[0], pid);
      RollingCensusAgrees(env, Next(env, n, steps[0]), steps[1..], pid);
    }
  }

  /** The same, spelt out for a process that has started. */
  lemma StartedCensusSize(env: Env, n: Node, steps: seq<Step>, pid: Bytes)
    requires NodeOk(env, n) && NodeSized(n, pid) && CreatesAheadIn(env, n, steps, pid)
    requires var m := Run(env, n, steps);
             && pid in m.working.elections.processes
             && m.working.elections.processes[pid].mode.preRegister
             && m.height >= m.working.elections.processes[pid].startBlock
    ensures var e := Run(env, n, steps).working.elections;
            && pid in e.censuses
            && e.processes[pid].maxCensusSize.Some?
            && e.processes[pid].rollingCensusSize == Some(e.censuses[pid].length)
            && |e.censuses[pid].leaves| == e.censuses[pid].length <= e.processes[pid].maxCensusSize.value
  {
    RollingCensusAgrees(env, n, steps, pid);
    var e := Run(env, n, steps).working.elections;
    CensusLength(e.censuses[pid], e.processes[pid].maxCensusSize.value);
  }

  // ------------------------------------------------ the size never changes after the start

  /** No later block shares the storage key of a start block. */
  ghost predicate OwnKey(env: Env, block: uint32) {
    forall b: uint32 :: env.startKey(b) == env.startKey(block) ==> b == block
  }

  /** The size of a process that has started, whatever it is. */
  predicate CarriesAt(ps: map<Bytes, Process>, pid: Bytes, start: uint32, size: Option<uint64>) {
    pid in ps && ps[pid].startBlock == start && ps[pid].rollingCensusSize == size
  }

  lemma MoveKeepsCarried(env: Env, e: Elections, m: Move, height: uint32, pid: Bytes, start: uint32, size: Option<uint64>)
    requires Enabled(env, e, m, height) && CarriesAt(e.processes, pid, start, size)
    ensures CarriesAt(Make(env, e, m, height).processes, pid, start, size)
  {
  }

  lemma DeliverKeepsCarried(env: Env, s: State, tx: Tx, height: uint32, cached: Option<Vote>, pid: Bytes, start: uint32, size: Option<uint64>)
    requires CarriesAt(s.elections.processes, pid, start, size) && CacheFits(tx, cached)
    ensures CarriesAt(AddTx(env, s, tx, height, cached).state.elections.processes, pid, start, size)
  {
    hide AddTx, MoveOf, Enabled, Make, CarriesAt;
    TransactionsMove(env, s, tx, height, cached);
    MoveKeepsCarried(env, s.elections, MoveOf(env, s, tx, height, cached), height, pid, start, size);
  }

  lemma SaveKeepsCarried(env: Env, e: Elections, height: uint32, pid: Bytes, start: uint32, size: Option<uint64>)
    requires ElectionsOk(env, e) && CarriesAt(e.processes, pid, start, size) && start <= height && height + 1 < TWO32 && OwnKey(env, start)
    requires Save(env, e, height).Ok?
    ensures CarriesAt(Save(env, e, height).value.processes, pid, start, size)
  {
    var block := Add32(height, 1);
    assert env.startKey(block) != env.startKey(start);
    NotListed(env, e, pid, block);
  }

  lemma NotListed(env: Env, e: Elections, pid: Bytes, block: uint32)
    requires IndexOk(env, e.processes, e.startIndex) && pid in e.processes
    requires env.startKey(block) != env.startKey(e.processes[pid].startBlock)
    ensures pid !in StartingAt(env, e, block)
  {
    assert pid !in Listed(e.startIndex, env.startKey(block));
  }

  lemma NextKeepsCarried(env: Env, n: Node, step: Step, pid: Bytes, start: uint32, size: Option<uint64>)
    requires NodeOk(env, n) && OwnKey(env, start) && start <= n.saved && n.height + 1 < TWO32
    requires CarriesAt(n.committed.elections.processes, pid, start, size) && CarriesAt(n.working.elections.processes, pid, start, size)
    ensures var m := Next(env, n, step);
            CarriesAt(m.committed.elections.processes, pid, start, size) && CarriesAt(m.working.elections.processes, pid, start, size)
  {
    hide AddTx, Save, VoteEnvelopeCheck, TakesCached, ElectionsOk, Later, CarriesAt, Filed, RevealsOk, RootsOk;
    match step
    case DeliverTx(tx) => DeliverKeepsCarried(env, n.working, tx, n.height, Cached(n, tx), pid, start, size);
    case Commit =>
      SaveOk(env, n.working.elections, n.height);
      SaveKeepsCarried(env, n.working.elections, n.height, pid, start, size);
    case CheckTx(tx) => CheckFillsCache(env, n, tx);
    case _ =>
  }

  /** From its start on, the size a process carries never changes again in any run. */
  lemma {:induction false} SizeIsFixed(env: Env, n: Node, steps: seq<Step>, pid: Bytes, start: uint32, size: Option<uint64>)
    requires NodeOk(env, n) && OwnKey(env, start) && start <= n.saved && Run(env, n, steps).saved + 2 < TWO32
    requires CarriesAt(n.committed.elections.processes, pid, start, size) && CarriesAt(n.working.elections.processes, pid, start, size)
    ensures var m := Run(env, n, steps);
            CarriesAt(m.committed.elections.processes, pid, start, size) && CarriesAt(m.working.elections.processes, pid, start, size)
    decreases |steps|
  {
    hide ElectionsOk, StateOk, Later, CarriesAt, OwnKey;
    if steps != [] {
      RunKeeps(env, n, steps);
      NextKeeps(env, n, steps[0]);
      NextKeepsCarried(env, n, steps[0], pid, start, size);
      SizeIsFixed(env, Next(env, n, steps[0]), steps[1..], pid, start, size);
    }
  }

  /** A step within a block. */
  predicate InsideBlock(step: Step) {
    !step.BeginBlock? && !step.Commit?
  }

  lemma StepInsideBlock(env: Env, n: Node, step: Step)
    requires NodeOk(env, n) && InsideBlock(step)
    ensures var m := Next(env, n, step);
            m.height == n.height && m.saved == n.saved && m.committed == n.committed && Later(n.working.elections, m.working.elections)
  {
    hide StateOk, Later, AddTx, TakesCached, VoteEnvelopeCheck, Save;
    match step
    case DeliverTx(tx) => DeliverKeeps(env, n.working, tx, n.height, Cached(n, tx));
    case _ => SameLater(n.working.elections);
  }

  /** The rest of a block keeps what a process carries. */
  lemma {:induction false} BlockKeepsCarried(env: Env, n: Node, block: seq<Step>, pid: Bytes, start: uint32, size: Option<uint64>)
    requires NodeOk(env, n) && CarriesAt(n.working.elections.processes, pid, start, size)
    requires forall i :: 0 <= i < |block| ==> InsideBlock(block[i])
    ensures var k := Run(env, n, block);
            && NodeOk(env, k) && k.height == n.height && k.saved == n.saved
            && CarriesAt(k.working.elections.processes, pid, start, size)
            && Later(n.working.elections, k.working.elections)
    decreases |block|
  {
    hide StateOk, Later, CarriesAt, InsideBlock, Next;
    if block == [] {
      SameLater(n.working.elections);
    } else {
      var m := Next(env, n, block[0]);
      NextKeeps(env, n, block[0]);
      StepInsideBlock(env, n, block[0]);
      StepKeepsCarried(env, n, block[0], pid, start, size);
      forall i | 0 <= i < |block| - 1 ensures InsideBlock(block[1..][i]) {
      }
      BlockKeepsCarried(env, m, block[1..], pid, start, size);
      LaterTransitive(n.working.elections, m.working.elections, Run(env, n, block).working.elections);
    }
  }

  lemma StepKeepsCarried(env: Env, n: Node, step: Step, pid: Bytes, start: uint32, size: Option<uint64>)
    requires CacheOk(n.cache) && CarriesAt(n.working.elections.processes, pid, start, size) && InsideBlock(step)
    ensures CarriesAt(Next(env, n, step).working.elections.processes, pid, start, size)
  {
    hide AddTx, Save, VoteEnvelopeCheck, TakesCached, CarriesAt;
    if step.DeliverTx? {
      DeliverKeepsCarried(env, n.working, step.tx, n.height, Cached(n, step.tx), pid, start, size);
    }
  }

  /** The condition is exact, over every run: a process of the current block whose voters
      register and whose size is unset carries, after the rest of the block, its commit and any
      run, the right size from its start on if its start lies above the height of that block,
      and otherwise never gets one. */
  lemma SizedIffStartsLater(env: Env, n: Node, block: seq<Step>, steps: seq<Step>, pid: Bytes)
    requires NodeOk(env, n) && pid in n.working.elections.processes
    requires forall i :: 0 <= i < |block| ==> InsideBlock(block[i])
    requires var p := n.working.elections.processes[pid];
             p.mode.preRegister && p.rollingCensusSize.None? && OwnKey(env, p.startBlock)
    requires Run(env, Next(env, Run(env, n, block), Commit), steps).saved + 2 < TWO32
    ensures var m, start := Run(env, Next(env, Run(env, n, block), Commit), steps), n.working.elections.processes[pid].startBlock;
            && pid in m.working.elections.processes && pid in m.working.elections.censuses
            && (start <= n.height ==> m.working.elections.processes[pid].rollingCensusSize.None?)
            && (m.height >= start ==>
                  (m.working.elections.processes[pid].rollingCensusSize == Some(m.working.elections.censuses[pid].length) <==> start > n.height))
  {
    hide Run, StateOk, CacheOk, Later, OwnKey;
    var start := n.working.elections.processes[pid].startBlock;
    BlockKeepsCarried(env, n, block, pid, start, None);
    var k := Run(env, n, block);
    ModeStays(n.working.elections, k.working.elections, pid);
    CommittedUnsized(env, k, pid, start, steps);
    var c := Next(env, k, Commit);
    RunKeepsTerms(env, c, steps, pid);
    if start > n.height {
      NeverCreated(env, c, steps, pid);
      RollingCensusAgrees(env, c, steps, pid);
    } else {
      SizeIsFixed(env, c, steps, pid, start, None);
    }
  }

  lemma ModeStays(e: Elections, f: Elections, pid: Bytes)
    requires Later(e, f) && pid in e.processes
    ensures pid in f.processes && f.processes[pid].mode == e.processes[pid].mode
  {
  }

  /** The commit of the block of an unsized process. */
  lemma CommittedUnsized(env: Env, k: Node, pid: Bytes, start: uint32, steps: seq<Step>)
    requires NodeOk(env, k) && CarriesAt(k.working.elections.processes, pid, start, None) && OwnKey(env, start)
    requires k.working.elections.processes[pid].mode.preRegister
    requires Run(env, Next(env, k, Commit), steps).saved + 2 < TWO32
    ensures var c := Next(env, k, Commit);
            && NodeOk(env, c) && c.saved == k.height && c.working == c.committed
            && pid in c.committed.elections.processes && c.committed.elections.processes[pid].mode.preRegister
            && c.committed.elections.processes[pid].startBlock == start
            && (start > k.height ==> NodeSized(c, pid))
            && (start <= k.height ==> CarriesAt(c.committed.elections.processes, pid, start, None))
  {
    hide Run, Later, OwnKey, Filed, RevealsOk, RootsOk, CacheOk, VotesOk, ProcessesOk, CensusesOk, IndexOk, Save;
    var e, c := k.working.elections, Next(env, k, Commit);
    CommitKeeps(env, k);
    RunKeeps(env, c, steps);
    SaveKeeps(env, e, k.height);
    ModeStays(e, c.committed.elections, pid);
    StartStays(e, c.committed.elections, pid);
    if start > k.height {
      SaveFixesSize(env, e, k.height, pid);
    } else {
      SaveKeepsCarried(env, e, k.height, pid, start, None);
    }
  }

  lemma StartStays(e: Elections, f: Elections, pid: Bytes)
    requires Later(e, f) && pid in e.processes
    ensures pid in f.processes && f.processes[pid].startBlock == e.processes[pid].startBlock
  {
  }

  lemma RunKeepsTerms(env: Env, n: Node, steps: seq<Step>, pid: Bytes)
    requires NodeOk(env, n) && pid in n.committed.elections.processes && n.committed.elections.processes[pid].mode.preRegister
    ensures var e, p := Run(env, n, steps).working.elections, n.committed.elections.processes[pid];
            && pid in e.processes && pid in e.censuses && e.processes[pid].mode == p.mode && e.processes[pid].startBlock == p.startBlock
  {
    RunKeeps(env, n, steps);
  }

  lemma {:induction false} NeverCreated(env: Env, n: Node, steps: seq<Step>, pid: Bytes)
    requires NodeOk(env, n) && pid in n.committed.elections.processes
    ensures CreatesAheadIn(env, n, steps, pid)
    decreases |steps|
  {
    hide Next, StateOk;
    if steps != [] {
      NextKeeps(env, n, steps[0]);
      NeverCreated(env, Next(env, n, steps[0]), steps[1..], pid);
    }
  }

  /** A second registration of a key by one address passes the check exactly when it declares
      weight zero and would have passed, with weight one, as a first. */
  lemma SecondRegistration(env: Env, e: Elections, tx: Registration, owner: Address, height: uint32)
    requires (tx.processId, owner) in e.usedWeight && e.usedWeight[(tx.processId, owner)] == 1
    ensures var first := e.(usedWeight := e.usedWeight - {(tx.processId, owner)});
            RegisterKeyCheck(env, e, tx, Some(owner), height).Ok? <==>
              tx.weight == Some(0) && RegisterKeyCheck(env, first, tx.(weight := Some(1)), Some(owner), height).Ok?
  {
  }
}
