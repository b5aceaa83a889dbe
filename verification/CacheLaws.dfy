/** The vote cache is transparent: what a node has checked for its mempool never changes what
    its blocks do, so nodes with different caches agree. */
module CacheLaws {
  import opened Common
  import opened Voting
  import opened VotingLaws
  import opened VotingInvariants
  import opened Chain
  import opened Moves
  import opened MoveLaws
  import opened Runs

  // ------------------------------------------------ one delivery

  /** What the proof of a vote is checked against is the same, the census root aside. */
  predicate SameTerms(p: Process, q: Process) {
    && q.envelope == p.envelope && q.censusOrigin == p.censusOrigin && q.rollingCensusRoot == p.rollingCensusRoot
    && q.startBlock == p.startBlock && q.mode == p.mode
  }

  predicate SameBasis(p: Process, q: Process) {
    q.envelope == p.envelope && q.censusOrigin == p.censusOrigin && q.rollingCensusRoot == p.rollingCensusRoot && q.censusRoot == p.censusRoot
  }

  /** A full check of the transaction against the process would find this vote, if it does
      not exist yet. */
  predicate Vouched(env: Env, p: Process, tx: Tx, vote: Vote) {
    && tx.payload.VoteTx?
    && var ve := tx.payload.envelope;
       && VoteNullifier(env, p, ve, tx.signer) == Ok(vote.nullifier)
       && VoteWeight(env, p, ve, tx.signer) == Ok(vote.weight)
       && vote.processId == ve.processId && vote.package == ve.package
       && vote.keyIndexes == (if p.envelope.encryptedVotes then ve.keyIndexes else [])
  }

  lemma VouchedStays(env: Env, p: Process, q: Process, tx: Tx, vote: Vote)
    requires Vouched(env, p, tx, vote) && SameBasis(p, q)
    ensures Vouched(env, q, tx, vote)
  {
  }

  /** The lazy check of a vouched vote decides as the full check does. */
  lemma LazyCheckIsFull(env: Env, e: Elections, tx: Tx, height: uint32, vote: Vote)
    requires tx.payload.VoteTx?
    requires var pid := tx.payload.envelope.processId; pid in e.processes && Vouched(env, e.processes[pid], tx, vote)
    ensures var ve := tx.payload.envelope;
            VoteEnvelopeCheck(env, e, ve, tx.signer, height, Some(vote), true) == VoteEnvelopeCheck(env, e, ve, tx.signer, height, None, true)
  {
  }

  /** After a census update the lazy check still decides as the full check does exactly if
      the proof holds with the same weight against the new census root. */
  lemma StaleCheckIffSameWeight(env: Env, e: Elections, tx: Tx, height: uint32, vote: Vote, was: Process)
    requires Vouched(env, was, tx, vote) && tx.payload.envelope.processId in e.processes
    requires var p := e.processes[tx.payload.envelope.processId];
             p.envelope == was.envelope && p.censusOrigin == was.censusOrigin && VoteGate(p, height).Ok? && !p.envelope.anonymous
    requires EnvelopeExists(e, vote.processId, vote.nullifier) == Ok(false)
    ensures var ve := tx.payload.envelope;
            VoteEnvelopeCheck(env, e, ve, tx.signer, height, Some(vote), true) == VoteEnvelopeCheck(env, e, ve, tx.signer, height, None, true)
            <==> env.verifyProof(was.censusOrigin, e.processes[ve.processId].censusRoot, ve.processId, ve.proof.value, tx.signer.value) == Some(vote.weight)
  {
    var ve := tx.payload.envelope;
    var p := e.processes[ve.processId];
    assert VoteNullifier(env, p, ve, tx.signer) == VoteNullifier(env, was, ve, tx.signer);
  }

  // ------------------------------------------------ deliveries from the cache

  /** The processes that cached votes were checked against vouch for them. */
  ghost predicate CacheVouched(env: Env, cache: map<Tx, Vote>, seen: map<Tx, Process>) {
    forall tx :: tx in cache ==> tx in seen && Vouched(env, seen[tx], tx, cache[tx])
  }

  /** The process each vote was checked against, after a step. */
  function Noted(n: Node, step: Step, seen: map<Tx, Process>): map<Tx, Process> {
    if step.CheckTx? && step.tx.payload.VoteTx? && step.tx !in n.cache && step.tx.payload.envelope.processId in n.working.elections.processes
    then seen[step.tx := n.working.elections.processes[step.tx.payload.envelope.processId]] else seen
  }

  /** A delivery that takes its vote from the cache finds the process as it was when the vote
      was checked, as far as proofs go. */
  predicate Fresh(n: Node, step: Step, seen: map<Tx, Process>) {
    step.DeliverTx? && TakesCached(n, step.tx) ==>
      step.tx in seen && SameBasis(seen[step.tx], n.working.elections.processes[step.tx.payload.envelope.processId])
  }

  predicate FreshRun(env: Env, n: Node, steps: seq<Step>, seen: map<Tx, Process>)
    decreases |steps|
  {
    steps == [] || (Fresh(n, steps[0], seen) && FreshRun(env, Next(env, n, steps[0]), steps[1..], Noted(n, steps[0], seen)))
  }

  lemma StepKeepsVouched(env: Env, n: Node, step: Step, seen: map<Tx, Process>)
    requires CacheVouched(env, n.cache, seen)
    ensures CacheVouched(env, Next(env, n, step).cache, Noted(n, step, seen))
  {
    if step.CheckTx? {
      CheckVouches(env, n, step.tx, seen);
    }
    hide Vouched, AddTx, Save, VoteEnvelopeCheck, TakesCached;
  }

  lemma CheckVouches(env: Env, n: Node, tx: Tx, seen: map<Tx, Process>)
    requires CacheVouched(env, n.cache, seen)
    ensures CacheVouched(env, Next(env, n, CheckTx(tx)).cache, Noted(n, CheckTx(tx), seen))
  {
  }

  /** The process each vote was checked against, after a run. */
  function SeenAfter(env: Env, n: Node, steps: seq<Step>, seen: map<Tx, Process>): map<Tx, Process>
    decreases |steps|
  {
    if steps == [] then seen else SeenAfter(env, Next(env, n, steps[0]), steps[1..], Noted(n, steps[0], seen))
  }

  lemma {:induction false} RunKeepsVouched(env: Env, n: Node, steps: seq<Step>, seen: map<Tx, Process>)
    requires CacheVouched(env, n.cache, seen)
    ensures CacheVouched(env, Run(env, n, steps).cache, SeenAfter(env, n, steps, seen))
    decreases |steps|
  {
    hide Next, CacheVouched, Noted;
    if steps != [] {
      StepKeepsVouched(env, n, steps[0], seen);
      RunKeepsVouched(env, Next(env, n, steps[0]), steps[1..], Noted(n, steps[0], seen));
    }
  }

  /** A node that never caches. */
  function Uncached(n: Node): Node {
    n.(cache := map[])
  }

  predicate InBlock(step: Step) {
    step.BeginBlock? || step.DeliverTx? || step.Commit?
  }

  /** The steps that consensus orders, without the node's own mempool checks and evictions. */
  function Blocks(steps: seq<Step>): seq<Step> {
    if steps == [] then []
    else if InBlock(steps[0]) then [steps[0]] + Blocks(steps[1..])
    else Blocks(steps[1..])
  }

  /** Whatever else the cache holds, a fresh delivery has the same reply and the same effect
      as without it. */
  lemma DeliveryIgnoresCache(env: Env, n: Node, tx: Tx, seen: map<Tx, Process>)
    requires CacheVouched(env, n.cache, seen) && Fresh(n, DeliverTx(tx), seen)
    ensures AddTx(env, n.working, tx, n.height, Cached(n, tx)) == AddTx(env, n.working, tx, n.height, None)
  {
    if TakesCached(n, tx) {
      VouchedStays(env, seen[tx], n.working.elections.processes[tx.payload.envelope.processId], tx, n.cache[tx]);
      LazyCheckIsFull(env, n.working.elections, tx, n.height, n.cache[tx]);
    }
    hide FullVoteCheck, CachedVoteCheck;
  }

  lemma StepIgnoresCache(env: Env, n: Node, step: Step, seen: map<Tx, Process>)
    requires CacheVouched(env, n.cache, seen) && Fresh(n, step, seen)
    ensures Uncached(Next(env, n, step)) == if InBlock(step) then Next(env, Uncached(n), step) else Uncached(n)
  {
    if step.DeliverTx? {
      DeliveryIgnoresCache(env, n, step.tx, seen);
    }
    hide AddTx, Save, VoteEnvelopeCheck;
  }

  /** Cache transparency over whole runs: a node that checks, caches and evicts votes in any
      way, and drops blocks, goes through the blocks as a node without a cache does, if the
      votes it takes from the cache still have the process they were checked against. */
  lemma {:induction false} CacheIsTransparent(env: Env, n: Node, steps: seq<Step>, seen: map<Tx, Process>)
    requires CacheVouched(env, n.cache, seen) && FreshRun(env, n, steps, seen)
    ensures Uncached(Run(env, n, steps)) == Run(env, Uncached(n), Blocks(steps))
    decreases |steps|
  {
    hide Next, CacheVouched, Fresh, Noted;
    if steps != [] {
      var next, rest := Next(env, n, steps[0]), Blocks(steps[1..]);
      StepKeepsVouched(env, n, steps[0], seen);
      StepIgnoresCache(env, n, steps[0], seen);
      CacheIsTransparent(env, next, steps[1..], Noted(n, steps[0], seen));
      if InBlock(steps[0]) {
        assert ([steps[0]] + rest)[1..] == rest;
      }
    }
  }

  // ------------------------------------------------ only the census root can change

  lemma MoveKeepsTerms(env: Env, e: Elections, m: Move, height: uint32, pid: Bytes)
    requires Enabled(env, e, m, height) && pid in e.processes
    ensures pid in Make(env, e, m, height).processes && SameTerms(e.processes[pid], Make(env, e, m, height).processes[pid])
  {
  }

  lemma DeliveryKeepsTerms(env: Env, s: State, tx: Tx, height: uint32, cached: Option<Vote>, pid: Bytes)
    requires CacheFits(tx, cached) && pid in s.elections.processes
    ensures var f := AddTx(env, s, tx, height, cached).state.elections;
            pid in f.processes && SameTerms(s.elections.processes[pid], f.processes[pid])
  {
    hide AddTx, MoveOf, Enabled, Make, SameTerms;
    TransactionsMove(env, s, tx, height, cached);
    MoveKeepsTerms(env, s.elections, MoveOf(env, s, tx, height, cached), height, pid);
  }

  lemma SaveKeepsTerms(env: Env, e: Elections, height: uint32, pid: Bytes)
    requires Save(env, e, height).Ok? && pid in e.processes
    requires RootsOk(e.processes, e.censuses, height) && height >= e.processes[pid].startBlock
    ensures var f := Save(env, e, height).value;
            pid in f.processes && SameTerms(e.processes[pid], f.processes[pid])
  {
  }

  /** A cached vote is for a process that has started and is still on the terms it had when
      the vote was checked. */
  predicate OnTerms(ps: map<Bytes, Process>, height: uint32, tx: Tx, seen: map<Tx, Process>) {
    && tx in seen && tx.payload.VoteTx?
    && var pid := tx.payload.envelope.processId;
       pid in ps && height >= ps[pid].startBlock && SameTerms(seen[tx], ps[pid])
  }

  ghost predicate AllOnTerms(n: Node, seen: map<Tx, Process>) {
    forall tx :: tx in n.cache ==> OnTerms(n.working.elections.processes, n.height, tx, seen)
  }

  /** Every block is saved before the next begins, or the node restarts with an empty cache,
      and a vote taken from the cache finds the census root it was checked against. */
  predicate Saved(n: Node, step: Step, seen: map<Tx, Process>) {
    match step
    case BeginBlock => n.working == n.committed || n.cache == map[]
    case DeliverTx(tx) =>
      TakesCached(n, tx) && tx in seen ==>
        n.working.elections.processes[tx.payload.envelope.processId].censusRoot == seen[tx].censusRoot
    case _ => true
  }

  predicate SavedRun(env: Env, n: Node, steps: seq<Step>, seen: map<Tx, Process>)
    decreases |steps|
  {
    steps == [] || (Saved(n, steps[0], seen) && SavedRun(env, Next(env, n, steps[0]), steps[1..], Noted(n, steps[0], seen)))
  }

  lemma DeliverKeepsTerms(env: Env, n: Node, tx: Tx, seen: map<Tx, Process>)
    requires AllOnTerms(n, seen) && CacheOk(n.cache)
    ensures AllOnTerms(Next(env, n, DeliverTx(tx)), seen)
  {
    var m := Next(env, n, DeliverTx(tx));
    forall c | c in m.cache ensures OnTerms(m.working.elections.processes, m.height, c, seen) {
      assert OnTerms(n.working.elections.processes, n.height, c, seen);
      DeliveryKeepsTerms(env, n.working, tx, n.height, Cached(n, tx), c.payload.envelope.processId);
    }
  }

  lemma CommitKeepsTerms(env: Env, n: Node, seen: map<Tx, Process>)
    requires AllOnTerms(n, seen) && RootsOk(n.working.elections.processes, n.working.elections.censuses, n.height)
    ensures AllOnTerms(Next(env, n, Commit), seen)
  {
    var m := Next(env, n, Commit);
    if Save(env, n.working.elections, n.height).Ok? {
      forall c | c in m.cache ensures OnTerms(m.working.elections.processes, m.height, c, seen) {
        assert OnTerms(n.working.elections.processes, n.height, c, seen);
        SaveKeepsTerms(env, n.working.elections, n.height, c.payload.envelope.processId);
      }
    }
  }

  lemma CheckKeepsTerms(env: Env, n: Node, tx: Tx, seen: map<Tx, Process>)
    requires AllOnTerms(n, seen)
    ensures AllOnTerms(Next(env, n, CheckTx(tx)), Noted(n, CheckTx(tx), seen))
  {
  }

  lemma StepKeepsTerms(env: Env, n: Node, step: Step, seen: map<Tx, Process>)
    requires NodeOk(env, n) && AllOnTerms(n, seen) && Saved(n, step, seen)
    ensures AllOnTerms(Next(env, n, step), Noted(n, step, seen))
    ensures Fresh(n, step, seen)
  {
    hide Later, AddTx, VoteEnvelopeCheck, Save, ElectionsOk, RevealsOk, RootsOk, Filed;
    match step
    case BeginBlock =>
    case DeliverTx(tx) => DeliverKeepsTerms(env, n, tx, seen);
    case CheckTx(tx) => CheckKeepsTerms(env, n, tx, seen);
    case Evict(_) =>
    case Commit => CommitKeepsTerms(env, n, seen);
  }

  /** In a run whose blocks are all saved nothing but the census root of a process can come
      between the check of a vote and its delivery. */
  lemma {:induction false} SavedRunIsFresh(env: Env, n: Node, steps: seq<Step>, seen: map<Tx, Process>)
    requires NodeOk(env, n) && AllOnTerms(n, seen) && SavedRun(env, n, steps, seen)
    ensures FreshRun(env, n, steps, seen)
    decreases |steps|
  {
    hide Next, NodeOk, AllOnTerms, Saved, Fresh, Noted, Later;
    if steps != [] {
      NextKeeps(env, n, steps[0]);
      StepKeepsTerms(env, n, steps[0], seen);
      SavedRunIsFresh(env, Next(env, n, steps[0]), steps[1..], Noted(n, steps[0], seen));
    }
  }

  /** Two nodes that start alike, caches aside, and go through the same blocks, all of them
      saved, agree on every state, whatever each of them checked and evicted in between, if no
      census root changed between the check of a vote and its delivery from the cache. */
  lemma NodesAgree(env: Env, n: Node, steps: seq<Step>, seen: map<Tx, Process>, n': Node, steps': seq<Step>, seen': map<Tx, Process>)
    requires NodeOk(env, n) && CacheVouched(env, n.cache, seen) && AllOnTerms(n, seen) && SavedRun(env, n, steps, seen)
    requires NodeOk(env, n') && CacheVouched(env, n'.cache, seen') && AllOnTerms(n', seen') && SavedRun(env, n', steps', seen')
    requires Uncached(n) == Uncached(n') && Blocks(steps) == Blocks(steps')
    ensures Uncached(Run(env, n, steps)) == Uncached(Run(env, n', steps'))
  {
    hide Run, NodeOk, SavedRun, FreshRun, CacheVouched, AllOnTerms;
    SavedRunIsFresh(env, n, steps, seen);
    SavedRunIsFresh(env, n', steps', seen');
    CacheIsTransparent(env, n, steps, seen);
    CacheIsTransparent(env, n', steps', seen');
  }
}
