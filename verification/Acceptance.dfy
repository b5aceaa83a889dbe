/** What every transaction about processes, votes and keys means: exactly when it is accepted,
    and everything an accepted one changes, without reference to how it is checked. */
module Acceptance {
  import opened Common
  import opened Accounts
  import opened Payments
  import opened PaymentEffects
  import opened Voting
  import opened Chain
  import opened Authority
  import opened VotingLaws
  import opened VotingInvariants
  import opened Runs
  import MoveLaws

  // ------------------------------------------------ votes

  /** A process takes votes: it is ready, the height lies between its start and its last block,
      and its keys, if votes are encrypted, have not all been revealed. */
  predicate TakesVotes(p: Process, height: uint32) {
    && p.status == Ready
    && p.startBlock <= height <= (p.startBlock + p.blockCount) % TWO32
    && !(p.envelope.encryptedVotes && p.keyIndex == Some(0))
  }

  /** The nullifier that a vote is filed under. */
  function NullifierOf(env: Env, p: Process, tx: Tx): Bytes
    requires tx.payload.VoteTx? && (p.envelope.anonymous || tx.signer.Some?)
  {
    if p.envelope.anonymous then tx.payload.envelope.nullifier
    else env.nullifierOf(tx.signer.value, tx.payload.envelope.processId)
  }

  predicate Free(e: Elections, pid: Bytes, nullifier: Bytes) {
    && |pid| == PROCESS_ID_SIZE && |nullifier| == NULLIFIER_SIZE
    && pid in e.votes && nullifier !in e.votes[pid]
  }

  /** The process takes votes, the voter proves some weight in its census, names encryption keys
      if votes are encrypted, and has not voted. */
  ghost predicate MayVote(env: Env, e: Elections, tx: Tx, height: uint32)
    requires tx.payload.VoteTx?
  {
    var ve := tx.payload.envelope;
    && ve.processId in e.processes
    && var p := e.processes[ve.processId];
       && TakesVotes(p, height)
       && (p.envelope.anonymous || tx.signer.Some?)
       && (exists weight :: Eligible(env, p, ve, tx.signer, weight))
       && (p.envelope.encryptedVotes ==> ve.keyIndexes != [])
       && Free(e, ve.processId, NullifierOf(env, p, tx))
  }

  /** A vote that is checked in full is accepted exactly if the voter may vote. */
  lemma VoteAcceptedIff(env: Env, s: State, tx: Tx, height: uint32)
    requires tx.payload.VoteTx?
    ensures AddTx(env, s, tx, height, None).error.None? <==> MayVote(env, s.elections, tx, height)
  {
    var e, ve := s.elections, tx.payload.envelope;
    if ve.processId in e.processes && ve.proof.Some? {
      var p := e.processes[ve.processId];
      if p.envelope.anonymous {
        assert Eligible(env, p, ve, tx.signer, 1) <==> env.verifyZk(ve.proof.value, ve.processId, p.rollingCensusRoot, ve.nullifier, ve.package);
      } else if tx.signer.Some? {
        var w := env.verifyProof(p.censusOrigin, p.censusRoot, ve.processId, ve.proof.value, tx.signer.value);
        assert w.Some? ==> Eligible(env, p, ve, tx.signer, w.value);
      }
    }
  }

  /** A vote from the cache is accepted exactly if its process takes votes and nobody has voted
      under its nullifier. */
  lemma CachedVoteAcceptedIff(env: Env, s: State, tx: Tx, height: uint32, vote: Vote)
    requires tx.payload.VoteTx? && vote.processId == tx.payload.envelope.processId
    ensures var e, pid := s.elections, tx.payload.envelope.processId;
            var r := AddTx(env, s, tx, height, Some(vote));
            && (r.error.None? <==>
                  && pid in e.processes && TakesVotes(e.processes[pid], height)
                  && (e.processes[pid].envelope.anonymous || tx.signer.Some?)
                  && Free(e, pid, vote.nullifier))
            && (r.error.None? ==>
                  r.state == s.(elections := e.(votes := e.votes[pid := e.votes[pid][vote.nullifier := vote.(height := height)]],
                                                voteCount := (e.voteCount + 1) % TWO64)))
            && (r.error.Some? ==> r.state == s)
  {
  }

  /** The vote that an accepted transaction stores. */
  lemma VoteStored(env: Env, s: State, tx: Tx, height: uint32)
    requires tx.payload.VoteTx?
    ensures var r, e, ve := AddTx(env, s, tx, height, None), s.elections, tx.payload.envelope;
            && (r.error.Some? ==> r.state == s)
            && (r.error.None? ==>
                  && ve.processId in e.processes && ve.processId in e.votes
                  && var p := e.processes[ve.processId];
                     && (p.envelope.anonymous || tx.signer.Some?)
                     && var n := NullifierOf(env, p, tx);
                        exists weight :: Eligible(env, p, ve, tx.signer, weight) &&
                          var vote := Vote(ve.processId, n, ve.package, weight, if p.envelope.encryptedVotes then ve.keyIndexes else [], height);
                          r.state == s.(elections := e.(votes := e.votes[ve.processId := e.votes[ve.processId][n := vote]],
                                                        voteCount := (e.voteCount + 1) % TWO64)))
  {
    var r, e, ve := AddTx(env, s, tx, height, None), s.elections, tx.payload.envelope;
    if r.error.None? {
      var p := e.processes[ve.processId];
      var n := NullifierOf(env, p, tx);
      var weight := r.state.elections.votes[ve.processId][n].weight;
      assert Eligible(env, p, ve, tx.signer, weight);
    }
  }

  /** A mempool check keeps a vote exactly if the node does not hold it yet, its process takes
      votes, and it would be accepted as far as the voter goes. */
  lemma CheckKeepsIff(env: Env, n: Node, tx: Tx)
    requires tx.payload.VoteTx? && n.working.elections.votes.Keys == n.working.elections.processes.Keys
    ensures var m := Next(env, n, CheckTx(tx));
            && (tx !in n.cache ==> (tx in m.cache <==> AddTx(env, n.working, tx, n.height, None).error.None?))
            && m == n.(cache := m.cache) && (forall c :: c != tx ==> (c in m.cache <==> c in n.cache) && (c in n.cache ==> m.cache[c] == n.cache[c]))
            && (tx in n.cache ==> m.cache == n.cache)
  {
  }

  /** A delivery takes its own vote out of the cache exactly if its process takes votes and the
      vote can be attributed, accepted or not, and touches no other. */
  lemma DeliveryDropsIff(env: Env, n: Node, tx: Tx)
    ensures var m := Next(env, n, DeliverTx(tx));
            && (tx in m.cache <==>
                  && tx in n.cache
                  && !(&& tx.payload.VoteTx? && tx.payload.envelope.processId in n.working.elections.processes
                       && var p := n.working.elections.processes[tx.payload.envelope.processId];
                          TakesVotes(p, n.height) && (p.envelope.anonymous || tx.signer.Some?)))
            && (forall c :: c in m.cache ==> c in n.cache && m.cache[c] == n.cache[c])
            && (forall c :: c in n.cache && c != tx ==> c in m.cache)
  {
    hide AddTx;
  }

  // ------------------------------------------------ senders

  /** The signer has an account and the transaction carries its nonce. */
  predicate BySender(s: State, signer: Option<Address>, nonce: uint32) {
    && signer.Some? && signer.value != ZERO_ADDRESS && signer.value in s.ledger.accounts
    && nonce == s.ledger.accounts[signer.value].nonce
  }

  /** The sender, and nobody else, has paid the fee. */
  predicate Paid(l: Ledger, l': Ledger, a: Address, t: TxType) {
    && HasPrice(l, t) && a in l.accounts
    && l' == l.(accounts := l'.accounts)
    && Flowed(l, l', [Flow(Some(a), BURN_ADDRESS, l.costs[t])])
    && OneProfile(l, l', a, AfterProcess(l.accounts[a], t))
  }

  /** The outcome of a transaction about a process that passed its checks: the elections change,
      and it is accepted exactly if the fee is paid. */
  lemma ElectAndPayEffect(s: State, e: Elections, a: Address, t: TxType)
    requires a != BURN_ADDRESS && a in s.ledger.accounts && t != COLLECT_FAUCET
    ensures var r := ElectAndPay(s, Ok(e), a, t);
            && (r.error.None? <==> Affords(s.ledger, a, t))
            && r.state.elections == e
            && (r.error.None? ==> Paid(s.ledger, r.state.ledger, a, t))
  {
    hide PayForProcess, Flowed, OneProfile;
    ProcessFeeEffect(s.ledger, a, t);
  }

  // ------------------------------------------------ new processes

  predicate Supported(env: Env, p: Process) {
    && p.mode.preRegister == p.envelope.anonymous && !p.envelope.serial
    && (p.mode.preRegister ==> p.maxCensusSize.Some? && 0 < p.maxCensusSize.value <= env.maxCircuitSize)
  }

  /** An oracle may choose the identifier; otherwise it is derived from the sender, the kind of
      process and the number of processes the sender has created. */
  function NewId(env: Env, s: State, tx: Tx): Bytes
    requires tx.payload.NewProcessTx? && tx.signer.Some? && tx.signer.value in s.ledger.accounts
  {
    var p, a := tx.payload.process, tx.signer.value;
    if a in s.ledger.oracles && tx.payload.chosenId.Some? then tx.payload.chosenId.value
    else env.processIdOf(a, p.censusOrigin, p.envelope, s.ledger.accounts[a].processIndex)
  }

  predicate MayCreate(env: Env, s: State, tx: Tx, height: uint32)
    requires tx.payload.NewProcessTx?
  {
    var p := tx.payload.process;
    && BySender(s, tx.signer, tx.payload.nonce)
    && tx.payload.maxCount > 0 && p.blockCount > 0 && (p.startBlock <= 1 || height <= p.startBlock)
    && s.ledger.oracles != {} && (p.entity == tx.signer.value || tx.signer.value in s.ledger.oracles)
    && (p.censusOrigin == UnknownOrigin ==> tx.signer.value in s.ledger.oracles && tx.payload.chosenId.Some?)
    && Supported(env, p) && NewId(env, s, tx) !in s.elections.processes
  }

  /** The process as it is stored: it starts where it asks to, or with the next block, and has
      empty key slots if it needs keys. */
  predicate StoredAs(p: Process, q: Process, height: uint32) {
    && q == p.(startBlock := q.startBlock, publicKeys := q.publicKeys, privateKeys := q.privateKeys, rollingCensusRoot := q.rollingCensusRoot)
    && q.startBlock == (if p.startBlock > 1 then p.startBlock else (height + 1) % TWO32)
    && (if p.envelope.encryptedVotes || p.envelope.anonymous then Blank(q.publicKeys) && Blank(q.privateKeys)
        else q.publicKeys == p.publicKeys && q.privateKeys == p.privateKeys)
    && q.rollingCensusRoot == (if p.mode.preRegister then map[] else p.rollingCensusRoot)
  }

  predicate Blank(keys: seq<Bytes>) {
    |keys| == MAX_KEY_INDEX && forall i :: 0 <= i < |keys| ==> keys[i] == []
  }

  /** The elections with one more process: no votes, an empty census if voters register, and
      an entry in the index of its start block. */
  predicate AddedTo(env: Env, e: Elections, f: Elections, pid: Bytes, q: Process) {
    && f.processes == e.processes[pid := q] && f.votes == e.votes[pid := map[]]
    && f.voteCount == e.voteCount && f.usedWeight == e.usedWeight
    && f.censuses == (if q.mode.preRegister then e.censuses[pid := Census(map[], 0)] else e.censuses)
    && var key := env.startKey(q.startBlock);
       f.startIndex == e.startIndex[key := (if key in e.startIndex then e.startIndex[key] else []) + [pid]]
  }

  lemma CreationChecked(env: Env, s: State, tx: Tx, height: uint32)
    requires tx.payload.NewProcessTx?
    ensures var c, l := NewProcessCheck(env, s, tx, height), s.ledger;
            && (c.Ok? <==> MayCreate(env, s, tx, height) && HasPrice(l, NEW_PROCESS) && l.costs[NEW_PROCESS] <= l.accounts[tx.signer.value].balance)
            && (c.Ok? ==>
                  && c.value.pid == NewId(env, s, tx) && tx.signer == Some(c.value.sender)
                  && StoredAs(tx.payload.process, if c.value.process.mode.preRegister then c.value.process.(rollingCensusRoot := map[]) else c.value.process, height))
  {
  }

  lemma CreationAdded(env: Env, e: Elections, pid: Bytes, p: Process)
    requires pid !in e.processes && p.mode.preRegister == p.envelope.anonymous
    ensures var f := AddProcess(env, e, pid, p);
            && f.Ok? && pid in f.value.processes
            && f.value.processes[pid] == (if p.mode.preRegister then p.(rollingCensusRoot := map[]) else p)
            && AddedTo(env, e, f.value, pid, f.value.processes[pid])
  {
  }

  /** A process is created exactly if its sender may, it is of a supported kind, does not start
      in the past, has a free identifier and its fee is paid. */
  lemma NewProcessEffect(env: Env, s: State, tx: Tx, height: uint32)
    requires tx.payload.NewProcessTx? && tx.signer != Some(BURN_ADDRESS)
    ensures var r := AddTx(env, s, tx, height, None);
            && (r.error.None? <==> MayCreate(env, s, tx, height) && Affords(s.ledger, tx.signer.value, NEW_PROCESS))
            && (r.error.None? ==>
                  var pid := NewId(env, s, tx);
                  && pid in r.state.elections.processes
                  && StoredAs(tx.payload.process, r.state.elections.processes[pid], height)
                  && AddedTo(env, s.elections, r.state.elections, pid, r.state.elections.processes[pid])
                  && Paid(s.ledger, r.state.ledger, tx.signer.value, NEW_PROCESS))
            && (r.error.Some? && (HasPrice(s.ledger, NEW_PROCESS) ==> Burns(s.ledger, s.ledger.costs[NEW_PROCESS], 0)) ==> r.state == s)
  {
    hide PayForProcess, Flowed, OneProfile, ElectAndPay, NewProcessCheck, AddProcess, AddedTo, Blank;
    var c := NewProcessCheck(env, s, tx, height);
    CreationChecked(env, s, tx, height);
    if c.Ok? {
      CreationAdded(env, s.elections, c.value.pid, c.value.process);
      ElectAndPayEffect(s, AddProcess(env, s.elections, c.value.pid, c.value.process).value, c.value.sender, NEW_PROCESS);
    }
  }

  // ------------------------------------------------ changes of a process

  /** The owner of the process, or an oracle, has signed. */
  predicate ByAuthority(s: State, tx: Tx, pid: Bytes) {
    && pid in s.elections.processes && |pid| == PROCESS_ID_SIZE && tx.signer.Some?
    && (s.elections.processes[pid].entity == tx.signer.value || tx.signer.value in s.ledger.oracles)
  }

  function LastBlock(p: Process): nat {
    (p.startBlock + p.blockCount) % TWO32
  }

  /** The statuses a process may be given at a height. */
  predicate MayBecome(p: Process, next: Status, height: uint32) {
    match next
    case Ready => p.status == Paused
    case Ended => p.status == Ready && (p.mode.interruptible || height > LastBlock(p))
    case Canceled => p.status == Paused || (p.status in {Ready, Unknown} && p.mode.interruptible)
    case Paused => p.status == Ready && p.mode.interruptible
    case Results => p.status == Ended || (p.status == Ready && height < LastBlock(p))
    case Unknown => false
  }

  /** An oracle that does not own the process reports its own results for it, once, when the
      process has ended or its last block has come. */
  predicate MayReport(s: State, tx: Tx, p: Process, pid: Bytes, result: Option<ProcessResult>, height: uint32) {
    && (p.status in {Ended, Results} || (p.status == Ready && LastBlock(p) <= height))
    && tx.signer.Some? && tx.signer.value != p.entity && tx.signer.value in s.ledger.oracles
    && result.Some? && result.value.oracle == tx.signer && result.value.processId == pid && result.value.entity == p.entity
    && forall i :: 0 <= i < |p.results| && p.results[i].Some? ==> p.results[i].value.oracle != tx.signer
  }

  /** The census of a process that allows it is replaced by another one, with its address. */
  predicate MayReplaceCensus(p: Process, root: Option<Bytes>, uri: string) {
    && p.mode.dynamicCensus && p.censusOrigin in {OffChainTree, OffChainTreeWeighted, OffChainCA}
    && p.status in {Ready, Paused}
    && root.Some? && root.value != p.censusRoot && uri != ""
  }

  predicate MayAct(s: State, tx: Tx, height: uint32)
    requires tx.payload.SetProcessTx?
  {
    var pid := tx.payload.processId;
    && ByAuthority(s, tx, pid) && BySender(s, tx.signer, tx.payload.nonce)
    && var p := s.elections.processes[pid];
       match tx.payload.action
       case SetStatus(next) => MayBecome(p, next, height)
       case SetResults(result) => MayReport(s, tx, p, pid, result, height)
       case SetCensus(root, uri) => MayReplaceCensus(p, root, uri)
       case SetQuestionIndex => false
  }

  /** The process after an action; the first results come behind two empty slots per oracle. */
  predicate Acted(p: Process, q: Process, a: Action, oracles: nat) {
    match a
    case SetStatus(next) => q == p.(status := next)
    case SetResults(result) =>
      && q == p.(status := Results, results := q.results)
      && |q.results| == (if p.results == [] then 2 * oracles else |p.results|) + 1
      && q.results[|q.results| - 1] == result
      && forall i :: 0 <= i < |q.results| - 1 ==> q.results[i] == if p.results == [] then None else p.results[i]
    case SetCensus(root, uri) => root.Some? && q == p.(censusRoot := root.value, censusURI := uri)
    case SetQuestionIndex => false
  }

  function ActionPrice(a: Action): TxType {
    match a
    case SetStatus(_) => SET_PROCESS_STATUS
    case SetResults(_) => SET_PROCESS_RESULTS
    case SetCensus(_, _) => SET_PROCESS_CENSUS
    case SetQuestionIndex => SET_PROCESS_QUESTION_INDEX
  }

  lemma ActionEffect(e: Elections, pid: Bytes, a: Action, oracles: nat, height: uint32)
    requires pid in e.processes && Act(e, pid, a, oracles, height).Ok?
    ensures var f := Act(e, pid, a, oracles, height).value;
            && pid in f.processes && f == e.(processes := e.processes[pid := f.processes[pid]])
            && Acted(e.processes[pid], f.processes[pid], a, oracles)
  {
  }

  lemma ActIff(s: State, tx: Tx, height: uint32)
    requires tx.payload.SetProcessTx?
    ensures var l, pid, a := s.ledger, tx.payload.processId, tx.payload.action;
            SetProcessCheck(s, tx).Ok? && Act(s.elections, pid, a, |l.oracles|, height).Ok? <==>
            && MayAct(s, tx, height) && HasPrice(l, ActionPrice(a)) && l.costs[ActionPrice(a)] <= l.accounts[tx.signer.value].balance
  {
  }

  /** A process changes exactly if somebody with authority asks for what is allowed and pays the
      price of the action, and then by that action only. */
  lemma SetProcessEffect(env: Env, s: State, tx: Tx, height: uint32)
    requires tx.payload.SetProcessTx? && tx.signer != Some(BURN_ADDRESS)
    ensures var r, pid, t := AddTx(env, s, tx, height, None), tx.payload.processId, ActionPrice(tx.payload.action);
            && (r.error.None? <==> MayAct(s, tx, height) && Affords(s.ledger, tx.signer.value, t))
            && (r.error.None? ==>
                  && pid in r.state.elections.processes
                  && Acted(s.elections.processes[pid], r.state.elections.processes[pid], tx.payload.action, |s.ledger.oracles|)
                  && r.state.elections == s.elections.(processes := s.elections.processes[pid := r.state.elections.processes[pid]])
                  && Paid(s.ledger, r.state.ledger, tx.signer.value, t))
            && (r.error.Some? && (HasPrice(s.ledger, t) ==> Burns(s.ledger, s.ledger.costs[t], 0)) ==> r.state == s)
  {
    hide PayForProcess, Flowed, OneProfile, ElectAndPay, Act, SetProcessCheck, MayAct, Acted;
    var e, pid, a, oracles := s.elections, tx.payload.processId, tx.payload.action, |s.ledger.oracles|;
    ActIff(s, tx, height);
    SetProcessStep(env, s, tx, height);
    if SetProcessCheck(s, tx).Ok? && Act(e, pid, a, oracles, height).Ok? {
      ActTarget(s, tx, height);
      ActionEffect(e, pid, a, oracles, height);
      ElectAndPayEffect(s, Act(e, pid, a, oracles, height).value, tx.signer.value, ActionPrice(a));
    }
  }

  lemma ActTarget(s: State, tx: Tx, height: uint32)
    requires tx.payload.SetProcessTx? && SetProcessCheck(s, tx).Ok?
    ensures tx.payload.processId in s.elections.processes && tx.signer == Some(SetProcessCheck(s, tx).value) && tx.signer.value in s.ledger.accounts
  {
  }

  lemma SetProcessStep(env: Env, s: State, tx: Tx, height: uint32)
    requires tx.payload.SetProcessTx?
    ensures var check, a := SetProcessCheck(s, tx), tx.payload.action;
            var f := Act(s.elections, tx.payload.processId, a, |s.ledger.oracles|, height);
            var r := AddTx(env, s, tx, height, None);
            && (check.Err? || f.Err? ==> r.error.Some? && r.state == s)
            && (check.Ok? && f.Ok? ==> r == ElectAndPay(s, Ok(f.value), check.value, ActionPrice(a)))
  {
    hide Act, SetProcessCheck, PayForProcess;
  }

  // ------------------------------------------------ keys of a process

  /** An oracle with an account has signed for a process that needs keys. */
  predicate ByKeyKeeper(s: State, tx: Tx, pid: Bytes) {
    && pid in s.elections.processes && |pid| == PROCESS_ID_SIZE
    && (s.elections.processes[pid].envelope.encryptedVotes || s.elections.processes[pid].envelope.anonymous)
    && tx.signer.Some? && tx.signer.value in s.ledger.oracles && tx.signer.value in s.ledger.accounts
  }

  predicate Slot(keys: seq<Bytes>, index: Option<uint32>) {
    index.Some? && 1 <= index.value <= MAX_KEY_INDEX && index.value < |keys|
  }

  function OneProcess(s: State, pid: Bytes, q: Process): State {
    s.(elections := s.elections.(processes := s.elections.processes[pid := q]))
  }

  /** A key is published exactly if a key keeper brings it for an empty slot, before the process
      has started or been stopped; it fills the slot and is counted. */
  lemma PublishEffect(env: Env, s: State, tx: Tx, height: uint32)
    requires tx.payload.AddProcessKeysTx?
    ensures var r, pid, index, key := AddTx(env, s, tx, height, None), tx.payload.processId, tx.payload.index, tx.payload.key;
            && (r.error.None? <==>
                  && ByKeyKeeper(s, tx, pid)
                  && var p := s.elections.processes[pid];
                     && height <= p.startBlock && p.status !in {Canceled, Ended, Results}
                     && Slot(p.publicKeys, index) && p.publicKeys[index.value] == [] && key.Some?)
            && (r.error.None? ==>
                  var p := s.elections.processes[pid];
                  r.state == OneProcess(s, pid, p.(publicKeys := p.publicKeys[index.value := key.value],
                                                   keyIndex := Some(((if p.keyIndex.Some? then p.keyIndex.value else 0) + 1) % TWO32))))
            && (r.error.Some? ==> r.state == s)
  {
  }

  /** A private key is revealed exactly if a key keeper brings the one that opens the public key
      of its slot, when the process is over; it fills its slot and is no longer counted. */
  lemma RevealEffect(env: Env, s: State, tx: Tx, height: uint32)
    requires tx.payload.RevealProcessKeysTx?
    ensures var r, pid, index, key := AddTx(env, s, tx, height, None), tx.payload.processId, tx.payload.index, tx.payload.key;
            && (r.error.None? <==>
                  && ByKeyKeeper(s, tx, pid)
                  && var p := s.elections.processes[pid];
                     && (LastBlock(p) <= height || p.status in {Ended, Canceled})
                     && Slot(p.publicKeys, index) && Slot(p.privateKeys, index) && key.Some?
                     && p.privateKeys[index.value] == [] && p.publicKeys[index.value] != []
                     && env.publicKeyOf(key.value) == Some(p.publicKeys[index.value])
                     && p.keyIndex.Some? && p.keyIndex.value > 0)
            && (r.error.None? ==>
                  var p := s.elections.processes[pid];
                  r.state == OneProcess(s, pid, p.(privateKeys := p.privateKeys[index.value := key.value], keyIndex := Some(p.keyIndex.value - 1))))
            && (r.error.Some? ==> r.state == s)
  {
  }

  // ------------------------------------------------ registrations

  /** The weight an address has used to register keys. */
  function Used(e: Elections, pid: Bytes, a: Address): int {
    if (pid, a) in e.usedWeight then e.usedWeight[(pid, a)] else 0
  }

  /** A voter who proves enough weight registers a key of the right size before the process
      starts; what is used comes to one. */
  predicate MayRegister(env: Env, e: Elections, r: Registration, signer: Option<Address>, height: uint32) {
    && r.processId in e.processes && r.processId in e.censuses
    && var p := e.processes[r.processId];
       && p.mode.preRegister && p.envelope.anonymous && p.status == Ready && height < p.startBlock
       && p.maxCensusSize.Some? && e.censuses[r.processId].length < p.maxCensusSize.value
       && r.proof.Some? && signer.Some? && |r.newKey| == CENSUS_KEY_SIZE
       && var weight := env.verifyProof(p.censusOrigin, p.censusRoot, r.processId, r.proof.value, signer.value);
          weight.Some? && weight.value >= 1 && r.weight.Some? && Used(e, r.processId, signer.value) + r.weight.value == 1
  }

  /** A key is registered exactly if its owner may, under the next number of the census. */
  lemma RegisterEffect(env: Env, s: State, tx: Tx, height: uint32)
    requires tx.payload.RegisterKeyTx?
    ensures var r, e, reg := AddTx(env, s, tx, height, None), s.elections, tx.payload.registration;
            && (r.error.None? <==>
                  MayRegister(env, e, reg, tx.signer, height) && e.censuses[reg.processId].length !in e.censuses[reg.processId].leaves)
            && (r.error.None? ==>
                  var c := e.censuses[reg.processId];
                  r.state == s.(elections := e.(
                    usedWeight := e.usedWeight[(reg.processId, tx.signer.value) := 1],
                    censuses := e.censuses[reg.processId := Census(c.leaves[c.length := reg.newKey], (c.length + 1) % TWO64)])))
            && (!MayRegister(env, e, reg, tx.signer, height) ==> r.state == s)
  {
  }

  // ------------------------------------------------ the end of a block

  /** A process at the end of a block: if its voters register it gets the root of its census,
      and its size if the next block is one that its start block is filed with. */
  function AtBlockEnd(env: Env, e: Elections, pid: Bytes, height: uint32): Process
    requires pid in e.processes && (e.processes[pid].mode.preRegister ==> pid in e.censuses)
  {
    var p := e.processes[pid];
    if !p.mode.preRegister then p
    else p.(rollingCensusRoot := e.censuses[pid].leaves,
            rollingCensusSize := if env.startKey(p.startBlock) == env.startKey((height + 1) % TWO32) then Some(e.censuses[pid].length) else p.rollingCensusSize)
  }

  /** The end of a block changes nothing but what the processes know of their censuses. */
  lemma SaveEffect(env: Env, e: Elections, height: uint32)
    requires ElectionsOk(env, e)
    ensures var r := Save(env, e, height);
            && r.Ok? && r.value == e.(processes := r.value.processes) && r.value.processes.Keys == e.processes.Keys
            && forall pid :: pid in e.processes ==> (e.processes[pid].mode.preRegister ==> pid in e.censuses) && r.value.processes[pid] == AtBlockEnd(env, e, pid, height)
  {
    hide VotesOk, ProcessesOk, CensusOk, IndexOk;
    SaveOk(env, e, height);
    forall pid | pid in e.processes
      ensures pid in StartingAt(env, e, Add32(height, 1)) <==> env.startKey(e.processes[pid].startBlock) == env.startKey((height + 1) % TWO32)
    {
      ListedIff(env, e, pid, Add32(height, 1));
    }
  }

  lemma ListedIff(env: Env, e: Elections, pid: Bytes, block: uint32)
    requires IndexOk(env, e.processes, e.startIndex) && pid in e.processes
    ensures pid in StartingAt(env, e, block) <==> env.startKey(e.processes[pid].startBlock) == env.startKey(block)
  {
    assert StartingAt(env, e, block) == Listed(e.startIndex, env.startKey(block));
    assert pid in Listed(e.startIndex, env.startKey(e.processes[pid].startBlock));
    assert pid in Listed(e.startIndex, env.startKey(block)) ==> env.startKey(block) == env.startKey(e.processes[pid].startBlock);
  }

  /** A block works on the last commit, at the height after it, and its commit is the next
      version, of what its deliveries left with the censuses of `SaveEffect`. */
  lemma BlockEffect(env: Env, n: Node, block: seq<Step>)
    requires NodeOk(env, n) && n.saved + 1 < TWO32 && forall i :: 0 <= i < |block| ==> InsideBlock(block[i])
    ensures var b := Next(env, n, BeginBlock);
            var k := Run(env, b, block);
            var c := Next(env, k, Commit);
            && b.working == n.committed && b.cache == n.cache
            && k.height == n.saved + 1 && k.committed == n.committed && k.saved == n.saved
            && c.saved == n.saved + 1 && c.height == c.saved && c.working == c.committed && c.cache == k.cache
            && c.committed.ledger == k.working.ledger && Save(env, k.working.elections, n.saved + 1) == Ok(c.committed.elections)
  {
    hide StateOk, Later, InsideBlock, AddTx, Save, Run, VoteEnvelopeCheck, TakesCached;
    var b := Next(env, n, BeginBlock);
    NextKeeps(env, n, BeginBlock);
    BlockStays(env, b, block);
    SaveKeeps(env, Run(env, b, block).working.elections, Run(env, b, block).height);
  }

  lemma {:induction false} BlockStays(env: Env, n: Node, block: seq<Step>)
    requires NodeOk(env, n) && forall i :: 0 <= i < |block| ==> InsideBlock(block[i])
    ensures var k := Run(env, n, block);
            NodeOk(env, k) && k.height == n.height && k.saved == n.saved && k.committed == n.committed
    decreases |block|
  {
    hide StateOk, Later, InsideBlock, Next, CacheOk;
    if block != [] {
      NextKeeps(env, n, block[0]);
      StepInsideBlock(env, n, block[0]);
      forall i | 0 <= i < |block| - 1 ensures InsideBlock(block[1..][i]) {
      }
      BlockStays(env, Next(env, n, block[0]), block[1..]);
    }
  }

  /** An eviction takes the named votes out of the cache and nothing else. */
  lemma EvictEffect(env: Env, n: Node, txs: set<Tx>)
    ensures var m := Next(env, n, Evict(txs));
            && m == n.(cache := m.cache)
            && (forall tx :: tx in m.cache <==> tx in n.cache && tx !in txs)
            && forall tx :: tx in m.cache ==> m.cache[tx] == n.cache[tx]
  {
  }

  // ------------------------------------------------ an eligible vote counts

  /** A vote of this package, with an eligible weight, is stored. */
  ghost predicate Counted(env: Env, e: Elections, p: Process, tx: Tx, height: uint32)
    requires tx.payload.VoteTx? && (p.envelope.anonymous || tx.signer.Some?)
  {
    var ve, n := tx.payload.envelope, NullifierOf(env, p, tx);
    && ve.processId in e.votes && n in e.votes[ve.processId]
    && var vote := e.votes[ve.processId][n];
       Eligible(env, p, ve, tx.signer, vote.weight) && vote.package == ve.package && vote.height == height
  }

  lemma CountedLater(env: Env, e: Elections, f: Elections, p: Process, tx: Tx, height: uint32)
    requires tx.payload.VoteTx? && (p.envelope.anonymous || tx.signer.Some?) && Counted(env, e, p, tx, height) && Later(e, f)
    requires tx.payload.envelope.processId in e.processes
    ensures Counted(env, f, p, tx, height)
  {
    hide Eligible, LaterProcess;
  }

  /** An eligible vote counts, for good: delivered to a node that does not hold it in its cache,
      it is accepted, and after any rest of the block, its commit and any run it is in every
      committed and current state as it was cast. */
  lemma EligibleVoteCounts(env: Env, n: Node, tx: Tx, block: seq<Step>, steps: seq<Step>)
    requires NodeOk(env, n) && tx.payload.VoteTx? && tx !in n.cache && MayVote(env, n.working.elections, tx, n.height)
    requires forall i :: 0 <= i < |block| ==> InsideBlock(block[i])
    ensures var m := Run(env, Next(env, Run(env, Next(env, n, DeliverTx(tx)), block), Commit), steps);
            var p := n.working.elections.processes[tx.payload.envelope.processId];
            Counted(env, m.committed.elections, p, tx, n.height) && Counted(env, m.working.elections, p, tx, n.height)
  {
    hide Run, Next, NodeOk, AddTx, TakesVotes, Free, Counted, Later, InsideBlock;
    var pid := tx.payload.envelope.processId;
    var p := n.working.elections.processes[pid];
    var d := Next(env, n, DeliverTx(tx));
    DeliveredIsCounted(env, n, tx);
    NextKeeps(env, n, DeliverTx(tx));
    BlockIsLater(env, d, block);
    var k := Run(env, d, block);
    CountedLater(env, d.working.elections, k.working.elections, p, tx, n.height);
    PidStays(d.working.elections, k.working.elections, pid);
    CommitIsLater(env, k);
    var c := Next(env, k, Commit);
    CountedLater(env, k.working.elections, c.committed.elections, p, tx, n.height);
    PidStays(k.working.elections, c.committed.elections, pid);
    RunKeeps(env, c, steps);
    CountedLater(env, c.committed.elections, Run(env, c, steps).committed.elections, p, tx, n.height);
    CountedLater(env, c.committed.elections, Run(env, c, steps).working.elections, p, tx, n.height);
  }

  lemma PidStays(e: Elections, f: Elections, pid: Bytes)
    requires Later(e, f) && pid in e.processes
    ensures pid in f.processes
  {
  }

  lemma DeliveredIsCounted(env: Env, n: Node, tx: Tx)
    requires tx.payload.VoteTx? && tx !in n.cache && MayVote(env, n.working.elections, tx, n.height)
    ensures var e, pid := Next(env, n, DeliverTx(tx)).working.elections, tx.payload.envelope.processId;
            pid in e.processes && Counted(env, e, n.working.elections.processes[pid], tx, n.height)
  {
    hide AddTx, VoteGate, TakesCached;
    VoteAcceptedIff(env, n.working, tx, n.height);
    VoteStored(env, n.working, tx, n.height);
  }

  lemma {:induction false} BlockIsLater(env: Env, n: Node, block: seq<Step>)
    requires NodeOk(env, n) && forall i :: 0 <= i < |block| ==> InsideBlock(block[i])
    ensures NodeOk(env, Run(env, n, block)) && Later(n.working.elections, Run(env, n, block).working.elections)
    decreases |block|
  {
    hide StateOk, Later, InsideBlock, Next, CacheOk;
    if block == [] {
      MoveLaws.SameLater(n.working.elections);
    } else {
      var m := Next(env, n, block[0]);
      NextKeeps(env, n, block[0]);
      StepInsideBlock(env, n, block[0]);
      forall i | 0 <= i < |block| - 1 ensures InsideBlock(block[1..][i]) {
      }
      BlockIsLater(env, m, block[1..]);
      LaterTransitive(n.working.elections, m.working.elections, Run(env, n, block).working.elections);
    }
  }

  lemma CommitIsLater(env: Env, n: Node)
    requires NodeOk(env, n)
    ensures NodeOk(env, Next(env, n, Commit)) && Later(n.working.elections, Next(env, n, Commit).committed.elections)
  {
    hide StateOk, Later, CacheOk, Save;
    CommitKeeps(env, n);
    SaveKeeps(env, n.working.elections, n.height);
  }
}
