/** The moves of the voting state machine: whatever a transaction is, delivering it makes one
    of seven moves, each under conditions it has checked. */
module Moves {
  import opened Common
  import opened Accounts
  import opened Voting
  import opened VotingLaws
  import opened VotingInvariants
  import opened Chain

  datatype Move =
    | Idle
    | Cast(vote: Vote)
    | Create(pid: Bytes, process: Process)
    | Amend(pid: Bytes, process: Process)
    | Publish(pid: Bytes, slot: uint32, key: Bytes)
    | Reveal(pid: Bytes, slot: uint32, key: Bytes)
    | Register(pid: Bytes, owner: Address, used: int, key: Bytes)

  function Published(p: Process, slot: uint32, key: Bytes): Process
    requires slot < |p.publicKeys|
  {
    p.(publicKeys := p.publicKeys[slot := key], keyIndex := Some(Add32(p.keyIndex.GetOr(0), 1)))
  }

  function Revealed(p: Process, slot: uint32, key: Bytes): Process
    requires slot < |p.privateKeys| && p.keyIndex.Some? && p.keyIndex.value >= 1
  {
    p.(privateKeys := p.privateKeys[slot := key], keyIndex := Some(p.keyIndex.value - 1))
  }

  /** The conditions under which a move is made at a height. */
  predicate Enabled(env: Env, e: Elections, m: Move, height: uint32) {
    match m
    case Idle => true
    case Cast(vote) =>
      vote.processId in e.processes && VoteGate(e.processes[vote.processId], height).Ok? && AddVote(e, vote, height).Ok?
    case Create(pid, p) =>
      && pid !in e.processes && TermsOk(p) && (height + 1 < TWO32 ==> p.startBlock >= height)
      && (NeedsKeys(p) ==> p.publicKeys == EmptyKeys() && p.privateKeys == EmptyKeys())
    case Amend(pid, q) =>
      && UpdateProcess(e, pid, q).Ok?
      && var p := e.processes[pid];
         && q == p.(status := q.status, results := q.results, censusRoot := q.censusRoot, censusURI := q.censusURI)
         && Reaches(p.status, q.status)
    case Publish(pid, slot, key) =>
      && pid in e.processes && |pid| == PROCESS_ID_SIZE
      && var p := e.processes[pid];
         && NeedsKeys(p) && 1 <= slot < |p.publicKeys| && p.publicKeys[slot] == []
         && height <= p.startBlock && !Frozen(p.status)
    case Reveal(pid, slot, key) =>
      && pid in e.processes && |pid| == PROCESS_ID_SIZE
      && var p := e.processes[pid];
         && NeedsKeys(p) && 1 <= slot < |p.publicKeys| && slot < |p.privateKeys| && p.privateKeys[slot] == []
         && p.publicKeys[slot] != [] && env.publicKeyOf(key) == Some(p.publicKeys[slot])
         && p.keyIndex.Some? && p.keyIndex.value >= 1
         && (height >= EndBlock(p) || p.status.Ended? || p.status.Canceled?)
    case Register(pid, owner, used, key) =>
      && pid in e.processes && pid in e.censuses
      && var p := e.processes[pid];
         && p.mode.preRegister && height < p.startBlock && p.status.Ready?
         && p.maxCensusSize.Some? && e.censuses[pid].length < p.maxCensusSize.value
  }

  /** The state after a move. */
  function Make(env: Env, e: Elections, m: Move, height: uint32): Elections
    requires Enabled(env, e, m, height)
  {
    match m
    case Idle => e
    case Cast(vote) => AddVote(e, vote, height).value
    case Create(pid, p) => AddProcess(env, e, pid, p).value
    case Amend(pid, q) => e.(processes := e.processes[pid := q])
    case Publish(pid, slot, key) => e.(processes := e.processes[pid := Published(e.processes[pid], slot, key)])
    case Reveal(pid, slot, key) => e.(processes := e.processes[pid := Revealed(e.processes[pid], slot, key)])
    case Register(pid, owner, used, key) =>
      var f := e.(usedWeight := e.usedWeight[(pid, owner) := used]);
      match AddToRollingCensus(f, pid, key)
      case Ok(g) => g
      case Err(_) => f
  }

  // ------------------------------------------------ transactions make moves

  /** A cache entry is about the process of its transaction. */
  predicate CacheFits(tx: Tx, cached: Option<Vote>) {
    cached.Some? ==> tx.payload.VoteTx? && cached.value.processId == tx.payload.envelope.processId
  }

  function Amended(e: Elections, r: Result<Elections, Error>, pid: Bytes): Move {
    if r.Ok? && pid in r.value.processes then Amend(pid, r.value.processes[pid]) else Idle
  }

  /** The move that delivering a transaction makes. */
  function MoveOf(env: Env, s: State, tx: Tx, height: uint32, cached: Option<Vote>): Move {
    var e := s.elections;
    match tx.payload
    case PaymentTx(_) => Idle
    case VoteTx(ve) =>
      var vote := VoteEnvelopeCheck(env, e, ve, tx.signer, height, cached, true);
      if vote.Ok? && AddVote(e, vote.value, height).Ok? then Cast(vote.value) else Idle
    case NewProcessTx(_, _, _, _) =>
      var c := NewProcessCheck(env, s, tx, height);
      if c.Ok? then Create(c.value.pid, c.value.process) else Idle
    case SetProcessTx(pid, action, _) =>
      if SetProcessCheck(s, tx).Ok? then Amended(e, Act(e, pid, action, |s.ledger.oracles|, height), pid) else Idle
    case AddProcessKeysTx(pid, index, key) =>
      if KeyKeeperCheck(s, pid, tx.signer).Ok? && AddProcessKeys(e, pid, index, key, height).Ok?
      then Publish(pid, index.value, key.value) else Idle
    case RevealProcessKeysTx(pid, index, key) =>
      if KeyKeeperCheck(s, pid, tx.signer).Ok? && RevealProcessKeys(env, e, pid, index, key, height).Ok?
      then Reveal(pid, index.value, key.value) else Idle
    case RegisterKeyTx(r) =>
      var used := RegisterKeyCheck(env, e, r, tx.signer, height);
      if used.Ok? then Register(r.processId, tx.signer.GetOr(ZERO_ADDRESS), used.value, r.newKey) else Idle
  }

  lemma VoteMove(env: Env, s: State, tx: Tx, height: uint32, cached: Option<Vote>)
    requires tx.payload.VoteTx? && CacheFits(tx, cached)
    ensures var m := MoveOf(env, s, tx, height, cached);
            Enabled(env, s.elections, m, height) && AddTx(env, s, tx, height, cached).state.elections == Make(env, s.elections, m, height)
  {
  }

  lemma CreateMove(env: Env, s: State, tx: Tx, height: uint32)
    requires tx.payload.NewProcessTx?
    ensures var m := MoveOf(env, s, tx, height, None);
            Enabled(env, s.elections, m, height) && AddTx(env, s, tx, height, None).state.elections == Make(env, s.elections, m, height)
  {
  }

  lemma AmendMove(env: Env, s: State, tx: Tx, height: uint32)
    requires tx.payload.SetProcessTx?
    ensures var m := MoveOf(env, s, tx, height, None);
            Enabled(env, s.elections, m, height) && AddTx(env, s, tx, height, None).state.elections == Make(env, s.elections, m, height)
  {
    var e, pid := s.elections, tx.payload.processId;
    if SetProcessCheck(s, tx).Ok? && Act(e, pid, tx.payload.action, |s.ledger.oracles|, height).Ok? {
      match tx.payload.action
      case SetStatus(next) => SetStatusLater(e, pid, next, height);
      case SetResults(r) => SetResultsLater(e, pid, r.value, |s.ledger.oracles|, height);
      case SetCensus(_, _) =>
    }
  }

  lemma KeysMove(env: Env, s: State, tx: Tx, height: uint32)
    requires tx.payload.AddProcessKeysTx? || tx.payload.RevealProcessKeysTx?
    ensures var m := MoveOf(env, s, tx, height, None);
            Enabled(env, s.elections, m, height) && AddTx(env, s, tx, height, None).state.elections == Make(env, s.elections, m, height)
  {
  }

  lemma RegisterMove(env: Env, s: State, tx: Tx, height: uint32)
    requires tx.payload.RegisterKeyTx?
    ensures var m := MoveOf(env, s, tx, height, None);
            Enabled(env, s.elections, m, height) && AddTx(env, s, tx, height, None).state.elections == Make(env, s.elections, m, height)
  {
  }

  /** Delivering any transaction, accepted or rejected, makes an enabled move. */
  lemma TransactionsMove(env: Env, s: State, tx: Tx, height: uint32, cached: Option<Vote>)
    requires CacheFits(tx, cached)
    ensures var m := MoveOf(env, s, tx, height, cached);
            && Enabled(env, s.elections, m, height)
            && AddTx(env, s, tx, height, cached).state.elections == Make(env, s.elections, m, height)
  {
    match tx.payload
    case VoteTx(_) => VoteMove(env, s, tx, height, cached);
    case PaymentTx(_) =>
    case NewProcessTx(_, _, _, _) => CreateMove(env, s, tx, height);
    case SetProcessTx(_, _, _) => AmendMove(env, s, tx, height);
    case AddProcessKeysTx(_, _, _) => KeysMove(env, s, tx, height);
    case RevealProcessKeysTx(_, _, _) => KeysMove(env, s, tx, height);
    case RegisterKeyTx(_) => RegisterMove(env, s, tx, height);
  }
}
