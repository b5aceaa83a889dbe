/** The replicated application: delivering a transaction, and the life of a node as a
    sequence of blocks with mempool checks in between. */
module Chain {
  import opened Common
  import opened Accounts
  import opened Payments
  import opened Voting

  datatype Action =
    | SetStatus(status: Status)
    | SetResults(result: Option<ProcessResult>)
    | SetCensus(root: Option<Bytes>, uri: string)
    | SetQuestionIndex

  datatype Payload =
    | VoteTx(envelope: VoteEnvelope)
    | PaymentTx(payment: Payment)
    | NewProcessTx(process: Process, chosenId: Option<Bytes>, maxCount: nat, nonce: uint32)
    | SetProcessTx(processId: Bytes, action: Action, nonce: uint32)
    | AddProcessKeysTx(processId: Bytes, index: Option<uint32>, key: Option<Bytes>)
    | RevealProcessKeysTx(processId: Bytes, index: Option<uint32>, key: Option<Bytes>)
    | RegisterKeyTx(registration: Registration)

  /** A transaction, with the address its signature recovers to if it does. */
  datatype Tx = Tx(payload: Payload, signer: Option<Address>)

  datatype State = State(ledger: Ledger, elections: Elections)

  datatype Response = Response(state: State, error: Option<Error>)

  // ------------------------------------------------ processes

  /** A new process as it will be stored, its identifier and who pays for it. */
  datatype Creation = Creation(pid: Bytes, process: Process, sender: Address)

  /** Start blocks 0 and 1 stand for the next block. */
  function StartBlock(requested: uint32, height: uint32): uint32 {
    if requested <= 1 then Add32(height, 1) else requested
  }

  function NewProcessCheck(env: Env, s: State, tx: Tx, height: uint32): Result<Creation, Error>
    requires tx.payload.NewProcessTx?
  {
    var p, l := tx.payload.process, s.ledger;
    var start := StartBlock(p.startBlock, height);
    if tx.payload.maxCount == 0 then Err(InvalidTx)
    else if start < height && p.startBlock > 1 then Err(InvalidProcess)
    else if p.blockCount == 0 then Err(InvalidProcess)
    else match TxCost(l, NEW_PROCESS)
      case Err(e) => Err(e)
      case Ok(cost) =>
        match SenderCheck(l, tx.signer)
        case Err(e) => Err(e)
        case Ok((sender, acc)) =>
          var oracle := sender in l.oracles;
          if acc.balance < cost then Err(NotEnoughBalance)
          else if acc.nonce != tx.payload.nonce then Err(NonceInvalid)
          else if l.oracles == {} || (p.entity != sender && !oracle) then Err(Unauthorized)
          else if p.censusOrigin.UnknownOrigin? && (!oracle || tx.payload.chosenId.None?) then Err(InvalidProcess)
          else
            var pid :=
              if oracle && tx.payload.chosenId.Some? then tx.payload.chosenId.value
              else env.processIdOf(sender, p.censusOrigin, p.envelope, acc.processIndex);
            if pid in s.elections.processes then Err(ProcessExists)
            else if !Implemented(env, p) then Err(InvalidProcess)
            else Ok(Creation(pid, Prepared(p, start), sender))
  }

  /** The process types that are supported. */
  predicate Implemented(env: Env, p: Process) {
    && p.mode.preRegister == p.envelope.anonymous
    && (p.mode.preRegister ==> p.maxCensusSize.Some? && 0 < p.maxCensusSize.value <= env.maxCircuitSize)
    && !p.envelope.serial
  }

  function Prepared(p: Process, start: uint32): Process {
    var keys := if NeedsKeys(p) then p.(publicKeys := EmptyKeys(), privateKeys := EmptyKeys()) else p;
    keys.(startBlock := start)
  }

  function EmptyKeys(): seq<Bytes> {
    seq(MAX_KEY_INDEX, _ => [])
  }

  function ActionType(a: Action): TxType {
    match a
    case SetStatus(_) => SET_PROCESS_STATUS
    case SetResults(_) => SET_PROCESS_RESULTS
    case SetCensus(_, _) => SET_PROCESS_CENSUS
    case SetQuestionIndex => SET_PROCESS_QUESTION_INDEX
  }

  /** The owner of a process or an oracle may change it; only an oracle that does not own it
      may report results, and only its own. */
  function SetProcessCheck(s: State, tx: Tx): Result<Address, Error>
    requires tx.payload.SetProcessTx?
  {
    match TxCost(s.ledger, ActionType(tx.payload.action))
    case Err(e) => Err(e)
    case Ok(cost) =>
      match SenderCheck(s.ledger, tx.signer)
      case Err(e) => Err(e)
      case Ok((sender, acc)) =>
        if acc.balance < cost then Err(NotEnoughBalance)
        else if acc.nonce != tx.payload.nonce then Err(NonceInvalid)
        else if tx.payload.processId !in s.elections.processes then Err(ProcessNotFound)
        else
          var owner := s.elections.processes[tx.payload.processId].entity == sender;
          if !owner && sender !in s.ledger.oracles then Err(Unauthorized)
          else if tx.payload.action.SetResults? && (owner || tx.payload.action.result.None?) then Err(Unauthorized)
          else if tx.payload.action.SetResults? && tx.payload.action.result.value.oracle != Some(sender) then Err(InvalidResults)
          else Ok(sender)
  }

  function Act(e: Elections, pid: Bytes, a: Action, oracles: nat, height: uint32): Result<Elections, Error> {
    match a
    case SetStatus(status) => SetProcessStatus(e, pid, status, height)
    case SetResults(result) => if result.None? then Err(InvalidResults) else SetProcessResults(e, pid, result.value, oracles, height)
    case SetCensus(root, uri) => if root.None? then Err(InvalidTx) else SetProcessCensus(e, pid, root.value, uri)
    case SetQuestionIndex => Err(InvalidTx)
  }

  /** Keys are published and revealed by oracles, for processes that need keys. */
  function KeyKeeperCheck(s: State, pid: Bytes, signer: Option<Address>): Result<(), Error> {
    if pid !in s.elections.processes then Err(ProcessNotFound)
    else if !NeedsKeys(s.elections.processes[pid]) then Err(InvalidProcess)
    else if signer.None? || signer.value !in s.ledger.oracles then Err(Unauthorized)
    else if signer.value !in s.ledger.accounts then Err(AccountNotExist)
    else Ok(())
  }

  // ------------------------------------------------ delivery

  /** Changes the elections and leaves the ledger, or fails and changes nothing. */
  function Elect(s: State, r: Result<Elections, Error>): Response {
    match r
    case Err(e) => Response(s, Some(e))
    case Ok(e) => Response(s.(elections := e), None)
  }

  /** Changes the elections and then charges the sender.  If the charge fails the change
      stays. */
  function ElectAndPay(s: State, r: Result<Elections, Error>, sender: Address, t: TxType): Response {
    match r
    case Err(e) => Response(s, Some(e))
    case Ok(e) =>
      var paid := PayForProcess(s.ledger, sender, t);
      Response(State(paid.ledger, e), paid.error)
  }

  /** The used weight is recorded before the key is appended. */
  function RegisterKey(env: Env, s: State, tx: Registration, signer: Option<Address>, height: uint32): Response {
    match RegisterKeyCheck(env, s.elections, tx, signer, height)
    case Err(x) => Response(s, Some(x))
    case Ok(used) =>
      var owner := signer.GetOr(ZERO_ADDRESS);
      var e := s.elections.(usedWeight := s.elections.usedWeight[(tx.processId, owner) := used]);
      Elect(s.(elections := e), AddToRollingCensus(e, tx.processId, tx.newKey))
  }

  function CastVote(env: Env, e: Elections, ve: VoteEnvelope, signer: Option<Address>, height: uint32, cached: Option<Vote>): Result<Elections, Error> {
    match VoteEnvelopeCheck(env, e, ve, signer, height, cached, true)
    case Err(x) => Err(x)
    case Ok(vote) => AddVote(e, vote, height)
  }

  /** Checks a transaction against the state and applies it, at a height and with what the
      node's cache holds for it. */
  function AddTx(env: Env, s: State, tx: Tx, height: uint32, cached: Option<Vote>): Response {
    match tx.payload
    case VoteTx(ve) => Elect(s, CastVote(env, s.elections, ve, tx.signer, height, cached))
    case PaymentTx(p) =>
      var reply := Payments.Deliver(s.ledger, p, tx.signer);
      Response(s.(ledger := reply.ledger), reply.error)
    case NewProcessTx(_, _, _, _) =>
      (match NewProcessCheck(env, s, tx, height)
       case Err(e) => Response(s, Some(e))
       case Ok(c) => ElectAndPay(s, AddProcess(env, s.elections, c.pid, c.process), c.sender, NEW_PROCESS))
    case SetProcessTx(pid, action, _) =>
      (match SetProcessCheck(s, tx)
       case Err(e) => Response(s, Some(e))
       case Ok(sender) => ElectAndPay(s, Act(s.elections, pid, action, |s.ledger.oracles|, height), sender, ActionType(action)))
    case AddProcessKeysTx(pid, index, key) =>
      (match KeyKeeperCheck(s, pid, tx.signer)
       case Err(e) => Response(s, Some(e))
       case Ok(_) => Elect(s, AddProcessKeys(s.elections, pid, index, key, height)))
    case RevealProcessKeysTx(pid, index, key) =>
      (match KeyKeeperCheck(s, pid, tx.signer)
       case Err(e) => Response(s, Some(e))
       case Ok(_) => Elect(s, RevealProcessKeys(env, s.elections, pid, index, key, height)))
    case RegisterKeyTx(r) => RegisterKey(env, s, r, tx.signer, height)
  }

  // ------------------------------------------------ a node

  /** A node: the state of the last commit and its height, the state of the current block
      and its height, and the votes that passed a mempool check. */
  datatype Node = Node(committed: State, saved: uint32, working: State, height: uint32, cache: map<Tx, Vote>)

  datatype Step =
    | BeginBlock
    | DeliverTx(tx: Tx)
    | CheckTx(tx: Tx)
    | Evict(txs: set<Tx>)
    | Commit

  function Cached(n: Node, tx: Tx): Option<Vote> {
    if tx in n.cache then Some(n.cache[tx]) else None
  }

  /** Whether delivering a vote gets as far as using, and dropping, its cache entry. */
  predicate TakesCached(n: Node, tx: Tx) {
    && tx in n.cache && tx.payload.VoteTx?
    && var e, ve := n.working.elections, tx.payload.envelope;
       && ve.processId in e.processes
       && VoteGate(e.processes[ve.processId], n.height).Ok?
       && (e.processes[ve.processId].envelope.anonymous || tx.signer.Some?)
  }

  /** A block begins by dropping what was not committed, at the height after the last commit.
      Checks only fill the cache, from which votes may disappear at any time. */
  function Next(env: Env, n: Node, step: Step): Node {
    match step
    case BeginBlock => if n.saved + 1 < TWO32 then n.(working := n.committed, height := n.saved + 1) else n
    case DeliverTx(tx) =>
      n.(working := AddTx(env, n.working, tx, n.height, Cached(n, tx)).state,
         cache := if TakesCached(n, tx) then n.cache - {tx} else n.cache)
    case CheckTx(tx) =>
      if !tx.payload.VoteTx? then n
      else
        (match VoteEnvelopeCheck(env, n.working.elections, tx.payload.envelope, tx.signer, n.height, Cached(n, tx), false)
         case Err(_) => n
         case Ok(vote) => n.(cache := n.cache[tx := vote]))
    case Evict(txs) => n.(cache := n.cache - txs)
    case Commit =>
      match Save(env, n.working.elections, n.height)
      case Err(_) => n
      case Ok(e) => var s := n.working.(elections := e); n.(committed := s, saved := n.height, working := s)
  }

  function Run(env: Env, n: Node, steps: seq<Step>): Node
    decreases |steps|
  {
    if steps == [] then n else Run(env, Next(env, n, steps[0]), steps[1..])
  }
}
