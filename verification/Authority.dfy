/** Who may do what: over every transaction, whose signature it takes to spend from an
    account, to change the rules, to create or change a process, and to vote. */
module Authority {
  import opened Common
  import opened Accounts
  import opened Payments
  import opened Voting
  import opened VotingLaws
  import opened VotingInvariants
  import opened Chain
  import opened Moves
  import opened Histories
  import opened LedgerRuns
  import opened Runs
  import opened CacheLaws

  // ------------------------------------------------ spending

  /** The account signed the transaction, or the faucet package in it. */
  predicate Signed(tx: Tx, a: Address) {
    || tx.signer == Some(a)
    || (tx.payload.PaymentTx? && IssuedBy(tx.payload.payment, a))
  }

  predicate IssuedBy(p: Payment, a: Address) {
    match p
    case CollectFaucetTx(Some(package), _) => package.issuer == Some(a)
    case SetAccountInfoTx(_, _, _, Some(package)) => package.issuer == Some(a)
    case _ => false
  }

  predicate NoLoss(l: Ledger, l': Ledger, b: Address) {
    BalanceOf(l', b) >= BalanceOf(l, b)
  }

  lemma FeeCharges(l: Ledger, a: Address, t: TxType, b: Address)
    requires b != a
    ensures NoLoss(l, Finish(Accounts.SubtractCostIncrementNonce(l, a, t), l).ledger, b)
  {
  }

  lemma TransferCharges(l: Ledger, from: Address, to: Address, amount: uint64, b: Address)
    requires b != from
    ensures var r := Accounts.TransferBalance(l, from, to, amount); r.Ok? ==> NoLoss(l, r.value, b)
  {
  }

  lemma FaucetCharges(l: Ledger, from: Address, p: FaucetPayload, t: TxType, b: Address)
    requires b != from
    ensures NoLoss(l, Finish(Accounts.ConsumeFaucetPayload(l, from, p, t), l).ledger, b)
  {
  }

  lemma InfoCharges(l: Ledger, p: Payment, signer: Option<Address>, b: Address)
    requires p.SetAccountInfoTx? && signer != Some(b) && !IssuedBy(p, b)
    ensures NoLoss(l, SetAccountInfoDeliver(l, p, signer).ledger, b)
  {
    hide Accounts.SubtractCostIncrementNonce, Accounts.ConsumeFaucetPayload;
    match SetAccountInfoCheck(l, p, signer)
    case Err(_) =>
    case Ok(Create(_)) =>
    case Ok(CreateWithFaucet(sender, issuer)) =>
      var l1 := Accounts.CreateAccount(l, sender, p.infoURI);
      if l1.Ok? {
        FaucetCharges(l1.value, issuer, p.faucet.value.payload, SET_ACCOUNT_INFO, b);
      }
    case Ok(SetInfo(sender, account)) =>
      FeeCharges(SetAccount(l, account, l.accounts[account].(infoURI := p.infoURI)), sender, SET_ACCOUNT_INFO, b);
  }

  lemma SendCharges(l: Ledger, p: Payment, signer: Option<Address>, b: Address)
    requires p.SendTokensTx? && signer != Some(b)
    ensures NoLoss(l, SendTokensDeliver(l, p, signer).ledger, b)
  {
    hide Accounts.SubtractCostIncrementNonce, Accounts.TransferBalance;
    var l1 := Accounts.TransferBalance(l, p.from, p.to, p.value);
    if SendTokensCheck(l, p, signer).Ok? && l1.Ok? {
      TransferCharges(l, p.from, p.to, p.value, b);
      FeeCharges(l1.value, p.from, SEND_TOKENS, b);
    }
  }

  lemma CollectCharges(l: Ledger, p: Payment, signer: Option<Address>, b: Address)
    requires p.CollectFaucetTx? && !IssuedBy(p, b)
    ensures NoLoss(l, CollectFaucetDeliver(l, p, signer).ledger, b)
  {
    hide Accounts.SubtractCostIncrementNonce, Accounts.ConsumeFaucetPayload;
    var issuer := CollectFaucetCheck(l, p, signer);
    if issuer.Ok? {
      FaucetCharges(l, issuer.value, p.package.value.payload, COLLECT_FAUCET, b);
      var l1 := Accounts.ConsumeFaucetPayload(l, issuer.value, p.package.value.payload, COLLECT_FAUCET);
      if l1.Ok? {
        FeeCharges(l1.value, issuer.value, COLLECT_FAUCET, b);
      }
    }
  }

  lemma DelegateCharges(l: Ledger, p: Payment, signer: Option<Address>, b: Address)
    requires (p.AddDelegateTx? || p.DelDelegateTx?) && signer != Some(b)
    ensures NoLoss(l, SetAccountDelegateDeliver(l, p, signer).ledger, b)
  {
    hide Accounts.SubtractCostIncrementNonce, WithoutDelegate;
    var sender := SetAccountDelegateCheck(l, p, signer);
    if sender.Ok? {
      var acc := l.accounts[sender.value];
      var delegates := if p.AddDelegateTx? then acc.delegates + [p.delegate] else WithoutDelegate(acc.delegates, p.delegate);
      FeeCharges(SetAccount(l, sender.value, acc.(delegates := delegates)), sender.value, DelegateType(p), b);
    }
  }

  lemma PaymentCharges(l: Ledger, p: Payment, signer: Option<Address>, b: Address)
    requires signer != Some(b) && !IssuedBy(p, b)
    ensures NoLoss(l, Payments.Deliver(l, p, signer).ledger, b)
  {
    hide SetAccountInfoDeliver, SendTokensDeliver, CollectFaucetDeliver, SetAccountDelegateDeliver;
    match p
    case SetAccountInfoTx(_, _, _, _) => InfoCharges(l, p, signer, b);
    case SendTokensTx(_, _, _, _) => SendCharges(l, p, signer, b);
    case CollectFaucetTx(_, _) => CollectCharges(l, p, signer, b);
    case AddDelegateTx(_, _) => DelegateCharges(l, p, signer, b);
    case DelDelegateTx(_, _) => DelegateCharges(l, p, signer, b);
    case _ =>
  }

  lemma ProcessCharges(l: Ledger, sender: Address, t: TxType, b: Address)
    requires b != sender
    ensures NoLoss(l, PayForProcess(l, sender, t).ledger, b)
  {
    hide Accounts.SubtractCostIncrementNonce;
    if sender in l.accounts {
      FeeCharges(if t.NEW_PROCESS? then IncrementAccountProcessIndex(l, sender) else l, sender, t, b);
    }
  }

  /** No transaction, accepted or rejected, takes tokens from an account that signed neither
      it nor the faucet package in it. */
  lemma SpendingNeedsSignature(env: Env, s: State, tx: Tx, height: uint32, cached: Option<Vote>, a: Address)
    ensures BalanceOf(AddTx(env, s, tx, height, cached).state.ledger, a) < BalanceOf(s.ledger, a) ==> Signed(tx, a)
  {
    LedgerSide(env, s, tx, height, cached);
    hide AddTx, Payments.Deliver, PayForProcess;
    if !Signed(tx, a) {
      if tx.payload.PaymentTx? {
        PaymentCharges(s.ledger, tx.payload.payment, tx.signer, a);
      } else if AboutProcess(tx) && tx.signer.Some? {
        ProcessCharges(s.ledger, tx.signer.value, ProcessTxType(tx), a);
      }
    }
  }

  // ------------------------------------------------ account data

  /** An account with the same data, balance and nonce aside. */
  predicate SameInfo(l: Ledger, l': Ledger, a: Address) {
    a in l.accounts ==>
      && a in l'.accounts && l'.accounts[a].infoURI == l.accounts[a].infoURI
      && l'.accounts[a].delegates == l.accounts[a].delegates && l'.accounts[a].processIndex == l.accounts[a].processIndex
  }

  lemma FeeKeepsInfo(l: Ledger, p: Address, t: TxType, a: Address)
    ensures SameInfo(l, Finish(Accounts.SubtractCostIncrementNonce(l, p, t), l).ledger, a)
  {
  }

  lemma FaucetKeepsInfo(l: Ledger, from: Address, p: FaucetPayload, t: TxType, a: Address)
    ensures SameInfo(l, Finish(Accounts.ConsumeFaucetPayload(l, from, p, t), l).ledger, a)
  {
  }

  /** What a payment may do to the data of an account. */
  predicate InfoRule(l: Ledger, l': Ledger, signer: Option<Address>, a: Address) {
    a in l.accounts ==>
      && a in l'.accounts
      && (l'.accounts[a].infoURI != l.accounts[a].infoURI ==>
            signer.Some? && (signer.value == a || signer.value in l.accounts[a].delegates))
      && (l'.accounts[a].delegates != l.accounts[a].delegates || l'.accounts[a].processIndex != l.accounts[a].processIndex ==>
            signer == Some(a))
  }

  lemma SetInfoRule(l: Ledger, p: Payment, signer: Option<Address>, a: Address)
    requires p.SetAccountInfoTx?
    ensures InfoRule(l, SetAccountInfoDeliver(l, p, signer).ledger, signer, a)
  {
    hide Accounts.SubtractCostIncrementNonce, Accounts.ConsumeFaucetPayload;
    match SetAccountInfoCheck(l, p, signer)
    case Err(_) =>
    case Ok(Create(_)) =>
    case Ok(CreateWithFaucet(sender, issuer)) =>
      var l1 := Accounts.CreateAccount(l, sender, p.infoURI);
      if l1.Ok? {
        FaucetKeepsInfo(l1.value, issuer, p.faucet.value.payload, SET_ACCOUNT_INFO, a);
      }
    case Ok(SetInfo(sender, account)) =>
      FeeKeepsInfo(SetAccount(l, account, l.accounts[account].(infoURI := p.infoURI)), sender, SET_ACCOUNT_INFO, a);
  }

  lemma OtherInfoRules(l: Ledger, p: Payment, signer: Option<Address>, a: Address)
    requires p.SendTokensTx? || p.CollectFaucetTx? || p.MintTokensTx?
    ensures SameInfo(l, Payments.Deliver(l, p, signer).ledger, a)
  {
    hide Accounts.SubtractCostIncrementNonce, Accounts.ConsumeFaucetPayload;
    match p
    case SendTokensTx(from, to, value, _) =>
      var l1 := Accounts.TransferBalance(l, from, to, value);
      if l1.Ok? {
        FeeKeepsInfo(l1.value, from, SEND_TOKENS, a);
      }
    case CollectFaucetTx(_, _) =>
      var issuer := CollectFaucetCheck(l, p, signer);
      if issuer.Ok? {
        FaucetKeepsInfo(l, issuer.value, p.package.value.payload, COLLECT_FAUCET, a);
        var l1 := Accounts.ConsumeFaucetPayload(l, issuer.value, p.package.value.payload, COLLECT_FAUCET);
        if l1.Ok? {
          FeeKeepsInfo(l1.value, issuer.value, COLLECT_FAUCET, a);
        }
      }
    case MintTokensTx(_, _, _) =>
  }

  lemma DelegateRule(l: Ledger, p: Payment, signer: Option<Address>, a: Address)
    requires p.AddDelegateTx? || p.DelDelegateTx?
    ensures InfoRule(l, SetAccountDelegateDeliver(l, p, signer).ledger, signer, a)
  {
    hide Accounts.SubtractCostIncrementNonce, WithoutDelegate;
    var sender := SetAccountDelegateCheck(l, p, signer);
    if sender.Ok? {
      var acc := l.accounts[sender.value];
      var delegates := if p.AddDelegateTx? then acc.delegates + [p.delegate] else WithoutDelegate(acc.delegates, p.delegate);
      FeeKeepsInfo(SetAccount(l, sender.value, acc.(delegates := delegates)), sender.value, DelegateType(p), a);
    }
  }

  lemma ProcessInfoRule(l: Ledger, sender: Address, t: TxType, a: Address)
    ensures InfoRule(l, PayForProcess(l, sender, t).ledger, Some(sender), a)
  {
    hide Accounts.SubtractCostIncrementNonce;
    if sender in l.accounts {
      FeeKeepsInfo(if t.NEW_PROCESS? then IncrementAccountProcessIndex(l, sender) else l, sender, t, a);
    }
  }

  /** Accounts never disappear; the info of an account changes only by its own signature or
      that of one of its delegates, and its delegates and process index only by its own. */
  lemma AccountDataNeedsOwner(env: Env, s: State, tx: Tx, height: uint32, cached: Option<Vote>, a: Address)
    ensures InfoRule(s.ledger, AddTx(env, s, tx, height, cached).state.ledger, tx.signer, a)
  {
    LedgerSide(env, s, tx, height, cached);
    hide AddTx, PayForProcess, SetAccountInfoDeliver, SetAccountDelegateDeliver, SendTokensDeliver, CollectFaucetDeliver, MintTokensDeliver;
    if AboutProcess(tx) && tx.signer.Some? {
      ProcessInfoRule(s.ledger, tx.signer.value, ProcessTxType(tx), a);
    } else if tx.payload.PaymentTx? {
      var p := tx.payload.payment;
      match p
      case SetAccountInfoTx(_, _, _, _) => SetInfoRule(s.ledger, p, tx.signer, a);
      case AddDelegateTx(_, _) => DelegateRule(s.ledger, p, tx.signer, a);
      case DelDelegateTx(_, _) => DelegateRule(s.ledger, p, tx.signer, a);
      case SendTokensTx(_, _, _, _) => OtherInfoRules(s.ledger, p, tx.signer, a);
      case CollectFaucetTx(_, _) => OtherInfoRules(s.ledger, p, tx.signer, a);
      case MintTokensTx(_, _, _) => OtherInfoRules(s.ledger, p, tx.signer, a);
      case _ =>
    }
  }

  // ------------------------------------------------ the rules

  /** Costs, oracles and the treasurer's nonce change only by the treasurer's signature. */
  lemma RulesNeedTreasurer(env: Env, s: State, tx: Tx, height: uint32, cached: Option<Vote>)
    ensures var l, l' := s.ledger, AddTx(env, s, tx, height, cached).state.ledger;
            && l'.treasurer.address == l.treasurer.address
            && (l'.costs != l.costs || l'.oracles != l.oracles || l'.removed != l.removed || l'.treasurer != l.treasurer ==>
                  ByTreasurer(tx) && tx.signer == Some(l.treasurer.address))
  {
    LedgerSide(env, s, tx, height, cached);
    hide AddTx, Accounts.SubtractCostIncrementNonce, Accounts.TransferBalance, Accounts.MintBalance, Accounts.CreateAccount,
         Accounts.ConsumeFaucetPayload, SendTokensCheck, SetAccountInfoCheck, CollectFaucetCheck, SetAccountDelegateCheck;
  }

  // ------------------------------------------------ processes

  /** Whoever signed owns the process or is an oracle. */
  predicate MayChange(s: State, tx: Tx, p: Process) {
    tx.signer.Some? && (tx.signer.value == p.entity || tx.signer.value in s.ledger.oracles)
  }

  /** One more result, of an oracle for this process and its entity, behind those before. */
  predicate Reports(p: Process, q: Process, oracle: Address, oracles: nat) {
    && |q.results| > 0
    && q.results == ResultSlots(p, oracles) + [q.results[|q.results| - 1]]
    && var last := q.results[|q.results| - 1];
       last.Some? && last.value.oracle == Some(oracle) && last.value.entity == p.entity
  }

  /** A process changes only by a transaction about it that its owner or an oracle signed.
      Its keys change only by an oracle, and its results only by an oracle that does not
      own it, for itself and once. */
  lemma ChangesNeedAuthority(env: Env, s: State, tx: Tx, height: uint32, cached: Option<Vote>, pid: Bytes)
    requires CacheFits(tx, cached) && pid in s.elections.processes
    ensures var p, e := s.elections.processes[pid], AddTx(env, s, tx, height, cached).state.elections;
            && pid in e.processes
            && var q := e.processes[pid];
               && (q != p ==> MayChange(s, tx, p))
               && (q.publicKeys != p.publicKeys || q.privateKeys != p.privateKeys || q.keyIndex != p.keyIndex ==>
                     tx.signer.value in s.ledger.oracles && NeedsKeys(p))
               && (q.results != p.results ==>
                     && tx.signer.value in s.ledger.oracles && tx.signer.value != p.entity
                     && !Reported(p.results, tx.signer.value) && q.status.Results?
                     && Reports(p, q, tx.signer.value, |s.ledger.oracles|))
  {
    match tx.payload
    case VoteTx(_) => VotesChangeNoProcess(env, s, tx, height, cached);
    case PaymentTx(_) =>
    case NewProcessTx(_, _, _, _) => CreationKeepsOthers(env, s, tx, height, pid);
    case SetProcessTx(_, _, _) => SettingNeedsAuthority(env, s, tx, height, pid);
    case AddProcessKeysTx(_, _, _) => KeysNeedOracle(env, s, tx, height, pid);
    case RevealProcessKeysTx(_, _, _) => KeysNeedOracle(env, s, tx, height, pid);
    case RegisterKeyTx(_) => RegistrationChangesNoProcess(env, s, tx, height);
    hide AddTx;
  }

  lemma VotesChangeNoProcess(env: Env, s: State, tx: Tx, height: uint32, cached: Option<Vote>)
    requires tx.payload.VoteTx?
    ensures AddTx(env, s, tx, height, cached).state.elections.processes == s.elections.processes
  {
    hide VoteEnvelopeCheck;
  }

  lemma RegistrationChangesNoProcess(env: Env, s: State, tx: Tx, height: uint32)
    requires tx.payload.RegisterKeyTx?
    ensures AddTx(env, s, tx, height, None).state.elections.processes == s.elections.processes
  {
    hide RegisterKeyCheck;
  }

  lemma CreationKeepsOthers(env: Env, s: State, tx: Tx, height: uint32, pid: Bytes)
    requires tx.payload.NewProcessTx? && pid in s.elections.processes
    ensures var e := AddTx(env, s, tx, height, None).state.elections;
            pid in e.processes && e.processes[pid] == s.elections.processes[pid]
  {
    hide NewProcessCheck, PayForProcess;
  }

  /** What an action on one process does to any process. */
  lemma ActEffect(e: Elections, target: Bytes, a: Action, oracles: nat, height: uint32, pid: Bytes)
    requires pid in e.processes && Act(e, target, a, oracles, height).Ok?
    ensures var p, f := e.processes[pid], Act(e, target, a, oracles, height).value;
            && pid in f.processes
            && var q := f.processes[pid];
               && (q != p ==> pid == target)
               && q.publicKeys == p.publicKeys && q.privateKeys == p.privateKeys && q.keyIndex == p.keyIndex
               && (q.results != p.results ==>
                     && a.SetResults? && a.result.Some? && a.result.value.oracle.Some?
                     && !Reported(p.results, a.result.value.oracle.value) && q.status.Results?
                     && Reports(p, q, a.result.value.oracle.value, oracles))
               && (p.status.Ready? && !p.mode.interruptible && height <= EndBlock(p) ==> q.status.Ready? || q.status.Results?)
  {
  }

  lemma SettingNeedsAuthority(env: Env, s: State, tx: Tx, height: uint32, pid: Bytes)
    requires tx.payload.SetProcessTx? && pid in s.elections.processes
    ensures var p, e := s.elections.processes[pid], AddTx(env, s, tx, height, None).state.elections;
            && pid in e.processes
            && var q := e.processes[pid];
               && (q != p ==> MayChange(s, tx, p))
               && q.publicKeys == p.publicKeys && q.privateKeys == p.privateKeys && q.keyIndex == p.keyIndex
               && (q.results != p.results ==>
                     && tx.signer.value in s.ledger.oracles && tx.signer.value != p.entity
                     && !Reported(p.results, tx.signer.value) && q.status.Results?
                     && Reports(p, q, tx.signer.value, |s.ledger.oracles|))
               && (p.status.Ready? && !p.mode.interruptible && height <= EndBlock(p) ==> q.status.Ready? || q.status.Results?)
  {
    hide PayForProcess, Act, EndBlock;
    if Act(s.elections, tx.payload.processId, tx.payload.action, |s.ledger.oracles|, height).Ok? {
      ActEffect(s.elections, tx.payload.processId, tx.payload.action, |s.ledger.oracles|, height, pid);
    }
  }

  lemma KeysNeedOracle(env: Env, s: State, tx: Tx, height: uint32, pid: Bytes)
    requires (tx.payload.AddProcessKeysTx? || tx.payload.RevealProcessKeysTx?) && pid in s.elections.processes
    ensures var p, e := s.elections.processes[pid], AddTx(env, s, tx, height, None).state.elections;
            && pid in e.processes
            && (e.processes[pid] != p ==>
                  && tx.signer.Some? && tx.signer.value in s.ledger.oracles && NeedsKeys(p)
                  && e.processes[pid].results == p.results && e.processes[pid].status == p.status)
  {
    hide AddKeysCheck, RevealKeysCheck;
  }

  /** A new process lasts at least one block, does not start in the past, is of a supported
      kind and has no keys yet if it needs some. */
  predicate Sane(env: Env, p: Process, height: uint32) {
    && p.blockCount > 0 && (height + 1 < TWO32 ==> p.startBlock >= height) && Implemented(env, p)
    && (NeedsKeys(p) ==> p.publicKeys == EmptyKeys() && p.privateKeys == EmptyKeys())
  }

  /** A process comes into being only for its entity, by its own signature or an oracle's,
      and with sane terms. */
  lemma CreationNeedsAuthority(env: Env, s: State, tx: Tx, height: uint32, cached: Option<Vote>, pid: Bytes)
    requires CacheFits(tx, cached) && pid !in s.elections.processes
    ensures var e := AddTx(env, s, tx, height, cached).state.elections;
            pid in e.processes ==> tx.payload.NewProcessTx? && MayChange(s, tx, e.processes[pid]) && Sane(env, e.processes[pid], height)
  {
    match tx.payload
    case VoteTx(_) => VotesChangeNoProcess(env, s, tx, height, cached);
    case PaymentTx(_) =>
    case NewProcessTx(_, _, _, _) => CreationSigned(env, s, tx, height, pid);
    case SetProcessTx(_, _, _) => OthersCreateNothing(env, s, tx, height, pid);
    case AddProcessKeysTx(_, _, _) => OthersCreateNothing(env, s, tx, height, pid);
    case RevealProcessKeysTx(_, _, _) => OthersCreateNothing(env, s, tx, height, pid);
    case RegisterKeyTx(_) => RegistrationChangesNoProcess(env, s, tx, height);
    hide AddTx;
  }

  lemma OthersCreateNothing(env: Env, s: State, tx: Tx, height: uint32, pid: Bytes)
    requires tx.payload.SetProcessTx? || tx.payload.AddProcessKeysTx? || tx.payload.RevealProcessKeysTx?
    requires pid !in s.elections.processes
    ensures pid !in AddTx(env, s, tx, height, None).state.elections.processes
  {
    hide PayForProcess, StatusCheck, AddKeysCheck, RevealKeysCheck, SetProcessCheck, KeyKeeperCheck;
  }

  lemma CreationSigned(env: Env, s: State, tx: Tx, height: uint32, pid: Bytes)
    requires tx.payload.NewProcessTx? && pid !in s.elections.processes
    ensures var e := AddTx(env, s, tx, height, None).state.elections;
            pid in e.processes ==> MayChange(s, tx, e.processes[pid]) && Sane(env, e.processes[pid], height)
  {
    hide PayForProcess;
  }

  /** While a process that cannot be interrupted is open, up to its end block, it can only
      stay ready or get results. */
  lemma OpenUntilItsEnd(env: Env, s: State, tx: Tx, height: uint32, cached: Option<Vote>, pid: Bytes)
    requires CacheFits(tx, cached) && pid in s.elections.processes
    requires var p := s.elections.processes[pid]; p.status.Ready? && !p.mode.interruptible && height <= EndBlock(p)
    ensures var e := AddTx(env, s, tx, height, cached).state.elections;
            pid in e.processes && (e.processes[pid].status.Ready? || e.processes[pid].status.Results?)
  {
    match tx.payload
    case VoteTx(_) => VotesChangeNoProcess(env, s, tx, height, cached);
    case PaymentTx(_) =>
    case NewProcessTx(_, _, _, _) => CreationKeepsOthers(env, s, tx, height, pid);
    case SetProcessTx(_, _, _) => SettingNeedsAuthority(env, s, tx, height, pid);
    case AddProcessKeysTx(_, _, _) => KeysNeedOracle(env, s, tx, height, pid);
    case RevealProcessKeysTx(_, _, _) => KeysNeedOracle(env, s, tx, height, pid);
    case RegisterKeyTx(_) => RegistrationChangesNoProcess(env, s, tx, height);
    hide AddTx;
  }

  // ------------------------------------------------ who may vote and register

  /** The proof of a voter is valid for the census of the process, with a weight. */
  predicate Eligible(env: Env, p: Process, ve: VoteEnvelope, signer: Option<Address>, weight: nat) {
    && ve.proof.Some?
    && if p.envelope.anonymous then
         weight == 1 && env.verifyZk(ve.proof.value, ve.processId, p.rollingCensusRoot, ve.nullifier, ve.package)
       else
         signer.Some? && env.verifyProof(p.censusOrigin, p.censusRoot, ve.processId, ve.proof.value, signer.value) == Some(weight)
  }

  /** An accepted vote was cast while its process was open and is stored as it was cast, with
      the height of its block, under a nullifier that was free, and nothing else changed; its
      nullifier, proof and weight are right for the process it was checked against. */
  predicate VoteRecorded(env: Env, e: Elections, f: Elections, tx: Tx, height: uint32, basis: Process)
    requires tx.payload.VoteTx?
  {
    var ve, pid := tx.payload.envelope, tx.payload.envelope.processId;
    && pid in e.processes && pid in e.votes && pid in f.votes
    && var p := e.processes[pid];
       && p.status.Ready? && p.startBlock <= height <= EndBlock(p)
       && (p.envelope.anonymous || tx.signer.Some?) && (basis.envelope.anonymous || tx.signer.Some?)
       && var n := if basis.envelope.anonymous then ve.nullifier else env.nullifierOf(tx.signer.value, pid);
          && n !in e.votes[pid] && n in f.votes[pid]
          && var vote := f.votes[pid][n];
             && Eligible(env, basis, ve, tx.signer, vote.weight)
             && vote.package == ve.package && vote.height == height
             && f == e.(votes := e.votes[pid := e.votes[pid][n := vote]], voteCount := Add64(e.voteCount, 1))
  }

  /** An accepted vote is recorded by a proof that holds: for the process as it is, if the vote
      is checked in full, and for the process it was checked against, if it comes from the
      cache. */
  lemma AcceptedVoteIsEligible(env: Env, n: Node, tx: Tx, seen: map<Tx, Process>)
    requires tx.payload.VoteTx? && CacheVouched(env, n.cache, seen)
    requires AddTx(env, n.working, tx, n.height, Cached(n, tx)).error.None?
    ensures var e, f := n.working.elections, AddTx(env, n.working, tx, n.height, Cached(n, tx)).state.elections;
            && tx.payload.envelope.processId in e.processes
            && (tx in n.cache ==> tx in seen && VoteRecorded(env, e, f, tx, n.height, seen[tx]))
            && (tx !in n.cache ==> VoteRecorded(env, e, f, tx, n.height, e.processes[tx.payload.envelope.processId]))
  {
    if tx in n.cache {
      CachedVoteRecorded(env, n.working, tx, n.height, n.cache[tx], seen[tx]);
    } else {
      FullVoteRecorded(env, n.working, tx, n.height);
    }
    hide VoteRecorded, Vouched, VoteEnvelopeCheck;
  }

  lemma FullVoteRecorded(env: Env, s: State, tx: Tx, height: uint32)
    requires tx.payload.VoteTx? && AddTx(env, s, tx, height, None).error.None?
    ensures var pid := tx.payload.envelope.processId;
            && pid in s.elections.processes
            && VoteRecorded(env, s.elections, AddTx(env, s, tx, height, None).state.elections, tx, height, s.elections.processes[pid])
  {
  }

  lemma CachedVoteRecorded(env: Env, s: State, tx: Tx, height: uint32, vote: Vote, was: Process)
    requires tx.payload.VoteTx? && AddTx(env, s, tx, height, Some(vote)).error.None? && Vouched(env, was, tx, vote)
    ensures tx.payload.envelope.processId in s.elections.processes
    ensures VoteRecorded(env, s.elections, AddTx(env, s, tx, height, Some(vote)).state.elections, tx, height, was)
  {
  }

  /** The same at the end of any run of a node, whatever it checked, evicted and dropped. */
  lemma EveryAcceptedVoteIsEligible(env: Env, n: Node, steps: seq<Step>, seen: map<Tx, Process>, tx: Tx)
    requires tx.payload.VoteTx? && CacheVouched(env, n.cache, seen)
    requires var m := Run(env, n, steps); AddTx(env, m.working, tx, m.height, Cached(m, tx)).error.None?
    ensures var m, after := Run(env, n, steps), SeenAfter(env, n, steps, seen);
            var e, f := m.working.elections, AddTx(env, m.working, tx, m.height, Cached(m, tx)).state.elections;
            && tx.payload.envelope.processId in e.processes
            && (tx in m.cache ==> tx in after && VoteRecorded(env, e, f, tx, m.height, after[tx]))
            && (tx !in m.cache ==> VoteRecorded(env, e, f, tx, m.height, e.processes[tx.payload.envelope.processId]))
  {
    hide Run, CacheVouched, VoteRecorded, AddTx;
    RunKeepsVouched(env, n, steps, seen);
    AcceptedVoteIsEligible(env, Run(env, n, steps), tx, SeenAfter(env, n, steps, seen));
  }

  /** An accepted registration was made before the process starts, with a proof of weight at
      least one, by an address that has now used weight one, and appends exactly its key. */
  lemma AcceptedKeyIsEligible(env: Env, s: State, tx: Tx, height: uint32)
    requires tx.payload.RegisterKeyTx? && AddTx(env, s, tx, height, None).error.None?
    ensures var r, e, f := tx.payload.registration, s.elections, AddTx(env, s, tx, height, None).state.elections;
            && r.processId in e.processes && r.processId in e.censuses && r.processId in f.censuses
            && tx.signer.Some? && r.proof.Some?
            && var p, c := e.processes[r.processId], e.censuses[r.processId];
               && height < p.startBlock && p.status.Ready? && p.mode.preRegister
               && env.verifyProof(p.censusOrigin, p.censusRoot, r.processId, r.proof.value, tx.signer.value).GetOr(0) >= 1
               && (r.processId, tx.signer.value) in f.usedWeight && f.usedWeight[(r.processId, tx.signer.value)] == 1
               && c.length !in c.leaves
               && f.censuses == e.censuses[r.processId := Census(c.leaves[c.length := r.newKey], Add64(c.length, 1))]
               && f.votes == e.votes && f.processes == e.processes
  {
  }

  // ------------------------------------------------ one vote per voter

  /** A delivery from the cache in a process that is not anonymous takes a vote that was
      checked as one that is not. */
  predicate SameAnonymity(n: Node, step: Step, seen: map<Tx, Process>) {
    step.DeliverTx? && TakesCached(n, step.tx) && step.tx in seen ==>
      (n.working.elections.processes[step.tx.payload.envelope.processId].envelope.anonymous || !seen[step.tx].envelope.anonymous)
  }

  predicate SameAnonymityRun(env: Env, n: Node, steps: seq<Step>, seen: map<Tx, Process>)
    decreases |steps|
  {
    steps == [] || (SameAnonymity(n, steps[0], seen) && SameAnonymityRun(env, Next(env, n, steps[0]), steps[1..], Noted(n, steps[0], seen)))
  }

  /** The nullifier of a vote is that of its signer, if the process is not anonymous. */
  predicate Named(env: Env, ps: map<Bytes, Process>, tx: Tx, vote: Vote)
    requires tx.payload.VoteTx?
  {
    var pid := tx.payload.envelope.processId;
    && vote.processId == pid
    && (pid in ps && !ps[pid].envelope.anonymous ==> tx.signer.Some? && vote.nullifier == env.nullifierOf(tx.signer.value, pid))
  }

  lemma AcceptedTakesCached(env: Env, n: Node, tx: Tx)
    requires tx.payload.VoteTx? && tx in n.cache && AddTx(env, n.working, tx, n.height, Cached(n, tx)).error.None?
    ensures TakesCached(n, tx)
  {
    hide AddVote, CachedVoteCheck;
  }

  lemma AcceptedIsNamed(env: Env, n: Node, tx: Tx, seen: map<Tx, Process>)
    requires tx.payload.VoteTx? && tx in n.cache && AddTx(env, n.working, tx, n.height, Cached(n, tx)).error.None?
    requires CacheVouched(env, n.cache, seen) && SameAnonymity(n, DeliverTx(tx), seen)
    ensures Named(env, n.working.elections.processes, tx, n.cache[tx])
  {
    hide AddTx, VoteGate;
    AcceptedTakesCached(env, n, tx);
    assert Vouched(env, seen[tx], tx, n.cache[tx]);
  }

  /** Every cached vote that was accepted in a history is named. */
  ghost predicate NamedAt(env: Env, s: State, es: seq<Event>, k: nat)
    requires k < |es|
  {
    Accepted(env, s, es, k) && es[k].tx.payload.VoteTx? && es[k].cached.Some? ==>
      Named(env, Replay(env, s, es[..k]).elections.processes, es[k].tx, es[k].cached.value)
  }

  ghost predicate AllNamed(env: Env, s: State, es: seq<Event>) {
    forall k :: 0 <= k < |es| ==> NamedAt(env, s, es, k)
  }

  lemma OneMoreNamed(env: Env, s: State, es: seq<Event>, e: Event)
    requires AllNamed(env, s, es) && NamedAt(env, s, es + [e], |es|)
    ensures AllNamed(env, s, es + [e])
  {
    hide Named, Replay, AddTx;
    var all := es + [e];
    forall k | 0 <= k < |all| ensures NamedAt(env, s, all, k) {
      if k < |es| {
        assert all[..k] == es[..k];
        assert NamedAt(env, s, es, k);
      }
    }
  }

  lemma StepLogsNamed(env: Env, s: State, n: Node, step: Step, log: Log, seen: map<Tx, Process>)
    requires CacheVouched(env, n.cache, seen) && SameAnonymity(n, step, seen)
    requires Recorded(env, s, n, log) && AllNamed(env, s, log.committed) && AllNamed(env, s, log.working)
    ensures var l := Logged(env, n, step, log); AllNamed(env, s, l.committed) && AllNamed(env, s, l.working)
  {
    hide AllNamed, Replay, Named, Save, AddTx, TakesCached, CacheVouched, SameAnonymity;
    var es := log.working;
    match step
    case DeliverTx(tx) =>
      var e := Delivery(tx, n.height, Cached(n, tx));
      assert (es + [e])[..|es|] == es;
      if Accepted(env, s, es + [e], |es|) && tx.payload.VoteTx? && tx in n.cache {
        AcceptedIsNamed(env, n, tx, seen);
      }
      OneMoreNamed(env, s, es, e);
    case Commit => OneMoreNamed(env, s, es, BlockEnd(n.height));
    case _ =>
  }

  lemma {:induction false} RunLogsNamed(env: Env, s: State, n: Node, steps: seq<Step>, log: Log, seen: map<Tx, Process>)
    requires CacheVouched(env, n.cache, seen) && SameAnonymityRun(env, n, steps, seen)
    requires Recorded(env, s, n, log) && AllNamed(env, s, log.committed) && AllNamed(env, s, log.working)
    ensures AllNamed(env, s, LogOf(env, n, steps, log).working)
    decreases |steps|
  {
    hide Next, Logged, CacheVouched, SameAnonymity, Noted, Recorded, AllNamed;
    if steps != [] {
      StepKeepsVouched(env, n, steps[0], seen);
      StepRecorded(env, s, n, steps[0], log);
      StepLogsNamed(env, s, n, steps[0], log, seen);
      RunLogsNamed(env, s, Next(env, n, steps[0]), steps[1..], Logged(env, n, steps[0], log), Noted(n, steps[0], seen));
    }
  }

  /** An accepted vote of a signer takes the nullifier of the signer, which was free. */
  lemma VoteTakesNullifier(env: Env, s: State, tx: Tx, height: uint32, cached: Option<Vote>)
    requires tx.payload.VoteTx? && AddTx(env, s, tx, height, cached).error.None?
    requires cached.Some? ==> Named(env, s.elections.processes, tx, cached.value)
    ensures var pid, e, f := tx.payload.envelope.processId, s.elections, AddTx(env, s, tx, height, cached).state.elections;
            && pid in e.processes && pid in e.votes && pid in f.votes
            && (!e.processes[pid].envelope.anonymous ==>
                  && tx.signer.Some?
                  && env.nullifierOf(tx.signer.value, pid) !in e.votes[pid]
                  && env.nullifierOf(tx.signer.value, pid) in f.votes[pid])
  {
  }

  /** One vote per voter: in no run of a node, in its committed blocks and the current one and
      with votes taken from the cache or not, do two accepted votes in a process that is not
      anonymous have the same signer; also if blocks were dropped that had created processes,
      unless a vote from the cache was checked in an anonymous process of the same identifier. */
  lemma OneVotePerVoter(env: Env, n: Node, steps: seq<Step>, seen: map<Tx, Process>, i: nat, j: nat)
    requires NodeOk(env, n) && n.working == n.committed && CacheVouched(env, n.cache, seen) && SameAnonymityRun(env, n, steps, seen)
    requires var s, es := n.committed, HistoryOf(env, n, steps);
             && i < j < |es| && Accepted(env, s, es, i) && Accepted(env, s, es, j)
             && es[i].tx.payload.VoteTx? && es[j].tx.payload.VoteTx?
             && var ps := Replay(env, s, es[..i]).elections.processes;
                var pid := es[i].tx.payload.envelope.processId;
                pid in ps && !ps[pid].envelope.anonymous
    ensures var es := HistoryOf(env, n, steps);
            && Run(env, n, steps).working == Replay(env, n.committed, es)
            && (es[i].tx.payload.envelope.processId != es[j].tx.payload.envelope.processId || es[i].tx.signer != es[j].tx.signer)
  {
    hide AddTx, ElectionsOk, Replay, LogOf, Run, Named, CacheVouched, SameAnonymityRun, CacheFits;
    var s, es := n.committed, HistoryOf(env, n, steps);
    HistoryReplays(env, n, steps);
    StartRecorded(env, n);
    RunLogsNamed(env, s, n, steps, Log([], []), seen);
    RunLogsFit(env, n, steps, Log([], []));
    assert NamedAt(env, s, es, i) && NamedAt(env, s, es, j);
    VoteTakesNullifier(env, Replay(env, s, es[..i]), es[i].tx, es[i].height, es[i].cached);
    VoteTakesNullifier(env, Replay(env, s, es[..j]), es[j].tx, es[j].height, es[j].cached);
    ReplayNext(env, s, es, i);
    ReplayIsLater(env, s, es, i, j);
    ReplayIsLater(env, s, es, i + 1, j);
  }

  // ------------------------------------------------ when votes stay named

  /** Every cached vote is for a process with the envelope it was checked against. */
  ghost predicate SameEnvelopes(n: Node, seen: map<Tx, Process>) {
    forall tx :: tx in n.cache ==>
      && tx in seen && tx.payload.VoteTx?
      && tx.payload.envelope.processId in n.working.elections.processes
      && n.working.elections.processes[tx.payload.envelope.processId].envelope == seen[tx].envelope
  }

  /** A block that is dropped has not created the process of a cached vote. */
  predicate DropsNoProcess(n: Node, step: Step) {
    step.BeginBlock? ==> forall tx :: tx in n.cache && tx.payload.VoteTx? ==> tx.payload.envelope.processId in n.committed.elections.processes
  }

  predicate DropsNone(env: Env, n: Node, steps: seq<Step>)
    decreases |steps|
  {
    steps == [] || (DropsNoProcess(n, steps[0]) && DropsNone(env, Next(env, n, steps[0]), steps[1..]))
  }

  lemma DeliverKeepsEnvelopes(env: Env, n: Node, tx: Tx, seen: map<Tx, Process>)
    requires SameEnvelopes(n, seen) && CacheOk(n.cache)
    ensures SameEnvelopes(Next(env, n, DeliverTx(tx)), seen)
  {
    hide AddTx, TakesCached;
    var m := Next(env, n, DeliverTx(tx));
    forall c | c in m.cache
      ensures c.payload.VoteTx? && c.payload.envelope.processId in m.working.elections.processes
      ensures c in seen && m.working.elections.processes[c.payload.envelope.processId].envelope == seen[c].envelope
    {
      assert c in n.cache;
      DeliveryKeepsTerms(env, n.working, tx, n.height, Cached(n, tx), c.payload.envelope.processId);
    }
  }

  lemma CheckKeepsEnvelopes(env: Env, n: Node, tx: Tx, seen: map<Tx, Process>)
    requires SameEnvelopes(n, seen)
    ensures SameEnvelopes(Next(env, n, CheckTx(tx)), Noted(n, CheckTx(tx), seen))
  {
  }

  lemma BeginKeepsEnvelopes(env: Env, n: Node, seen: map<Tx, Process>)
    requires SameEnvelopes(n, seen) && DropsNoProcess(n, BeginBlock) && LaterProcesses(n.committed.elections.processes, n.working.elections.processes)
    ensures SameEnvelopes(Next(env, n, BeginBlock), seen)
  {
    hide AddTx, Save, VoteEnvelopeCheck, TakesCached;
    forall tx | tx in n.cache ensures n.committed.elections.processes[tx.payload.envelope.processId].envelope == seen[tx].envelope {
      var pid := tx.payload.envelope.processId;
      assert LaterProcess(n.committed.elections.processes[pid], n.working.elections.processes[pid]);
    }
  }

  lemma CommitKeepsEnvelopes(env: Env, n: Node, seen: map<Tx, Process>)
    requires SameEnvelopes(n, seen)
    ensures SameEnvelopes(Next(env, n, Commit), seen)
  {
    hide AddTx, VoteEnvelopeCheck, TakesCached;
  }

  lemma StepKeepsEnvelopes(env: Env, n: Node, step: Step, seen: map<Tx, Process>)
    requires NodeOk(env, n) && SameEnvelopes(n, seen) && DropsNoProcess(n, step)
    ensures SameEnvelopes(Next(env, n, step), Noted(n, step, seen)) && SameAnonymity(n, step, seen)
  {
    hide AddTx, VoteEnvelopeCheck, VoteGate, Save, StateOk, LaterVotes, LaterProcess, DropsNoProcess;
    match step
    case BeginBlock => BeginKeepsEnvelopes(env, n, seen);
    case DeliverTx(tx) => DeliverKeepsEnvelopes(env, n, tx, seen);
    case CheckTx(tx) => CheckKeepsEnvelopes(env, n, tx, seen);
    case Evict(_) =>
    case Commit => CommitKeepsEnvelopes(env, n, seen);
  }

  /** A node that drops no block that created the process of a cached vote never mixes up
      anonymous votes and others. */
  lemma {:induction false} DropsNoneIsSameAnonymity(env: Env, n: Node, steps: seq<Step>, seen: map<Tx, Process>)
    requires NodeOk(env, n) && SameEnvelopes(n, seen) && DropsNone(env, n, steps)
    ensures SameAnonymityRun(env, n, steps, seen)
    decreases |steps|
  {
    hide Next, NodeOk, SameEnvelopes, DropsNoProcess, SameAnonymity, Noted, Later;
    if steps != [] {
      NextKeeps(env, n, steps[0]);
      StepKeepsEnvelopes(env, n, steps[0], seen);
      DropsNoneIsSameAnonymity(env, Next(env, n, steps[0]), steps[1..], Noted(n, steps[0], seen));
    }
  }
}
