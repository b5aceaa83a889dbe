/** Safety of the ledger over whole runs: supply, replays and faucet packages. */
module LedgerRuns {
  import opened Common
  import opened Accounts
  import opened Payments
  import opened LedgerLaws
  import opened Voting
  import opened Chain
  import opened Histories

  // ------------------------------------------------ the ledger side of a transaction

  predicate AboutProcess(tx: Tx) {
    tx.payload.NewProcessTx? || tx.payload.SetProcessTx?
  }

  function ProcessTxType(tx: Tx): TxType
    requires AboutProcess(tx)
  {
    match tx.payload
    case NewProcessTx(_, _, _, _) => NEW_PROCESS
    case SetProcessTx(_, action, _) => ActionType(action)
  }

  /** No signature in the transaction recovers to the burn account. */
  predicate NoBurn(tx: Tx) {
    tx.signer != Some(BURN_ADDRESS) && (tx.payload.PaymentTx? ==> NoBurnSignature(tx.payload.payment, tx.signer))
  }

  /** A transaction about a process charges its signer, or nothing; one about votes, keys or
      censuses never touches the ledger. */
  lemma LedgerSide(env: Env, s: State, tx: Tx, height: uint32, cached: Option<Vote>)
    ensures var r := AddTx(env, s, tx, height, cached);
            && (tx.payload.PaymentTx? ==> Reply(r.state.ledger, r.error) == Payments.Deliver(s.ledger, tx.payload.payment, tx.signer))
            && (!tx.payload.PaymentTx? && !AboutProcess(tx) ==> r.state.ledger == s.ledger)
            && (AboutProcess(tx) ==>
                  || (r.state.ledger == s.ledger && r.error.Some?)
                  || (&& tx.signer.Some? && tx.signer.value in s.ledger.accounts
                      && tx.payload.nonce == s.ledger.accounts[tx.signer.value].nonce
                      && Reply(r.state.ledger, r.error) == PayForProcess(s.ledger, tx.signer.value, ProcessTxType(tx))))
  {
    match tx.payload
    case NewProcessTx(_, _, _, _) => NewProcessSide(env, s, tx, height);
    case SetProcessTx(_, _, _) => SetProcessSide(env, s, tx, height);
    case _ =>
  }

  lemma NewProcessSide(env: Env, s: State, tx: Tx, height: uint32)
    requires tx.payload.NewProcessTx?
    ensures NewProcessCheck(env, s, tx, height).Ok? ==>
              && tx.signer == Some(NewProcessCheck(env, s, tx, height).value.sender)
              && tx.signer.value in s.ledger.accounts
              && tx.payload.nonce == s.ledger.accounts[tx.signer.value].nonce
  {
  }

  lemma SetProcessSide(env: Env, s: State, tx: Tx, height: uint32)
    requires tx.payload.SetProcessTx?
    ensures SetProcessCheck(s, tx).Ok? ==>
              && tx.signer == Some(SetProcessCheck(s, tx).value)
              && tx.signer.value in s.ledger.accounts
              && tx.payload.nonce == s.ledger.accounts[tx.signer.value].nonce
  {
  }

  // ------------------------------------------------ conservation over runs of a node

  function TxMinted(s: State, tx: Tx): uint64 {
    if tx.payload.PaymentTx? then Minted(s.ledger, tx.payload.payment, tx.signer) else 0
  }

  /** What an account gains by paying itself. */
  function TxSelfPaid(s: State, tx: Tx): uint64 {
    if tx.payload.PaymentTx? then PaidToItself(s.ledger, tx.payload.payment, tx.signer) else 0
  }

  /** Delivering any transaction, accepted or not, changes the supply by what it mints and by
      what it pays from an account to itself. */
  lemma DeliverSupply(env: Env, s: State, tx: Tx, height: uint32, cached: Option<Vote>)
    requires NoBurn(tx)
    ensures Supply(AddTx(env, s, tx, height, cached).state.ledger) == Supply(s.ledger) + TxMinted(s, tx) + TxSelfPaid(s, tx)
  {
    hide AddTx, Payments.Deliver, PayForProcess;
    LedgerSide(env, s, tx, height, cached);
    if tx.payload.PaymentTx? {
      SupplyLaw(s.ledger, tx.payload.payment, tx.signer);
    } else if AboutProcess(tx) && tx.signer.Some? {
      ProcessSupply(s.ledger, tx.signer.value, ProcessTxType(tx));
    }
  }

  /** Amounts in the committed state and in the current block. */
  datatype Tally = Tally(committed: int, working: int)

  /** Adds up an amount of every delivery along a run: a dropped block takes its share with
      it, and a commit keeps it. */
  function Along(env: Env, n: Node, steps: seq<Step>, amount: (State, Tx) -> int, t: Tally): Tally
    decreases |steps|
  {
    if steps == [] then t
    else
      var next := Next(env, n, steps[0]);
      match steps[0]
      case BeginBlock => Along(env, next, steps[1..], amount, if n.saved + 1 < TWO32 then t.(working := t.committed) else t)
      case DeliverTx(tx) => Along(env, next, steps[1..], amount, t.(working := t.working + amount(n.working, tx)))
      case Commit =>
        Along(env, next, steps[1..], amount, if Save(env, n.working.elections, n.height).Ok? then t.(committed := t.working) else t)
      case _ => Along(env, next, steps[1..], amount, t)
  }

  function Gained(s: State, tx: Tx): int {
    TxMinted(s, tx) + TxSelfPaid(s, tx)
  }

  /** Token conservation over every run: blocks, deliveries, accepted or not, and dropped
      blocks leave the supply, burnt tokens included, at what it was plus exactly what was
      minted and what accounts paid to themselves. */
  lemma {:induction false} TokensAreConserved(env: Env, n: Node, steps: seq<Step>, supply: int, t: Tally)
    requires EveryStep(steps, NoBurn)
    requires Supply(n.committed.ledger) == supply + t.committed && Supply(n.working.ledger) == supply + t.working
    ensures var m, gained := Run(env, n, steps), Along(env, n, steps, Gained, t);
            && Supply(m.committed.ledger) == supply + gained.committed
            && Supply(m.working.ledger) == supply + gained.working
    decreases |steps|
  {
    hide AddTx, Save, Supply, TxMinted, TxSelfPaid, NoBurn;
    if steps != [] {
      var next, rest := Next(env, n, steps[0]), steps[1..];
      match steps[0]
      case BeginBlock =>
        TokensAreConserved(env, next, rest, supply, if n.saved + 1 < TWO32 then t.(working := t.committed) else t);
      case DeliverTx(tx) =>
        DeliverSupply(env, n.working, tx, n.height, Cached(n, tx));
        TokensAreConserved(env, next, rest, supply, t.(working := t.working + Gained(n.working, tx)));
      case Commit =>
        TokensAreConserved(env, next, rest, supply, if Save(env, n.working.elections, n.height).Ok? then t.(committed := t.working) else t);
      case _ => TokensAreConserved(env, next, rest, supply, t);
    }
  }

  // ------------------------------------------------ nonces

  /** The account whose nonce a transaction must carry, and the nonce it carries. */
  function TxOwner(s: State, tx: Tx): Option<Address> {
    match tx.payload
    case PaymentTx(p) => NonceOwner(s.ledger, p, tx.signer)
    case NewProcessTx(_, _, _, _) => tx.signer
    case SetProcessTx(_, _, _) => tx.signer
    case _ => None
  }

  function TxNonce(tx: Tx): uint32 {
    match tx.payload
    case PaymentTx(p) => p.nonce
    case NewProcessTx(_, _, _, nonce) => nonce
    case SetProcessTx(_, _, nonce) => nonce
    case _ => 0
  }

  lemma ActionTypeNotCollect(tx: Tx)
    requires AboutProcess(tx)
    ensures !ProcessTxType(tx).COLLECT_FAUCET?
  {
  }

  /** A delivery moves each nonce by at most one, and an accepted one carries and raises the
      nonce of its owner. */
  lemma DeliveryNonce(env: Env, s: State, tx: Tx, height: uint32, cached: Option<Vote>, a: Address)
    requires a != BURN_ADDRESS
    ensures var r := AddTx(env, s, tx, height, cached);
            && NonceMoves(s.ledger, r.state.ledger, a)
            && (TxOwner(s, tx) == Some(a) && r.error.None? ==>
                  a in s.ledger.accounts && TxNonce(tx) == s.ledger.accounts[a].nonce && NonceRaised(s.ledger, r.state.ledger, a))
  {
    hide AddTx, Payments.Deliver, PayForProcess;
    LedgerSide(env, s, tx, height, cached);
    if tx.payload.PaymentTx? {
      NonceLaw(s.ledger, tx.payload.payment, tx.signer, a);
    } else if AboutProcess(tx) && tx.signer.Some? {
      ActionTypeNotCollect(tx);
      ProcessNonce(s.ledger, tx.signer.value, ProcessTxType(tx), a);
    }
  }

  lemma EventNonce(env: Env, s: State, e: Event, a: Address)
    requires a != BURN_ADDRESS
    ensures NonceMoves(s.ledger, After(env, s, e).ledger, a)
  {
    hide AddTx, Save;
    if e.Delivery? {
      DeliveryNonce(env, s, e.tx, e.height, e.cached, a);
    }
  }

  function NonceOf(s: State, a: Address): Option<uint32> {
    if a in s.ledger.accounts then Some(s.ledger.accounts[a].nonce) else None
  }

  /** How often the nonce of an account moved between two points of a history. */
  function Raises(env: Env, s: State, es: seq<Event>, i: nat, j: nat, a: Address): nat
    requires j <= |es|
  {
    if j <= i then 0
    else
      Raises(env, s, es, i, j - 1, a) +
      if NonceOf(Replay(env, s, es[..j]), a) != NonceOf(Replay(env, s, es[..j - 1]), a) then 1 else 0
  }

  /** A nonce is what it was plus how often it moved, in machine arithmetic. */
  lemma {:induction false} NonceDrift(env: Env, s: State, es: seq<Event>, i: nat, j: nat, a: Address)
    requires i <= j <= |es| && a != BURN_ADDRESS
    requires a in Replay(env, s, es[..i]).ledger.accounts
    ensures a in Replay(env, s, es[..j]).ledger.accounts
    ensures Replay(env, s, es[..j]).ledger.accounts[a].nonce ==
            (Replay(env, s, es[..i]).ledger.accounts[a].nonce + Raises(env, s, es, i, j, a)) % TWO32
    decreases j - i
  {
    hide After, Replay;
    if i < j {
      NonceDrift(env, s, es, i, j - 1, a);
      ReplayNext(env, s, es, j - 1);
      EventNonce(env, Replay(env, s, es[..j - 1]), es[j - 1], a);
      NonceStep(Replay(env, s, es[..i]).ledger.accounts[a].nonce, Raises(env, s, es, i, j - 1, a));
    }
  }

  lemma NonceStep(nonce: uint32, moved: nat)
    ensures Add32((nonce + moved) % TWO32, 1) == (nonce + moved + 1) % TWO32
    ensures Add32((nonce + moved) % TWO32, 1) != (nonce + moved) % TWO32
  {
  }

  lemma SameNonceIff(nonce: uint32, moved: nat)
    ensures (nonce + moved) % TWO32 == nonce <==> moved % TWO32 == 0
  {
  }

  lemma {:induction false} RaisesFrom(env: Env, s: State, es: seq<Event>, i: nat, j: nat, a: Address)
    requires i < j <= |es| && NonceOf(Replay(env, s, es[..i + 1]), a) != NonceOf(Replay(env, s, es[..i]), a)
    ensures Raises(env, s, es, i, j, a) > 0
    decreases j - i
  {
    hide Replay;
    if i + 1 < j {
      RaisesFrom(env, s, es, i, j - 1, a);
    }
  }

  /** Two accepted transactions of one account in a history carry the same nonce exactly if
      its nonce went all the way round in between. */
  lemma ReplayIffWrapped(env: Env, s: State, es: seq<Event>, i: nat, j: nat, a: Address)
    requires i < j < |es| && a != BURN_ADDRESS
    requires Accepted(env, s, es, i) && TxOwner(Replay(env, s, es[..i]), es[i].tx) == Some(a)
    requires Accepted(env, s, es, j) && TxOwner(Replay(env, s, es[..j]), es[j].tx) == Some(a)
    ensures TxNonce(es[i].tx) == TxNonce(es[j].tx) <==> Raises(env, s, es, i, j, a) % TWO32 == 0
    ensures Raises(env, s, es, i, j, a) > 0
  {
    hide AddTx, Replay, TxOwner, TxNonce;
    var first, last := Replay(env, s, es[..i]), Replay(env, s, es[..j]);
    DeliveryNonce(env, first, es[i].tx, es[i].height, es[i].cached, a);
    DeliveryNonce(env, last, es[j].tx, es[j].height, es[j].cached, a);
    ReplayNext(env, s, es, i);
    NonceStep(first.ledger.accounts[a].nonce, 0);
    NonceDrift(env, s, es, i, j, a);
    RaisesFrom(env, s, es, i, j, a);
    SameNonceIff(first.ledger.accounts[a].nonce, Raises(env, s, es, i, j, a));
  }

  /** No replay: in no run of a node, in its committed blocks and the current one, do two
      accepted transactions of one account carry the same nonce, unless that nonce moved a
      multiple of 2^32 times in between. */
  lemma NoReplay(env: Env, n: Node, steps: seq<Step>, i: nat, j: nat, a: Address)
    requires n.working == n.committed && a != BURN_ADDRESS
    requires var s, es := n.committed, HistoryOf(env, n, steps);
             && i < j < |es|
             && Accepted(env, s, es, i) && TxOwner(Replay(env, s, es[..i]), es[i].tx) == Some(a)
             && Accepted(env, s, es, j) && TxOwner(Replay(env, s, es[..j]), es[j].tx) == Some(a)
    ensures var s, es := n.committed, HistoryOf(env, n, steps);
            && Run(env, n, steps).working == Replay(env, s, es)
            && (TxNonce(es[i].tx) == TxNonce(es[j].tx) <==> Raises(env, s, es, i, j, a) % TWO32 == 0)
            && (Raises(env, s, es, i, j, a) < TWO32 ==> TxNonce(es[i].tx) != TxNonce(es[j].tx))
  {
    hide Replay, Run, LogOf, TxOwner, TxNonce, AddTx, Raises;
    HistoryReplays(env, n, steps);
    ReplayIffWrapped(env, n.committed, HistoryOf(env, n, steps), i, j, a);
  }

  // ------------------------------------------------ the treasurer

  predicate ByTreasurer(tx: Tx) {
    tx.payload.PaymentTx? && OfTreasurer(tx.payload.payment)
  }

  lemma DeliveryTreasurer(env: Env, s: State, tx: Tx, height: uint32, cached: Option<Vote>)
    ensures var r := AddTx(env, s, tx, height, cached);
            && r.state.ledger.treasurer.nonce ==
               (if ByTreasurer(tx) && r.error.None? then Add32(s.ledger.treasurer.nonce, 1) else s.ledger.treasurer.nonce)
            && (ByTreasurer(tx) && r.error.None? ==> TxNonce(tx) == s.ledger.treasurer.nonce)
  {
    hide AddTx, Payments.Deliver;
    LedgerSide(env, s, tx, height, cached);
    if tx.payload.PaymentTx? {
      TreasurerNonceLaw(s.ledger, tx.payload.payment, tx.signer);
    }
  }

  lemma EventTreasurer(env: Env, s: State, e: Event)
    ensures var t, t' := s.ledger.treasurer.nonce, After(env, s, e).ledger.treasurer.nonce;
            t' == t || t' == Add32(t, 1)
  {
    hide AddTx, Save;
    if e.Delivery? {
      DeliveryTreasurer(env, s, e.tx, e.height, e.cached);
    }
  }

  /** How often the treasurer's nonce moved between two points of a history. */
  function TreasurerRaises(env: Env, s: State, es: seq<Event>, i: nat, j: nat): nat
    requires j <= |es|
  {
    if j <= i then 0
    else
      TreasurerRaises(env, s, es, i, j - 1) +
      if Replay(env, s, es[..j]).ledger.treasurer.nonce != Replay(env, s, es[..j - 1]).ledger.treasurer.nonce then 1 else 0
  }

  lemma {:induction false} TreasurerDrift(env: Env, s: State, es: seq<Event>, i: nat, j: nat)
    requires i <= j <= |es|
    ensures Replay(env, s, es[..j]).ledger.treasurer.nonce ==
            (Replay(env, s, es[..i]).ledger.treasurer.nonce + TreasurerRaises(env, s, es, i, j)) % TWO32
    decreases j - i
  {
    hide After, Replay;
    if i < j {
      TreasurerDrift(env, s, es, i, j - 1);
      ReplayNext(env, s, es, j - 1);
      EventTreasurer(env, Replay(env, s, es[..j - 1]), es[j - 1]);
      NonceStep(Replay(env, s, es[..i]).ledger.treasurer.nonce, TreasurerRaises(env, s, es, i, j - 1));
    }
  }

  lemma {:induction false} TreasurerRaisesFrom(env: Env, s: State, es: seq<Event>, i: nat, j: nat)
    requires i < j <= |es|
    requires Replay(env, s, es[..i + 1]).ledger.treasurer.nonce != Replay(env, s, es[..i]).ledger.treasurer.nonce
    ensures TreasurerRaises(env, s, es, i, j) > 0
    decreases j - i
  {
    hide Replay;
    if i + 1 < j {
      TreasurerRaisesFrom(env, s, es, i, j - 1);
    }
  }

  /** Nor do two accepted transactions of the treasurer. */
  lemma NoTreasurerReplay(env: Env, n: Node, steps: seq<Step>, i: nat, j: nat)
    requires n.working == n.committed
    requires var s, es := n.committed, HistoryOf(env, n, steps);
             && i < j < |es|
             && Accepted(env, s, es, i) && ByTreasurer(es[i].tx) && Accepted(env, s, es, j) && ByTreasurer(es[j].tx)
    ensures var s, es := n.committed, HistoryOf(env, n, steps);
            && Run(env, n, steps).working == Replay(env, s, es)
            && (TxNonce(es[i].tx) == TxNonce(es[j].tx) <==> TreasurerRaises(env, s, es, i, j) % TWO32 == 0)
            && (TreasurerRaises(env, s, es, i, j) < TWO32 ==> TxNonce(es[i].tx) != TxNonce(es[j].tx))
  {
    hide Replay, Run, LogOf, TxNonce, AddTx;
    HistoryReplays(env, n, steps);
    var s, es := n.committed, HistoryOf(env, n, steps);
    var first := Replay(env, s, es[..i]);
    DeliveryTreasurer(env, first, es[i].tx, es[i].height, es[i].cached);
    DeliveryTreasurer(env, Replay(env, s, es[..j]), es[j].tx, es[j].height, es[j].cached);
    ReplayNext(env, s, es, i);
    NonceStep(first.ledger.treasurer.nonce, 0);
    TreasurerDrift(env, s, es, i, j);
    TreasurerRaisesFrom(env, s, es, i, j);
    SameNonceIff(first.ledger.treasurer.nonce, TreasurerRaises(env, s, es, i, j));
  }

  // ------------------------------------------------ faucet packages

  /** Delivering the transaction pays the faucet package it carries. */
  ghost predicate PaysPackage(s: State, tx: Tx) {
    tx.payload.PaymentTx? && Pays(s.ledger, tx.payload.payment, tx.signer)
  }

  function PackageOf(tx: Tx): Option<(Address, uint64)> {
    if tx.payload.PaymentTx? then FaucetKey(tx.payload.payment) else None
  }

  lemma DeliveryFaucet(env: Env, s: State, tx: Tx, height: uint32, cached: Option<Vote>)
    ensures var l := AddTx(env, s, tx, height, cached).state.ledger;
            && s.ledger.faucet <= l.faucet
            && (PaysPackage(s, tx) ==>
                  PackageOf(tx).Some? && PackageOf(tx).value !in s.ledger.faucet && PackageOf(tx).value in l.faucet)
  {
    hide AddTx, Payments.Deliver, PayForProcess, Pays;
    LedgerSide(env, s, tx, height, cached);
    if tx.payload.PaymentTx? {
      FaucetLaw(s.ledger, tx.payload.payment, tx.signer);
      PayingMarks(s.ledger, tx.payload.payment, tx.signer);
    } else if AboutProcess(tx) && tx.signer.Some? {
      ProcessFaucet(s.ledger, tx.signer.value, ProcessTxType(tx));
    }
  }

  lemma ProcessFaucet(l: Ledger, sender: Address, t: TxType)
    ensures PayForProcess(l, sender, t).ledger.faucet == l.faucet
  {
  }

  lemma {:induction false} FaucetGrows(env: Env, s: State, es: seq<Event>, i: nat, j: nat)
    requires i <= j <= |es|
    ensures Replay(env, s, es[..i]).ledger.faucet <= Replay(env, s, es[..j]).ledger.faucet
    decreases j - i
  {
    hide AddTx, Save, Replay, PaysPackage;
    if i < j {
      FaucetGrows(env, s, es, i, j - 1);
      ReplayNext(env, s, es, j - 1);
      if es[j - 1].Delivery? {
        DeliveryFaucet(env, Replay(env, s, es[..j - 1]), es[j - 1].tx, es[j - 1].height, es[j - 1].cached);
      }
    }
  }

  /** A faucet package pays once: in no run of a node, in its committed blocks and the current
      one, by account creation or by collection, are tokens moved twice, or two transactions
      accepted, on account of packages with the same issuer and identifier. */
  lemma FaucetPaysOnce(env: Env, n: Node, steps: seq<Step>, i: nat, j: nat)
    requires n.working == n.committed
    requires var s, es := n.committed, HistoryOf(env, n, steps);
             && i < j < |es| && es[i].Delivery? && es[j].Delivery?
             && PaysPackage(Replay(env, s, es[..i]), es[i].tx) && PaysPackage(Replay(env, s, es[..j]), es[j].tx)
    ensures var es := HistoryOf(env, n, steps);
            && Run(env, n, steps).working == Replay(env, n.committed, es)
            && PackageOf(es[i].tx).Some? && PackageOf(es[i].tx) != PackageOf(es[j].tx)
  {
    hide AddTx, Replay, Run, LogOf, PaysPackage, PackageOf;
    HistoryReplays(env, n, steps);
    var s, es := n.committed, HistoryOf(env, n, steps);
    DeliveryFaucet(env, Replay(env, s, es[..i]), es[i].tx, es[i].height, es[i].cached);
    ReplayNext(env, s, es, i);
    FaucetGrows(env, s, es, i + 1, j);
    DeliveryFaucet(env, Replay(env, s, es[..j]), es[j].tx, es[j].height, es[j].cached);
  }

  // ------------------------------------------------ what was written stays

  /** Accounts, used packages, costs and oracles, removed or not, never disappear. */
  predicate LeavesKept(l: Ledger, l': Ledger) {
    && l.accounts.Keys <= l'.accounts.Keys && l.faucet <= l'.faucet && l.costs.Keys <= l'.costs.Keys
    && l.oracles + l.removed <= l'.oracles + l'.removed
  }

  lemma FeeKeepsLeaves(l: Ledger, a: Address, t: TxType)
    ensures LeavesKept(l, Finish(Accounts.SubtractCostIncrementNonce(l, a, t), l).ledger)
  {
  }

  lemma FaucetKeepsLeaves(l: Ledger, from: Address, p: FaucetPayload, t: TxType)
    ensures LeavesKept(l, Finish(Accounts.ConsumeFaucetPayload(l, from, p, t), l).ledger)
  {
  }

  lemma InfoKeepsLeaves(l: Ledger, p: Payment, signer: Option<Address>)
    requires p.SetAccountInfoTx?
    ensures LeavesKept(l, Payments.Deliver(l, p, signer).ledger)
  {
    hide Accounts.SubtractCostIncrementNonce, Accounts.ConsumeFaucetPayload;
    match SetAccountInfoCheck(l, p, signer)
    case Ok(CreateWithFaucet(sender, issuer)) =>
      var l1 := Accounts.CreateAccount(l, sender, p.infoURI);
      if l1.Ok? {
        FaucetKeepsLeaves(l1.value, issuer, p.faucet.value.payload, SET_ACCOUNT_INFO);
      }
    case Ok(SetInfo(sender, account)) =>
      FeeKeepsLeaves(SetAccount(l, account, l.accounts[account].(infoURI := p.infoURI)), sender, SET_ACCOUNT_INFO);
    case _ =>
  }

  lemma PaymentKeepsLeaves(l: Ledger, p: Payment, signer: Option<Address>)
    ensures LeavesKept(l, Payments.Deliver(l, p, signer).ledger)
  {
    hide Accounts.SubtractCostIncrementNonce, Accounts.ConsumeFaucetPayload;
    match p
    case SetAccountInfoTx(_, _, _, _) => InfoKeepsLeaves(l, p, signer);
    case SendTokensTx(from, to, value, _) =>
      var l1 := Accounts.TransferBalance(l, from, to, value);
      if l1.Ok? {
        FeeKeepsLeaves(l1.value, from, SEND_TOKENS);
      }
    case CollectFaucetTx(package, _) =>
      var issuer := CollectFaucetCheck(l, p, signer);
      if issuer.Ok? {
        FaucetKeepsLeaves(l, issuer.value, package.value.payload, COLLECT_FAUCET);
        var l1 := Accounts.ConsumeFaucetPayload(l, issuer.value, package.value.payload, COLLECT_FAUCET);
        if l1.Ok? {
          FeeKeepsLeaves(l1.value, issuer.value, COLLECT_FAUCET);
        }
      }
    case AddDelegateTx(_, _) => DelegateKeepsLeaves(l, p, signer);
    case DelDelegateTx(_, _) => DelegateKeepsLeaves(l, p, signer);
    case _ =>
  }

  lemma DelegateKeepsLeaves(l: Ledger, p: Payment, signer: Option<Address>)
    requires p.AddDelegateTx? || p.DelDelegateTx?
    ensures LeavesKept(l, Payments.Deliver(l, p, signer).ledger)
  {
    hide Accounts.SubtractCostIncrementNonce;
    var sender := SetAccountDelegateCheck(l, p, signer);
    if sender.Ok? {
      var acc := l.accounts[sender.value];
      var delegates := if p.AddDelegateTx? then acc.delegates + [p.delegate] else WithoutDelegate(acc.delegates, p.delegate);
      FeeKeepsLeaves(SetAccount(l, sender.value, acc.(delegates := delegates)), sender.value, DelegateType(p));
    }
  }

  lemma ProcessKeepsLeaves(l: Ledger, a: Address, t: TxType)
    ensures LeavesKept(l, PayForProcess(l, a, t).ledger)
  {
    hide Accounts.SubtractCostIncrementNonce;
    if a in l.accounts {
      FeeKeepsLeaves(if t.NEW_PROCESS? then IncrementAccountProcessIndex(l, a) else l, a, t);
    }
  }

  /** No transaction, accepted or not, takes anything from the ledger but balances. */
  lemma DeliveryKeepsLeaves(env: Env, s: State, tx: Tx, height: uint32, cached: Option<Vote>)
    ensures LeavesKept(s.ledger, AddTx(env, s, tx, height, cached).state.ledger)
  {
    hide AddTx, PayForProcess, Payments.Deliver;
    LedgerSide(env, s, tx, height, cached);
    if tx.payload.PaymentTx? {
      PaymentKeepsLeaves(s.ledger, tx.payload.payment, tx.signer);
    } else if AboutProcess(tx) && tx.signer.Some? {
      ProcessKeepsLeaves(s.ledger, tx.signer.value, ProcessTxType(tx));
    }
  }
}
