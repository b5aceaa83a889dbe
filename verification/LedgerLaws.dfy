/** What every ledger transaction keeps: the supply, the nonces and the faucet packages. */
module LedgerLaws {
  import opened Common
  import opened Accounts
  import opened Payments

  /** No signature recovers to the burn account. */
  predicate NoBurnSignature(tx: Payment, signer: Option<Address>) {
    && signer != Some(BURN_ADDRESS)
    && (tx.CollectFaucetTx? && tx.package.Some? ==> tx.package.value.issuer != Some(BURN_ADDRESS))
    && (tx.SetAccountInfoTx? && tx.faucet.Some? ==> tx.faucet.value.issuer != Some(BURN_ADDRESS))
  }

  // ------------------------------------------------ token conservation

  /** The transaction pays an account from itself, and the payment goes through. */
  predicate PaysItself(l: Ledger, tx: Payment, signer: Option<Address>) {
    match tx
    case SendTokensTx(from, to, value, _) =>
      from == to && SendTokensCheck(l, tx, signer).Ok? && TransferBalance(l, from, to, value).Ok?
    case CollectFaucetTx(package, _) =>
      && CollectFaucetCheck(l, tx, signer).Ok?
      && package.value.payload.to == package.value.issuer.value
      && ConsumeFaucetPayload(l, package.value.issuer.value, package.value.payload, COLLECT_FAUCET).Ok?
    case _ => false
  }

  function PaidToItself(l: Ledger, tx: Payment, signer: Option<Address>): uint64 {
    if !PaysItself(l, tx, signer) then 0
    else if tx.SendTokensTx? then tx.value
    else tx.package.value.payload.amount
  }

  function Minted(l: Ledger, tx: Payment, signer: Option<Address>): uint64 {
    if tx.MintTokensTx? && Deliver(l, tx, signer).error.None? then tx.value else 0
  }

  lemma UnitSupply(l: Ledger, l': Ledger)
    requires l'.accounts == l.accounts
    ensures Supply(l') == Supply(l)
  {
    assert Balances(l') == Balances(l);
  }

  lemma FinishSupply(l: Ledger, a: Address, t: TxType)
    requires a != BURN_ADDRESS
    ensures Supply(Finish(SubtractCostIncrementNonce(l, a, t), l).ledger) == Supply(l)
  {
    if SubtractCostIncrementNonce(l, a, t).Ok? {
      FeeSupply(l, a, t);
    }
  }

  lemma SendSupply(l: Ledger, tx: Payment, signer: Option<Address>)
    requires tx.SendTokensTx? && NoBurnSignature(tx, signer)
    ensures Supply(Deliver(l, tx, signer).ledger) == Supply(l) + PaidToItself(l, tx, signer)
  {
    if SendTokensCheck(l, tx, signer).Ok? && TransferBalance(l, tx.from, tx.to, tx.value).Ok? {
      TransferSupply(l, tx.from, tx.to, tx.value);
      FinishSupply(TransferBalance(l, tx.from, tx.to, tx.value).value, tx.from, SEND_TOKENS);
    }
  }

  lemma CollectSupply(l: Ledger, tx: Payment, signer: Option<Address>)
    requires tx.CollectFaucetTx? && NoBurnSignature(tx, signer)
    ensures Supply(Deliver(l, tx, signer).ledger) == Supply(l) + PaidToItself(l, tx, signer)
  {
    if CollectFaucetCheck(l, tx, signer).Ok? {
      var p, issuer := tx.package.value.payload, tx.package.value.issuer.value;
      if ConsumeFaucetPayload(l, issuer, p, COLLECT_FAUCET).Ok? {
        FaucetSupply(l, issuer, p, COLLECT_FAUCET);
        FinishSupply(ConsumeFaucetPayload(l, issuer, p, COLLECT_FAUCET).value, issuer, COLLECT_FAUCET);
      }
    }
  }

  lemma CreationSupply(l: Ledger, sender: Address, infoURI: string, issuer: Address, p: FaucetPayload)
    requires sender !in l.accounts && issuer in l.accounts && p.to == sender
    requires issuer != BURN_ADDRESS && sender != BURN_ADDRESS
    ensures var l1 := SetAccount(l, sender, Account(0, 0, 0, infoURI, []));
            && Supply(l1) == Supply(l)
            && Supply(Finish(ConsumeFaucetPayload(l1, issuer, p, SET_ACCOUNT_INFO), l1).ledger) == Supply(l)
  {
    var l1 := SetAccount(l, sender, Account(0, 0, 0, infoURI, []));
    SetAccountSupply(l, sender, Account(0, 0, 0, infoURI, []));
    if ConsumeFaucetPayload(l1, issuer, p, SET_ACCOUNT_INFO).Ok? {
      FaucetSupply(l1, issuer, p, SET_ACCOUNT_INFO);
    }
  }

  lemma InfoSupply(l: Ledger, tx: Payment, signer: Option<Address>)
    requires tx.SetAccountInfoTx? && NoBurnSignature(tx, signer)
    ensures Supply(Deliver(l, tx, signer).ledger) == Supply(l)
  {
    hide Supply, SubtractCostIncrementNonce, ConsumeFaucetPayload;
    match SetAccountInfoCheck(l, tx, signer)
    case Err(_) =>
    case Ok(Create(sender)) => SetAccountSupply(l, sender, Account(0, 0, 0, tx.infoURI, []));
    case Ok(CreateWithFaucet(sender, issuer)) => CreationSupply(l, sender, tx.infoURI, issuer, tx.faucet.value.payload);
    case Ok(SetInfo(sender, account)) =>
      var acc := l.accounts[account].(infoURI := tx.infoURI);
      SetAccountSupply(l, account, acc);
      FinishSupply(SetAccount(l, account, acc), sender, SET_ACCOUNT_INFO);
  }

  lemma DelegateSupply(l: Ledger, tx: Payment, signer: Option<Address>)
    requires (tx.AddDelegateTx? || tx.DelDelegateTx?) && NoBurnSignature(tx, signer)
    ensures Supply(Deliver(l, tx, signer).ledger) == Supply(l)
  {
    hide Supply, SubtractCostIncrementNonce, WithoutDelegate;
    if SetAccountDelegateCheck(l, tx, signer).Ok? {
      var sender := signer.value;
      var acc := l.accounts[sender];
      var next := acc.(delegates := if tx.AddDelegateTx? then acc.delegates + [tx.delegate] else WithoutDelegate(acc.delegates, tx.delegate));
      SetAccountSupply(l, sender, next);
      FinishSupply(SetAccount(l, sender, next), sender, DelegateType(tx));
    }
  }

  /** Token conservation, one transaction: accepted or rejected, it changes the supply by
      what it mints and by what it pays from an account to itself. */
  lemma SupplyLaw(l: Ledger, tx: Payment, signer: Option<Address>)
    requires NoBurnSignature(tx, signer)
    ensures Supply(Deliver(l, tx, signer).ledger) == Supply(l) + Minted(l, tx, signer) + PaidToItself(l, tx, signer)
    ensures !tx.MintTokensTx? ==> (Supply(Deliver(l, tx, signer).ledger) == Supply(l) <==> !PaysItself(l, tx, signer))
  {
    hide Supply, SetAccountInfoDeliver, SendTokensDeliver, CollectFaucetDeliver, SetAccountDelegateDeliver, TransferBalance, ConsumeFaucetPayload;
    match tx
    case SetAccountInfoTx(_, _, _, _) => InfoSupply(l, tx, signer);
    case SendTokensTx(_, _, _, _) => SendSupply(l, tx, signer);
    case CollectFaucetTx(_, _) => CollectSupply(l, tx, signer);
    case AddDelegateTx(_, _) => DelegateSupply(l, tx, signer);
    case DelDelegateTx(_, _) => DelegateSupply(l, tx, signer);
    case MintTokensTx(to, value, _) =>
      if MintBalance(l, to, value).Ok? {
        MintSupply(l, to, value);
        UnitSupply(MintBalance(l, to, value).value, IncrementTreasurerNonce(MintBalance(l, to, value).value));
      }
    case _ => UnitSupply(l, Deliver(l, tx, signer).ledger);
  }

  /** Paying for a process never changes the supply. */
  lemma ProcessSupply(l: Ledger, sender: Address, t: TxType)
    requires sender != BURN_ADDRESS
    ensures Supply(PayForProcess(l, sender, t).ledger) == Supply(l)
  {
    if sender in l.accounts {
      var l1 := IncrementAccountProcessIndex(l, sender);
      SetAccountSupply(l, sender, l1.accounts[sender]);
      FinishSupply(l1, sender, t);
      FinishSupply(l, sender, t);
    }
  }

  /** An account that sends its tokens to itself ends up with more. */
  lemma SelfTransferMints()
    ensures var l := Ledger(map[7 := Account(100, 0, 0, "", [])], {}, map[SEND_TOKENS := 0], Treasurer(1, 0), {}, {});
            var after := Deliver(l, SendTokensTx(7, 7, 40, 0), Some(7));
            after.error.None? && BalanceOf(after.ledger, 7) == 140
  {
  }

  // ------------------------------------------------ no half-applied payment

  lemma FeeGoesThrough(l: Ledger, a: Address, t: TxType)
    requires Supply(l) < TWO64 && BURN_ADDRESS in l.accounts
    requires a in l.accounts && a != BURN_ADDRESS && TxCost(l, t).Ok?
    ensures SubtractCostIncrementNonce(l, a, t).Ok? <==> TxCost(l, t).value <= BalanceOf(l, a)
    ensures SubtractCostIncrementNonce(l, a, t).Err? ==> SubtractCostIncrementNonce(l, a, t).error.NotEnoughBalance?
    ensures SubtractCostIncrementNonce(l, a, t).Ok? ==>
              var l', cost := SubtractCostIncrementNonce(l, a, t).value, TxCost(l, t).value;
              && BalanceOf(l', a) == BalanceOf(l, a) - cost
              && l'.accounts[a].nonce == (if t.COLLECT_FAUCET? then l.accounts[a].nonce else Add32(l.accounts[a].nonce, 1))
              && BalanceOf(l', BURN_ADDRESS) == BalanceOf(l, BURN_ADDRESS) + cost
              && forall b :: b != a && b != BURN_ADDRESS ==> BalanceOf(l', b) == BalanceOf(l, b)
  {
    HeldBelowSupply(l, a, BURN_ADDRESS);
    TransferExact(l.accounts[a], l.accounts[BURN_ADDRESS], TxCost(l, t).value);
    TransferExact(l.accounts[a].(nonce := Add32(l.accounts[a].nonce, 1)), l.accounts[BURN_ADDRESS], TxCost(l, t).value);
  }

  /** A token transfer between two accounts that passes its check is applied whole, and
      charges value and cost and one nonce, exactly when value plus cost does not wrap.  If
      it wraps, the value moves, when the balance covers it, and the fee is never paid.
      The overflow error cannot occur. */
  lemma SendIsWholeIffNoWrap(l: Ledger, tx: Payment, signer: Option<Address>)
    requires tx.SendTokensTx? && SendTokensCheck(l, tx, signer).Ok?
    requires Supply(l) < TWO64 && BURN_ADDRESS in l.accounts
    requires tx.from != tx.to && tx.from != BURN_ADDRESS
    ensures var reply, cost := Deliver(l, tx, signer), TxCost(l, SEND_TOKENS).value;
            && (reply.error.None? <==> tx.value + cost < TWO64)
            && (reply.error.None? ==>
                  && BalanceOf(reply.ledger, tx.from) == BalanceOf(l, tx.from) - tx.value - cost
                  && BalanceOf(reply.ledger, tx.to) == BalanceOf(l, tx.to) + tx.value + (if tx.to == BURN_ADDRESS then cost else 0)
                  && reply.ledger.accounts[tx.from].nonce == Add32(l.accounts[tx.from].nonce, 1))
            && (reply.error.Some? ==>
                  && reply.error == Some(NotEnoughBalance)
                  && reply.ledger == if tx.value <= BalanceOf(l, tx.from) then TransferBalance(l, tx.from, tx.to, tx.value).value else l)
  {
    HeldBelowSupply(l, tx.from, tx.to);
    TransferExact(l.accounts[tx.from], l.accounts[tx.to], tx.value);
    if TransferBalance(l, tx.from, tx.to, tx.value).Ok? {
      TransferSupply(l, tx.from, tx.to, tx.value);
      FeeGoesThrough(TransferBalance(l, tx.from, tx.to, tx.value).value, tx.from, SEND_TOKENS);
    }
  }

  /** Collecting a faucet package that passes its check, between two accounts, is applied
      whole exactly when amount plus cost does not wrap, and then debits the issuer both.  If
      it wraps, then when the balance covers the amount it moves, the package is used and the
      nonce of the recipient raised, and only the fee is never paid. */
  lemma CollectIsWholeIffNoWrap(l: Ledger, tx: Payment, signer: Option<Address>)
    requires tx.CollectFaucetTx? && CollectFaucetCheck(l, tx, signer).Ok?
    requires NoBurnSignature(tx, signer) && tx.package.value.issuer.value != ZERO_ADDRESS
    requires tx.package.value.issuer != signer
    requires Supply(l) < TWO64 && BURN_ADDRESS in l.accounts
    ensures var reply, cost := Deliver(l, tx, signer), TxCost(l, COLLECT_FAUCET).value;
            var p, issuer := tx.package.value.payload, tx.package.value.issuer.value;
            && (reply.error.None? <==> p.amount + cost < TWO64)
            && (reply.error.None? ==>
                  && BalanceOf(reply.ledger, issuer) == BalanceOf(l, issuer) - p.amount - cost
                  && BalanceOf(reply.ledger, p.to) == BalanceOf(l, p.to) + p.amount
                  && (issuer, p.identifier) in reply.ledger.faucet)
            && (reply.error.Some? ==>
                  && reply.error == Some(NotEnoughBalance)
                  && if p.amount > BalanceOf(l, issuer) then reply.ledger == l
                     else
                       && BalanceOf(reply.ledger, issuer) == BalanceOf(l, issuer) - p.amount
                       && BalanceOf(reply.ledger, p.to) == BalanceOf(l, p.to) + p.amount
                       && reply.ledger.accounts[p.to].nonce == Add32(l.accounts[p.to].nonce, 1)
                       && (issuer, p.identifier) in reply.ledger.faucet)
  {
    hide Supply, SubtractCostIncrementNonce;
    var p, issuer := tx.package.value.payload, tx.package.value.issuer.value;
    HeldBelowSupply(l, issuer, p.to);
    TransferExact(l.accounts[issuer], l.accounts[p.to], p.amount);
    var paid := ConsumeFaucetPayload(l, issuer, p, COLLECT_FAUCET);
    if paid.Ok? {
      FaucetSupply(l, issuer, p, COLLECT_FAUCET);
      FeeGoesThrough(paid.value, issuer, COLLECT_FAUCET);
    }
  }

  /** Creating an account with a faucet package that passes its check pays the package
      exactly when the amount and the cost are both positive and their sum does not wrap.
      Otherwise the account exists, empty, although the transaction is rejected. */
  lemma CreationIsWholeIffPayable(l: Ledger, tx: Payment, signer: Option<Address>)
    requires tx.SetAccountInfoTx? && SetAccountInfoCheck(l, tx, signer).Ok?
    requires SetAccountInfoCheck(l, tx, signer).value.CreateWithFaucet?
    requires NoBurnSignature(tx, signer) && signer.value != ZERO_ADDRESS && tx.faucet.value.issuer.value != ZERO_ADDRESS
    requires Supply(l) < TWO64 && BURN_ADDRESS in l.accounts
    ensures var reply, cost := Deliver(l, tx, signer), TxCost(l, COLLECT_FAUCET).value;
            var p, issuer := tx.faucet.value.payload, tx.faucet.value.issuer.value;
            && (reply.error.None? <==> p.amount > 0 && cost > 0 && p.amount + cost < TWO64)
            && (reply.error.None? ==>
                  && BalanceOf(reply.ledger, issuer) == BalanceOf(l, issuer) - p.amount - cost
                  && BalanceOf(reply.ledger, p.to) == p.amount
                  && (issuer, p.identifier) in reply.ledger.faucet)
            && (reply.error.Some? ==> reply.ledger == SetAccount(l, p.to, Account(0, 0, 0, tx.infoURI, [])))
  {
    var p, issuer := tx.faucet.value.payload, tx.faucet.value.issuer.value;
    var l1 := SetAccount(l, p.to, Account(0, 0, 0, tx.infoURI, []));
    SetAccountSupply(l, p.to, Account(0, 0, 0, tx.infoURI, []));
    CreatedFaucet(l1, issuer, p);
  }

  lemma CreatedFaucet(l: Ledger, issuer: Address, p: FaucetPayload)
    requires Supply(l) < TWO64 && BURN_ADDRESS in l.accounts && TxCost(l, COLLECT_FAUCET).Ok?
    requires issuer in l.accounts && p.to in l.accounts && issuer != p.to
    requires issuer != BURN_ADDRESS && p.to != BURN_ADDRESS && issuer != ZERO_ADDRESS
    requires Add64(p.amount, TxCost(l, COLLECT_FAUCET).value) <= BalanceOf(l, issuer)
    ensures var paid, cost := ConsumeFaucetPayload(l, issuer, p, SET_ACCOUNT_INFO), TxCost(l, COLLECT_FAUCET).value;
            && (paid.Ok? <==> p.amount > 0 && cost > 0 && p.amount + cost < TWO64)
            && (paid.Ok? ==>
                  && BalanceOf(paid.value, issuer) == BalanceOf(l, issuer) - p.amount - cost
                  && BalanceOf(paid.value, p.to) == BalanceOf(l, p.to) + p.amount)
  {
    HeldBelowSupply(l, issuer, p.to);
    HeldBelowSupply(l, issuer, BURN_ADDRESS);
    TransferExact(l.accounts[issuer], l.accounts[p.to], p.amount);
    if p.amount > 0 && p.amount <= BalanceOf(l, issuer) {
      var accFrom := Transfer(l.accounts[issuer], l.accounts[p.to], p.amount).value.0;
      TransferExact(accFrom, l.accounts[BURN_ADDRESS], TxCost(l, COLLECT_FAUCET).value);
    }
    var paid := ConsumeFaucetPayload(l, issuer, p, SET_ACCOUNT_INFO);
    if paid.Ok? {
      FaucetSupply(l, issuer, p, SET_ACCOUNT_INFO);
    }
  }

  // ------------------------------------------------ nonces

  /** The account whose nonce the transaction carries, if it carries one. */
  function NonceOwner(l: Ledger, tx: Payment, signer: Option<Address>): Option<Address> {
    match tx
    case SetAccountInfoTx(_, _, _, _) => if signer.Some? && signer.value in l.accounts then signer else None
    case SendTokensTx(_, _, _, _) => signer
    case AddDelegateTx(_, _) => signer
    case DelDelegateTx(_, _) => signer
    case CollectFaucetTx(_, _) => signer
    case _ => None
  }

  predicate OfTreasurer(tx: Payment) {
    tx.SetTransactionCostsTx? || tx.MintTokensTx? || tx.AddOracleTx? || tx.RemoveOracleTx?
  }

  /** An account keeps its nonce or raises it by one. */
  predicate NonceMoves(l: Ledger, l': Ledger, a: Address) {
    a in l.accounts ==>
      a in l'.accounts && (l'.accounts[a].nonce == l.accounts[a].nonce || l'.accounts[a].nonce == Add32(l.accounts[a].nonce, 1))
  }

  predicate NonceRaised(l: Ledger, l': Ledger, a: Address) {
    a in l.accounts && a in l'.accounts && l'.accounts[a].nonce == Add32(l.accounts[a].nonce, 1)
  }

  lemma FeeNonce(l: Ledger, sender: Address, t: TxType, a: Address)
    requires a != BURN_ADDRESS
    ensures var r := Finish(SubtractCostIncrementNonce(l, sender, t), l);
            && (a in l.accounts ==> a in r.ledger.accounts)
            && (a in l.accounts && (a != sender || r.error.Some? || t.COLLECT_FAUCET?) ==> r.ledger.accounts[a].nonce == l.accounts[a].nonce)
            && (a == sender && r.error.None? && !t.COLLECT_FAUCET? ==> NonceRaised(l, r.ledger, a))
  {
  }

  lemma SendNonce(l: Ledger, tx: Payment, signer: Option<Address>, a: Address)
    requires tx.SendTokensTx? && a != BURN_ADDRESS
    ensures NonceMoves(l, Deliver(l, tx, signer).ledger, a)
    ensures signer == Some(a) && Deliver(l, tx, signer).error.None? ==>
              NonceRaised(l, Deliver(l, tx, signer).ledger, a) && tx.nonce == l.accounts[a].nonce
  {
    if SendTokensCheck(l, tx, signer).Ok? && TransferBalance(l, tx.from, tx.to, tx.value).Ok? {
      FeeNonce(TransferBalance(l, tx.from, tx.to, tx.value).value, tx.from, SEND_TOKENS, a);
    }
  }

  /** A collection raises the recipient's nonce while it pays, not with the fee. */
  lemma CollectNonce(l: Ledger, tx: Payment, signer: Option<Address>, a: Address)
    requires tx.CollectFaucetTx? && a != BURN_ADDRESS
    ensures NonceMoves(l, Deliver(l, tx, signer).ledger, a)
    ensures signer == Some(a) && Deliver(l, tx, signer).error.None? ==>
              NonceRaised(l, Deliver(l, tx, signer).ledger, a) && tx.nonce == l.accounts[a].nonce
  {
    if CollectFaucetCheck(l, tx, signer).Ok? {
      var p, issuer := tx.package.value.payload, tx.package.value.issuer.value;
      if ConsumeFaucetPayload(l, issuer, p, COLLECT_FAUCET).Ok? {
        FeeNonce(ConsumeFaucetPayload(l, issuer, p, COLLECT_FAUCET).value, issuer, COLLECT_FAUCET, a);
      }
    }
  }

  lemma InfoNonce(l: Ledger, tx: Payment, signer: Option<Address>, a: Address)
    requires tx.SetAccountInfoTx? && a != BURN_ADDRESS
    ensures NonceMoves(l, Deliver(l, tx, signer).ledger, a)
    ensures NonceOwner(l, tx, signer) == Some(a) && Deliver(l, tx, signer).error.None? ==>
              NonceRaised(l, Deliver(l, tx, signer).ledger, a) && tx.nonce == l.accounts[a].nonce
  {
    match SetAccountInfoCheck(l, tx, signer)
    case Ok(SetInfo(sender, account)) =>
      FeeNonce(SetAccount(l, account, l.accounts[account].(infoURI := tx.infoURI)), sender, SET_ACCOUNT_INFO, a);
    case _ =>
  }

  lemma DelegateNonce(l: Ledger, tx: Payment, signer: Option<Address>, a: Address)
    requires (tx.AddDelegateTx? || tx.DelDelegateTx?) && a != BURN_ADDRESS
    ensures NonceMoves(l, Deliver(l, tx, signer).ledger, a)
    ensures signer == Some(a) && Deliver(l, tx, signer).error.None? ==>
              NonceRaised(l, Deliver(l, tx, signer).ledger, a) && tx.nonce == l.accounts[a].nonce
  {
    if SetAccountDelegateCheck(l, tx, signer).Ok? {
      var sender := signer.value;
      var acc := l.accounts[sender];
      var next := acc.(delegates := if tx.AddDelegateTx? then acc.delegates + [tx.delegate] else WithoutDelegate(acc.delegates, tx.delegate));
      FeeNonce(SetAccount(l, sender, next), sender, DelegateType(tx), a);
    }
  }

  /** Every transaction moves every nonce by at most one; an accepted one carries the
      nonce of its owner and raises it. */
  lemma NonceLaw(l: Ledger, tx: Payment, signer: Option<Address>, a: Address)
    requires a != BURN_ADDRESS
    ensures NonceMoves(l, Deliver(l, tx, signer).ledger, a)
    ensures NonceOwner(l, tx, signer) == Some(a) && Deliver(l, tx, signer).error.None? ==>
              NonceRaised(l, Deliver(l, tx, signer).ledger, a) && tx.nonce == l.accounts[a].nonce
  {
    match tx
    case SetAccountInfoTx(_, _, _, _) => InfoNonce(l, tx, signer, a);
    case SendTokensTx(_, _, _, _) => SendNonce(l, tx, signer, a);
    case CollectFaucetTx(_, _) => CollectNonce(l, tx, signer, a);
    case AddDelegateTx(_, _) => DelegateNonce(l, tx, signer, a);
    case DelDelegateTx(_, _) => DelegateNonce(l, tx, signer, a);
    case _ =>
  }

  /** A payment between accounts leaves the rest of the ledger alone, except for marking
      a faucet package as used. */
  lemma PaymentFrame(l: Ledger, tx: Payment, signer: Option<Address>)
    requires !OfTreasurer(tx)
    ensures var l' := Deliver(l, tx, signer).ledger;
            l' == l.(accounts := l'.accounts, faucet := l'.faucet)
  {
    match tx
    case SetAccountInfoTx(_, _, _, _) =>
    case SendTokensTx(_, _, _, _) =>
    case CollectFaucetTx(_, _) =>
    case AddDelegateTx(_, _) =>
    case DelDelegateTx(_, _) =>
  }

  /** The treasurer's nonce moves with the treasurer's accepted transactions only. */
  lemma TreasurerNonceLaw(l: Ledger, tx: Payment, signer: Option<Address>)
    ensures var r := Deliver(l, tx, signer);
            && r.ledger.treasurer.address == l.treasurer.address
            && r.ledger.treasurer.nonce == (if OfTreasurer(tx) && r.error.None? then Add32(l.treasurer.nonce, 1) else l.treasurer.nonce)
            && (OfTreasurer(tx) && r.error.None? ==> tx.nonce == l.treasurer.nonce && signer == Some(l.treasurer.address))
  {
    if !OfTreasurer(tx) {
      PaymentFrame(l, tx, signer);
    }
  }

  lemma ProcessNonce(l: Ledger, sender: Address, t: TxType, a: Address)
    requires a != BURN_ADDRESS && !t.COLLECT_FAUCET?
    ensures NonceMoves(l, PayForProcess(l, sender, t).ledger, a)
    ensures a == sender && PayForProcess(l, sender, t).error.None? ==> NonceRaised(l, PayForProcess(l, sender, t).ledger, a)
    ensures PayForProcess(l, sender, t).ledger.treasurer == l.treasurer
    ensures PayForProcess(l, sender, t).ledger.faucet == l.faucet
  {
    if sender in l.accounts {
      FeeNonce(if t.NEW_PROCESS? then IncrementAccountProcessIndex(l, sender) else l, sender, t, a);
    }
  }

  // ------------------------------------------------ faucet packages

  /** The issuer and identifier of the package a transaction carries. */
  function FaucetKey(tx: Payment): Option<(Address, uint64)> {
    var package :=
      match tx
      case SetAccountInfoTx(_, _, _, faucet) => faucet
      case CollectFaucetTx(p, _) => p
      case _ => None;
    if package.None? || package.value.issuer.None? then None
    else Some((package.value.issuer.value, package.value.payload.identifier))
  }

  /** Delivering the transaction marks a package as used. */
  predicate Marks(l: Ledger, tx: Payment, signer: Option<Address>) {
    Deliver(l, tx, signer).ledger.faucet != l.faucet
  }

  /** The two ways to a faucet package: collecting it, and creating an account with it. */
  predicate OnRoute(l: Ledger, tx: Payment, signer: Option<Address>) {
    || (tx.CollectFaucetTx? && tx.package.Some?)
    || (tx.SetAccountInfoTx? && tx.faucet.Some? && signer.Some? && signer.value !in l.accounts)
  }

  ghost predicate MovesTokens(l: Ledger, l': Ledger) {
    exists a: Address :: BalanceOf(l', a) != BalanceOf(l, a)
  }

  /** Delivering the transaction pays the package it carries: on one of the two routes it is
      accepted, or it moves tokens, be it of one account only. */
  ghost predicate Pays(l: Ledger, tx: Payment, signer: Option<Address>) {
    OnRoute(l, tx, signer) && (Deliver(l, tx, signer).error.None? || MovesTokens(l, Deliver(l, tx, signer).ledger))
  }

  /** Used packages stay used.  A transaction marks at most the package it carries, and only
      if it was unused. */
  lemma FaucetLaw(l: Ledger, tx: Payment, signer: Option<Address>)
    ensures var l' := Deliver(l, tx, signer).ledger;
            && l.faucet <= l'.faucet
            && (Marks(l, tx, signer) ==>
                  OnRoute(l, tx, signer) && FaucetKey(tx).Some? && FaucetKey(tx).value !in l.faucet && l'.faucet == l.faucet + {FaucetKey(tx).value})
  {
    hide SubtractCostIncrementNonce, TransferBalance, MintBalance, CreateAccount, ConsumeFaucetPayload;
  }

  lemma CollectPaysMarks(l: Ledger, tx: Payment, signer: Option<Address>)
    requires tx.CollectFaucetTx?
    ensures Pays(l, tx, signer) ==> Marks(l, tx, signer)
  {
    hide SubtractCostIncrementNonce, ConsumeFaucetPayload;
  }

  lemma CreationPaysMarks(l: Ledger, tx: Payment, signer: Option<Address>)
    requires tx.SetAccountInfoTx? && OnRoute(l, tx, signer)
    ensures Pays(l, tx, signer) ==> Marks(l, tx, signer)
  {
    hide SubtractCostIncrementNonce, ConsumeFaucetPayload;
    var l1 := SetAccount(l, signer.value, Account(0, 0, 0, tx.infoURI, []));
    assert forall a: Address :: BalanceOf(l1, a) == BalanceOf(l, a);
  }

  lemma FeeOnlyTakes(l: Ledger, a: Address, t: TxType)
    requires a != BURN_ADDRESS
    ensures BalanceOf(Finish(SubtractCostIncrementNonce(l, a, t), l).ledger, a) <= BalanceOf(l, a)
  {
  }

  lemma SelfFaucet(l: Ledger, from: Address, p: FaucetPayload)
    requires from != BURN_ADDRESS && from == p.to && ConsumeFaucetPayload(l, from, p, COLLECT_FAUCET).Ok?
    ensures BalanceOf(ConsumeFaucetPayload(l, from, p, COLLECT_FAUCET).value, from) == BalanceOf(l, from) + p.amount && p.amount > 0
  {
    TransferExact(l.accounts[from], l.accounts[p.to], p.amount);
  }

  lemma FaucetDebits(l: Ledger, from: Address, p: FaucetPayload, t: TxType)
    requires from != BURN_ADDRESS && p.to != BURN_ADDRESS && from != p.to && ConsumeFaucetPayload(l, from, p, t).Ok?
    ensures BalanceOf(ConsumeFaucetPayload(l, from, p, t).value, from) < BalanceOf(l, from)
  {
    FaucetSupply(l, from, p, t);
    TransferExact(l.accounts[from], l.accounts[p.to], p.amount);
  }

  lemma CollectMarksPays(l: Ledger, tx: Payment, signer: Option<Address>)
    requires tx.CollectFaucetTx? && Marks(l, tx, signer) && NoBurnSignature(tx, signer)
    ensures Pays(l, tx, signer)
  {
    var p, issuer := tx.package.value.payload, tx.package.value.issuer.value;
    var paid := ConsumeFaucetPayload(l, issuer, p, COLLECT_FAUCET);
    if issuer == p.to {
      SelfFaucet(l, issuer, p);
    } else {
      FaucetDebits(l, issuer, p, COLLECT_FAUCET);
      FeeOnlyTakes(paid.value, issuer, COLLECT_FAUCET);
    }
    hide SubtractCostIncrementNonce, ConsumeFaucetPayload;
    if Deliver(l, tx, signer).error.Some? || issuer != p.to {
      assert BalanceOf(Deliver(l, tx, signer).ledger, issuer) != BalanceOf(l, issuer);
    }
  }

  lemma CreationMarksPays(l: Ledger, tx: Payment, signer: Option<Address>)
    requires tx.SetAccountInfoTx? && Marks(l, tx, signer) && NoBurnSignature(tx, signer)
    ensures Pays(l, tx, signer)
  {
    FaucetLaw(l, tx, signer);
    var p, issuer := tx.faucet.value.payload, tx.faucet.value.issuer.value;
    var l1 := SetAccount(l, signer.value, Account(0, 0, 0, tx.infoURI, []));
    FaucetDebits(l1, issuer, p, SET_ACCOUNT_INFO);
    hide SubtractCostIncrementNonce, ConsumeFaucetPayload;
    assert BalanceOf(Deliver(l, tx, signer).ledger, issuer) != BalanceOf(l, issuer);
  }

  /** No token moves on account of a faucet package, and none is accepted, without marking
      it. */
  lemma PayingMarks(l: Ledger, tx: Payment, signer: Option<Address>)
    ensures Pays(l, tx, signer) ==> Marks(l, tx, signer)
  {
    hide Deliver;
    if OnRoute(l, tx, signer) {
      if tx.CollectFaucetTx? {
        CollectPaysMarks(l, tx, signer);
      } else {
        CreationPaysMarks(l, tx, signer);
      }
    }
  }

  /** ... and a package is marked only when its tokens move. */
  lemma PaysIffMarks(l: Ledger, tx: Payment, signer: Option<Address>)
    requires NoBurnSignature(tx, signer)
    ensures Pays(l, tx, signer) <==> Marks(l, tx, signer)
  {
    hide Deliver, Pays, Marks;
    FaucetLaw(l, tx, signer);
    PayingMarks(l, tx, signer);
    if Marks(l, tx, signer) {
      if tx.CollectFaucetTx? {
        CollectMarksPays(l, tx, signer);
      } else {
        CreationMarksPays(l, tx, signer);
      }
    }
  }
}
