/** Account records in memory: loaded, changed in place and stored again.  Their lists of
    delegates never hold an address twice. */
module Records {
  import opened Common
  import opened Accounts
  import opened Payments
  import opened Voting
  import opened Chain
  import LedgerRuns

  // ------------------------------------------------ account records

  lemma OnlyIndex(s: seq<Address>, i: nat)
    requires Distinct(s) && i < |s|
    ensures s[i] !in s[..i] && WithoutDelegate(s, s[i]) == s[i := s[|s| - 1]][..|s| - 1]
  {
    assert IndexOf(s, s[i]) == i;
  }

  lemma NotADelegate(s: seq<Address>, a: Address)
    ensures a !in s ==> WithoutDelegate(s, a) == s
  {
  }

  /** An account record in memory, not yet stored. */
  class Record {
    var balance: uint64
    var nonce: uint32
    var processIndex: uint32
    var infoURI: string
    var delegates: seq<Address>

    constructor (acc: Account)
      ensures Value() == acc
    {
      balance, nonce, processIndex := acc.balance, acc.nonce, acc.processIndex;
      infoURI, delegates := acc.infoURI, acc.delegates;
    }

    function Value(): Account
      reads this
    {
      Account(balance, nonce, processIndex, infoURI, delegates)
    }

    /** Between two records this is the transfer of values; from a record to itself it
        changes nothing. */
    method Transfer(dest: Record, amount: uint64) returns (err: Option<Error>)
      modifies this`balance, dest`balance
      ensures var r := Accounts.Transfer(old(Value()), old(dest.Value()), amount);
              match r
              case Err(e) => err == Some(e) && Value() == old(Value()) && dest.Value() == old(dest.Value())
              case Ok((a, b)) => err.None? && if dest == this then Value() == old(Value()) else Value() == a && dest.Value() == b
    {
      if amount == 0 {
        return Some(ZeroAmount);
      }
      if balance < amount {
        return Some(NotEnoughBalance);
      }
      if Add64(dest.balance, amount) <= dest.balance {
        return Some(BalanceOverflow);
      }
      dest.balance := Add64(dest.balance, amount);
      balance := balance - amount;
      return None;
    }

    method IsDelegate(a: Address) returns (found: bool)
      ensures found <==> a in delegates
    {
      for i := 0 to |delegates|
        invariant a !in delegates[..i]
      {
        if delegates[i] == a {
          return true;
        }
      }
      return false;
    }

    method AddDelegate(a: Address) returns (err: Option<Error>)
      modifies this`delegates
      ensures if a in old(delegates) then err == Some(AlreadyDelegate) && delegates == old(delegates)
              else err.None? && delegates == old(delegates) + [a]
      ensures Distinct(old(delegates)) ==> Distinct(delegates)
    {
      var found := IsDelegate(a);
      if found {
        return Some(AlreadyDelegate);
      }
      delegates := delegates + [a];
      return None;
    }

    /** The last delegate takes the place of the removed one while the loop goes on over the
        old list; with a delegate listed twice it would leave the list. */
    method DelDelegate(a: Address)
      requires Distinct(delegates)
      modifies this`delegates
      ensures delegates == WithoutDelegate(old(delegates), a)
    {
      hide Distinct, WithoutDelegate;
      var range := delegates;
      NotADelegate(range, a);
      for i := 0 to |range|
        invariant delegates == if a in range[..i] then WithoutDelegate(range, a) else range
      {
        if range[i] == a {
          OnlyIndex(range, i);
          delegates := delegates[i := delegates[|delegates| - 1]];
          delegates := delegates[..|delegates| - 1];
        }
        assert range[..i + 1] == range[..i] + [range[i]];
      }
      assert range[..|range|] == range;
    }
  }

  // ------------------------------------------------ delegates of every account

  predicate DelegatesDistinct(l: Ledger) {
    forall a :: a in l.accounts ==> Distinct(l.accounts[a].delegates)
  }

  /** Accounts keep their delegates and new accounts have none. */
  predicate SameDelegates(l: Ledger, l': Ledger) {
    forall a :: a in l'.accounts ==> l'.accounts[a].delegates == if a in l.accounts then l.accounts[a].delegates else []
  }

  lemma FeeKeepsDelegates(l: Ledger, a: Address, t: TxType)
    ensures var r := SubtractCostIncrementNonce(l, a, t); r.Ok? ==> SameDelegates(l, r.value)
  {
  }

  lemma FaucetKeepsDelegates(l: Ledger, from: Address, p: FaucetPayload, t: TxType)
    ensures var r := ConsumeFaucetPayload(l, from, p, t); r.Ok? ==> SameDelegates(l, r.value)
  {
  }

  lemma TransferKeepsDelegates(l: Ledger, from: Address, to: Address, amount: uint64)
    ensures var r := TransferBalance(l, from, to, amount); r.Ok? ==> SameDelegates(l, r.value)
  {
  }

  lemma InfoKeepsDelegates(l: Ledger, p: Payment, signer: Option<Address>)
    requires p.SetAccountInfoTx?
    ensures SameDelegates(l, SetAccountInfoDeliver(l, p, signer).ledger)
  {
    match SetAccountInfoCheck(l, p, signer)
    case Err(_) =>
    case Ok(Create(_)) =>
    case Ok(CreateWithFaucet(sender, issuer)) =>
      var l1 := CreateAccount(l, sender, p.infoURI);
      if l1.Ok? {
        FaucetKeepsDelegates(l1.value, issuer, p.faucet.value.payload, SET_ACCOUNT_INFO);
      }
    case Ok(SetInfo(sender, account)) =>
      FeeKeepsDelegates(SetAccount(l, account, l.accounts[account].(infoURI := p.infoURI)), sender, SET_ACCOUNT_INFO);
    hide SetAccountInfoCheck, SubtractCostIncrementNonce, ConsumeFaucetPayload;
  }

  lemma SendKeepsDelegates(l: Ledger, p: Payment, signer: Option<Address>)
    requires p.SendTokensTx?
    ensures SameDelegates(l, SendTokensDeliver(l, p, signer).ledger)
  {
    TransferKeepsDelegates(l, p.from, p.to, p.value);
    var l1 := TransferBalance(l, p.from, p.to, p.value);
    if l1.Ok? {
      FeeKeepsDelegates(l1.value, p.from, SEND_TOKENS);
    }
    hide SendTokensCheck, TransferBalance, SubtractCostIncrementNonce;
  }

  lemma CollectKeepsDelegates(l: Ledger, p: Payment, signer: Option<Address>)
    requires p.CollectFaucetTx?
    ensures SameDelegates(l, CollectFaucetDeliver(l, p, signer).ledger)
  {
    var issuer := CollectFaucetCheck(l, p, signer);
    if issuer.Ok? {
      var l1 := ConsumeFaucetPayload(l, issuer.value, p.package.value.payload, COLLECT_FAUCET);
      FaucetKeepsDelegates(l, issuer.value, p.package.value.payload, COLLECT_FAUCET);
      if l1.Ok? {
        FeeKeepsDelegates(l1.value, issuer.value, COLLECT_FAUCET);
      }
    }
    hide ConsumeFaucetPayload, SubtractCostIncrementNonce;
  }

  lemma OneMoreDistinct(s: seq<Address>, a: Address)
    requires Distinct(s)
    ensures Distinct([]) && (a !in s ==> Distinct(s + [a]))
  {
  }

  lemma SetDelegateKeepsDistinct(l: Ledger, p: Payment, signer: Option<Address>)
    requires DelegatesDistinct(l) && (p.AddDelegateTx? || p.DelDelegateTx?)
    ensures DelegatesDistinct(SetAccountDelegateDeliver(l, p, signer).ledger)
  {
    hide SubtractCostIncrementNonce, WithoutDelegate, Distinct;
    var sender := SetAccountDelegateCheck(l, p, signer);
    if sender.Ok? {
      var acc := l.accounts[sender.value];
      WithoutDelegateRemoves(acc.delegates, p.delegate);
      OneMoreDistinct(acc.delegates, p.delegate);
      var delegates := if p.AddDelegateTx? then acc.delegates + [p.delegate] else WithoutDelegate(acc.delegates, p.delegate);
      FeeKeepsDelegates(SetAccount(l, sender.value, acc.(delegates := delegates)), sender.value, DelegateType(p));
    }
  }

  /** Payments change delegates only by adding new ones and removing present ones. */
  lemma PaymentsKeepDelegates(l: Ledger, p: Payment, signer: Option<Address>)
    requires DelegatesDistinct(l)
    ensures DelegatesDistinct(Payments.Deliver(l, p, signer).ledger)
  {
    match p
    case SetAccountInfoTx(_, _, _, _) => InfoKeepsDelegates(l, p, signer);
    case SendTokensTx(_, _, _, _) => SendKeepsDelegates(l, p, signer);
    case AddDelegateTx(_, _) => SetDelegateKeepsDistinct(l, p, signer);
    case DelDelegateTx(_, _) => SetDelegateKeepsDistinct(l, p, signer);
    case CollectFaucetTx(_, _) => CollectKeepsDelegates(l, p, signer);
    case _ =>
    hide SetAccountInfoDeliver, SendTokensDeliver, SetAccountDelegateDeliver, CollectFaucetDeliver;
  }

  lemma ProcessKeepsDelegates(l: Ledger, sender: Address, t: TxType)
    ensures SameDelegates(l, PayForProcess(l, sender, t).ledger)
  {
    if sender in l.accounts {
      FeeKeepsDelegates(if t.NEW_PROCESS? then IncrementAccountProcessIndex(l, sender) else l, sender, t);
    }
    hide SubtractCostIncrementNonce;
  }

  lemma DeliveryKeepsDelegates(env: Env, s: State, tx: Tx, height: uint32, cached: Option<Vote>)
    requires DelegatesDistinct(s.ledger)
    ensures DelegatesDistinct(AddTx(env, s, tx, height, cached).state.ledger)
  {
    LedgerRuns.LedgerSide(env, s, tx, height, cached);
    if tx.payload.PaymentTx? {
      PaymentsKeepDelegates(s.ledger, tx.payload.payment, tx.signer);
    } else if LedgerRuns.AboutProcess(tx) && tx.signer.Some? {
      ProcessKeepsDelegates(s.ledger, tx.signer.value, LedgerRuns.ProcessTxType(tx));
    }
    hide AddTx, Payments.Deliver, PayForProcess;
  }
}
