/** What every payment means: exactly when it is accepted, and everything an accepted one
    changes, in whole numbers and without reference to how it is checked. */
module PaymentEffects {
  import opened Common
  import opened Accounts
  import opened Payments

  // ------------------------------------------------ vocabulary

  /** Tokens that go from an account, or from nowhere, to another one. */
  datatype Flow = Flow(from: Option<Address>, to: Address, amount: nat)

  /** What an account gains by the flows. */
  function Net(flows: seq<Flow>, a: Address): int {
    if flows == [] then 0
    else
      (if flows[0].to == a then flows[0].amount else 0) - (if flows[0].from == Some(a) then flows[0].amount else 0) + Net(flows[1..], a)
  }

  /** Exactly the flows happened: no account disappears and every balance moves by its net. */
  predicate Flowed(l: Ledger, l': Ledger, flows: seq<Flow>) {
    forall a :: a in l.accounts ==> a in l'.accounts && l'.accounts[a].balance == l.accounts[a].balance + Net(flows, a)
  }

  /** An account but for its balance. */
  function Profile(acc: Account): Account {
    acc.(balance := 0)
  }

  /** One account has another profile, and all others have the one they had. */
  predicate OneProfile(l: Ledger, l': Ledger, a: Address, profile: Account) {
    && l'.accounts.Keys == l.accounts.Keys && a in l.accounts
    && Profile(l'.accounts[a]) == Profile(profile)
    && forall b :: b in l.accounts && b != a ==> Profile(l'.accounts[b]) == Profile(l.accounts[b])
  }

  function Raised(acc: Account): Account {
    acc.(nonce := (acc.nonce + 1) % TWO32)
  }

  predicate HasPrice(l: Ledger, t: TxType) {
    t in l.costs && t != UNPRICED
  }

  /** A fee can be burnt, beside other tokens that the burn account gets. */
  predicate Burns(l: Ledger, cost: nat, beside: nat) {
    cost > 0 ==> BURN_ADDRESS in l.accounts && l.accounts[BURN_ADDRESS].balance + beside + cost < TWO64
  }

  /** The account can pay the fee. */
  predicate Affords(l: Ledger, a: Address, t: TxType) {
    a in l.accounts && HasPrice(l, t) && l.costs[t] <= l.accounts[a].balance && Burns(l, l.costs[t], 0)
  }

  lemma NetTwo(x: Flow, y: Flow, a: Address)
    ensures Net([x, y], a) == Net([x], a) + Net([y], a)
  {
    assert [x, y][1..] == [y] && [x][1..] == [] && [y][1..] == [];
  }

  lemma NetOne(x: Flow, a: Address)
    ensures Net([x], a) == (if x.to == a then x.amount else 0) - (if x.from == Some(a) then x.amount else 0)
  {
    assert [x][1..] == [];
  }

  // ------------------------------------------------ the treasurer

  predicate TreasurerSigned(l: Ledger, nonce: uint32, signer: Option<Address>) {
    signer == Some(l.treasurer.address) && nonce == l.treasurer.nonce
  }

  function TreasurerRaised(l: Ledger): Treasurer {
    l.treasurer.(nonce := (l.treasurer.nonce + 1) % TWO32)
  }

  /** A mint credits its recipient, and nobody else, with its value. */
  lemma MintEffect(l: Ledger, tx: Payment, signer: Option<Address>)
    requires tx.MintTokensTx?
    ensures var r := Deliver(l, tx, signer);
            && (r.error.None? <==>
                  && tx.value > 0 && tx.to != ZERO_ADDRESS && tx.to in l.accounts
                  && TreasurerSigned(l, tx.nonce, signer) && l.accounts[tx.to].balance + tx.value < TWO64)
            && (r.error.None? ==>
                  && Flowed(l, r.ledger, [Flow(None, tx.to, tx.value)]) && OneProfile(l, r.ledger, tx.to, l.accounts[tx.to])
                  && r.ledger == l.(accounts := r.ledger.accounts, treasurer := TreasurerRaised(l)))
            && (r.error.Some? ==> r.ledger == l)
  {
    forall a ensures Net([Flow(None, tx.to, tx.value)], a) == if a == tx.to then tx.value else 0 {
      NetOne(Flow(None, tx.to, tx.value), a);
    }
  }

  /** The treasurer sets the cost of one kind of transaction to the given value. */
  lemma CostsEffect(l: Ledger, tx: Payment, signer: Option<Address>)
    requires tx.SetTransactionCostsTx?
    ensures var r := Deliver(l, tx, signer);
            && (r.error.None? <==> tx.txType != UNPRICED && TreasurerSigned(l, tx.nonce, signer))
            && (r.error.None? ==>
                  && r.ledger == l.(costs := r.ledger.costs, treasurer := TreasurerRaised(l))
                  && r.ledger.costs.Keys == l.costs.Keys + {tx.txType}
                  && forall t :: t in r.ledger.costs ==> r.ledger.costs[t] == if t == tx.txType then tx.value else l.costs[t])
            && (r.error.Some? ==> r.ledger == l)
  {
  }

  /** The treasurer adds an address that is no oracle, or removes one that is. */
  lemma OracleEffect(l: Ledger, tx: Payment, signer: Option<Address>)
    requires tx.AddOracleTx? || tx.RemoveOracleTx?
    ensures var r := Deliver(l, tx, signer);
            && (r.error.None? <==>
                  && TreasurerSigned(l, tx.nonce, signer) && tx.address != ZERO_ADDRESS
                  && (tx.AddOracleTx? ==> tx.address !in l.oracles) && (tx.RemoveOracleTx? ==> tx.address in l.oracles))
            && (r.error.None? ==>
                  && r.ledger == l.(oracles := r.ledger.oracles, removed := r.ledger.removed, treasurer := TreasurerRaised(l))
                  && (forall a :: a != tx.address ==> (a in r.ledger.oracles <==> a in l.oracles) && (a in r.ledger.removed <==> a in l.removed))
                  && (tx.address in r.ledger.oracles <==> tx.AddOracleTx?) && (tx.address in r.ledger.removed <==> tx.RemoveOracleTx?))
            && (r.error.Some? ==> r.ledger == l)
  {
  }

  // ------------------------------------------------ fees

  /** The records of payer and burn account after a fee. */
  function Charged(accounts: map<Address, Account>, a: Address, next: Account, cost: nat): map<Address, Account>
    requires cost <= next.balance && (cost > 0 ==> BURN_ADDRESS in accounts && accounts[BURN_ADDRESS].balance + cost < TWO64)
  {
    var paid := next.(balance := next.balance - cost);
    if cost == 0 then accounts[a := paid]
    else accounts[BURN_ADDRESS := accounts[BURN_ADDRESS].(balance := accounts[BURN_ADDRESS].balance + cost)][a := paid]
  }

  lemma ChargedFlows(l: Ledger, l': Ledger, a: Address, next: Account, cost: nat)
    requires a != BURN_ADDRESS && a in l.accounts && next.balance == l.accounts[a].balance
    requires cost <= next.balance && Burns(l, cost, 0)
    requires l'.accounts == Charged(l.accounts, a, next, cost)
    ensures Flowed(l, l', [Flow(Some(a), BURN_ADDRESS, cost)]) && OneProfile(l, l', a, next)
  {
    hide Net;
    forall b ensures Net([Flow(Some(a), BURN_ADDRESS, cost)], b) == if b == a then -(cost as int) else if b == BURN_ADDRESS then cost else 0 {
      NetOne(Flow(Some(a), BURN_ADDRESS, cost), b);
    }
  }

  lemma FeeIsCharge(l: Ledger, a: Address, t: TxType)
    requires a != BURN_ADDRESS
    ensures var r := SubtractCostIncrementNonce(l, a, t);
            && (r.Ok? <==> Affords(l, a, t))
            && (r.Ok? ==>
                  r.value == l.(accounts := Charged(l.accounts, a, if t == COLLECT_FAUCET then l.accounts[a] else Raised(l.accounts[a]), l.costs[t])))
  {
  }

  /** A fee goes to the burn account and raises the nonce, except for faucet collections. */
  lemma FeeEffect(l: Ledger, a: Address, t: TxType)
    requires a != BURN_ADDRESS
    ensures var r := SubtractCostIncrementNonce(l, a, t);
            && (r.Ok? <==> Affords(l, a, t))
            && (r.Ok? ==>
                  && r.value == l.(accounts := r.value.accounts)
                  && Flowed(l, r.value, [Flow(Some(a), BURN_ADDRESS, l.costs[t])])
                  && OneProfile(l, r.value, a, if t == COLLECT_FAUCET then l.accounts[a] else Raised(l.accounts[a])))
  {
    hide SubtractCostIncrementNonce, Flowed, OneProfile;
    FeeIsCharge(l, a, t);
    if Affords(l, a, t) {
      ChargedFlows(l, SubtractCostIncrementNonce(l, a, t).value, a, if t == COLLECT_FAUCET then l.accounts[a] else Raised(l.accounts[a]), l.costs[t]);
    }
  }

  // ------------------------------------------------ delegates

  /** The sender adds a delegate it does not have, or removes one it has, and pays. */
  lemma DelegateEffect(l: Ledger, tx: Payment, signer: Option<Address>)
    requires (tx.AddDelegateTx? || tx.DelDelegateTx?) && signer != Some(BURN_ADDRESS)
    ensures var r, t := Deliver(l, tx, signer), if tx.AddDelegateTx? then ADD_DELEGATE_FOR_ACCOUNT else DEL_DELEGATE_FOR_ACCOUNT;
            && (r.error.None? <==>
                  && signer.Some? && signer.value != ZERO_ADDRESS && signer.value in l.accounts
                  && tx.delegate != ZERO_ADDRESS && tx.delegate != signer.value
                  && tx.nonce == l.accounts[signer.value].nonce
                  && (tx.AddDelegateTx? <==> tx.delegate !in l.accounts[signer.value].delegates)
                  && Affords(l, signer.value, t))
            && (r.error.None? ==>
                  && r.ledger == l.(accounts := r.ledger.accounts)
                  && Flowed(l, r.ledger, [Flow(signer, BURN_ADDRESS, l.costs[t])])
                  && signer.value in r.ledger.accounts
                  && var acc, acc' := l.accounts[signer.value], r.ledger.accounts[signer.value];
                     && OneProfile(l, r.ledger, signer.value, Raised(acc).(delegates := acc'.delegates))
                     && (tx.AddDelegateTx? ==> acc'.delegates == acc.delegates + [tx.delegate])
                     && (tx.DelDelegateTx? ==> multiset(acc'.delegates) == multiset(acc.delegates) - multiset{tx.delegate}))
            && (r.error.Some? && (HasPrice(l, t) ==> Burns(l, l.costs[t], 0)) ==> r.ledger == l)
  {
    hide SubtractCostIncrementNonce, Net, WithoutDelegate;
    if SetAccountDelegateCheck(l, tx, signer).Ok? {
      var a := signer.value;
      var acc := l.accounts[a];
      var next := acc.(delegates := if tx.AddDelegateTx? then acc.delegates + [tx.delegate] else WithoutDelegate(acc.delegates, tx.delegate));
      if tx.DelDelegateTx? {
        RemovesOne(acc.delegates, tx.delegate);
      }
      FeeAfterChange(l, a, next, DelegateType(tx));
    }
  }

  lemma RemovesOne(s: seq<Address>, a: Address)
    ensures a in s ==> multiset(WithoutDelegate(s, a)) == multiset(s) - multiset{a}
  {
    if a in s {
      SwapOut(s, IndexOf(s, a));
    }
  }

  /** A fee after the record of the payer was changed, but for its balance and its nonce. */
  lemma FeeAfterChange(l: Ledger, a: Address, next: Account, t: TxType)
    requires a != BURN_ADDRESS && a in l.accounts && next.balance == l.accounts[a].balance && next.nonce == l.accounts[a].nonce && t != COLLECT_FAUCET
    ensures var r := SubtractCostIncrementNonce(SetAccount(l, a, next), a, t);
            && (r.Ok? <==> Affords(l, a, t))
            && (r.Ok? ==>
                  && r.value == l.(accounts := r.value.accounts)
                  && Flowed(l, r.value, [Flow(Some(a), BURN_ADDRESS, l.costs[t])])
                  && OneProfile(l, r.value, a, Raised(next)))
  {
    hide SubtractCostIncrementNonce, Net;
    FeeEffect(SetAccount(l, a, next), a, t);
  }

  // ------------------------------------------------ transfers

  /** Value and fee can leave one account, of which the value reaches another. */
  predicate Covers(l: Ledger, from: Address, to: Address, value: nat, cost: nat) {
    && from in l.accounts && to in l.accounts
    && value + cost <= l.accounts[from].balance && l.accounts[to].balance + value < TWO64
    && Burns(l, cost, if to == BURN_ADDRESS then value else 0)
  }

  /** The same if both are one account, whose balance then grows before the fee; the check
      compares a sum that can wrap. */
  predicate CoversItself(l: Ledger, a: Address, value: nat, cost: nat) {
    && a in l.accounts
    && value <= l.accounts[a].balance && l.accounts[a].balance + value < TWO64
    && (value + cost) % TWO64 <= l.accounts[a].balance && cost <= l.accounts[a].balance + value
    && Burns(l, cost, 0)
  }

  function TransferFlows(from: Address, to: Address, value: nat, cost: nat): seq<Flow> {
    [if from == to then Flow(None, to, value) else Flow(Some(from), to, value), Flow(Some(from), BURN_ADDRESS, cost)]
  }

  lemma FlowedTwice(l: Ledger, l1: Ledger, l2: Ledger, x: Flow, y: Flow)
    requires Flowed(l, l1, [x]) && Flowed(l1, l2, [y])
    ensures Flowed(l, l2, [x, y])
  {
    hide Net;
    forall a | a in l.accounts ensures a in l2.accounts && l2.accounts[a].balance == l.accounts[a].balance + Net([x, y], a) {
      NetTwo(x, y, a);
    }
  }

  lemma TransferEffect(l: Ledger, from: Address, to: Address, amount: uint64)
    ensures var r := TransferBalance(l, from, to, amount);
            && (r.Ok? <==> from in l.accounts && to in l.accounts && 0 < amount <= l.accounts[from].balance && l.accounts[to].balance + amount < TWO64)
            && (r.Ok? ==>
                  && r.value == l.(accounts := r.value.accounts)
                  && Flowed(l, r.value, [TransferFlows(from, to, amount, 0)[0]])
                  && OneProfile(l, r.value, from, l.accounts[from]))
  {
    hide Net;
    var x := TransferFlows(from, to, amount, 0)[0];
    forall b ensures Net([x], b) == (if b == to then amount else 0) - (if b == from && from != to then amount else 0) {
      NetOne(x, b);
    }
  }

  /** Sending is a transfer and a fee. */
  lemma SendSteps(l: Ledger, from: Address, to: Address, value: uint64)
    requires from != BURN_ADDRESS && HasPrice(l, SEND_TOKENS) && value > 0
    requires from in l.accounts && to in l.accounts && (value + l.costs[SEND_TOKENS]) % TWO64 <= l.accounts[from].balance
    ensures var l1 := TransferBalance(l, from, to, value);
            var r := if l1.Ok? then SubtractCostIncrementNonce(l1.value, from, SEND_TOKENS) else l1;
            && (r.Ok? <==> if from == to then CoversItself(l, to, value, l.costs[SEND_TOKENS]) else Covers(l, from, to, value, l.costs[SEND_TOKENS]))
            && (r.Ok? ==>
                  && r.value == l.(accounts := r.value.accounts)
                  && Flowed(l, r.value, TransferFlows(from, to, value, l.costs[SEND_TOKENS]))
                  && OneProfile(l, r.value, from, Raised(l.accounts[from])))
  {
    hide SubtractCostIncrementNonce, TransferBalance, Flowed;
    TransferEffect(l, from, to, value);
    var l1 := TransferBalance(l, from, to, value);
    if l1.Ok? {
      SentBalances(l, l1.value, from, to, value);
      FeeEffect(l1.value, from, SEND_TOKENS);
      var l2 := SubtractCostIncrementNonce(l1.value, from, SEND_TOKENS);
      if l2.Ok? {
        FlowedTwice(l, l1.value, l2.value, TransferFlows(from, to, value, 0)[0], Flow(Some(from), BURN_ADDRESS, l.costs[SEND_TOKENS]));
      }
    }
  }

  /** A transfer moves its value and the fee and raises one nonce; it is accepted exactly if
      the sender can pay both.  To itself an account sends new tokens. */
  lemma SendEffect(l: Ledger, tx: Payment, signer: Option<Address>)
    requires tx.SendTokensTx? && signer != Some(BURN_ADDRESS)
    ensures var r := Deliver(l, tx, signer);
            && (r.error.None? <==>
                  && tx.value > 0 && signer == Some(tx.from) && tx.from != ZERO_ADDRESS && tx.to != ZERO_ADDRESS
                  && tx.from in l.accounts && tx.nonce == l.accounts[tx.from].nonce && HasPrice(l, SEND_TOKENS)
                  && if tx.from == tx.to then CoversItself(l, tx.to, tx.value, l.costs[SEND_TOKENS])
                     else Covers(l, tx.from, tx.to, tx.value, l.costs[SEND_TOKENS]))
            && (r.error.None? ==>
                  && r.ledger == l.(accounts := r.ledger.accounts)
                  && Flowed(l, r.ledger, TransferFlows(tx.from, tx.to, tx.value, l.costs[SEND_TOKENS]))
                  && OneProfile(l, r.ledger, tx.from, Raised(l.accounts[tx.from])))
  {
    hide SubtractCostIncrementNonce, TransferBalance, Flowed, OneProfile;
    if SendTokensCheck(l, tx, signer).Ok? {
      SendSteps(l, tx.from, tx.to, tx.value);
    }
  }

  lemma SentBalances(l: Ledger, l1: Ledger, from: Address, to: Address, amount: nat)
    requires Flowed(l, l1, [TransferFlows(from, to, amount, 0)[0]]) && from in l.accounts && to in l.accounts && from != BURN_ADDRESS
    ensures from in l1.accounts
    ensures l1.accounts[from].balance == if from == to then l.accounts[from].balance + amount else l.accounts[from].balance - amount
    ensures BURN_ADDRESS in l.accounts ==>
              BURN_ADDRESS in l1.accounts && l1.accounts[BURN_ADDRESS].balance == l.accounts[BURN_ADDRESS].balance + (if to == BURN_ADDRESS then amount else 0)
  {
    NetOne(TransferFlows(from, to, amount, 0)[0], from);
    NetOne(TransferFlows(from, to, amount, 0)[0], BURN_ADDRESS);
  }

  // ------------------------------------------------ faucet packages

  /** The records after a collection, the recipient's stored last. */
  function Collected(accounts: map<Address, Account>, issuer: Address, p: FaucetPayload): map<Address, Account>
    requires issuer in accounts && p.to in accounts && p.amount <= accounts[issuer].balance && accounts[p.to].balance + p.amount < TWO64
  {
    accounts[issuer := accounts[issuer].(balance := accounts[issuer].balance - p.amount)]
            [p.to := Raised(accounts[p.to]).(balance := accounts[p.to].balance + p.amount)]
  }

  lemma CollectionIs(l: Ledger, issuer: Address, p: FaucetPayload)
    requires issuer != BURN_ADDRESS && p.to != BURN_ADDRESS
    ensures var r := ConsumeFaucetPayload(l, issuer, p, COLLECT_FAUCET);
            && (r.Ok? <==>
                  && issuer != ZERO_ADDRESS && issuer in l.accounts && p.to in l.accounts && BURN_ADDRESS in l.accounts
                  && 0 < p.amount <= l.accounts[issuer].balance && l.accounts[p.to].balance + p.amount < TWO64)
            && (r.Ok? ==> r.value == l.(accounts := Collected(l.accounts, issuer, p), faucet := l.faucet + {(issuer, p.identifier)}))
  {
  }

  lemma CollectedFlows(l: Ledger, l': Ledger, issuer: Address, p: FaucetPayload)
    requires issuer in l.accounts && p.to in l.accounts && p.amount <= l.accounts[issuer].balance && l.accounts[p.to].balance + p.amount < TWO64
    requires l'.accounts == Collected(l.accounts, issuer, p)
    ensures Flowed(l, l', [TransferFlows(issuer, p.to, p.amount, 0)[0]]) && OneProfile(l, l', p.to, Raised(l.accounts[p.to]))
  {
    hide Net;
    var x := TransferFlows(issuer, p.to, p.amount, 0)[0];
    forall b ensures Net([x], b) == (if b == p.to then p.amount else 0) - (if b == issuer && issuer != p.to then p.amount else 0) {
      NetOne(x, b);
    }
  }

  /** A package pays its recipient out of the account of its issuer, raises the recipient's
      nonce and is marked as used. */
  lemma CollectedEffect(l: Ledger, issuer: Address, p: FaucetPayload)
    requires issuer != BURN_ADDRESS && p.to != BURN_ADDRESS
    ensures var r := ConsumeFaucetPayload(l, issuer, p, COLLECT_FAUCET);
            && (r.Ok? <==>
                  && issuer != ZERO_ADDRESS && issuer in l.accounts && p.to in l.accounts && BURN_ADDRESS in l.accounts
                  && 0 < p.amount <= l.accounts[issuer].balance && l.accounts[p.to].balance + p.amount < TWO64)
            && (r.Ok? ==>
                  && r.value == l.(accounts := r.value.accounts, faucet := l.faucet + {(issuer, p.identifier)})
                  && Flowed(l, r.value, [TransferFlows(issuer, p.to, p.amount, 0)[0]])
                  && OneProfile(l, r.value, p.to, Raised(l.accounts[p.to])))
  {
    hide ConsumeFaucetPayload, Flowed, OneProfile, Collected;
    CollectionIs(l, issuer, p);
    var r := ConsumeFaucetPayload(l, issuer, p, COLLECT_FAUCET);
    if r.Ok? {
      CollectedFlows(l, r.value, issuer, p);
    }
  }

  /** A package that anybody can still collect: signed by an issuer with an account, and unused. */
  predicate Collectable(l: Ledger, package: FaucetPackage) {
    && package.issuer.Some? && package.issuer.value != ZERO_ADDRESS && package.issuer.value in l.accounts
    && (package.issuer.value, package.payload.identifier) !in l.faucet
    && package.payload.amount > 0 && HasPrice(l, COLLECT_FAUCET) && BURN_ADDRESS in l.accounts
  }

  /** Collecting pays the recipient, who signs, by the issuer, who also pays the fee, once. */
  lemma CollectEffect(l: Ledger, tx: Payment, signer: Option<Address>)
    requires tx.CollectFaucetTx? && signer != Some(BURN_ADDRESS) && (tx.package.Some? ==> tx.package.value.issuer != Some(BURN_ADDRESS))
    ensures var r := Deliver(l, tx, signer);
            && (r.error.None? <==>
                  && tx.package.Some? && Collectable(l, tx.package.value)
                  && var issuer, p, cost := tx.package.value.issuer.value, tx.package.value.payload, l.costs[COLLECT_FAUCET];
                     && signer == Some(p.to) && p.to in l.accounts && tx.nonce == l.accounts[p.to].nonce
                     && if issuer == p.to then CoversItself(l, p.to, p.amount, cost) else Covers(l, issuer, p.to, p.amount, cost))
            && (r.error.None? ==>
                  var issuer, p, cost := tx.package.value.issuer.value, tx.package.value.payload, l.costs[COLLECT_FAUCET];
                  && r.ledger == l.(accounts := r.ledger.accounts, faucet := l.faucet + {(issuer, p.identifier)})
                  && Flowed(l, r.ledger, TransferFlows(issuer, p.to, p.amount, cost))
                  && OneProfile(l, r.ledger, p.to, Raised(l.accounts[p.to])))
  {
    hide SubtractCostIncrementNonce, ConsumeFaucetPayload, Net, Flowed;
    if CollectFaucetCheck(l, tx, signer).Ok? {
      var issuer, p := tx.package.value.issuer.value, tx.package.value.payload;
      CollectedEffect(l, issuer, p);
      var l1 := ConsumeFaucetPayload(l, issuer, p, COLLECT_FAUCET);
      if l1.Ok? {
        SentBalances(l, l1.value, issuer, p.to, p.amount);
        FeeEffect(l1.value, issuer, COLLECT_FAUCET);
        var l2 := SubtractCostIncrementNonce(l1.value, issuer, COLLECT_FAUCET);
        if l2.Ok? {
          FlowedTwice(l, l1.value, l2.value, TransferFlows(issuer, p.to, p.amount, 0)[0], Flow(Some(issuer), BURN_ADDRESS, l.costs[COLLECT_FAUCET]));
        }
      }
    }
  }

  // ------------------------------------------------ account info

  function NewAccount(infoURI: string): Account {
    Account(0, 0, 0, infoURI, [])
  }

  /** Somebody without an account, and without a package, creates one. */
  lemma CreateEffect(l: Ledger, tx: Payment, signer: Option<Address>)
    requires tx.SetAccountInfoTx? && tx.faucet.None? && signer.Some? && signer.value !in l.accounts
    ensures var r := Deliver(l, tx, signer);
            && (r.error.None? <==> tx.infoURI != "" && signer.value != ZERO_ADDRESS)
            && r.ledger == if r.error.None? then l.(accounts := l.accounts[signer.value := NewAccount(tx.infoURI)]) else l
  {
  }

  /** A package that pays for the creation of an account: the issuer pays amount and fee. */
  lemma CreationPaid(l: Ledger, issuer: Address, p: FaucetPayload, infoURI: string)
    requires issuer != BURN_ADDRESS && p.to != BURN_ADDRESS && issuer in l.accounts && p.to !in l.accounts && HasPrice(l, COLLECT_FAUCET)
    ensures var l1, cost := l.(accounts := l.accounts[p.to := NewAccount(infoURI)]), l.costs[COLLECT_FAUCET];
            var r := ConsumeFaucetPayload(l1, issuer, p, SET_ACCOUNT_INFO);
            && (r.Ok? <==>
                  && issuer != ZERO_ADDRESS && BURN_ADDRESS in l.accounts && p.amount > 0 && cost > 0
                  && p.amount + cost <= l.accounts[issuer].balance && Burns(l, cost, 0))
            && (r.Ok? ==>
                  && r.value == l.(accounts := r.value.accounts, faucet := l.faucet + {(issuer, p.identifier)})
                  && Flowed(l1, r.value, [Flow(Some(issuer), p.to, p.amount), Flow(Some(issuer), BURN_ADDRESS, cost)])
                  && OneProfile(l1, r.value, p.to, NewAccount(infoURI)))
  {
    hide Net;
    var x, y := Flow(Some(issuer), p.to, p.amount), Flow(Some(issuer), BURN_ADDRESS, l.costs[COLLECT_FAUCET]);
    forall b ensures Net([x, y], b) ==
                     (if b == p.to then p.amount else 0) + (if b == BURN_ADDRESS then l.costs[COLLECT_FAUCET] else 0)
                     - (if b == issuer then p.amount + l.costs[COLLECT_FAUCET] else 0)
    {
      NetTwo(x, y, b);
      NetOne(x, b);
      NetOne(y, b);
    }
  }

  /** Somebody without an account creates one that a package fills. */
  lemma CreateWithFaucetEffect(l: Ledger, tx: Payment, signer: Option<Address>)
    requires tx.SetAccountInfoTx? && tx.faucet.Some? && signer.Some? && signer.value !in l.accounts
    requires signer != Some(BURN_ADDRESS) && tx.faucet.value.issuer != Some(BURN_ADDRESS)
    ensures var r, p := Deliver(l, tx, signer), tx.faucet.value.payload;
            && (r.error.None? <==>
                  && tx.infoURI != "" && signer.value != ZERO_ADDRESS && p.to == signer.value
                  && Collectable(l, tx.faucet.value) && l.costs[COLLECT_FAUCET] > 0
                  && p.amount + l.costs[COLLECT_FAUCET] <= l.accounts[tx.faucet.value.issuer.value].balance && Burns(l, l.costs[COLLECT_FAUCET], 0))
            && (r.error.None? ==>
                  var issuer, l1 := tx.faucet.value.issuer.value, l.(accounts := l.accounts[signer.value := NewAccount(tx.infoURI)]);
                  && r.ledger == l.(accounts := r.ledger.accounts, faucet := l.faucet + {(issuer, p.identifier)})
                  && Flowed(l1, r.ledger, [Flow(Some(issuer), signer.value, p.amount), Flow(Some(issuer), BURN_ADDRESS, l.costs[COLLECT_FAUCET])])
                  && OneProfile(l1, r.ledger, signer.value, NewAccount(tx.infoURI)))
  {
    hide ConsumeFaucetPayload, Net, Flowed;
    if tx.faucet.value.issuer.Some? && tx.faucet.value.issuer.value in l.accounts && tx.faucet.value.payload.to == signer.value && HasPrice(l, COLLECT_FAUCET) {
      CreationPaid(l, tx.faucet.value.issuer.value, tx.faucet.value.payload, tx.infoURI);
    }
  }

  /** The info of one account changed and the nonce of another one, or the same, was raised. */
  predicate InfoProfiles(l: Ledger, l': Ledger, a: Address, account: Address, infoURI: string) {
    && l'.accounts.Keys == l.accounts.Keys
    && forall b :: b in l.accounts ==>
         var acc := if b == a then Raised(l.accounts[b]) else l.accounts[b];
         Profile(l'.accounts[b]) == Profile(if b == account then acc.(infoURI := infoURI) else acc)
  }

  lemma InfoRaised(l: Ledger, l1: Ledger, l2: Ledger, a: Address, account: Address, infoURI: string)
    requires a in l.accounts && account in l.accounts && l1 == SetAccount(l, account, l.accounts[account].(infoURI := infoURI))
    requires OneProfile(l1, l2, a, Raised(l1.accounts[a]))
    ensures InfoProfiles(l, l2, a, account, infoURI)
  {
  }

  lemma InfoSteps(l: Ledger, a: Address, account: Address, infoURI: string)
    requires a != BURN_ADDRESS && a in l.accounts && account in l.accounts
    ensures var r := SubtractCostIncrementNonce(SetAccount(l, account, l.accounts[account].(infoURI := infoURI)), a, SET_ACCOUNT_INFO);
            && (r.Ok? <==> Affords(l, a, SET_ACCOUNT_INFO))
            && (r.Ok? ==>
                  && r.value == l.(accounts := r.value.accounts)
                  && Flowed(l, r.value, [Flow(Some(a), BURN_ADDRESS, l.costs[SET_ACCOUNT_INFO])])
                  && InfoProfiles(l, r.value, a, account, infoURI))
  {
    hide SubtractCostIncrementNonce, Flowed, OneProfile, InfoProfiles;
    var l1 := SetAccount(l, account, l.accounts[account].(infoURI := infoURI));
    FeeEffect(l1, a, SET_ACCOUNT_INFO);
    var r := SubtractCostIncrementNonce(l1, a, SET_ACCOUNT_INFO);
    if r.Ok? {
      InfoRaised(l, l1, r.value, a, account, infoURI);
      FlowedFrom(l, l1, r.value, [Flow(Some(a), BURN_ADDRESS, l.costs[SET_ACCOUNT_INFO])]);
    }
  }

  /** The owner of an account, or a delegate of it, sets its info and pays for it; an account
      that does not exist stands for the sender's. */
  lemma SetInfoEffect(l: Ledger, tx: Payment, signer: Option<Address>)
    requires tx.SetAccountInfoTx? && signer.Some? && signer.value in l.accounts && signer != Some(BURN_ADDRESS)
    ensures var r, a, account := Deliver(l, tx, signer), signer.value, if tx.account in l.accounts then tx.account else signer.value;
            && (r.error.None? <==>
                  && tx.infoURI != "" && (a == account || a in l.accounts[account].delegates)
                  && tx.nonce == l.accounts[a].nonce && Affords(l, a, SET_ACCOUNT_INFO))
            && (r.error.None? ==>
                  && r.ledger == l.(accounts := r.ledger.accounts)
                  && Flowed(l, r.ledger, [Flow(signer, BURN_ADDRESS, l.costs[SET_ACCOUNT_INFO])])
                  && InfoProfiles(l, r.ledger, a, account, tx.infoURI))
            && (r.error.Some? && (HasPrice(l, SET_ACCOUNT_INFO) ==> Burns(l, l.costs[SET_ACCOUNT_INFO], 0)) ==> r.ledger == l)
  {
    hide SubtractCostIncrementNonce, ConsumeFaucetPayload, Flowed, InfoProfiles;
    InfoSteps(l, signer.value, if tx.account in l.accounts then tx.account else signer.value, tx.infoURI);
  }

  lemma FlowedFrom(l: Ledger, l1: Ledger, l2: Ledger, flows: seq<Flow>)
    requires Flowed(l1, l2, flows) && forall a :: a in l.accounts ==> a in l1.accounts && l1.accounts[a].balance == l.accounts[a].balance
    ensures Flowed(l, l2, flows)
  {
    hide Net;
  }

  /** Without a signature no account info is set. */
  lemma InfoNeedsSigner(l: Ledger, tx: Payment)
    requires tx.SetAccountInfoTx?
    ensures Deliver(l, tx, None).error.Some? && Deliver(l, tx, None).ledger == l
  {
  }

  // ------------------------------------------------ fees of process transactions

  /** The sender after a transaction about a process; a new process moves its index, which
      starts over above 2^22. */
  function AfterProcess(acc: Account, t: TxType): Account {
    if t != NEW_PROCESS then Raised(acc)
    else Raised(acc).(processIndex := if acc.processIndex > 0x40_0000 then 1 else acc.processIndex + 1)
  }

  lemma ProcessFeeEffect(l: Ledger, a: Address, t: TxType)
    requires a != BURN_ADDRESS && a in l.accounts && t != COLLECT_FAUCET
    ensures var r := PayForProcess(l, a, t);
            && (r.error.None? <==> Affords(l, a, t))
            && (r.error.None? ==>
                  && r.ledger == l.(accounts := r.ledger.accounts)
                  && Flowed(l, r.ledger, [Flow(Some(a), BURN_ADDRESS, l.costs[t])])
                  && OneProfile(l, r.ledger, a, AfterProcess(l.accounts[a], t)))
  {
    hide SubtractCostIncrementNonce, Net, Flowed;
    var acc := l.accounts[a];
    if t == NEW_PROCESS {
      FeeAfterChange(l, a, acc.(processIndex := if acc.processIndex > 0x40_0000 then 1 else acc.processIndex + 1), t);
    } else {
      FeeEffect(l, a, t);
    }
  }
}
