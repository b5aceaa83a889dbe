/** Accounts, balances and fees: the primitive operations on the ledger. */
module Accounts {
  import opened Common
  import opened Sums

  type Address = x: int | 0 <= x < 0x1_00000000_00000000_00000000_00000000_00000000

  const ZERO_ADDRESS: Address := 0
  /** Fees are sent here; no signature recovers to it. */
  const BURN_ADDRESS: Address := 0xffffffff_ffffffff_ffffffff_ffffffff_ffffffff

  datatype Error =
    | InvalidTx | InvalidSignature | InvalidAddress | InvalidValue
    | ZeroAmount | NotEnoughBalance | BalanceOverflow
    | AccountNotExist | AccountExists | NonceInvalid | Unauthorized
    | CostNotFound | FaucetUsed | NotDelegate | AlreadyDelegate
    | ProcessNotFound | ProcessExists | InvalidProcess | InvalidStatus | ProcessNotStarted | ProcessFinished
    | NoKeys | KeyTaken | KeyUnknown | InvalidKeyIndex | KeyMismatch
    | VoteExists | WrongSize | ProofInvalid | InCache
    | CensusFull | WeightInvalid | InvalidResults | SameCensus

  /** The transaction types that have a cost, and those that have none. */
  datatype TxType =
    | SET_PROCESS_STATUS | SET_PROCESS_CENSUS | SET_PROCESS_QUESTION_INDEX | SET_PROCESS_RESULTS
    | REGISTER_VOTER_KEY | NEW_PROCESS | SEND_TOKENS | SET_ACCOUNT_INFO
    | ADD_DELEGATE_FOR_ACCOUNT | DEL_DELEGATE_FOR_ACCOUNT | COLLECT_FAUCET
    | UNPRICED

  datatype Account = Account(
    balance: uint64, nonce: uint32, processIndex: uint32, infoURI: string, delegates: seq<Address>)

  datatype Treasurer = Treasurer(address: Address, nonce: uint32)

  /** The part of the state that transactions pay from: accounts, used faucet packages by
      issuer and identifier, transaction costs, the treasurer, the oracles, and the oracles that
      were removed, of which an empty leaf stays. */
  datatype Ledger = Ledger(
    accounts: map<Address, Account>,
    faucet: set<(Address, uint64)>,
    costs: map<TxType, uint64>,
    treasurer: Treasurer,
    oracles: set<Address>,
    removed: set<Address>)

  function TxCost(l: Ledger, t: TxType): Result<uint64, Error> {
    if t.UNPRICED? || t !in l.costs then Err(CostNotFound) else Ok(l.costs[t])
  }

  function SetAccount(l: Ledger, a: Address, acc: Account): Ledger {
    l.(accounts := l.accounts[a := acc])
  }

  // ------------------------------------------------ transfers

  /** Moves an amount between two account records; both checks are those of the machine,
      the second one on the wrapped sum. */
  function Transfer(a: Account, dest: Account, amount: uint64): Result<(Account, Account), Error> {
    if amount == 0 then Err(ZeroAmount)
    else if a.balance < amount then Err(NotEnoughBalance)
    else if Add64(dest.balance, amount) <= dest.balance then Err(BalanceOverflow)
    else Ok((a.(balance := a.balance - amount), dest.(balance := Add64(dest.balance, amount))))
  }

  /** The wrapped comparison detects overflow exactly, so a transfer never wraps. */
  lemma TransferExact(a: Account, dest: Account, amount: uint64)
    ensures Transfer(a, dest, amount).Ok? <==> 0 < amount <= a.balance && dest.balance + amount < TWO64
    ensures Transfer(a, dest, amount).Ok? ==>
              Transfer(a, dest, amount).value ==
              (a.(balance := a.balance - amount), dest.(balance := dest.balance + amount))
  {
  }

  /** Both records are loaded before either is stored, the sender's first. */
  function TransferBalance(l: Ledger, from: Address, to: Address, amount: uint64): (r: Result<Ledger, Error>)
    ensures r.Ok? ==> r.value == l.(accounts := r.value.accounts)
  {
    if from !in l.accounts || to !in l.accounts then Err(AccountNotExist)
    else match Transfer(l.accounts[from], l.accounts[to], amount)
      case Err(e) => Err(e)
      case Ok((accFrom, accTo)) => Ok(SetAccount(SetAccount(l, from, accFrom), to, accTo))
  }

  function MintBalance(l: Ledger, a: Address, amount: uint64): (r: Result<Ledger, Error>)
    ensures r.Ok? ==> r.value == l.(accounts := r.value.accounts)
  {
    if amount == 0 then Err(ZeroAmount)
    else if a !in l.accounts then Err(AccountNotExist)
    else
      var acc := l.accounts[a];
      if Add64(acc.balance, amount) <= acc.balance then Err(BalanceOverflow)
      else Ok(SetAccount(l, a, acc.(balance := Add64(acc.balance, amount))))
  }

  function CreateAccount(l: Ledger, a: Address, infoURI: string): (r: Result<Ledger, Error>)
    ensures r.Ok? ==> r.value == l.(accounts := r.value.accounts)
  {
    if a == ZERO_ADDRESS then Err(InvalidAddress)
    else if a in l.accounts then Err(AccountExists)
    else Ok(SetAccount(l, a, Account(0, 0, 0, infoURI, [])))
  }

  /** Pays the fee of a transaction to the burn account and raises the nonce, except for
      faucet collections, whose nonce is raised elsewhere. */
  function SubtractCostIncrementNonce(l: Ledger, a: Address, t: TxType): (r: Result<Ledger, Error>)
    ensures r.Ok? ==> r.value == l.(accounts := r.value.accounts)
  {
    if a !in l.accounts then Err(AccountNotExist)
    else match TxCost(l, t)
      case Err(e) => Err(e)
      case Ok(cost) =>
        var acc := l.accounts[a];
        var next := if t.COLLECT_FAUCET? then acc else acc.(nonce := Add32(acc.nonce, 1));
        if cost == 0 then Ok(SetAccount(l, a, next))
        else if BURN_ADDRESS !in l.accounts then Err(AccountNotExist)
        else match Transfer(next, l.accounts[BURN_ADDRESS], cost)
          case Err(e) => Err(e)
          case Ok((paid, burn)) => Ok(SetAccount(SetAccount(l, BURN_ADDRESS, burn), a, paid))
  }

  /** A package that an issuer signed for a recipient. */
  datatype FaucetPayload = FaucetPayload(identifier: uint64, to: Address, amount: uint64)

  /** Pays a faucet package: issuer, recipient and burn account are loaded first and stored
      last, in that order.  On account creation the issuer pays the fee here. */
  function ConsumeFaucetPayload(l: Ledger, from: Address, p: FaucetPayload, t: TxType): (r: Result<Ledger, Error>)
    ensures r.Ok? ==> r.value == l.(accounts := r.value.accounts, faucet := l.faucet + {(from, p.identifier)})
  {
    if from == ZERO_ADDRESS then Err(InvalidAddress)
    else if from !in l.accounts || p.to !in l.accounts || BURN_ADDRESS !in l.accounts then Err(AccountNotExist)
    else match Transfer(l.accounts[from], l.accounts[p.to], p.amount)
      case Err(e) => Err(e)
      case Ok((accFrom, accTo)) =>
        var burn := l.accounts[BURN_ADDRESS];
        if t.SET_ACCOUNT_INFO? then
          match TxCost(l, COLLECT_FAUCET)
          case Err(e) => Err(e)
          case Ok(cost) =>
            match Transfer(accFrom, burn, cost)
            case Err(e) => Err(e)
            case Ok((paid, burned)) => Ok(StoreFaucet(l, from, p, paid, accTo, burned))
        else
          Ok(StoreFaucet(l, from, p, accFrom, accTo.(nonce := Add32(accTo.nonce, 1)), burn))
  }

  function StoreFaucet(l: Ledger, from: Address, p: FaucetPayload, a: Account, to: Account, burn: Account): Ledger {
    SetAccount(SetAccount(SetAccount(l.(faucet := l.faucet + {(from, p.identifier)}), from, a), p.to, to), BURN_ADDRESS, burn)
  }

  // ------------------------------------------------ delegates

  predicate Distinct(s: seq<Address>) {
    forall i, j :: 0 <= i < j < |s| ==> s[i] != s[j]
  }

  /** The delegates without an address: the last one takes its place. */
  function WithoutDelegate(s: seq<Address>, a: Address): seq<Address> {
    if a !in s then s
    else
      var i := IndexOf(s, a);
      s[i := s[|s| - 1]][..|s| - 1]
  }

  function IndexOf(s: seq<Address>, a: Address): (i: nat)
    requires a in s
    ensures i < |s| && s[i] == a
  {
    if s[0] == a then 0 else 1 + IndexOf(s[1..], a)
  }

  /** Removing a delegate removes that one and keeps the others. */
  lemma WithoutDelegateRemoves(s: seq<Address>, a: Address)
    requires Distinct(s)
    ensures multiset(WithoutDelegate(s, a)) == multiset(s) - multiset{a}
    ensures Distinct(WithoutDelegate(s, a)) && a !in WithoutDelegate(s, a)
  {
    if a in s {
      SwapOut(s, IndexOf(s, a));
    }
  }

  lemma SwapOut(s: seq<Address>, i: nat)
    requires i < |s|
    ensures multiset(s[i := s[|s| - 1]][..|s| - 1]) == multiset(s) - multiset{s[i]}
  {
    var n := |s| - 1;
    var t := s[i := s[n]][..n];
    if i == n {
      assert s == t + [s[i]];
    } else {
      assert s == s[..i] + [s[i]] + s[i + 1..n] + [s[n]];
      assert t == s[..i] + [s[n]] + s[i + 1..n];
      assert multiset(s) == multiset(s[..i]) + multiset{s[i]} + multiset(s[i + 1..n]) + multiset{s[n]};
    }
  }

  // ------------------------------------------------ the supply

  ghost function Balances(l: Ledger): map<Address, int> {
    map a | a in l.accounts :: l.accounts[a].balance
  }

  /** All tokens, the burnt ones included. */
  ghost function Supply(l: Ledger): int {
    Total(Balances(l))
  }

  function BalanceOf(l: Ledger, a: Address): int {
    if a in l.accounts then l.accounts[a].balance else 0
  }

  lemma SetAccountSupply(l: Ledger, a: Address, acc: Account)
    ensures Supply(SetAccount(l, a, acc)) == Supply(l) - BalanceOf(l, a) + acc.balance
  {
    assert Balances(SetAccount(l, a, acc)) == Balances(l)[a := acc.balance];
    TotalUpdate(Balances(l), a, acc.balance);
  }

  /** What two accounts hold together is at most the supply. */
  lemma HeldBelowSupply(l: Ledger, a: Address, b: Address)
    requires a != b
    ensures BalanceOf(l, a) + BalanceOf(l, b) <= Supply(l)
  {
    var m := Balances(l);
    if a in m && b in m {
      TotalOfTwo(m, a, b);
    } else if a in m {
      TotalRemove(m, a);
      TotalNonNegative(m - {a});
    } else if b in m {
      TotalRemove(m, b);
      TotalNonNegative(m - {b});
    } else {
      TotalNonNegative(m);
    }
  }

  /** A transfer keeps the supply exactly when the two parties differ: with one party as
      sender and recipient the second record, credited, replaces the first, debited. */
  lemma TransferSupply(l: Ledger, from: Address, to: Address, amount: uint64)
    requires TransferBalance(l, from, to, amount).Ok?
    ensures var after := TransferBalance(l, from, to, amount).value;
            && Supply(after) == Supply(l) + (if from == to then amount else 0)
            && (Supply(after) == Supply(l) <==> from != to)
  {
    var (accFrom, accTo) := Transfer(l.accounts[from], l.accounts[to], amount).value;
    TransferExact(l.accounts[from], l.accounts[to], amount);
    SetAccountSupply(l, from, accFrom);
    SetAccountSupply(SetAccount(l, from, accFrom), to, accTo);
  }

  lemma MintSupply(l: Ledger, a: Address, amount: uint64)
    requires MintBalance(l, a, amount).Ok?
    ensures Supply(MintBalance(l, a, amount).value) == Supply(l) + amount
    ensures BalanceOf(l, a) + amount < TWO64
  {
    SetAccountSupply(l, a, MintBalance(l, a, amount).value.accounts[a]);
  }

  /** A fee moves to the burn account; charged to the burn account itself it is lost. */
  lemma FeeSupply(l: Ledger, a: Address, t: TxType)
    requires SubtractCostIncrementNonce(l, a, t).Ok?
    ensures var after := SubtractCostIncrementNonce(l, a, t).value;
            Supply(after) == Supply(l) - (if a == BURN_ADDRESS then TxCost(l, t).value else 0)
  {
    var cost := TxCost(l, t).value;
    var after := SubtractCostIncrementNonce(l, a, t).value;
    SetAccountSupply(l, a, after.accounts[a]);
    if cost != 0 {
      var burn := Transfer(l.accounts[a], l.accounts[BURN_ADDRESS], cost).value.1;
      TransferExact(l.accounts[a], l.accounts[BURN_ADDRESS], cost);
      SetAccountSupply(l, BURN_ADDRESS, burn);
      SetAccountSupply(SetAccount(l, BURN_ADDRESS, burn), a, after.accounts[a]);
    }
  }

  /** A faucet package, paid by an issuer to a recipient neither of which is the burn
      account, keeps the supply exactly when the two differ. */
  lemma FaucetSupply(l: Ledger, from: Address, p: FaucetPayload, t: TxType)
    requires ConsumeFaucetPayload(l, from, p, t).Ok?
    requires from != BURN_ADDRESS && p.to != BURN_ADDRESS
    ensures var after := ConsumeFaucetPayload(l, from, p, t).value;
            var fee := if t.SET_ACCOUNT_INFO? then TxCost(l, COLLECT_FAUCET).value else 0;
            && Supply(after) == Supply(l) + (if from == p.to then p.amount + fee else 0)
            && (from != p.to ==>
                  && BalanceOf(after, from) == BalanceOf(l, from) - p.amount - fee
                  && BalanceOf(after, p.to) == BalanceOf(l, p.to) + p.amount)
            && BalanceOf(after, BURN_ADDRESS) == BalanceOf(l, BURN_ADDRESS) + fee
  {
    var (accFrom, accTo) := Transfer(l.accounts[from], l.accounts[p.to], p.amount).value;
    var burn := l.accounts[BURN_ADDRESS];
    TransferExact(l.accounts[from], l.accounts[p.to], p.amount);
    if t.SET_ACCOUNT_INFO? {
      TransferExact(accFrom, burn, TxCost(l, COLLECT_FAUCET).value);
    }
    var after := ConsumeFaucetPayload(l, from, p, t).value;
    assert Balances(l.(faucet := after.faucet)) == Balances(l);
    var l0 := l.(faucet := after.faucet);
    var a := if t.SET_ACCOUNT_INFO? then Transfer(accFrom, burn, TxCost(l, COLLECT_FAUCET).value).value.0 else accFrom;
    var l1 := SetAccount(l0, from, a);
    var l2 := SetAccount(l1, p.to, after.accounts[p.to]);
    SetAccountSupply(l0, from, a);
    SetAccountSupply(l1, p.to, after.accounts[p.to]);
    SetAccountSupply(l2, BURN_ADDRESS, after.accounts[BURN_ADDRESS]);
    assert after == SetAccount(l2, BURN_ADDRESS, after.accounts[BURN_ADDRESS]);
  }
}
