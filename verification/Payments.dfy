/** The transactions that only touch the ledger: their checks and what they do, step by
    step, including what stays when a later step fails. */
module Payments {
  import opened Common
  import opened Accounts

  /** A faucet package with the issuer its signature recovers to, if it does. */
  datatype FaucetPackage = FaucetPackage(payload: FaucetPayload, issuer: Option<Address>)

  datatype Payment =
    | SetAccountInfoTx(account: Address, infoURI: string, nonce: uint32, faucet: Option<FaucetPackage>)
    | SetTransactionCostsTx(txType: TxType, value: uint64, nonce: uint32)
    | MintTokensTx(to: Address, value: uint64, nonce: uint32)
    | SendTokensTx(from: Address, to: Address, value: uint64, nonce: uint32)
    | AddDelegateTx(delegate: Address, nonce: uint32)
    | DelDelegateTx(delegate: Address, nonce: uint32)
    | CollectFaucetTx(package: Option<FaucetPackage>, nonce: uint32)
    | AddOracleTx(address: Address, nonce: uint32)
    | RemoveOracleTx(address: Address, nonce: uint32)

  /** The ledger after a transaction, and why it was rejected if it was. */
  datatype Reply = Reply(ledger: Ledger, error: Option<Error>)

  function Finish(r: Result<Ledger, Error>, otherwise: Ledger): Reply {
    match r
    case Ok(l) => Reply(l, None)
    case Err(e) => Reply(otherwise, Some(e))
  }

  // ------------------------------------------------ checks

  /** The sender's account, for transactions that need one. */
  function SenderCheck(l: Ledger, signer: Option<Address>): Result<(Address, Account), Error> {
    if signer.None? then Err(InvalidSignature)
    else if signer.value == ZERO_ADDRESS then Err(InvalidAddress)
    else if signer.value !in l.accounts then Err(AccountNotExist)
    else Ok((signer.value, l.accounts[signer.value]))
  }

  function VerifyTreasurer(l: Ledger, signer: Option<Address>, nonce: uint32): Result<(), Error> {
    if signer.None? then Err(InvalidSignature)
    else if signer.value != l.treasurer.address then Err(Unauthorized)
    else if nonce != l.treasurer.nonce then Err(NonceInvalid)
    else Ok(())
  }

  /** The issuer can pay, as far as the wrapped sum of amount and cost tells. */
  function IssuerCheck(l: Ledger, p: FaucetPayload, issuer: Option<Address>): Result<Address, Error> {
    if issuer.None? then Err(InvalidSignature)
    else if (issuer.value, p.identifier) in l.faucet then Err(FaucetUsed)
    else if issuer.value !in l.accounts then Err(AccountNotExist)
    else match TxCost(l, COLLECT_FAUCET)
      case Err(e) => Err(e)
      case Ok(cost) =>
        if l.accounts[issuer.value].balance < Add64(p.amount, cost) then Err(NotEnoughBalance)
        else Ok(issuer.value)
  }

  /** What an account info transaction is to do. */
  datatype InfoPlan = Create(sender: Address) | CreateWithFaucet(sender: Address, issuer: Address) | SetInfo(sender: Address, account: Address)

  function SetAccountInfoCheck(l: Ledger, tx: Payment, signer: Option<Address>): Result<InfoPlan, Error>
    requires tx.SetAccountInfoTx?
  {
    if tx.infoURI == "" then Err(InvalidTx)
    else if signer.None? then Err(InvalidSignature)
    else
      var sender := signer.value;
      if sender !in l.accounts then
        if tx.faucet.None? then Ok(Create(sender))
        else
          var package := tx.faucet.value;
          if package.payload.to != sender then Err(Unauthorized)
          else match IssuerCheck(l, package.payload, package.issuer)
            case Err(e) => Err(e)
            case Ok(issuer) => Ok(CreateWithFaucet(sender, issuer))
      else
        var account := if tx.account in l.accounts then tx.account else sender;
        if sender != account && sender !in l.accounts[account].delegates then Err(NotDelegate)
        else if tx.nonce != l.accounts[sender].nonce then Err(NonceInvalid)
        else match TxCost(l, SET_ACCOUNT_INFO)
          case Err(e) => Err(e)
          case Ok(cost) =>
            if l.accounts[sender].balance < cost then Err(NotEnoughBalance) else Ok(SetInfo(sender, account))
  }

  /** The check compares the wrapped sum of value and cost with the balance. */
  function SendTokensCheck(l: Ledger, tx: Payment, signer: Option<Address>): Result<(), Error>
    requires tx.SendTokensTx?
  {
    if tx.value == 0 then Err(InvalidValue)
    else if tx.from == ZERO_ADDRESS || tx.to == ZERO_ADDRESS then Err(InvalidAddress)
    else if signer.None? then Err(InvalidSignature)
    else if tx.from != signer.value then Err(Unauthorized)
    else if tx.to !in l.accounts || tx.from !in l.accounts then Err(AccountNotExist)
    else if tx.nonce != l.accounts[tx.from].nonce then Err(NonceInvalid)
    else match TxCost(l, SEND_TOKENS)
      case Err(e) => Err(e)
      case Ok(cost) => if Add64(tx.value, cost) > l.accounts[tx.from].balance then Err(NotEnoughBalance) else Ok(())
  }

  function DelegateType(tx: Payment): TxType {
    if tx.AddDelegateTx? then ADD_DELEGATE_FOR_ACCOUNT else DEL_DELEGATE_FOR_ACCOUNT
  }

  function SetAccountDelegateCheck(l: Ledger, tx: Payment, signer: Option<Address>): Result<Address, Error>
    requires tx.AddDelegateTx? || tx.DelDelegateTx?
  {
    if tx.delegate == ZERO_ADDRESS then Err(InvalidAddress)
    else match SenderCheck(l, signer)
      case Err(e) => Err(e)
      case Ok((sender, acc)) =>
        if tx.delegate == sender then Err(InvalidAddress)
        else if tx.nonce != acc.nonce then Err(NonceInvalid)
        else match TxCost(l, DelegateType(tx))
          case Err(e) => Err(e)
          case Ok(cost) =>
            if acc.balance < cost then Err(NotEnoughBalance)
            else if tx.AddDelegateTx? && tx.delegate in acc.delegates then Err(AlreadyDelegate)
            else if tx.DelDelegateTx? && tx.delegate !in acc.delegates then Err(NotDelegate)
            else Ok(sender)
  }

  function CollectFaucetCheck(l: Ledger, tx: Payment, signer: Option<Address>): Result<Address, Error>
    requires tx.CollectFaucetTx?
  {
    if tx.package.None? then Err(InvalidTx)
    else
      var p := tx.package.value.payload;
      if p.amount == 0 then Err(InvalidValue)
      else if signer.None? then Err(InvalidSignature)
      else match IssuerCheck(l, p, tx.package.value.issuer)
        case Err(e) => Err(e)
        case Ok(issuer) =>
          if signer.value != p.to then Err(Unauthorized)
          else if signer.value !in l.accounts then Err(AccountNotExist)
          else if tx.nonce != l.accounts[signer.value].nonce then Err(NonceInvalid)
          else Ok(issuer)
  }

  // ------------------------------------------------ delivery

  function IncrementTreasurerNonce(l: Ledger): Ledger {
    l.(treasurer := l.treasurer.(nonce := Add32(l.treasurer.nonce, 1)))
  }

  function SetAccountInfoDeliver(l: Ledger, tx: Payment, signer: Option<Address>): Reply
    requires tx.SetAccountInfoTx?
  {
    match SetAccountInfoCheck(l, tx, signer)
    case Err(e) => Reply(l, Some(e))
    case Ok(Create(sender)) => Finish(CreateAccount(l, sender, tx.infoURI), l)
    case Ok(CreateWithFaucet(sender, issuer)) =>
      (match CreateAccount(l, sender, tx.infoURI)
       case Err(e) => Reply(l, Some(e))
       case Ok(l1) => Finish(ConsumeFaucetPayload(l1, issuer, tx.faucet.value.payload, SET_ACCOUNT_INFO), l1))
    case Ok(SetInfo(sender, account)) =>
      var l1 := SetAccount(l, account, l.accounts[account].(infoURI := tx.infoURI));
      Finish(SubtractCostIncrementNonce(l1, sender, SET_ACCOUNT_INFO), l1)
  }

  function SendTokensDeliver(l: Ledger, tx: Payment, signer: Option<Address>): Reply
    requires tx.SendTokensTx?
  {
    match SendTokensCheck(l, tx, signer)
    case Err(e) => Reply(l, Some(e))
    case Ok(_) =>
      match TransferBalance(l, tx.from, tx.to, tx.value)
      case Err(e) => Reply(l, Some(e))
      case Ok(l1) => Finish(SubtractCostIncrementNonce(l1, tx.from, SEND_TOKENS), l1)
  }

  function SetAccountDelegateDeliver(l: Ledger, tx: Payment, signer: Option<Address>): Reply
    requires tx.AddDelegateTx? || tx.DelDelegateTx?
  {
    match SetAccountDelegateCheck(l, tx, signer)
    case Err(e) => Reply(l, Some(e))
    case Ok(sender) =>
      var acc := l.accounts[sender];
      var delegates := if tx.AddDelegateTx? then acc.delegates + [tx.delegate] else WithoutDelegate(acc.delegates, tx.delegate);
      var l1 := SetAccount(l, sender, acc.(delegates := delegates));
      Finish(SubtractCostIncrementNonce(l1, sender, DelegateType(tx)), l1)
  }

  function CollectFaucetDeliver(l: Ledger, tx: Payment, signer: Option<Address>): Reply
    requires tx.CollectFaucetTx?
  {
    match CollectFaucetCheck(l, tx, signer)
    case Err(e) => Reply(l, Some(e))
    case Ok(issuer) =>
      match ConsumeFaucetPayload(l, issuer, tx.package.value.payload, COLLECT_FAUCET)
      case Err(e) => Reply(l, Some(e))
      case Ok(l1) => Finish(SubtractCostIncrementNonce(l1, issuer, COLLECT_FAUCET), l1)
  }

  function MintTokensDeliver(l: Ledger, tx: Payment, signer: Option<Address>): Reply
    requires tx.MintTokensTx?
  {
    if tx.value == 0 then Reply(l, Some(InvalidValue))
    else if tx.to == ZERO_ADDRESS then Reply(l, Some(InvalidAddress))
    else if tx.to !in l.accounts then Reply(l, Some(AccountNotExist))
    else match VerifyTreasurer(l, signer, tx.nonce)
      case Err(e) => Reply(l, Some(e))
      case Ok(_) =>
        match MintBalance(l, tx.to, tx.value)
        case Err(e) => Reply(l, Some(e))
        case Ok(l1) => Reply(IncrementTreasurerNonce(l1), None)
  }

  function SetTransactionCostsDeliver(l: Ledger, tx: Payment, signer: Option<Address>): Reply
    requires tx.SetTransactionCostsTx?
  {
    if tx.txType.UNPRICED? then Reply(l, Some(InvalidTx))
    else match VerifyTreasurer(l, signer, tx.nonce)
      case Err(e) => Reply(l, Some(e))
      case Ok(_) => Reply(IncrementTreasurerNonce(l.(costs := l.costs[tx.txType := tx.value])), None)
  }

  function SetOracleDeliver(l: Ledger, tx: Payment, signer: Option<Address>): Reply
    requires tx.AddOracleTx? || tx.RemoveOracleTx?
  {
    match VerifyTreasurer(l, signer, tx.nonce)
    case Err(e) => Reply(l, Some(e))
    case Ok(_) =>
      if tx.address == ZERO_ADDRESS then Reply(l, Some(InvalidAddress))
      else if tx.AddOracleTx? == (tx.address in l.oracles) then Reply(l, Some(Unauthorized))
      else
        var oracles := if tx.AddOracleTx? then l.oracles + {tx.address} else l.oracles - {tx.address};
        var removed := if tx.AddOracleTx? then l.removed - {tx.address} else l.removed + {tx.address};
        Reply(IncrementTreasurerNonce(l.(oracles := oracles, removed := removed)), None)
  }

  function Deliver(l: Ledger, tx: Payment, signer: Option<Address>): Reply {
    match tx
    case SetAccountInfoTx(_, _, _, _) => SetAccountInfoDeliver(l, tx, signer)
    case SetTransactionCostsTx(_, _, _) => SetTransactionCostsDeliver(l, tx, signer)
    case MintTokensTx(_, _, _) => MintTokensDeliver(l, tx, signer)
    case SendTokensTx(_, _, _, _) => SendTokensDeliver(l, tx, signer)
    case AddDelegateTx(_, _) => SetAccountDelegateDeliver(l, tx, signer)
    case DelDelegateTx(_, _) => SetAccountDelegateDeliver(l, tx, signer)
    case CollectFaucetTx(_, _) => CollectFaucetDeliver(l, tx, signer)
    case AddOracleTx(_, _) => SetOracleDeliver(l, tx, signer)
    case RemoveOracleTx(_, _) => SetOracleDeliver(l, tx, signer)
  }

  /** The fee of a transaction about a process, after the process itself was changed; a
      new process also moves the sender's process index. */
  function PayForProcess(l: Ledger, sender: Address, t: TxType): Reply {
    if sender !in l.accounts then Reply(l, Some(AccountNotExist))
    else
      var l1 := if t.NEW_PROCESS? then IncrementAccountProcessIndex(l, sender) else l;
      Finish(SubtractCostIncrementNonce(l1, sender, t), l1)
  }

  /** The index counts an account's processes and starts over after 2^22. */
  function IncrementAccountProcessIndex(l: Ledger, a: Address): Ledger
    requires a in l.accounts
  {
    var acc := l.accounts[a];
    var index := if acc.processIndex > 0x40_0000 then 0 else acc.processIndex;
    SetAccount(l, a, acc.(processIndex := index + 1))
  }
}
