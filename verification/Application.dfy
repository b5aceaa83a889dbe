/** The application as it runs: the state with its open transaction and its vote cache,
    changed in place by the calls of consensus.  Each call is a step of the node. */
module Application {
  import opened Common
  import opened Accounts
  import opened Payments
  import opened Voting
  import opened Chain
  import opened Records

  const PURGE_PERIOD := 18
  const PURGE_AGE: uint32 := 180

  /** The cache is indexed by transaction, and remembers nullifiers beside. */
  datatype CacheKey = TxKey(tx: Tx) | NullifierKey(nullifier: Bytes)

  function TxVotes(cache: map<CacheKey, Option<Vote>>): map<Tx, Vote> {
    map k | k in cache && k.TxKey? && cache[k].Some? :: k.tx := cache[k].value
  }

  /** What a result says of an operation that keeps the old value on failure. */
  ghost predicate Applied<T>(r: Result<T, Error>, before: T, after: T, err: Option<Error>) {
    match r
    case Ok(value) => err.None? && after == value
    case Err(e) => err == Some(e) && after == before
  }

  /** The purge drops a cached vote that is old enough. */
  predicate Old(vote: Vote, height: uint32) {
    height >= Add32(vote.height, PURGE_AGE)
  }

  /** The processes of a state with the census size of some fixed. */
  function Sized(s: Elections, pids: seq<Bytes>): map<Bytes, Process> {
    map pid | pid in s.processes ::
      if pid in pids && s.processes[pid].mode.preRegister && pid in s.censuses
      then s.processes[pid].(rollingCensusSize := Some(s.censuses[pid].length)) else s.processes[pid]
  }

  function OneSized(s: Elections, pid: Bytes): map<Bytes, Process>
    requires Sizeable(s, pid)
  {
    var p := s.processes[pid];
    if p.mode.preRegister then s.processes[pid := p.(rollingCensusSize := Some(s.censuses[pid].length))] else s.processes
  }

  lemma SizedMore(s: Elections, pids: seq<Bytes>, pid: Bytes)
    ensures var t := s.(processes := Sized(s, pids));
            && (Sizeable(t, pid) <==> Sizeable(s, pid))
            && (Sizeable(s, pid) ==> OneSized(t, pid) == Sized(s, pids + [pid]))
  {
  }

  /** The processes with the roots of their rolling censuses. */
  function Rooted(ps: map<Bytes, Process>, cs: map<Bytes, Census>): map<Bytes, Process> {
    map pid | pid in ps ::
      if ps[pid].mode.preRegister && pid in cs then ps[pid].(rollingCensusRoot := cs[pid].leaves) else ps[pid]
  }

  lemma SavedIsSizedAndRooted(env: Env, s: Elections, height: uint32)
    ensures var pids, r := StartingAt(env, s, Add32(height, 1)), Voting.Save(env, s, height);
            && (r.Ok? <==> forall i :: 0 <= i < |pids| ==> Sizeable(s, pids[i]))
            && (r.Ok? ==> r.value == s.(processes := Rooted(Sized(s, pids), s.censuses)))
  {
    hide Sizeable, StartingAt;
    var pids := StartingAt(env, s, Add32(height, 1));
    assert (map pid | pid in s.processes :: SavedProcess(s, pids, pid)) == Rooted(Sized(s, pids), s.censuses);
    hide SavedProcess, Rooted, Sized;
  }

  /** The votes of a cache are under the keys of their transactions. */
  predicate Filled(cache: map<CacheKey, Option<Vote>>) {
    forall k :: k in cache && k.TxKey? ==> cache[k].Some?
  }

  lemma TxVotesAre(cache: map<CacheKey, Option<Vote>>)
    requires Filled(cache)
    ensures forall tx :: tx in TxVotes(cache) <==> TxKey(tx) in cache
    ensures forall tx :: tx in TxVotes(cache) ==> TxVotes(cache)[tx] == cache[TxKey(tx)].value
  {
    forall tx | TxKey(tx) in cache ensures tx in TxVotes(cache) {
      var k := TxKey(tx);
      assert k in cache && k.TxKey? && cache[k].Some?;
    }
  }

  function Txs(keys: set<CacheKey>): set<Tx> {
    set k | k in keys && k.TxKey? :: k.tx
  }

  lemma TxsAre(keys: set<CacheKey>)
    ensures forall tx :: tx in Txs(keys) <==> TxKey(tx) in keys
  {
    forall tx | TxKey(tx) in keys ensures tx in Txs(keys) {
      var k := TxKey(tx);
      assert k in keys && k.TxKey?;
    }
  }

  lemma NoTxs(nullifier: Bytes)
    ensures Txs({NullifierKey(nullifier)}) == {}
  {
  }

  lemma OneTx(tx: Tx)
    ensures Txs({TxKey(tx)}) == {tx}
  {
    TxsAre({TxKey(tx)});
  }

  lemma TxVotesWithout(cache: map<CacheKey, Option<Vote>>, dropped: set<CacheKey>)
    requires Filled(cache)
    ensures Filled(cache - dropped) && TxVotes(cache - dropped) == TxVotes(cache) - Txs(dropped)
  {
    TxVotesAre(cache);
    TxVotesAre(cache - dropped);
    TxsAre(dropped);
    hide TxVotes, Txs;
  }

  lemma TxVotesWith(cache: map<CacheKey, Option<Vote>>, tx: Tx, vote: Vote)
    requires Filled(cache)
    ensures var added := cache[TxKey(tx) := Some(vote)][NullifierKey(vote.nullifier) := None];
            Filled(added) && TxVotes(added) == TxVotes(cache)[tx := vote]
  {
    TxVotesAre(cache);
    TxVotesAre(cache[TxKey(tx) := Some(vote)][NullifierKey(vote.nullifier) := None]);
    hide TxVotes;
  }

  lemma NoTxVotes()
    ensures Filled(map[]) && TxVotes(map[]) == map[]
  {
    TxVotesAre(map[]);
  }

  class App {
    const env: Env
    /** The open transaction of the state, and its height. */
    var ledger: Ledger
    var elections: Elections
    var height: uint32
    /** The store, and the height of the last commit. */
    var committed: State
    var saved: uint32
    var cache: map<CacheKey, Option<Vote>>

    constructor (env: Env, genesis: State, height: uint32)
      requires DelegatesDistinct(genesis.ledger)
      ensures Valid() && Value() == Node(genesis, height, genesis, height, map[]) && this.env == env
    {
      hide TxVotes, Filled, DelegatesDistinct;
      NoTxVotes();
      this.env := env;
      ledger, elections, this.height := genesis.ledger, genesis.elections, height;
      committed, saved := genesis, height;
      cache := map[];
    }

    predicate Valid()
      reads this
    {
      && DelegatesDistinct(ledger) && DelegatesDistinct(committed.ledger)
      && Filled(cache)
    }

    function Value(): Node
      reads this
    {
      Node(committed, saved, State(ledger, elections), height, TxVotes(cache))
    }

    // ---------------------------------------------- accounts

    method GetAccount(a: Address) returns (acc: Record?)
      ensures acc != null <==> a in ledger.accounts
      ensures acc != null ==> fresh(acc) && acc.Value() == ledger.accounts[a]
    {
      if a !in ledger.accounts {
        return null;
      }
      acc := new Record(ledger.accounts[a]);
    }

    method SetAccount(a: Address, acc: Record)
      modifies this`ledger
      ensures ledger == Accounts.SetAccount(old(ledger), a, acc.Value())
    {
      ledger := ledger.(accounts := ledger.accounts[a := acc.Value()]);
    }

    /** Both records are loaded first, so one account that pays itself has two. */
    method TransferBalance(from: Address, to: Address, amount: uint64) returns (err: Option<Error>)
      modifies this`ledger
      ensures Applied(Accounts.TransferBalance(old(ledger), from, to, amount), old(ledger), ledger, err)
    {
      var accFrom := GetAccount(from);
      if accFrom == null {
        return Some(AccountNotExist);
      }
      var accTo := GetAccount(to);
      if accTo == null {
        return Some(AccountNotExist);
      }
      err := accFrom.Transfer(accTo, amount);
      if err.Some? {
        return;
      }
      SetAccount(from, accFrom);
      SetAccount(to, accTo);
    }

    method MintBalance(a: Address, amount: uint64) returns (err: Option<Error>)
      modifies this`ledger
      ensures Applied(Accounts.MintBalance(old(ledger), a, amount), old(ledger), ledger, err)
    {
      if amount == 0 {
        return Some(ZeroAmount);
      }
      var acc := GetAccount(a);
      if acc == null {
        return Some(AccountNotExist);
      }
      if Add64(acc.balance, amount) <= acc.balance {
        return Some(BalanceOverflow);
      }
      acc.balance := Add64(acc.balance, amount);
      SetAccount(a, acc);
      return None;
    }

    method CreateAccount(a: Address, infoURI: string) returns (err: Option<Error>)
      modifies this`ledger
      ensures Applied(Accounts.CreateAccount(old(ledger), a, infoURI), old(ledger), ledger, err)
    {
      if a == ZERO_ADDRESS {
        return Some(InvalidAddress);
      }
      var acc := GetAccount(a);
      if acc != null {
        return Some(AccountExists);
      }
      acc := new Record(Account(0, 0, 0, infoURI, []));
      SetAccount(a, acc);
      return None;
    }

    method SubtractCostIncrementNonce(a: Address, t: TxType) returns (err: Option<Error>)
      modifies this`ledger
      ensures Applied(Accounts.SubtractCostIncrementNonce(old(ledger), a, t), old(ledger), ledger, err)
    {
      var acc := GetAccount(a);
      if acc == null {
        return Some(AccountNotExist);
      }
      var cost := TxCost(ledger, t);
      if cost.Err? {
        return Some(cost.error);
      }
      if !t.COLLECT_FAUCET? {
        acc.nonce := Add32(acc.nonce, 1);
      }
      if cost.value != 0 {
        var burn := GetAccount(BURN_ADDRESS);
        if burn == null {
          return Some(AccountNotExist);
        }
        err := acc.Transfer(burn, cost.value);
        if err.Some? {
          return;
        }
        SetAccount(BURN_ADDRESS, burn);
      }
      SetAccount(a, acc);
      return None;
    }

    method ConsumeFaucetPayload(from: Address, p: FaucetPayload, t: TxType) returns (err: Option<Error>)
      modifies this`ledger
      ensures Applied(Accounts.ConsumeFaucetPayload(old(ledger), from, p, t), old(ledger), ledger, err)
    {
      if from == ZERO_ADDRESS {
        return Some(InvalidAddress);
      }
      var accFrom := GetAccount(from);
      var accTo := GetAccount(p.to);
      var burn := GetAccount(BURN_ADDRESS);
      if accFrom == null || accTo == null || burn == null {
        return Some(AccountNotExist);
      }
      err := accFrom.Transfer(accTo, p.amount);
      if err.Some? {
        return;
      }
      if t.SET_ACCOUNT_INFO? {
        var cost := TxCost(ledger, COLLECT_FAUCET);
        if cost.Err? {
          return Some(cost.error);
        }
        err := accFrom.Transfer(burn, cost.value);
        if err.Some? {
          return;
        }
      } else {
        accTo.nonce := Add32(accTo.nonce, 1);
      }
      ledger := ledger.(faucet := ledger.faucet + {(from, p.identifier)});
      SetAccount(from, accFrom);
      SetAccount(p.to, accTo);
      SetAccount(BURN_ADDRESS, burn);
    }

    method SetAccountInfoURI(a: Address, infoURI: string) returns (err: Option<Error>)
      modifies this`ledger
      ensures if a !in old(ledger).accounts then err == Some(AccountNotExist) && ledger == old(ledger)
              else err.None? && ledger == Accounts.SetAccount(old(ledger), a, old(ledger).accounts[a].(infoURI := infoURI))
    {
      var acc := GetAccount(a);
      if acc == null {
        return Some(AccountNotExist);
      }
      acc.infoURI := infoURI;
      SetAccount(a, acc);
      return None;
    }

    method SetAccountDelegate(a: Address, delegate: Address, add: bool) returns (err: Option<Error>)
      requires DelegatesDistinct(ledger)
      modifies this`ledger
      ensures if a !in old(ledger).accounts then err == Some(AccountNotExist) && ledger == old(ledger)
              else
                var acc := old(ledger).accounts[a];
                if add && delegate in acc.delegates then err == Some(AlreadyDelegate) && ledger == old(ledger)
                else
                  var delegates := if add then acc.delegates + [delegate] else WithoutDelegate(acc.delegates, delegate);
                  err.None? && ledger == Accounts.SetAccount(old(ledger), a, acc.(delegates := delegates))
    {
      var acc := GetAccount(a);
      if acc == null {
        return Some(AccountNotExist);
      }
      if add {
        err := acc.AddDelegate(delegate);
        if err.Some? {
          return;
        }
      } else {
        acc.DelDelegate(delegate);
      }
      SetAccount(a, acc);
      return None;
    }

    method IncrementAccountProcessIndex(a: Address) returns (err: Option<Error>)
      modifies this`ledger
      ensures if a !in old(ledger).accounts then err == Some(AccountNotExist) && ledger == old(ledger)
              else err.None? && ledger == Payments.IncrementAccountProcessIndex(old(ledger), a)
    {
      var acc := GetAccount(a);
      if acc == null {
        return Some(AccountNotExist);
      }
      if acc.processIndex > 0x40_0000 {
        acc.processIndex := 0;
      }
      acc.processIndex := acc.processIndex + 1;
      SetAccount(a, acc);
      return None;
    }

    method IncrementTreasurerNonce()
      modifies this`ledger
      ensures ledger == Payments.IncrementTreasurerNonce(old(ledger))
    {
      ledger := ledger.(treasurer := ledger.treasurer.(nonce := Add32(ledger.treasurer.nonce, 1)));
    }

    // ---------------------------------------------- payments

    method SetAccountInfo(tx: Payment, signer: Option<Address>) returns (err: Option<Error>)
      requires tx.SetAccountInfoTx?
      modifies this`ledger
      ensures Reply(ledger, err) == SetAccountInfoDeliver(old(ledger), tx, signer)
    {
      match SetAccountInfoCheck(ledger, tx, signer)
      case Err(e) => err := Some(e);
      case Ok(Create(sender)) => err := CreateAccount(sender, tx.infoURI);
      case Ok(CreateWithFaucet(sender, issuer)) =>
        err := CreateAccount(sender, tx.infoURI);
        if err.None? {
          err := ConsumeFaucetPayload(issuer, tx.faucet.value.payload, SET_ACCOUNT_INFO);
        }
      case Ok(SetInfo(sender, account)) =>
        err := SetAccountInfoURI(account, tx.infoURI);
        if err.None? {
          err := SubtractCostIncrementNonce(sender, SET_ACCOUNT_INFO);
        }
      hide Accounts.SubtractCostIncrementNonce, Accounts.ConsumeFaucetPayload, Accounts.CreateAccount;
    }

    method SendTokens(tx: Payment, signer: Option<Address>) returns (err: Option<Error>)
      requires tx.SendTokensTx?
      modifies this`ledger
      ensures Reply(ledger, err) == SendTokensDeliver(old(ledger), tx, signer)
    {
      hide Accounts.SubtractCostIncrementNonce, Accounts.TransferBalance, SendTokensCheck;
      var check := SendTokensCheck(ledger, tx, signer);
      if check.Err? {
        return Some(check.error);
      }
      err := TransferBalance(tx.from, tx.to, tx.value);
      if err.None? {
        err := SubtractCostIncrementNonce(tx.from, SEND_TOKENS);
      }
    }

    method SetDelegate(tx: Payment, signer: Option<Address>) returns (err: Option<Error>)
      requires tx.AddDelegateTx? || tx.DelDelegateTx?
      requires DelegatesDistinct(ledger)
      modifies this`ledger
      ensures Reply(ledger, err) == SetAccountDelegateDeliver(old(ledger), tx, signer)
    {
      hide Accounts.SubtractCostIncrementNonce, DelegatesDistinct, WithoutDelegate;
      var check := SetAccountDelegateCheck(ledger, tx, signer);
      if check.Err? {
        return Some(check.error);
      }
      err := SetAccountDelegate(check.value, tx.delegate, tx.AddDelegateTx?);
      if err.None? {
        err := SubtractCostIncrementNonce(check.value, DelegateType(tx));
      }
    }

    method CollectFaucet(tx: Payment, signer: Option<Address>) returns (err: Option<Error>)
      requires tx.CollectFaucetTx?
      modifies this`ledger
      ensures Reply(ledger, err) == CollectFaucetDeliver(old(ledger), tx, signer)
    {
      hide Accounts.SubtractCostIncrementNonce, Accounts.ConsumeFaucetPayload;
      var check := CollectFaucetCheck(ledger, tx, signer);
      if check.Err? {
        return Some(check.error);
      }
      err := ConsumeFaucetPayload(check.value, tx.package.value.payload, COLLECT_FAUCET);
      if err.None? {
        err := SubtractCostIncrementNonce(check.value, COLLECT_FAUCET);
      }
    }

    method MintTokens(tx: Payment, signer: Option<Address>) returns (err: Option<Error>)
      requires tx.MintTokensTx?
      modifies this`ledger
      ensures Reply(ledger, err) == MintTokensDeliver(old(ledger), tx, signer)
    {
      if tx.value == 0 {
        return Some(InvalidValue);
      }
      if tx.to == ZERO_ADDRESS {
        return Some(InvalidAddress);
      }
      if tx.to !in ledger.accounts {
        return Some(AccountNotExist);
      }
      var check := VerifyTreasurer(ledger, signer, tx.nonce);
      if check.Err? {
        return Some(check.error);
      }
      err := MintBalance(tx.to, tx.value);
      if err.None? {
        IncrementTreasurerNonce();
      }
    }

    method SetTransactionCosts(tx: Payment, signer: Option<Address>) returns (err: Option<Error>)
      requires tx.SetTransactionCostsTx?
      modifies this`ledger
      ensures Reply(ledger, err) == SetTransactionCostsDeliver(old(ledger), tx, signer)
    {
      if tx.txType.UNPRICED? {
        return Some(InvalidTx);
      }
      var check := VerifyTreasurer(ledger, signer, tx.nonce);
      if check.Err? {
        return Some(check.error);
      }
      ledger := ledger.(costs := ledger.costs[tx.txType := tx.value]);
      IncrementTreasurerNonce();
      return None;
    }

    method SetOracle(tx: Payment, signer: Option<Address>) returns (err: Option<Error>)
      requires tx.AddOracleTx? || tx.RemoveOracleTx?
      modifies this`ledger
      ensures Reply(ledger, err) == SetOracleDeliver(old(ledger), tx, signer)
    {
      var check := VerifyTreasurer(ledger, signer, tx.nonce);
      if check.Err? {
        return Some(check.error);
      }
      if tx.address == ZERO_ADDRESS {
        return Some(InvalidAddress);
      }
      if tx.AddOracleTx? == (tx.address in ledger.oracles) {
        return Some(Unauthorized);
      }
      ledger := ledger.(oracles := if tx.AddOracleTx? then ledger.oracles + {tx.address} else ledger.oracles - {tx.address});
      ledger := ledger.(removed := if tx.AddOracleTx? then ledger.removed - {tx.address} else ledger.removed + {tx.address});
      IncrementTreasurerNonce();
      return None;
    }

    method Pay(tx: Payment, signer: Option<Address>) returns (err: Option<Error>)
      requires DelegatesDistinct(ledger)
      modifies this`ledger
      ensures Reply(ledger, err) == Payments.Deliver(old(ledger), tx, signer)
    {
      hide SetAccountInfoDeliver, SetTransactionCostsDeliver, MintTokensDeliver, SendTokensDeliver,
           SetAccountDelegateDeliver, CollectFaucetDeliver, SetOracleDeliver;
      match tx
      case SetAccountInfoTx(_, _, _, _) => err := SetAccountInfo(tx, signer);
      case SetTransactionCostsTx(_, _, _) => err := SetTransactionCosts(tx, signer);
      case MintTokensTx(_, _, _) => err := MintTokens(tx, signer);
      case SendTokensTx(_, _, _, _) => err := SendTokens(tx, signer);
      case AddDelegateTx(_, _) => err := SetDelegate(tx, signer);
      case DelDelegateTx(_, _) => err := SetDelegate(tx, signer);
      case CollectFaucetTx(_, _) => err := CollectFaucet(tx, signer);
      case AddOracleTx(_, _) => err := SetOracle(tx, signer);
      case RemoveOracleTx(_, _) => err := SetOracle(tx, signer);
    }

    method ChargeProcess(sender: Address, t: TxType) returns (err: Option<Error>)
      modifies this`ledger
      ensures Reply(ledger, err) == PayForProcess(old(ledger), sender, t)
    {
      err := None;
      if t.NEW_PROCESS? {
        err := IncrementAccountProcessIndex(sender);
      }
      if err.None? {
        err := SubtractCostIncrementNonce(sender, t);
      }
    }

    // ---------------------------------------------- processes and votes

    method UpdateProcess(pid: Bytes, p: Process) returns (err: Option<Error>)
      modifies this`elections
      ensures Applied(Voting.UpdateProcess(old(elections), pid, p), old(elections), elections, err)
    {
      if |pid| != PROCESS_ID_SIZE || pid !in elections.processes {
        return Some(ProcessNotFound);
      }
      elections := elections.(processes := elections.processes[pid := p]);
      return None;
    }

    method AddProcess(pid: Bytes, p: Process) returns (err: Option<Error>)
      modifies this`elections
      ensures Applied(Voting.AddProcess(env, old(elections), pid, p), old(elections), elections, err)
    {
      if pid in elections.processes {
        return Some(ProcessExists);
      }
      var stored := if p.mode.preRegister then p.(rollingCensusRoot := map[]) else p;
      elections := elections.(processes := elections.processes[pid := stored]);
      elections := elections.(votes := elections.votes[pid := map[]]);
      if p.mode.preRegister && p.envelope.anonymous {
        elections := elections.(censuses := elections.censuses[pid := Census(map[], 0)]);
      }
      var key := env.startKey(p.startBlock);
      var pids := if key in elections.startIndex then elections.startIndex[key] else [];
      elections := elections.(startIndex := elections.startIndex[key := pids + [pid]]);
      return None;
    }

    /** The count is raised after the vote is stored. */
    method AddVote(vote: Vote) returns (err: Option<Error>)
      modifies this`elections
      ensures Applied(Voting.AddVote(old(elections), vote, height), old(elections), elections, err)
    {
      var pid := vote.processId;
      if |pid| != PROCESS_ID_SIZE || |vote.nullifier| != NULLIFIER_SIZE {
        return Some(WrongSize);
      }
      if pid !in elections.processes || pid !in elections.votes {
        return Some(ProcessNotFound);
      }
      if vote.nullifier in elections.votes[pid] {
        return Some(VoteExists);
      }
      var tree := elections.votes[pid][vote.nullifier := vote.(height := height)];
      elections := elections.(votes := elections.votes[pid := tree]);
      elections := elections.(voteCount := Add64(elections.voteCount, 1));
      return None;
    }

    method AddToRollingCensus(pid: Bytes, key: Bytes) returns (err: Option<Error>)
      modifies this`elections
      ensures Applied(Voting.AddToRollingCensus(old(elections), pid, key), old(elections), elections, err)
    {
      if pid !in elections.processes || pid !in elections.censuses || elections.processes[pid].maxCensusSize.None? {
        return Some(ProcessNotFound);
      }
      var census := elections.censuses[pid];
      if census.length >= elections.processes[pid].maxCensusSize.value {
        return Some(CensusFull);
      }
      if census.length in census.leaves {
        return Some(KeyTaken);
      }
      census := census.(leaves := census.leaves[census.length := key]);
      census := census.(length := Add64(census.length, 1));
      elections := elections.(censuses := elections.censuses[pid := census]);
      return None;
    }

    method AddProcessKeys(pid: Bytes, index: Option<uint32>, key: Option<Bytes>) returns (err: Option<Error>)
      modifies this`elections
      ensures Applied(Voting.AddProcessKeys(old(elections), pid, index, key, height), old(elections), elections, err)
    {
      if pid !in elections.processes {
        return Some(ProcessNotFound);
      }
      var p := elections.processes[pid];
      var check := AddKeysCheck(p, index, key, height);
      if check.Err? {
        return Some(check.error);
      }
      p := p.(publicKeys := p.publicKeys[index.value := key.value]);
      if p.keyIndex.None? {
        p := p.(keyIndex := Some(0));
      }
      p := p.(keyIndex := Some(Add32(p.keyIndex.value, 1)));
      err := UpdateProcess(pid, p);
    }

    method RevealProcessKeys(pid: Bytes, index: Option<uint32>, key: Option<Bytes>) returns (err: Option<Error>)
      modifies this`elections
      ensures Applied(Voting.RevealProcessKeys(env, old(elections), pid, index, key, height), old(elections), elections, err)
    {
      if pid !in elections.processes {
        return Some(ProcessNotFound);
      }
      var p := elections.processes[pid];
      var check := RevealKeysCheck(env, p, index, key, height);
      if check.Err? {
        return Some(check.error);
      }
      p := p.(privateKeys := p.privateKeys[index.value := key.value]);
      p := p.(keyIndex := Some(p.keyIndex.value - 1));
      err := UpdateProcess(pid, p);
    }

    method SetProcessStatus(pid: Bytes, next: Status) returns (err: Option<Error>)
      modifies this`elections
      ensures Applied(Voting.SetProcessStatus(old(elections), pid, next, height), old(elections), elections, err)
    {
      if pid !in elections.processes {
        return Some(ProcessNotFound);
      }
      var p := elections.processes[pid];
      var check := StatusCheck(p, next, height);
      if check.Err? {
        return Some(check.error);
      }
      p := p.(status := next);
      err := UpdateProcess(pid, p);
    }

    method SetProcessResults(pid: Bytes, result: ProcessResult) returns (err: Option<Error>)
      modifies this`elections
      ensures Applied(Voting.SetProcessResults(old(elections), pid, result, |ledger.oracles|, height), old(elections), elections, err)
    {
      if pid !in elections.processes {
        return Some(ProcessNotFound);
      }
      var p := elections.processes[pid];
      if !p.status.Ended? && !p.status.Ready? && !p.status.Results? {
        return Some(InvalidStatus);
      }
      if p.status.Ready? && EndBlock(p) > height {
        return Some(InvalidStatus);
      }
      if result.processId != pid || result.entity != p.entity || result.oracle.None? {
        return Some(InvalidResults);
      }
      var was := p.results;
      if p.results == [] {
        p := p.(results := seq(2 * |ledger.oracles|, _ => None));
      }
      for i := 0 to |p.results|
        invariant !Reported(p.results[..i], result.oracle.value)
      {
        if p.results[i].Some? && p.results[i].value.oracle == result.oracle {
          assert Reported(was, result.oracle.value) by {
            assert was[i] == p.results[i];
          }
          return Some(InvalidResults);
        }
      }
      p := p.(results := p.results + [Some(result)]);
      p := p.(status := Results);
      err := UpdateProcess(pid, p);
    }

    method SetProcessCensus(pid: Bytes, root: Bytes, uri: string) returns (err: Option<Error>)
      modifies this`elections
      ensures Applied(Voting.SetProcessCensus(old(elections), pid, root, uri), old(elections), elections, err)
    {
      if pid !in elections.processes {
        return Some(ProcessNotFound);
      }
      var p := elections.processes[pid];
      if !p.mode.dynamicCensus || !AllowsCensusUpdate(p.censusOrigin) {
        return Some(InvalidProcess);
      }
      if !p.status.Ready? && !p.status.Paused? {
        return Some(InvalidStatus);
      }
      if root == p.censusRoot {
        return Some(SameCensus);
      }
      if NeedsURI(p.censusOrigin) && uri == "" {
        return Some(InvalidTx);
      }
      p := p.(censusRoot := root, censusURI := uri);
      err := UpdateProcess(pid, p);
    }

    method SetProcess(pid: Bytes, action: Action) returns (err: Option<Error>)
      modifies this`elections
      ensures Applied(Act(old(elections), pid, action, |ledger.oracles|, height), old(elections), elections, err)
    {
      hide Voting.SetProcessStatus, Voting.SetProcessResults, Voting.SetProcessCensus;
      match action
      case SetStatus(status) => err := SetProcessStatus(pid, status);
      case SetResults(result) =>
        if result.None? {
          return Some(InvalidResults);
        }
        err := SetProcessResults(pid, result.value);
      case SetCensus(root, uri) =>
        if root.None? {
          return Some(InvalidTx);
        }
        err := SetProcessCensus(pid, root.value, uri);
      case SetQuestionIndex => err := Some(InvalidTx);
    }

    method RegisterKey(tx: Registration, signer: Option<Address>) returns (err: Option<Error>)
      modifies this`elections
      ensures Response(State(ledger, elections), err) ==
              Chain.RegisterKey(env, State(old(ledger), old(elections)), tx, signer, height)
    {
      hide Voting.AddToRollingCensus, RegisterKeyCheck;
      var check := RegisterKeyCheck(env, elections, tx, signer, height);
      if check.Err? {
        return Some(check.error);
      }
      var owner := signer.GetOr(ZERO_ADDRESS);
      elections := elections.(usedWeight := elections.usedWeight[(tx.processId, owner) := check.value]);
      err := AddToRollingCensus(tx.processId, tx.newKey);
    }

    method SetOneCensusSize(pid: Bytes) returns (err: Option<Error>)
      modifies this`elections
      ensures err.None? <==> Sizeable(old(elections), pid)
      ensures err.None? ==> elections == old(elections).(processes := OneSized(old(elections), pid))
    {
      if pid !in elections.processes {
        return Some(ProcessNotFound);
      }
      if elections.processes[pid].mode.preRegister {
        if pid !in elections.censuses {
          return Some(ProcessNotFound);
        }
        var p := elections.processes[pid].(rollingCensusSize := Some(elections.censuses[pid].length));
        elections := elections.(processes := elections.processes[pid := p]);
      }
      return None;
    }

    /** The loop fixes the census size of every listed process whose voters register. */
    method SetRollingCensusSize(pids: seq<Bytes>) returns (err: Option<Error>)
      modifies this`elections
      ensures err.None? <==> forall i :: 0 <= i < |pids| ==> Sizeable(old(elections), pids[i])
      ensures err.None? ==> elections == old(elections).(processes := Sized(old(elections), pids))
    {
      ghost var was := elections;
      assert Sized(was, pids[..0]) == was.processes;
      hide Sized, Sizeable, OneSized;
      for i := 0 to |pids|
        invariant forall k :: 0 <= k < i ==> Sizeable(was, pids[k])
        invariant elections == was.(processes := Sized(was, pids[..i]))
      {
        assert pids[..i + 1] == pids[..i] + [pids[i]];
        SizedMore(was, pids[..i], pids[i]);
        err := SetOneCensusSize(pids[i]);
        if err.Some? {
          return;
        }
      }
      assert pids[..|pids|] == pids;
      return None;
    }

    // ---------------------------------------------- the vote cache

    /** The cache library may drop entries when it is full. */
    method CacheAdd(tx: Tx, vote: Vote, dropped: set<CacheKey>)
      modifies this`cache
      ensures cache == old(cache)[TxKey(tx) := Some(vote)][NullifierKey(vote.nullifier) := None] - dropped
    {
      cache := cache[TxKey(tx) := Some(vote)];
      cache := cache[NullifierKey(vote.nullifier) := None];
      cache := cache - dropped;
    }

    method CacheDel(tx: Tx)
      requires Valid()
      modifies this`cache
      ensures TxVotes(cache) == TxVotes(old(cache)) - {tx}
      ensures forall k :: k in cache ==> k in old(cache) && cache[k] == old(cache)[k]
      ensures tx in TxVotes(old(cache)) ==> NullifierKey(TxVotes(old(cache))[tx].nullifier) !in cache
    {
      hide TxVotes, Txs, DelegatesDistinct;
      TxVotesAre(cache);
      OneTx(tx);
      if TxKey(tx) in cache {
        var vote := cache[TxKey(tx)].value;
        NoTxs(vote.nullifier);
        TxVotesWithout(cache, {NullifierKey(vote.nullifier)});
        cache := cache - {NullifierKey(vote.nullifier)};
      }
      TxVotesWithout(cache, {TxKey(tx)});
      cache := cache - {TxKey(tx)};
    }

    /** Every eighteen blocks the votes that were checked long ago go, with their nullifiers. */
    method CachePurge() returns (gone: set<Tx>)
      requires Valid()
      modifies this`cache
      ensures Valid()
      ensures TxVotes(cache) == TxVotes(old(cache)) - gone
      ensures forall tx :: tx in TxVotes(old(cache)) ==>
                (tx in gone <==> height % PURGE_PERIOD == 0 && Old(TxVotes(old(cache))[tx], height))
    {
      gone := {};
      if height % PURGE_PERIOD != 0 {
        return;
      }
      ghost var was, dropped := cache, {};
      var keys := cache.Keys;
      while keys != {}
        invariant cache == was - dropped && keys <= was.Keys
        invariant forall tx :: tx in gone <==> TxKey(tx) in dropped
        invariant forall tx :: TxKey(tx) in dropped ==> TxKey(tx) in was && TxKey(tx) !in keys && Old(was[TxKey(tx)].value, height)
        invariant forall tx :: TxKey(tx) in was && TxKey(tx) !in keys && Old(was[TxKey(tx)].value, height) ==> TxKey(tx) in dropped
        decreases keys
      {
        var k :| k in keys;
        keys := keys - {k};
        if k.TxKey? {
          var vote := cache[k].value;
          if Old(vote, height) {
            dropped := dropped + {NullifierKey(vote.nullifier), k};
            cache := cache - {NullifierKey(vote.nullifier), k};
            gone := gone + {k.tx};
          }
        }
      }
      TxVotesAre(was);
      TxVotesWithout(was, dropped);
      TxsAre(dropped);
      assert gone == Txs(dropped);
    }

    // ---------------------------------------------- the calls of consensus

    method Rollback()
      modifies this`ledger, this`elections
      ensures State(ledger, elections) == committed
    {
      ledger, elections := committed.ledger, committed.elections;
    }

    /** The state is rolled back and old votes leave the cache. */
    method BeginBlock() returns (gone: set<Tx>)
      requires Valid() && saved + 1 < TWO32
      modifies this
      ensures Valid() && Value() == Next(env, Next(env, old(Value()), Step.BeginBlock), Evict(gone))
      ensures forall tx :: tx in TxVotes(old(cache)) ==>
                (tx in gone <==> (old(saved) + 1) % 18 == 0 && old(saved) + 1 >= (TxVotes(old(cache))[tx].height + 180) % TWO32)
    {
      hide Chain.AddTx, Voting.Save, VoteEnvelopeCheck, TakesCached, DelegatesDistinct, TxVotes;
      Rollback();
      height := saved + 1;
      gone := CachePurge();
    }

    method CastVote(tx: Tx) returns (err: Option<Error>)
      requires Valid() && tx.payload.VoteTx?
      modifies this`elections, this`cache
      ensures Valid()
      ensures Applied(Chain.CastVote(env, old(elections), tx.payload.envelope, tx.signer, height, Cached(old(Value()), tx)),
                      old(elections), elections, err)
      ensures TxVotes(cache) == TxVotes(old(cache)) - (if TakesCached(old(Value()), tx) then {tx} else {})
    {
      hide Voting.AddVote, FullVoteCheck;
      var n := Value();
      var r := VoteEnvelopeCheck(env, elections, tx.payload.envelope, tx.signer, height, Cached(n, tx), true);
      if TakesCached(n, tx) {
        CacheDel(tx);
      }
      if r.Err? {
        return Some(r.error);
      }
      err := AddVote(r.value);
    }

    method AddTx(tx: Tx) returns (err: Option<Error>)
      requires Valid()
      modifies this`ledger, this`elections, this`cache
      ensures Response(State(ledger, elections), err) == Chain.AddTx(env, old(Value()).working, tx, height, Cached(old(Value()), tx))
      ensures TxVotes(cache) == TxVotes(old(cache)) - (if TakesCached(old(Value()), tx) then {tx} else {})
      ensures Filled(cache)
    {
      hide Payments.Deliver, PayForProcess, Chain.RegisterKey, Chain.CastVote, Voting.AddProcess, Voting.AddProcessKeys,
           Voting.RevealProcessKeys, NewProcessCheck, SetProcessCheck, KeyKeeperCheck, Act;
      match tx.payload
      case VoteTx(_) => err := CastVote(tx);
      case PaymentTx(p) => err := Pay(p, tx.signer);
      case NewProcessTx(_, _, _, _) =>
        var check := NewProcessCheck(env, State(ledger, elections), tx, height);
        if check.Err? {
          return Some(check.error);
        }
        err := AddProcess(check.value.pid, check.value.process);
        if err.None? {
          err := ChargeProcess(check.value.sender, NEW_PROCESS);
        }
      case SetProcessTx(pid, action, _) =>
        var check := SetProcessCheck(State(ledger, elections), tx);
        if check.Err? {
          return Some(check.error);
        }
        err := SetProcess(pid, action);
        if err.None? {
          err := ChargeProcess(check.value, ActionType(action));
        }
      case AddProcessKeysTx(pid, index, key) =>
        var check := KeyKeeperCheck(State(ledger, elections), pid, tx.signer);
        if check.Err? {
          return Some(check.error);
        }
        err := AddProcessKeys(pid, index, key);
      case RevealProcessKeysTx(pid, index, key) =>
        var check := KeyKeeperCheck(State(ledger, elections), pid, tx.signer);
        if check.Err? {
          return Some(check.error);
        }
        err := RevealProcessKeys(pid, index, key);
      case RegisterKeyTx(r) => err := RegisterKey(r, tx.signer);
    }

    /** Delivering a transaction is a step of the node, whatever the reply. */
    method DeliverTx(tx: Tx) returns (err: Option<Error>)
      requires Valid()
      modifies this`ledger, this`elections, this`cache
      ensures Valid() && Value() == Next(env, old(Value()), Step.DeliverTx(tx))
      ensures err == Chain.AddTx(env, old(Value()).working, tx, height, Cached(old(Value()), tx)).error
    {
      hide Chain.AddTx, TakesCached;
      DeliveryKeepsDelegates(env, Value().working, tx, height, Cached(Value(), tx));
      err := AddTx(tx);
    }

    /** A mempool check of a vote may cache it; it never changes the state. */
    method CheckVote(tx: Tx, dropped: set<CacheKey>) returns (err: Option<Error>, gone: set<Tx>)
      requires Valid() && tx.payload.VoteTx?
      modifies this`cache
      ensures Valid()
      ensures Value() == Next(env, Next(env, old(Value()), CheckTx(tx)), Evict(gone))
      ensures match VoteEnvelopeCheck(env, elections, tx.payload.envelope, tx.signer, height, Cached(old(Value()), tx), false)
              case Err(e) => err == Some(e) && gone == {}
              case Ok(_) => err.None? && gone == Txs(dropped)
    {
      hide VoteEnvelopeCheck, Chain.AddTx, DelegatesDistinct;
      gone := {};
      var r := VoteEnvelopeCheck(env, elections, tx.payload.envelope, tx.signer, height, Cached(Value(), tx), false);
      if r.Err? {
        err := Some(r.error);
        return;
      }
      TxVotesWith(cache, tx, r.value);
      TxVotesWithout(cache[TxKey(tx) := Some(r.value)][NullifierKey(r.value.nullifier) := None], dropped);
      hide TxVotes;
      CacheAdd(tx, r.value, dropped);
      err, gone := None, Txs(dropped);
    }

    /** Saving fixes the census sizes of the processes that start next, and the commit of the
        state tree brings the roots of all rolling censuses into their processes.  A node
        whose save fails stops. */
    method Save() returns (err: Option<Error>)
      requires Valid()
      modifies this`elections, this`committed, this`saved
      ensures err.None? <==> Voting.Save(env, old(elections), height).Ok?
      ensures err.None? ==> Valid() && Value() == Next(env, old(Value()), Commit)
    {
      SavedIsSizedAndRooted(env, elections, height);
      hide Sized, Rooted, StartingAt, Sizeable, Voting.Save, Chain.AddTx, VoteEnvelopeCheck, DelegatesDistinct, Filled, TxVotes;
      err := SetRollingCensusSize(StartingAt(env, elections, Add32(height, 1)));
      if err.Some? {
        return;
      }
      elections := elections.(processes := Rooted(elections.processes, elections.censuses));
      committed, saved := State(ledger, elections), height;
    }
  }
}
