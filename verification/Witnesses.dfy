/** Concrete inputs on the failing side of the exact conditions. */
module Witnesses {
  import opened Common
  import opened Accounts
  import opened Payments
  import opened Voting
  import opened Chain

  const MAX_COST: uint64 := 0xffff_ffff_ffff_ffff

  function Funds(balance: uint64): Account {
    Account(balance, 0, 0, "", [])
  }

  // ------------------------------------------------ payments

  function TwoAccounts(t: TxType, cost: uint64): Ledger {
    Ledger(map[7 := Funds(100), 8 := Funds(0), BURN_ADDRESS := Funds(0)], {}, map[t := cost], Treasurer(1, 0), {}, {})
  }

  /** The wrapped sum of 50 and the largest cost is 49: the check passes, 50 tokens move and
      the transaction is rejected without paying the fee. */
  lemma SendHalfApplied()
    ensures var l, tx := TwoAccounts(SEND_TOKENS, MAX_COST), SendTokensTx(7, 8, 50, 0);
            var reply := Deliver(l, tx, Some(7));
            && SendTokensCheck(l, tx, Some(7)).Ok? && reply.error == Some(NotEnoughBalance)
            && BalanceOf(reply.ledger, 7) == 50 && BalanceOf(reply.ledger, 8) == 50 && BalanceOf(reply.ledger, BURN_ADDRESS) == 0
            && reply.ledger.accounts[7].nonce == 0
  {
  }

  /** A faucet collection: the amount moves, the package is used and the nonce raised, and the
      transaction is rejected. */
  lemma CollectHalfApplied()
    ensures var l, tx := TwoAccounts(COLLECT_FAUCET, MAX_COST), CollectFaucetTx(Some(FaucetPackage(FaucetPayload(3, 8, 50), Some(7))), 0);
            var reply := Deliver(l, tx, Some(8));
            && CollectFaucetCheck(l, tx, Some(8)).Ok? && reply.error == Some(NotEnoughBalance)
            && BalanceOf(reply.ledger, 7) == 50 && BalanceOf(reply.ledger, 8) == 50
            && (7, 3) in reply.ledger.faucet && reply.ledger.accounts[8].nonce == 1
  {
  }

  /** An account created with a package while collecting costs nothing: the transaction is
      rejected, and the account stays, empty. */
  lemma CreationLeavesAccount()
    ensures var l := TwoAccounts(COLLECT_FAUCET, 0);
            var tx := SetAccountInfoTx(9, "info", 0, Some(FaucetPackage(FaucetPayload(3, 9, 50), Some(7))));
            var reply := Deliver(l, tx, Some(9));
            && SetAccountInfoCheck(l, tx, Some(9)).Ok? && reply.error == Some(ZeroAmount)
            && 9 !in l.accounts && 9 in reply.ledger.accounts && BalanceOf(reply.ledger, 9) == 0 && BalanceOf(reply.ledger, 7) == 100
  {
  }

  // ------------------------------------------------ processes

  function Fill(length: nat, b: byte): (s: Bytes)
    ensures |s| == length
  {
    if length == 0 then [] else [b] + Fill(length - 1, b)
  }

  function Pid(): (pid: Bytes)
    ensures |pid| == PROCESS_ID_SIZE
  {
    Fill(PROCESS_ID_SIZE, 0)
  }

  function Key(): (key: Bytes)
    ensures |key| == CENSUS_KEY_SIZE
  {
    Fill(CENSUS_KEY_SIZE, 1)
  }

  /** Proofs hold against the census root [1] and no other; the start block 6 has a storage key
      of its own. */
  function Outside(): Env {
    Env((_, root, _, _, _) => if root == [1] then Some(1) else None,
        (_, _, _, _, _) => true,
        (_, _) => Fill(NULLIFIER_SIZE, 2),
        _ => None,
        block => [if block == 6 then 1 else 0],
        (_, _, _, _) => Pid(),
        100)
  }

  function Election(anonymous: bool, start: uint32, root: Bytes): Process {
    Process(7, start, 10, Ready, Mode(false, true, anonymous), Envelope(false, anonymous, false),
            OffChainTree, root, "uri", Some(10), None, map[], None, [], [], [])
  }

  function NoElections(): Elections {
    Elections(map[], map[], 0, map[], map[], map[])
  }

  /** A process that is created and committed at its own start block has no census size. */
  lemma StartedUnsized()
    ensures var e := AddProcess(Outside(), NoElections(), Pid(), Election(true, 5, [1]));
            && e.Ok?
            && var f := Save(Outside(), e.value, 5);
               f.Ok? && Pid() in f.value.processes && f.value.processes[Pid()].startBlock == 5 && f.value.processes[Pid()].rollingCensusSize == None
  {
    var e := AddProcess(Outside(), NoElections(), Pid(), Election(true, 5, [1])).value;
    assert StartingAt(Outside(), e, 6) == [];
  }

  // ------------------------------------------------ keys of length zero

  function Encrypted(): Process {
    Election(false, 6, [1]).(envelope := Envelope(false, false, true), publicKeys := EmptyKeys(), privateKeys := EmptyKeys())
  }

  function OracleLedger(t: TxType): Ledger {
    TwoAccounts(t, 1).(oracles := {7})
  }

  function EmptyKeyTx(): Tx {
    Tx(AddProcessKeysTx(Pid(), Some(1), Some([])), Some(7))
  }

  /** An oracle publishes a key of length zero in the same slot twice, and two keys are counted. */
  lemma EmptyKeysCounted()
    ensures var s := State(OracleLedger(NEW_PROCESS), AddProcess(Outside(), NoElections(), Pid(), Encrypted()).value);
            var r := AddTx(Outside(), s, EmptyKeyTx(), 5, None);
            var r' := AddTx(Outside(), r.state, EmptyKeyTx(), 5, None);
            && r.error.None? && r'.error.None?
            && Pid() in r'.state.elections.processes
            && r'.state.elections.processes[Pid()].keyIndex == Some(2) && r'.state.elections.processes[Pid()].publicKeys == EmptyKeys()
  {
    var s := State(OracleLedger(NEW_PROCESS), AddProcess(Outside(), NoElections(), Pid(), Encrypted()).value);
    assert EmptyKeys()[1] == [] && EmptyKeys()[1 := []] == EmptyKeys();
    var p := Encrypted();
    var one := AddTx(Outside(), s, EmptyKeyTx(), 5, None);
    assert one.error.None? && one.state.elections.processes[Pid()] == p.(keyIndex := Some(1));
  }

  // ------------------------------------------------ registering twice

  function RegisterTx(weight: int): Tx {
    Tx(RegisterKeyTx(Registration(Pid(), Some([]), Key(), Some(weight))), Some(8))
  }

  /** An address registers a key, with weight one, and then another one, with weight zero. */
  lemma RegistersTwice()
    ensures var s := State(TwoAccounts(NEW_PROCESS, 0), AddProcess(Outside(), NoElections(), Pid(), Election(true, 6, [1])).value);
            var r := AddTx(Outside(), s, RegisterTx(1), 5, None);
            var r' := AddTx(Outside(), r.state, RegisterTx(0), 5, None);
            && r.error.None? && r'.error.None?
            && Pid() in r'.state.elections.censuses && r'.state.elections.censuses[Pid()].length == 2
  {
    hide VoteEnvelopeCheck, NewProcessCheck, PayForProcess, Save, Fill;
    var s := State(TwoAccounts(NEW_PROCESS, 0), AddProcess(Outside(), NoElections(), Pid(), Election(true, 6, [1])).value);
    var r := AddTx(Outside(), s, RegisterTx(1), 5, None);
    assert r.error.None? && r.state.elections.censuses[Pid()] == Census(map[0 := Key()], 1) && r.state.elections.usedWeight[(Pid(), 8)] == 1;
  }

  // ------------------------------------------------ a vote checked before a census update

  function Ballot(proof: Bytes, nullifier: Bytes): Tx {
    Tx(VoteTx(VoteEnvelope(Pid(), Some(proof), [], nullifier, [])), Some(8))
  }

  function CensusTx(): Tx {
    Tx(SetProcessTx(Pid(), SetCensus(Some([2]), "uri"), 0), Some(7))
  }

  function Voting5(): Node {
    var s := State(TwoAccounts(SET_PROCESS_CENSUS, 1), AddProcess(Outside(), NoElections(), Pid(), Election(false, 5, [1])).value);
    Node(s, 4, s, 5, map[])
  }

  function Name(): (n: Bytes)
    ensures |n| == NULLIFIER_SIZE
  {
    Fill(NULLIFIER_SIZE, 2)
  }

  lemma BallotChecked()
    ensures var tx, n := Ballot([], []), Voting5();
            Next(Outside(), n, CheckTx(tx)) == n.(cache := map[tx := Vote(Pid(), Name(), [], 1, [], 5)])
  {
  }

  lemma CensusSet(e: Elections)
    requires Pid() in e.processes && e.processes[Pid()] == Election(false, 5, [1])
    ensures AddTx(Outside(), State(TwoAccounts(SET_PROCESS_CENSUS, 1), e), CensusTx(), 5, None).state.elections ==
            e.(processes := e.processes[Pid() := Election(false, 5, [2])])
  {
    hide Fill, PayForProcess;
  }

  lemma CensusReplaced(n: Node)
    requires n == Voting5().(cache := n.cache) && CensusTx() !in n.cache
    ensures var m := Next(Outside(), n, DeliverTx(CensusTx()));
            && m.cache == n.cache && m.height == 5
            && m.working.elections == n.working.elections.(processes := map[Pid() := Election(false, 5, [2])])
  {
    hide AddTx, Save, VoteEnvelopeCheck;
    CensusSet(n.working.elections);
  }

  /** A vote is checked against the census root [1], the owner sets the root to [2], and the
      vote is accepted from the cache; without the cache it would be rejected. */
  lemma StaleVoteAccepted()
    ensures var tx := Ballot([], []);
            var m := Next(Outside(), Next(Outside(), Voting5(), CheckTx(tx)), DeliverTx(CensusTx()));
            && AddTx(Outside(), m.working, tx, m.height, Cached(m, tx)).error.None?
            && AddTx(Outside(), m.working, tx, m.height, None).error == Some(ProofInvalid)
  {
    hide Fill, Next, AddProcess;
    var tx := Ballot([], []);
    BallotChecked();
    var n := Next(Outside(), Voting5(), CheckTx(tx));
    CensusReplaced(n);
    var m := Next(Outside(), n, DeliverTx(CensusTx()));
    VotingFive();
    StaleVote(m.working, 5);
  }

  lemma VotingFive()
    ensures Voting5().working.elections.votes == map[Pid() := map[]]
  {
  }

  lemma StaleVote(s: State, height: uint32)
    requires height == 5 && s.elections.processes == map[Pid() := Election(false, 5, [2])] && s.elections.votes == map[Pid() := map[]]
    ensures AddTx(Outside(), s, Ballot([], []), height, Some(Vote(Pid(), Name(), [], 1, [], 5))).error.None?
    ensures AddTx(Outside(), s, Ballot([], []), height, None).error == Some(ProofInvalid)
  {
    hide Fill;
  }

  // ------------------------------------------------ a dropped process with another of its name

  function Empty4(): Node {
    var s := State(OracleLedger(NEW_PROCESS), NoElections());
    Node(s, 4, s, 4, map[])
  }

  /** An oracle creates a process under an identifier of its choice. */
  function CreateTx(anonymous: bool): Tx {
    Tx(NewProcessTx(Election(anonymous, 5, [1]), Some(Pid()), 1, 0), Some(7))
  }

  function Prepared5(anonymous: bool): Process {
    Prepared(Election(anonymous, 5, [1]), 5)
  }

  lemma ChosenProcess(anonymous: bool)
    ensures var r := AddTx(Outside(), Empty4().working, CreateTx(anonymous), 5, None);
            && r.error.None?
            && r.state.elections.processes == map[Pid() := Prepared5(anonymous)] && r.state.elections.votes == map[Pid() := map[]]
  {
    hide Fill, VoteEnvelopeCheck, Save, RegisterKeyCheck, SetProcessCheck, Payments.Deliver;
  }

  function Mask(): (n: Bytes)
    ensures |n| == NULLIFIER_SIZE
  {
    Fill(NULLIFIER_SIZE, 3)
  }

  /** The node after it created an anonymous process, checked an anonymous vote, began the
      block again and created a process of the same identifier that is not anonymous. */
  function Mixed(): Node {
    var n := Next(Outside(), Next(Outside(), Empty4(), BeginBlock), DeliverTx(CreateTx(true)));
    var m := Next(Outside(), Next(Outside(), n, CheckTx(Ballot([], Mask()))), BeginBlock);
    Next(Outside(), m, DeliverTx(CreateTx(false)))
  }

  lemma MaskedChecked(n: Node)
    requires n.working.elections.processes == map[Pid() := Prepared5(true)] && n.working.elections.votes == map[Pid() := map[]]
    requires n.height == 5 && n.cache == map[]
    ensures var tx := Ballot([], Mask());
            Next(Outside(), n, CheckTx(tx)) == n.(cache := map[tx := Vote(Pid(), Mask(), [], 1, [], 5)])
  {
    hide Fill, AddTx, Save;
  }

  lemma MixedIs()
    ensures var tx, m := Ballot([], Mask()), Mixed();
            && m.height == 5 && m.cache == map[tx := Vote(Pid(), Mask(), [], 1, [], 5)]
            && m.working.elections.processes == map[Pid() := Prepared5(false)] && m.working.elections.votes == map[Pid() := map[]]
  {
    hide Fill, AddTx, Save, VoteEnvelopeCheck, Prepared5;
    ChosenProcess(true);
    ChosenProcess(false);
    var n := Next(Outside(), Next(Outside(), Empty4(), BeginBlock), DeliverTx(CreateTx(true)));
    MaskedChecked(n);
  }

  lemma OwnVote(s: State)
    requires s.elections.processes == map[Pid() := Prepared5(false)] && s.elections.votes == map[Pid() := map[]]
    ensures var r := AddTx(Outside(), s, Ballot([], []), 5, None);
            && r.error.None? && r.state.elections.processes == s.elections.processes
            && r.state.elections.votes == map[Pid() := map[Name() := Vote(Pid(), Name(), [], 1, [], 5)]]
  {
    hide Fill;
  }

  lemma MaskedVote(s: State)
    requires s.elections.processes == map[Pid() := Prepared5(false)]
    requires s.elections.votes == map[Pid() := map[Name() := Vote(Pid(), Name(), [], 1, [], 5)]]
    ensures var r := AddTx(Outside(), s, Ballot([], Mask()), 5, Some(Vote(Pid(), Mask(), [], 1, [], 5)));
            r.error.None? && Pid() in r.state.elections.votes && |r.state.elections.votes[Pid()]| == 2
  {
    hide Fill;
    NamesDiffer();
    var votes := s.elections.votes[Pid()][Mask() := Vote(Pid(), Mask(), [], 1, [], 5)];
    assert votes.Keys == {Name(), Mask()};
    assert |votes.Keys| == 2;
  }

  lemma NamesDiffer()
    ensures Name() != Mask()
  {
    assert Name()[0] == 2 && Mask()[0] == 3;
  }

  /** One address votes twice in a process that is not anonymous: once for itself, and once
      with a vote that was checked in an anonymous process of the same identifier, which a
      dropped block had created. */
  lemma VotesTwice()
    ensures var own, masked, m := Ballot([], []), Ballot([], Mask()), Mixed();
            var k := Next(Outside(), m, DeliverTx(own));
            var r := AddTx(Outside(), k.working, masked, k.height, Cached(k, masked));
            && own.signer == masked.signer
            && AddTx(Outside(), m.working, own, m.height, Cached(m, own)).error.None? && r.error.None?
            && Pid() in r.state.elections.processes && !r.state.elections.processes[Pid()].envelope.anonymous
            && Pid() in r.state.elections.votes && |r.state.elections.votes[Pid()]| == 2
  {
    hide Fill, AddTx, Save, VoteEnvelopeCheck, Mixed;
    var own, masked, m := Ballot([], []), Ballot([], Mask()), Mixed();
    MixedIs();
    assert own.payload.envelope.nullifier == [] && own != masked;
    OwnVote(m.working);
    var k := Next(Outside(), m, DeliverTx(own));
    MaskedVote(k.working);
    ProcessesKept(k.working, masked, k.height, Cached(k, masked));
  }

  lemma ProcessesKept(s: State, tx: Tx, height: uint32, cached: Option<Vote>)
    requires tx.payload.VoteTx?
    ensures AddTx(Outside(), s, tx, height, cached).state.elections.processes == s.elections.processes
  {
    hide VoteEnvelopeCheck, Fill;
  }
}
