/** The invariants of processes, votes and censuses, and that every operation keeps them. */
module VotingInvariants {
  import opened Common
  import opened Sums
  import opened Voting
  import opened VotingLaws

  // ------------------------------------------------ the vote counter

  ghost function VoteSizes(votes: map<Bytes, map<Bytes, Vote>>): map<Bytes, int> {
    map pid | pid in votes :: |votes[pid]|
  }

  /** All votes of all processes. */
  ghost function VoteTotal(e: Elections): int {
    Total(VoteSizes(e.votes))
  }

  /** Every process has a vote tree, and the global counter is the number of votes in all of
      them, in machine arithmetic. */
  ghost predicate VotesOk(pids: set<Bytes>, votes: map<Bytes, map<Bytes, Vote>>, count: uint64) {
    && votes.Keys == pids
    && count == Total(VoteSizes(votes)) % TWO64
  }

  lemma OneMoreVote(votes: map<Bytes, map<Bytes, Vote>>, pid: Bytes, nullifier: Bytes, vote: Vote)
    requires pid in votes && nullifier !in votes[pid]
    ensures Total(VoteSizes(votes[pid := votes[pid][nullifier := vote]])) == Total(VoteSizes(votes)) + 1
  {
    var after := votes[pid := votes[pid][nullifier := vote]];
    assert after[pid].Keys == votes[pid].Keys + {nullifier};
    assert |after[pid]| == |votes[pid]| + 1;
    assert VoteSizes(after) == VoteSizes(votes)[pid := |votes[pid]| + 1];
    TotalUpdate(VoteSizes(votes), pid, |votes[pid]| + 1);
  }

  lemma OneMoreTree(votes: map<Bytes, map<Bytes, Vote>>, pid: Bytes)
    requires pid !in votes
    ensures Total(VoteSizes(votes[pid := map[]])) == Total(VoteSizes(votes))
  {
    assert VoteSizes(votes[pid := map[]]) == VoteSizes(votes)[pid := 0];
    TotalUpdate(VoteSizes(votes), pid, 0);
  }

  lemma CountStep(total: int)
    ensures Add64(total % TWO64, 1) == (total + 1) % TWO64
  {
  }

  // ------------------------------------------------ processes, censuses and the index

  /** The keys of a rolling census are numbered from zero without gaps, their number is the
      length kept beside the tree, and it is within the limit. */
  ghost predicate CensusOk(c: Census, max: uint64) {
    && c.length <= max
    && forall i: uint64 :: i in c.leaves <==> i < c.length
  }

  ghost function Below(n: nat): (s: set<int>)
    ensures |s| == n
    ensures forall i :: i in s <==> 0 <= i < n
  {
    if n == 0 then {} else Below(n - 1) + {n - 1}
  }

  /** The length is the number of leaves. */
  lemma CensusLength(c: Census, max: uint64)
    requires CensusOk(c, max)
    ensures |c.leaves| == c.length
  {
    var keys: set<int> := c.leaves.Keys;
    assert keys == Below(c.length);
  }

  predicate TermsOk(p: Process) {
    && p.mode.preRegister == p.envelope.anonymous
    && (p.mode.preRegister ==> p.maxCensusSize.Some?)
    && (NeedsKeys(p) ==> |p.publicKeys| == MAX_KEY_INDEX && |p.privateKeys| == MAX_KEY_INDEX)
  }

  predicate ProcessesOk(ps: map<Bytes, Process>) {
    forall pid :: pid in ps ==> TermsOk(ps[pid])
  }

  ghost predicate CensusesOk(ps: map<Bytes, Process>, cs: map<Bytes, Census>) {
    forall pid :: pid in ps && ps[pid].mode.preRegister ==>
      && pid in cs
      && ps[pid].maxCensusSize.Some?
      && CensusOk(cs[pid], ps[pid].maxCensusSize.value)
  }

  function Listed(index: map<Bytes, seq<Bytes>>, key: Bytes): seq<Bytes> {
    if key in index then index[key] else []
  }

  /** Every process is indexed by its start block and nothing else is. */
  ghost predicate IndexOk(env: Env, ps: map<Bytes, Process>, index: map<Bytes, seq<Bytes>>) {
    && (forall pid :: pid in ps ==> pid in Listed(index, env.startKey(ps[pid].startBlock)))
    && (forall key, pid :: pid in Listed(index, key) ==> pid in ps && key == env.startKey(ps[pid].startBlock))
  }

  ghost predicate ElectionsOk(env: Env, e: Elections) {
    && VotesOk(e.processes.Keys, e.votes, e.voteCount)
    && ProcessesOk(e.processes)
    && CensusesOk(e.processes, e.censuses)
    && IndexOk(env, e.processes, e.startIndex)
  }

  /** Changes to processes that keep their terms keep every invariant. */
  lemma SameTermsOk(env: Env, e: Elections, ps: map<Bytes, Process>)
    requires ElectionsOk(env, e)
    requires ps.Keys == e.processes.Keys && LaterProcesses(e.processes, ps)
    ensures ElectionsOk(env, e.(processes := ps))
  {
    hide CensusesOk, IndexOk, LaterProcess, VotesOk, TermsOk;
    forall pid | pid in ps ensures TermsOk(ps[pid]) {
      TermsStay(e.processes[pid], ps[pid]);
    }
    SameCensuses(e.processes, ps, e.censuses);
    SameIndex(env, e.processes, ps, e.startIndex);
  }

  lemma TermsStay(p: Process, q: Process)
    requires TermsOk(p) && LaterProcess(p, q)
    ensures TermsOk(q)
  {
  }

  lemma SameCensuses(ps: map<Bytes, Process>, qs: map<Bytes, Process>, cs: map<Bytes, Census>)
    requires CensusesOk(ps, cs) && qs.Keys == ps.Keys && LaterProcesses(ps, qs)
    ensures CensusesOk(qs, cs)
  {
    hide CensusOk, KeysKept, Reaches;
  }

  lemma SameIndex(env: Env, ps: map<Bytes, Process>, qs: map<Bytes, Process>, index: map<Bytes, seq<Bytes>>)
    requires IndexOk(env, ps, index) && qs.Keys == ps.Keys && LaterProcesses(ps, qs)
    ensures IndexOk(env, qs, index)
  {
    hide Listed, LaterProcess;
    forall pid | pid in ps ensures qs[pid].startBlock == ps[pid].startBlock {
      LaterStart(ps[pid], qs[pid]);
    }
  }

  lemma LaterStart(p: Process, q: Process)
    requires LaterProcess(p, q)
    ensures q.startBlock == p.startBlock
  {
  }

  lemma UpdateOk(env: Env, e: Elections, pid: Bytes, p: Process)
    requires ElectionsOk(env, e) && UpdateProcess(e, pid, p).Ok? && LaterProcess(e.processes[pid], p)
    ensures ElectionsOk(env, UpdateProcess(e, pid, p).value)
  {
    OthersLater(e.processes, pid, p);
    assert e.processes[pid := p].Keys == e.processes.Keys;
    SameTermsOk(env, e, e.processes[pid := p]);
  }

  lemma AddProcessOk(env: Env, e: Elections, pid: Bytes, p: Process)
    requires ElectionsOk(env, e) && AddProcess(env, e, pid, p).Ok? && TermsOk(p)
    ensures ElectionsOk(env, AddProcess(env, e, pid, p).value)
  {
    AddProcessVotes(env, e, pid, p);
    AddProcessCensus(env, e, pid, p);
    AddProcessIndex(env, e, pid, p);
  }

  lemma AddProcessVotes(env: Env, e: Elections, pid: Bytes, p: Process)
    requires VotesOk(e.processes.Keys, e.votes, e.voteCount) && AddProcess(env, e, pid, p).Ok?
    ensures var f := AddProcess(env, e, pid, p).value;
            VotesOk(f.processes.Keys, f.votes, f.voteCount)
  {
    var f := AddProcess(env, e, pid, p).value;
    NewTreeOk(e.processes.Keys, e.votes, e.voteCount, pid);
    assert f.processes.Keys == e.processes.Keys + {pid};
  }

  lemma AddProcessCensus(env: Env, e: Elections, pid: Bytes, p: Process)
    requires ProcessesOk(e.processes) && CensusesOk(e.processes, e.censuses) && AddProcess(env, e, pid, p).Ok? && TermsOk(p)
    ensures var f := AddProcess(env, e, pid, p).value;
            ProcessesOk(f.processes) && CensusesOk(f.processes, f.censuses)
  {
    NewCensusOk(e.processes, e.censuses, pid, AddProcess(env, e, pid, p).value.processes[pid]);
  }

  lemma AddProcessIndex(env: Env, e: Elections, pid: Bytes, p: Process)
    requires IndexOk(env, e.processes, e.startIndex) && AddProcess(env, e, pid, p).Ok?
    ensures var f := AddProcess(env, e, pid, p).value;
            IndexOk(env, f.processes, f.startIndex)
  {
    NewlyListed(env, e.processes, e.startIndex, pid, AddProcess(env, e, pid, p).value.processes[pid]);
  }

  lemma NewTreeOk(pids: set<Bytes>, votes: map<Bytes, map<Bytes, Vote>>, count: uint64, pid: Bytes)
    requires VotesOk(pids, votes, count) && pid !in pids
    ensures VotesOk(pids + {pid}, votes[pid := map[]], count)
  {
    OneMoreTree(votes, pid);
  }

  lemma NewCensusOk(ps: map<Bytes, Process>, cs: map<Bytes, Census>, pid: Bytes, p: Process)
    requires CensusesOk(ps, cs) && TermsOk(p) && pid !in ps
    ensures CensusesOk(ps[pid := p], if p.mode.preRegister then cs[pid := Census(map[], 0)] else cs)
  {
  }

  lemma NewlyListed(env: Env, ps: map<Bytes, Process>, index: map<Bytes, seq<Bytes>>, pid: Bytes, p: Process)
    requires IndexOk(env, ps, index) && pid !in ps
    ensures var key := env.startKey(p.startBlock);
            IndexOk(env, ps[pid := p], index[key := Listed(index, key) + [pid]])
  {
    var key := env.startKey(p.startBlock);
    var after := index[key := Listed(index, key) + [pid]];
    assert forall k :: Listed(after, k) == Listed(index, k) + if k == key then [pid] else [];
    hide Listed;
    forall k, q | q in Listed(after, k) ensures q in ps[pid := p] && k == env.startKey(ps[pid := p][q].startBlock) {
      assert q in Listed(index, k) || (q == pid && k == key);
    }
    forall q | q in ps ensures q in Listed(after, env.startKey(ps[q].startBlock)) {
      assert q in Listed(index, env.startKey(ps[q].startBlock));
    }
  }

  lemma NewVoteOk(pids: set<Bytes>, votes: map<Bytes, map<Bytes, Vote>>, count: uint64, pid: Bytes, nullifier: Bytes, vote: Vote)
    requires VotesOk(pids, votes, count) && pid in votes && nullifier !in votes[pid]
    ensures VotesOk(pids, votes[pid := votes[pid][nullifier := vote]], Add64(count, 1))
  {
    hide VoteSizes, Total;
    OneMoreVote(votes, pid, nullifier, vote);
    CountStep(Total(VoteSizes(votes)));
  }

  lemma AddVoteOk(env: Env, e: Elections, vote: Vote, height: uint32)
    requires ElectionsOk(env, e) && AddVote(e, vote, height).Ok?
    ensures ElectionsOk(env, AddVote(e, vote, height).value)
    ensures VoteTotal(AddVote(e, vote, height).value) == VoteTotal(e) + 1
  {
    NewVoteOk(e.processes.Keys, e.votes, e.voteCount, vote.processId, vote.nullifier, vote.(height := height));
    OneMoreVote(e.votes, vote.processId, vote.nullifier, vote.(height := height));
  }

  lemma OneMoreKey(c: Census, max: uint64, key: Bytes)
    requires CensusOk(c, max) && c.length < max
    ensures c.length !in c.leaves
    ensures CensusOk(Census(c.leaves[c.length := key], Add64(c.length, 1)), max)
  {
  }

  /** Registering a key appends one leaf and cannot fail after the check. */
  lemma RegisterOk(env: Env, e: Elections, pid: Bytes, key: Bytes)
    requires ElectionsOk(env, e) && pid in e.processes && e.processes[pid].mode.preRegister
    requires e.censuses[pid].length < e.processes[pid].maxCensusSize.value
    ensures AddToRollingCensus(e, pid, key).Ok?
    ensures ElectionsOk(env, AddToRollingCensus(e, pid, key).value)
  {
    OneMoreKey(e.censuses[pid], e.processes[pid].maxCensusSize.value, key);
    assert CensusesOk(e.processes, AddToRollingCensus(e, pid, key).value.censuses);
  }

  // ------------------------------------------------ committing a block

  /** Committing a block never fails and keeps every invariant. */
  lemma SaveOk(env: Env, e: Elections, height: uint32)
    requires ElectionsOk(env, e)
    ensures Save(env, e, height).Ok?
    ensures ElectionsOk(env, Save(env, e, height).value)
  {
    IndexSizeable(env, e, Add32(height, 1));
    SaveLater(env, e, height);
    SameTermsOk(env, e, Save(env, e, height).value.processes);
  }

  lemma IndexSizeable(env: Env, e: Elections, block: uint32)
    requires IndexOk(env, e.processes, e.startIndex) && CensusesOk(e.processes, e.censuses)
    ensures forall i :: 0 <= i < |StartingAt(env, e, block)| ==> Sizeable(e, StartingAt(env, e, block)[i])
  {
    var pids := StartingAt(env, e, block);
    forall i | 0 <= i < |pids| ensures Sizeable(e, pids[i]) {
      assert pids[i] in Listed(e.startIndex, env.startKey(block));
    }
  }
}
