/** What every operation on processes and votes keeps, whatever the order of operations. */
module VotingLaws {
  import opened Common
  import opened Voting

  // ------------------------------------------------ how processes evolve

  /** The process takes no more votes. */
  predicate Frozen(s: Status) {
    s.Ended? || s.Canceled? || s.Results?
  }

  /** The statuses a process can get to: an ended one only to results, a canceled one and
      one with results nowhere. */
  predicate Reaches(a: Status, b: Status) {
    a == b ||
    match a
    case Unknown => b.Canceled?
    case Ready => !b.Unknown?
    case Paused => !b.Unknown?
    case Ended => b.Results?
    case Canceled => false
    case Results => false
  }

  /** A list of keys in which published ones stay. */
  predicate KeysKept(a: seq<Bytes>, b: seq<Bytes>) {
    |a| == |b| && forall i :: 0 <= i < |a| && a[i] != [] ==> b[i] == a[i]
  }

  /** The later state of a process: its terms are fixed, its status only moves on, and no
      key is ever replaced. */
  predicate LaterProcess(p: Process, q: Process) {
    && q.entity == p.entity && q.startBlock == p.startBlock && q.blockCount == p.blockCount
    && q.mode == p.mode && q.envelope == p.envelope && q.censusOrigin == p.censusOrigin && q.maxCensusSize == p.maxCensusSize
    && Reaches(p.status, q.status)
    && KeysKept(p.publicKeys, q.publicKeys)
    && KeysKept(p.privateKeys, q.privateKeys)
  }

  /** Votes are never replaced or removed. */
  predicate VotesKept(a: map<Bytes, Vote>, b: map<Bytes, Vote>) {
    forall nullifier :: nullifier in a ==> nullifier in b && b[nullifier] == a[nullifier]
  }

  predicate LaterProcesses(a: map<Bytes, Process>, b: map<Bytes, Process>) {
    forall pid :: pid in a ==> pid in b && LaterProcess(a[pid], b[pid])
  }

  /** Vote trees stay, and those of frozen processes do not change. */
  predicate LaterVotes(ps: map<Bytes, Process>, a: map<Bytes, map<Bytes, Vote>>, b: map<Bytes, map<Bytes, Vote>>) {
    forall pid :: pid in a ==>
      && pid in b
      && VotesKept(a[pid], b[pid])
      && (pid in ps && Frozen(ps[pid].status) ==> b[pid] == a[pid])
  }

  /** A later state: processes and votes stay, and a frozen process keeps exactly its votes. */
  predicate Later(e: Elections, f: Elections) {
    LaterProcesses(e.processes, f.processes) && LaterVotes(e.processes, e.votes, f.votes)
  }

  lemma LaterProcessTransitive(p: Process, q: Process, r: Process)
    requires LaterProcess(p, q) && LaterProcess(q, r)
    ensures LaterProcess(p, r)
    ensures Frozen(p.status) ==> Frozen(q.status)
  {
  }

  lemma LaterTransitive(e: Elections, f: Elections, g: Elections)
    requires Later(e, f) && Later(f, g)
    ensures Later(e, g)
  {
    forall pid | pid in e.processes
      ensures pid in g.processes && LaterProcess(e.processes[pid], g.processes[pid])
      ensures Frozen(e.processes[pid].status) ==> Frozen(f.processes[pid].status)
    {
      LaterProcessTransitive(e.processes[pid], f.processes[pid], g.processes[pid]);
    }
    forall pid | pid in e.votes ensures pid in g.votes && VotesKept(e.votes[pid], g.votes[pid]) {
      assert VotesKept(e.votes[pid], f.votes[pid]) && VotesKept(f.votes[pid], g.votes[pid]);
    }
  }

  /** The status check allows moves along `Reaches` only, and `Reaches` holds no move that
      two allowed ones cannot make. */
  lemma StatusMoves(a: Status, b: Status)
    ensures Reaches(a, b) <==>
            a == b || Allowed(a, b) || exists c: Status :: Allowed(a, c) && Allowed(c, b)
  {
    assert Allowed(Paused, Ready);
  }

  /** Some process with a status may go to another one at some height. */
  predicate Allowed(a: Status, b: Status) {
    match b
    case Ready => a.Paused?
    case Ended => a.Ready?
    case Canceled => !Frozen(a)
    case Paused => a.Ready?
    case Results => a.Ended? || a.Ready?
    case Unknown => false
  }

  lemma AllowedByCheck(p: Process, next: Status, height: uint32)
    ensures StatusCheck(p, next, height).Ok? ==> Allowed(p.status, next)
    ensures StatusCheck(p, next, height).Ok? <==>
            && Allowed(p.status, next)
            && (next.Ended? ==> p.mode.interruptible || height > EndBlock(p))
            && (next.Canceled? ==> p.mode.interruptible || p.status.Paused?)
            && (next.Paused? ==> p.mode.interruptible)
            && (next.Results? && p.status.Ready? ==> height < EndBlock(p))
  {
  }

  lemma UpdateLater(e: Elections, pid: Bytes, p: Process)
    requires UpdateProcess(e, pid, p).Ok? && LaterProcess(e.processes[pid], p)
    ensures Later(e, UpdateProcess(e, pid, p).value)
  {
    OthersLater(e.processes, pid, p);
    SameVotesLater(e.processes, e.votes);
  }

  lemma SameProcessLater(p: Process)
    ensures LaterProcess(p, p)
  {
  }

  lemma OthersLater(ps: map<Bytes, Process>, pid: Bytes, p: Process)
    requires pid in ps ==> LaterProcess(ps[pid], p)
    ensures LaterProcesses(ps, ps[pid := p])
  {
    forall q | q in ps && q != pid ensures LaterProcess(ps[q], ps[q]) {
      SameProcessLater(ps[q]);
    }
  }

  lemma SameVotesLater(ps: map<Bytes, Process>, votes: map<Bytes, map<Bytes, Vote>>)
    ensures LaterVotes(ps, votes, votes)
  {
  }

  lemma SetStatusLater(e: Elections, pid: Bytes, next: Status, height: uint32)
    requires SetProcessStatus(e, pid, next, height).Ok?
    ensures LaterProcess(e.processes[pid], e.processes[pid].(status := next))
    ensures SetProcessStatus(e, pid, next, height) == UpdateProcess(e, pid, e.processes[pid].(status := next))
  {
  }

  lemma SetResultsLater(e: Elections, pid: Bytes, r: ProcessResult, oracles: nat, height: uint32)
    requires SetProcessResults(e, pid, r, oracles, height).Ok?
    ensures var p := e.processes[pid];
            var q := p.(status := Results, results := ResultSlots(p, oracles) + [Some(r)]);
            LaterProcess(p, q) && SetProcessResults(e, pid, r, oracles, height) == UpdateProcess(e, pid, q)
  {
  }

  lemma AddProcessLater(env: Env, e: Elections, pid: Bytes, p: Process)
    requires AddProcess(env, e, pid, p).Ok? && e.votes.Keys == e.processes.Keys
    ensures Later(e, AddProcess(env, e, pid, p).value)
  {
    hide LaterProcess;
    OthersLater(e.processes, pid, AddProcess(env, e, pid, p).value.processes[pid]);
    assert forall q :: q in e.votes ==> VotesKept(e.votes[q], e.votes[q]);
  }

  lemma AddVoteLater(e: Elections, vote: Vote, height: uint32)
    requires AddVote(e, vote, height).Ok? && !Frozen(e.processes[vote.processId].status)
    ensures Later(e, AddVote(e, vote, height).value)
  {
    OthersLater(e.processes, vote.processId, e.processes[vote.processId]);
    assert e.processes[vote.processId := e.processes[vote.processId]] == e.processes;
  }

  // ------------------------------------------------ committing a block

  /** Committing a block changes nothing of a process but its rolling census size and root. */
  lemma SaveLater(env: Env, e: Elections, height: uint32)
    requires Save(env, e, height).Ok?
    ensures Later(e, Save(env, e, height).value)
    ensures Save(env, e, height).value == e.(processes := Save(env, e, height).value.processes)
    ensures Save(env, e, height).value.processes.Keys == e.processes.Keys
  {
    SameVotesLater(e.processes, e.votes);
    var f := Save(env, e, height).value;
    forall pid | pid in e.processes ensures pid in f.processes && LaterProcess(e.processes[pid], f.processes[pid]) {
    }
  }
}
