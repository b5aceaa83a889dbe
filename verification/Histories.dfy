/** The history behind every state of a node: the deliveries and block ends that made it.  A
    dropped block leaves no trace in it. */
module Histories {
  import opened Common
  import opened Voting
  import opened VotingLaws
  import opened VotingInvariants
  import opened Chain
  import opened Moves
  import opened MoveLaws

  datatype Event =
    | Delivery(tx: Tx, height: uint32, cached: Option<Vote>)
    | BlockEnd(height: uint32)

  function After(env: Env, s: State, e: Event): State {
    match e
    case Delivery(tx, height, cached) => AddTx(env, s, tx, height, cached).state
    case BlockEnd(height) =>
      match Save(env, s.elections, height)
      case Ok(f) => s.(elections := f)
      case Err(_) => s
  }

  function Replay(env: Env, s: State, es: seq<Event>): State
    decreases |es|
  {
    if es == [] then s else After(env, Replay(env, s, es[..|es| - 1]), es[|es| - 1])
  }

  /** The histories of the committed and of the current state of a node. */
  datatype Log = Log(committed: seq<Event>, working: seq<Event>)

  function Logged(env: Env, n: Node, step: Step, log: Log): Log {
    match step
    case BeginBlock => if n.saved + 1 < TWO32 then log.(working := log.committed) else log
    case DeliverTx(tx) => log.(working := log.working + [Delivery(tx, n.height, Cached(n, tx))])
    case Commit =>
      if Save(env, n.working.elections, n.height).Ok?
      then var es := log.working + [BlockEnd(n.height)]; Log(es, es) else log
    case _ => log
  }

  function LogOf(env: Env, n: Node, steps: seq<Step>, log: Log): Log
    decreases |steps|
  {
    if steps == [] then log else LogOf(env, Next(env, n, steps[0]), steps[1..], Logged(env, n, steps[0], log))
  }

  /** The history of the current state of a node that starts between two blocks. */
  function HistoryOf(env: Env, n: Node, steps: seq<Step>): seq<Event> {
    LogOf(env, n, steps, Log([], [])).working
  }

  predicate Recorded(env: Env, s: State, n: Node, log: Log) {
    n.committed == Replay(env, s, log.committed) && n.working == Replay(env, s, log.working)
  }

  lemma ReplayMore(env: Env, s: State, es: seq<Event>, e: Event)
    ensures Replay(env, s, es + [e]) == After(env, Replay(env, s, es), e)
  {
    assert (es + [e])[..|es|] == es;
  }

  lemma ReplayNext(env: Env, s: State, es: seq<Event>, k: nat)
    requires k < |es|
    ensures Replay(env, s, es[..k + 1]) == After(env, Replay(env, s, es[..k]), es[k])
  {
    assert es[..k + 1] == es[..k] + [es[k]];
    ReplayMore(env, s, es[..k], es[k]);
  }

  lemma StepRecorded(env: Env, s: State, n: Node, step: Step, log: Log)
    requires Recorded(env, s, n, log)
    ensures Recorded(env, s, Next(env, n, step), Logged(env, n, step, log))
  {
    hide AddTx, Save, VoteEnvelopeCheck, TakesCached, Replay;
    match step
    case DeliverTx(tx) => ReplayMore(env, s, log.working, Delivery(tx, n.height, Cached(n, tx)));
    case Commit => ReplayMore(env, s, log.working, BlockEnd(n.height));
    case _ =>
  }

  /** Every state of every run is the replay of its history. */
  lemma {:induction false} RunRecorded(env: Env, s: State, n: Node, steps: seq<Step>, log: Log)
    requires Recorded(env, s, n, log)
    ensures Recorded(env, s, Run(env, n, steps), LogOf(env, n, steps, log))
    decreases |steps|
  {
    hide Recorded, Next, Logged;
    if steps != [] {
      StepRecorded(env, s, n, steps[0], log);
      RunRecorded(env, s, Next(env, n, steps[0]), steps[1..], Logged(env, n, steps[0], log));
    }
  }

  lemma StartRecorded(env: Env, n: Node)
    requires n.working == n.committed
    ensures Recorded(env, n.committed, n, Log([], []))
  {
  }

  lemma HistoryReplays(env: Env, n: Node, steps: seq<Step>)
    requires n.working == n.committed
    ensures Run(env, n, steps).working == Replay(env, n.committed, HistoryOf(env, n, steps))
  {
    hide Run, LogOf;
    StartRecorded(env, n);
    RunRecorded(env, n.committed, n, steps, Log([], []));
  }

  /** The event is an accepted delivery. */
  predicate Accepted(env: Env, s: State, es: seq<Event>, k: nat)
    requires k < |es|
  {
    es[k].Delivery? && AddTx(env, Replay(env, s, es[..k]), es[k].tx, es[k].height, es[k].cached).error.None?
  }

  // ------------------------------------------------ what holds of every event

  /** A condition on the transactions that a run delivers. */
  predicate EveryStep(steps: seq<Step>, good: Tx -> bool) {
    forall k :: 0 <= k < |steps| && steps[k].DeliverTx? ==> good(steps[k].tx)
  }

  /** In a history from a sound state every state is sound and later than those before. */
  lemma {:induction false} ReplayIsLater(env: Env, s: State, es: seq<Event>, i: nat, j: nat)
    requires ElectionsOk(env, s.elections) && i <= j <= |es|
    requires forall k :: 0 <= k < |es| && es[k].Delivery? ==> CacheFits(es[k].tx, es[k].cached)
    ensures ElectionsOk(env, Replay(env, s, es[..j]).elections)
    ensures Later(Replay(env, s, es[..i]).elections, Replay(env, s, es[..j]).elections)
    decreases j
  {
    hide After, Later, ElectionsOk, CacheFits;
    if i == j {
      SameLater(Replay(env, s, es[..i]).elections);
    }
    if j > 0 {
      ReplayIsLater(env, s, es, if i < j then i else j - 1, j - 1);
      var mid := Replay(env, s, es[..j - 1]);
      ReplayNext(env, s, es, j - 1);
      EventIsLater(env, mid, es[j - 1]);
      if i < j {
        LaterTransitive(Replay(env, s, es[..i]).elections, mid.elections, Replay(env, s, es[..j]).elections);
      }
    }
  }

  lemma EventIsLater(env: Env, s: State, e: Event)
    requires ElectionsOk(env, s.elections) && (e.Delivery? ==> CacheFits(e.tx, e.cached))
    ensures ElectionsOk(env, After(env, s, e).elections) && Later(s.elections, After(env, s, e).elections)
  {
    hide AddTx, Save, Later, ElectionsOk, Enabled, Make;
    match e
    case Delivery(tx, height, cached) =>
      var m := MoveOf(env, s, tx, height, cached);
      TransactionsMove(env, s, tx, height, cached);
      MoveKeeps(env, s.elections, m, height);
    case BlockEnd(height) =>
      SaveOk(env, s.elections, height);
      SaveLater(env, s.elections, height);
  }
}
