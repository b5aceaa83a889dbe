/** Nodes and their databases: through every run the trees hold the state of the node, every
    commit records the root that the state determines, and so nodes agree on it. */
module StoredRuns {
  import opened Common
  import opened Trees
  import opened Nested
  import opened Books
  import opened Accounts
  import opened Voting
  import opened Moves
  import opened Storage
  import Chain
  import Runs
  import Versions
  import CacheLaws
  import Commits
  import Transactions

  type Node = Chain.Node
  type Step = Chain.Step

  // ------------------------------------------------ the end of a block

  predicate Resized(e: Elections, pid: Bytes) {
    pid in e.processes && e.processes[pid].mode.preRegister && pid in e.censuses
  }

  /** Committing writes the processes whose size it fixes. */
  function SaveWrites(layout: Layout, e: Elections, pids: seq<Bytes>, todo: seq<Bytes>): seq<Change>
    decreases |todo|
  {
    if todo == [] then []
    else
      var rest := SaveWrites(layout, e, pids, todo[1..]);
      if Resized(e, todo[0]) then [SetProcess(todo[0], Data(layout, SavedProcess(e, pids, todo[0])))] + rest else rest
  }

  function Fixed(layout: Layout, e: Elections, pids: seq<Bytes>, todo: seq<Bytes>, data: map<Bytes, Bytes>): map<Bytes, Bytes> {
    map pid | pid in data :: if pid in todo && Resized(e, pid) then Data(layout, SavedProcess(e, pids, pid)) else data[pid]
  }

  lemma {:induction false} SaveWritesData(layout: Layout, e: Elections, pids: seq<Bytes>, todo: seq<Bytes>, n: Content)
    requires n.processes.Keys == e.processes.Keys
    ensures ChangeAll(layout.processes, n, SaveWrites(layout, e, pids, todo)) == n.(processes := Fixed(layout, e, pids, todo, n.processes))
    ensures forall ch :: ch in SaveWrites(layout, e, pids, todo) ==> ch.SetProcess?
    decreases |todo|
  {
    hide Data;
    if todo == [] {
      assert Fixed(layout, e, pids, todo, n.processes) == n.processes;
    } else if Resized(e, todo[0]) {
      var ch := SetProcess(todo[0], Data(layout, SavedProcess(e, pids, todo[0])));
      var rest := SaveWrites(layout, e, pids, todo[1..]);
      var n' := ChangeMap(layout.processes, n, ch);
      SaveWritesData(layout, e, pids, todo[1..], n');
      assert ([ch] + rest)[1..] == rest;
      FixedOneMore(layout, e, pids, todo, n.processes);
    } else {
      SaveWritesData(layout, e, pids, todo[1..], n);
      FixedSame(layout, e, pids, todo, n.processes);
    }
  }

  lemma FixedOneMore(layout: Layout, e: Elections, pids: seq<Bytes>, todo: seq<Bytes>, data: map<Bytes, Bytes>)
    requires todo != [] && Resized(e, todo[0]) && todo[0] in data
    ensures Fixed(layout, e, pids, todo, data) ==
            Fixed(layout, e, pids, todo[1..], data[todo[0] := Data(layout, SavedProcess(e, pids, todo[0]))])
  {
    hide Data, SavedProcess;
    assert forall pid :: pid in todo <==> pid == todo[0] || pid in todo[1..];
  }

  lemma FixedSame(layout: Layout, e: Elections, pids: seq<Bytes>, todo: seq<Bytes>, data: map<Bytes, Bytes>)
    requires todo != [] && !Resized(e, todo[0])
    ensures Fixed(layout, e, pids, todo, data) == Fixed(layout, e, pids, todo[1..], data)
  {
    hide Data, SavedProcess;
    assert forall pid :: pid in todo <==> pid == todo[0] || pid in todo[1..];
  }

  lemma SavedData(layout: Layout, e: Elections, pids: seq<Bytes>, pid: Bytes)
    requires pid in e.processes
    ensures Data(layout, SavedProcess(e, pids, pid)) ==
            if pid in pids && Resized(e, pid) then Data(layout, SavedProcess(e, pids, pid)) else Data(layout, e.processes[pid])
    ensures SavedProcess(e, pids, pid).mode == e.processes[pid].mode
  {
  }

  lemma FixedIsSaved(layout: Layout, env: Env, e: Elections, height: uint32)
    requires Voting.Save(env, e, height).Ok?
    ensures var pids, f := StartingAt(env, e, Add32(height, 1)), Voting.Save(env, e, height).value;
            && f == e.(processes := f.processes) && f.processes.Keys == e.processes.Keys
            && (forall pid :: pid in e.processes ==> f.processes[pid].mode == e.processes[pid].mode)
            && Fixed(layout, e, pids, pids, ProcessData(layout, e.processes)) == ProcessData(layout, f.processes)
  {
    hide Data, SavedProcess, StartingAt, Resized;
    var pids, f := StartingAt(env, e, Add32(height, 1)), Voting.Save(env, e, height).value;
    forall pid | pid in e.processes
      ensures f.processes[pid].mode == e.processes[pid].mode
      ensures Fixed(layout, e, pids, pids, ProcessData(layout, e.processes))[pid] == ProcessData(layout, f.processes)[pid]
    {
      SavedData(layout, e, pids, pid);
    }
  }

  /** What a commit writes leaves the trees with the content of the state it commits. */
  lemma SaveIsWritten(layout: Layout, singles: map<Bytes, map<Bytes, Bytes>>, env: Env, e: Elections, height: uint32)
    requires NoCollision(layout) && Voting.Save(env, e, height).Ok?
    ensures var pids, f := StartingAt(env, e, Add32(height, 1)), Voting.Save(env, e, height).value;
            && ChangeAll(layout.processes, ContentWith(layout, singles, e), SaveWrites(layout, e, pids, pids)) == ContentWith(layout, singles, f)
            && f.usedWeight == e.usedWeight && f.processes.Keys == e.processes.Keys
  {
    hide NoCollision, TreesOf, Data, ChangeAll, SaveWrites, SavedProcess, Voting.Save, StartingAt, Fixed;
    var pids, f := StartingAt(env, e, Add32(height, 1)), Voting.Save(env, e, height).value;
    SaveWritesData(layout, e, pids, pids, ContentWith(layout, singles, e));
    FixedIsSaved(layout, env, e, height);
    SameTrees(layout, e, f);
  }

  // ------------------------------------------------ what is written beside elections

  /** WriteAll to the trees of the ledger, and visits of any tree. */
  predicate Aside(p: Bytes, ch: Change) {
    (ch.SetSingle? || ch.Visit?) && Valid(p, ch)
  }

  predicate AllAside(p: Bytes, chs: seq<Change>) {
    forall i :: 0 <= i < |chs| ==> Aside(p, chs[i])
  }

  function SinglesAfter(p: Bytes, singles: map<Bytes, map<Bytes, Bytes>>, chs: seq<Change>): map<Bytes, map<Bytes, Bytes>> {
    ChangeAll(p, Content(singles, map[], map[]), chs).singles
  }

  lemma {:induction false} AsideKeepsRest(p: Bytes, n: Content, chs: seq<Change>)
    requires AllAside(p, chs)
    ensures ChangeAll(p, n, chs) == n.(singles := SinglesAfter(p, n.singles, chs))
    decreases |chs|
  {
    if chs != [] {
      assert Aside(p, chs[0]);
      forall i | 0 <= i < |chs| - 1 ensures Aside(p, chs[1..][i]) {
      }
      AsideKeepsRest(p, ChangeMap(p, n, chs[0]), chs[1..]);
    }
  }

  /** The writes take the trees of one ledger to those of another. */
  predicate LedgerWrites(layout: Layout, l: Ledger, l': Ledger, chs: seq<Change>) {
    AllAside(layout.processes, chs) && SinglesAfter(layout.processes, layout.ledger(l), chs) == layout.ledger(l')
  }

  // ------------------------------------------------ what a node does to its database

  function WriteAll(chs: seq<Change>): seq<Doing>
    decreases |chs|
  {
    if chs == [] then [] else [Write(chs[0])] + WriteAll(chs[1..])
  }

  /** A step of a node: a block begins by dropping what was not committed, a delivery writes
      what its move writes, and a commit writes the sizes it fixes and saves a version.  Beside
      that every step may write to the ledger and visit trees. */
  function StepDeeds(layout: Layout, env: Env, n: Node, step: Step, aside: seq<Change>): seq<Doing> {
    var e := n.working.elections;
    var core :=
      match step
      case BeginBlock => if n.saved + 1 < TWO32 then [Drop] else []
      case DeliverTx(tx) =>
        WriteAll(MoveWrites(layout, e, MoveOf(env, n.working, tx, n.height, Chain.Cached(n, tx)), n.height))
      case Commit =>
        if Voting.Save(env, e, n.height).Ok? then
          var pids := StartingAt(env, e, Add32(n.height, 1));
          WriteAll(SaveWrites(layout, e, pids, pids)) + [Record(n.height)]
        else []
      case _ => [];
    core + WriteAll(aside)
  }

  function RunDeeds(layout: Layout, env: Env, n: Node, steps: seq<Step>, asides: seq<seq<Change>>): seq<Doing>
    requires |asides| == |steps|
    decreases |steps|
  {
    if steps == [] then []
    else StepDeeds(layout, env, n, steps[0], asides[0]) + RunDeeds(layout, env, Chain.Next(env, n, steps[0]), steps[1..], asides[1..])
  }

  /** What is written beside the elections follows the ledger of the node. */
  predicate AsidesFit(layout: Layout, env: Env, n: Node, steps: seq<Step>, asides: seq<seq<Change>>)
    requires |asides| == |steps|
    decreases |steps|
  {
    steps == [] ||
    (&& LedgerWrites(layout, LedgerBefore(n, steps[0]), Chain.Next(env, n, steps[0]).working.ledger, asides[0])
     && AsidesFit(layout, env, Chain.Next(env, n, steps[0]), steps[1..], asides[1..]))
  }

  function LedgerBefore(n: Node, step: Step): Ledger {
    if step.BeginBlock? && n.saved + 1 < TWO32 then n.committed.ledger else n.working.ledger
  }

  // ------------------------------------------------ books

  lemma {:induction false} BookOfMore(p: Bytes, b: Book, xs: seq<Doing>, ys: seq<Doing>)
    ensures BookOf(p, b, xs + ys) == BookOf(p, BookOf(p, b, xs), ys)
    decreases |ys|
  {
    if ys == [] {
      assert xs + ys == xs;
    } else {
      var k := |ys| - 1;
      assert (xs + ys)[..|xs| + k] == xs + ys[..k];
      BookOfMore(p, b, xs, ys[..k]);
    }
  }

  lemma PossibleMore(p: Bytes, b: Book, xs: seq<Doing>, ys: seq<Doing>)
    requires AllPossible(p, b, xs) && AllPossible(p, BookOf(p, b, xs), ys)
    ensures AllPossible(p, b, xs + ys)
  {
    hide BookOf, Possible;
    var zs := xs + ys;
    forall i | 0 <= i < |zs| ensures Possible(p, BookOf(p, b, zs[..i]), zs[i]) {
      if i < |xs| {
        assert zs[..i] == xs[..i] && zs[i] == xs[i];
        assert Possible(p, BookOf(p, b, xs[..i]), xs[i]);
      } else {
        var j := i - |xs|;
        assert zs[..i] == xs + ys[..j] && zs[i] == ys[j];
        BookOfMore(p, b, xs, ys[..j]);
        assert Possible(p, BookOf(p, BookOf(p, b, xs), ys[..j]), ys[j]);
      }
    }
  }

  lemma OneDeed(p: Bytes, b: Book, a: Doing)
    requires Possible(p, b, a)
    ensures BookOf(p, b, [a]) == Turn(p, b, a) && AllPossible(p, b, [a])
  {
    hide Possible, Turn;
    assert [a][..0] == [];
  }

  lemma {:induction false} WritesBook(p: Bytes, b: Book, chs: seq<Change>)
    requires forall i :: 0 <= i < |chs| ==> Valid(p, chs[i])
    ensures BookOf(p, b, WriteAll(chs)) == b.(working := ChangeAll(p, b.working, chs))
    ensures AllPossible(p, b, WriteAll(chs))
    decreases |chs|
  {
    hide AllPossible, Valid, ChangeMap;
    if chs == [] {
      NoDeedsPossible(p, b);
    } else {
      var b' := b.(working := ChangeMap(p, b.working, chs[0]));
      forall i | 0 <= i < |chs| - 1 ensures Valid(p, chs[1..][i]) {
      }
      WritesBook(p, b', chs[1..]);
      OneDeed(p, b, Write(chs[0]));
      BookOfMore(p, b, [Write(chs[0])], WriteAll(chs[1..]));
      PossibleMore(p, b, [Write(chs[0])], WriteAll(chs[1..]));
    }
  }

  lemma NoDeedsPossible(p: Bytes, b: Book)
    ensures AllPossible(p, b, [])
  {
  }

  // ------------------------------------------------ the book of a node

  ghost predicate TidyNode(n: Node) {
    Tidy(n.committed.elections) && Tidy(n.working.elections)
  }

  /** The book has the content of the node: its current state, and as the last version its
      committed one. */
  ghost predicate BookFits(layout: Layout, b: Book, n: Node)
    requires NoCollision(layout)
  {
    && b.working == ContentOf(layout, n.working)
    && b.current == n.saved && n.saved in b.versions && b.versions[n.saved] == ContentOf(layout, n.committed)
  }

  /** The same up to the ledger of the current state. */
  ghost predicate CoreFits(layout: Layout, b: Book, n: Node, l: Ledger)
    requires NoCollision(layout)
  {
    && b.working == ContentWith(layout, layout.ledger(l), n.working.elections)
    && b.current == n.saved && n.saved in b.versions && b.versions[n.saved] == ContentOf(layout, n.committed)
  }

  lemma MoveWritesValid(layout: Layout, e: Elections, m: Move, height: uint32)
    ensures forall i :: 0 <= i < |MoveWrites(layout, e, m, height)| ==> Valid(layout.processes, MoveWrites(layout, e, m, height)[i])
  {
  }

  lemma DeliverFits(layout: Layout, env: Env, b: Book, n: Node, tx: Chain.Tx)
    requires NoCollision(layout) && BookFits(layout, b, n) && TidyNode(n) && Runs.CacheOk(n.cache)
    ensures var ws := WriteAll(MoveWrites(layout, n.working.elections, MoveOf(env, n.working, tx, n.height, Chain.Cached(n, tx)), n.height));
            var m := Chain.Next(env, n, Chain.DeliverTx(tx));
            && CoreFits(layout, BookOf(layout.processes, b, ws), m, n.working.ledger)
            && AllPossible(layout.processes, b, ws) && TidyNode(m)
  {
    hide NoCollision, ContentWith, Tidy, MoveWrites, MoveOf, Chain.AddTx, Make, Enabled, WriteAll, BookOf, AllPossible, ChangeAll, Valid, Chain.TakesCached;
    var e, s := n.working.elections, n.working;
    var mv := MoveOf(env, s, tx, n.height, Chain.Cached(n, tx));
    TransactionsMove(env, s, tx, n.height, Chain.Cached(n, tx));
    MoveIsWritten(layout, layout.ledger(s.ledger), env, e, mv, n.height);
    MoveWritesValid(layout, e, mv, n.height);
    WritesBook(layout.processes, b, MoveWrites(layout, e, mv, n.height));
  }

  lemma TidyKept(e: Elections, f: Elections)
    requires Tidy(e) && f.usedWeight == e.usedWeight && f.processes.Keys == e.processes.Keys
    ensures Tidy(f)
  {
  }

  lemma CommitFits(layout: Layout, env: Env, b: Book, n: Node)
    requires NoCollision(layout) && BookFits(layout, b, n) && TidyNode(n) && Voting.Save(env, n.working.elections, n.height).Ok?
    ensures var pids := StartingAt(env, n.working.elections, Add32(n.height, 1));
            var ws := WriteAll(SaveWrites(layout, n.working.elections, pids, pids)) + [Record(n.height)];
            var m := Chain.Next(env, n, Chain.Commit);
            && CoreFits(layout, BookOf(layout.processes, b, ws), m, n.working.ledger)
            && AllPossible(layout.processes, b, ws) && TidyNode(m)
  {
    hide NoCollision, ContentWith, Tidy, SaveWrites, Voting.Save, WriteAll, BookOf, AllPossible, ChangeAll, Chain.AddTx, StartingAt;
    var p, e := layout.processes, n.working.elections;
    var pids := StartingAt(env, e, Add32(n.height, 1));
    var chs := SaveWrites(layout, e, pids, pids);
    SaveIsWritten(layout, layout.ledger(n.working.ledger), env, e, n.height);
    SaveWritesValid(layout, e, pids, b.working);
    TidyKept(e, Voting.Save(env, e, n.height).value);
    WritesBook(p, b, chs);
    var b' := BookOf(p, b, WriteAll(chs));
    OneDeed(p, b', Record(n.height));
    BookOfMore(p, b, WriteAll(chs), [Record(n.height)]);
    PossibleMore(p, b, WriteAll(chs), [Record(n.height)]);
  }

  lemma SaveWritesValid(layout: Layout, e: Elections, pids: seq<Bytes>, n: Content)
    ensures forall i :: 0 <= i < |SaveWrites(layout, e, pids, pids)| ==> Valid(layout.processes, SaveWrites(layout, e, pids, pids)[i])
  {
    hide SaveWrites;
    SaveWritesData(layout, e, pids, pids, n.(processes := map pid | pid in e.processes :: []));
    forall i | 0 <= i < |SaveWrites(layout, e, pids, pids)| ensures Valid(layout.processes, SaveWrites(layout, e, pids, pids)[i]) {
      assert SaveWrites(layout, e, pids, pids)[i] in SaveWrites(layout, e, pids, pids);
    }
  }

  lemma DropFits(layout: Layout, env: Env, b: Book, n: Node)
    requires NoCollision(layout) && BookFits(layout, b, n) && TidyNode(n) && n.saved + 1 < TWO32
    ensures var m := Chain.Next(env, n, Chain.BeginBlock);
            && CoreFits(layout, BookOf(layout.processes, b, [Drop]), m, n.committed.ledger)
            && AllPossible(layout.processes, b, [Drop]) && TidyNode(m)
  {
    hide NoCollision, ContentWith, Tidy, BookOf, AllPossible;
    OneDeed(layout.processes, b, Drop);
  }

  lemma IdleFits(layout: Layout, b: Book, n: Node)
    requires NoCollision(layout) && BookFits(layout, b, n)
    ensures CoreFits(layout, BookOf(layout.processes, b, []), n, n.working.ledger) && AllPossible(layout.processes, b, [])
  {
    hide NoCollision, ContentWith;
    NoDeedsPossible(layout.processes, b);
  }

  /** Writing beside the elections brings the ledger up to date. */
  lemma AsideFits(layout: Layout, b: Book, core: seq<Doing>, n: Node, l: Ledger, aside: seq<Change>)
    requires NoCollision(layout) && CoreFits(layout, BookOf(layout.processes, b, core), n, l) && AllPossible(layout.processes, b, core)
    requires LedgerWrites(layout, l, n.working.ledger, aside)
    ensures BookFits(layout, BookOf(layout.processes, b, core + WriteAll(aside)), n)
    ensures AllPossible(layout.processes, b, core + WriteAll(aside))
  {
    hide NoCollision, ProcessData, TreesOf, BookOf, AllPossible, WriteAll, ChangeAll, Valid, SinglesAfter;
    var p, b' := layout.processes, BookOf(layout.processes, b, core);
    forall i | 0 <= i < |aside| ensures Valid(p, aside[i]) {
      assert Aside(p, aside[i]);
    }
    WritesBook(p, b', aside);
    AsideKeepsRest(p, b'.working, aside);
    BookOfMore(p, b, core, WriteAll(aside));
    PossibleMore(p, b, core, WriteAll(aside));
  }

  lemma StepFits(layout: Layout, env: Env, b: Book, n: Node, step: Step, aside: seq<Change>)
    requires NoCollision(layout) && BookFits(layout, b, n) && TidyNode(n) && Runs.CacheOk(n.cache)
    requires LedgerWrites(layout, LedgerBefore(n, step), Chain.Next(env, n, step).working.ledger, aside)
    ensures BookFits(layout, BookOf(layout.processes, b, StepDeeds(layout, env, n, step, aside)), Chain.Next(env, n, step))
    ensures AllPossible(layout.processes, b, StepDeeds(layout, env, n, step, aside)) && TidyNode(Chain.Next(env, n, step))
  {
    hide NoCollision, BookFits, CoreFits, Tidy, MoveWrites, MoveOf, Chain.AddTx, Voting.Save, WriteAll, BookOf, AllPossible, LedgerWrites, SaveWrites, StartingAt, Chain.TakesCached, Runs.CacheOk, VoteEnvelopeCheck;
    var m, l := Chain.Next(env, n, step), LedgerBefore(n, step);
    var core: seq<Doing>;
    match step
    case BeginBlock =>
      if n.saved + 1 < TWO32 {
        core := [Drop];
        DropFits(layout, env, b, n);
      } else {
        core := [];
        IdleFits(layout, b, n);
      }
      AsideFits(layout, b, core, m, l, aside);
    case DeliverTx(tx) =>
      core := WriteAll(MoveWrites(layout, n.working.elections, MoveOf(env, n.working, tx, n.height, Chain.Cached(n, tx)), n.height));
      DeliverFits(layout, env, b, n, tx);
      AsideFits(layout, b, core, m, l, aside);
    case Commit =>
      if Voting.Save(env, n.working.elections, n.height).Ok? {
        var pids := StartingAt(env, n.working.elections, Add32(n.height, 1));
        core := WriteAll(SaveWrites(layout, n.working.elections, pids, pids)) + [Record(n.height)];
        CommitFits(layout, env, b, n);
      } else {
        core := [];
        IdleFits(layout, b, n);
      }
      AsideFits(layout, b, core, m, l, aside);
    case _ =>
      CacheStepFits(layout, env, b, n, step);
      AsideFits(layout, b, [], m, l, aside);
  }

  lemma CacheStepFits(layout: Layout, env: Env, b: Book, n: Node, step: Step)
    requires NoCollision(layout) && BookFits(layout, b, n) && (step.CheckTx? || step.Evict?)
    ensures var m := Chain.Next(env, n, step);
            && CoreFits(layout, BookOf(layout.processes, b, []), m, n.working.ledger) && AllPossible(layout.processes, b, [])
            && m.working == n.working && m.committed == n.committed
  {
    hide NoCollision, ContentWith, VoteEnvelopeCheck, Chain.AddTx, Voting.Save;
    IdleFits(layout, b, n);
  }

  /** The book of every run has the content of the node. */
  lemma {:induction false} RunFits(layout: Layout, env: Env, b: Book, n: Node, steps: seq<Step>, asides: seq<seq<Change>>)
    requires NoCollision(layout) && BookFits(layout, b, n) && TidyNode(n) && Runs.NodeOk(env, n)
    requires |asides| == |steps| && AsidesFit(layout, env, n, steps, asides)
    ensures BookFits(layout, BookOf(layout.processes, b, RunDeeds(layout, env, n, steps, asides)), Chain.Run(env, n, steps))
    ensures AllPossible(layout.processes, b, RunDeeds(layout, env, n, steps, asides))
    decreases |steps|
  {
    hide NoCollision, BookFits, TidyNode, StepDeeds, BookOf, AllPossible, LedgerWrites, Chain.Next, Runs.StateOk, Runs.CacheOk;
    if steps == [] {
      BookOfNone(layout.processes, b);
    } else {
      var m, deeds := Chain.Next(env, n, steps[0]), StepDeeds(layout, env, n, steps[0], asides[0]);
      var b' := BookOf(layout.processes, b, deeds);
      StepFits(layout, env, b, n, steps[0], asides[0]);
      Runs.NextKeeps(env, n, steps[0]);
      RunFits(layout, env, b', m, steps[1..], asides[1..]);
      var rest := RunDeeds(layout, env, m, steps[1..], asides[1..]);
      BookOfMore(layout.processes, b, deeds, rest);
      PossibleMore(layout.processes, b, deeds, rest);
    }
  }

  lemma BookOfNone(p: Bytes, b: Book)
    ensures BookOf(p, b, []) == b && AllPossible(p, b, [])
  {
  }

  // ------------------------------------------------ the database of a node

  function FirstNode(s: Chain.State): Node {
    Chain.Node(s, 0, s, 0, map[])
  }

  /** A first state without elections, and what adds and fills the trees of its ledger. */
  predicate FirstWrites(layout: Layout, s: Chain.State, chs: seq<Change>) {
    && s.elections == Elections(map[], map[], 0, map[], map[], map[])
    && (forall i :: 0 <= i < |chs| ==> Valid(layout.processes, chs[i]))
    && ChangeAll(layout.processes, NOTHING, chs) == Content(layout.ledger(s.ledger), map[], map[])
  }

  function FirstDeeds(chs: seq<Change>): seq<Doing> {
    WriteAll(chs) + [Record(0)]
  }

  /** The life of the database of a node, from the empty one on: the trees of the first ledger
      are added and filled and saved as version zero, and then it does what the node does. */
  ghost predicate LifeOf(layout: Layout, env: Env, s: Chain.State, chs: seq<Change>, steps: seq<Step>, asides: seq<seq<Change>>, ws: seq<World>) {
    && FirstWrites(layout, s, chs)
    && |asides| == |steps| && AsidesFit(layout, env, FirstNode(s), steps, asides)
    && Life(layout.processes, ws, FirstDeeds(chs) + RunDeeds(layout, env, FirstNode(s), steps, asides))
    && ws[0] == Genesis(layout.processes)
  }

  /** The book of the first version has the content of the first node. */
  lemma FirstVersionFits(layout: Layout, env: Env, s: Chain.State, chs: seq<Change>)
    requires NoCollision(layout) && FirstWrites(layout, s, chs)
    ensures var b := BookOf(layout.processes, Book(map[], 0, NOTHING), FirstDeeds(chs));
            BookFits(layout, b, FirstNode(s)) && TidyNode(FirstNode(s)) && Runs.NodeOk(env, FirstNode(s))
    ensures AllPossible(layout.processes, Book(map[], 0, NOTHING), FirstDeeds(chs))
  {
    hide NoCollision, BookOf, AllPossible, WriteAll, ChangeAll, Valid, Runs.NodeOk;
    var p, b := layout.processes, Book(map[], 0, NOTHING);
    WritesBook(p, b, chs);
    var b' := BookOf(p, b, WriteAll(chs));
    OneDeed(p, b', Record(0));
    BookOfMore(p, b, WriteAll(chs), [Record(0)]);
    PossibleMore(p, b, WriteAll(chs), [Record(0)]);
    Runs.EmptyNodeOk(env, s, 0);
    assert ContentOf(layout, s) == Content(layout.ledger(s.ledger), map[], map[]);
  }

  /** The database holds a node: the open transaction its current state, and the last version,
      whose root the committed state determines, exactly that state. */
  ghost predicate HoldsNode(layout: Layout, m: Node, w: World)
    requires NoCollision(layout)
  {
    var p, n := layout.processes, ContentOf(layout, m.committed);
    && Agrees(p, ContentOf(layout, m.working), w.tx)
    && w.db.current == m.saved
    && Versions.VersionRoot(w.db, m.saved) == Ok(MainRoot(p, n))
    && Shows(p, n, w.db.dir, MainRoot(p, n))
    && WellFormed(p, n)
  }

  /** At the end of any run of a node its database holds it. */
  lemma RunIsStored(layout: Layout, env: Env, s: Chain.State, chs: seq<Change>, steps: seq<Step>, asides: seq<seq<Change>>, ws: seq<World>)
    requires NoCollision(layout) && LifeOf(layout, env, s, chs, steps, asides, ws)
    ensures ws != [] && HoldsNode(layout, Chain.Run(env, FirstNode(s), steps), ws[|ws| - 1])
  {
    hide NoCollision, RunDeeds, ContentOf, Agrees, MainRoot, Runs.NodeOk, TidyNode, AsidesFit, BookOf, AllPossible, Chain.Run, Shows, WellFormed, Happens, InStep, FirstWrites, FirstDeeds, Genesis;
    var p, n, b := layout.processes, FirstNode(s), Book(map[], 0, NOTHING);
    var first, rest := FirstDeeds(chs), RunDeeds(layout, env, FirstNode(s), steps, asides);
    FirstVersionFits(layout, env, s, chs);
    RunFits(layout, env, BookOf(p, b, first), n, steps, asides);
    BookOfMore(p, b, first, rest);
    PossibleMore(p, b, first, rest);
    GenesisInStep(p);
    LifeEnds(p, b, ws, first + rest);
  }

  lemma LifeEnds(p: Bytes, b: Book, ws: seq<World>, deeds: seq<Doing>)
    requires Life(p, ws, deeds) && InStep(p, b, ws[0]) && AllPossible(p, b, deeds)
    requires BookOf(p, b, deeds).current in BookOf(p, b, deeds).versions
    ensures var b', w := BookOf(p, b, deeds), ws[|ws| - 1];
            var n := b'.versions[b'.current];
            && Agrees(p, b'.working, w.tx) && w.db.current == b'.current
            && Versions.VersionRoot(w.db, b'.current) == Ok(MainRoot(p, n))
            && Shows(p, n, w.db.dir, MainRoot(p, n)) && WellFormed(p, n)
  {
    hide BookOf, Agrees, MainRoot, AllPossible, Shows, WellFormed;
    LifeInStep(p, b, ws, deeds);
    var b', w := BookOf(p, b, deeds), ws[|ws| - 1];
    UnopenedShows(p, b'.versions[b'.current], w.db.dir, MainRoot(p, b'.versions[b'.current]));
  }

  /** The leaves are exactly the votes. */
  ghost predicate HoldsVotes(layout: Layout, leaves: map<Bytes, Leaf>, pid: Bytes, votes: map<Bytes, Vote>) {
    && (forall n :: n in votes ==> layout.voteId(pid, n) in leaves && leaves[layout.voteId(pid, n)] == Raw(layout.vote(votes[n])))
    && forall k :: k in leaves ==> exists n :: n in votes && k == layout.voteId(pid, n)
  }

  lemma LeavesHoldVotes(layout: Layout, pid: Bytes, votes: map<Bytes, Vote>)
    requires NoCollision(layout)
    ensures HoldsVotes(layout, Raws(VoteLeaves(layout, pid, votes)).leaves, pid, votes)
  {
    forall n | n in votes ensures layout.voteId(pid, n) in VoteLeaves(layout, pid, votes) {
      assert (x => layout.voteId(pid, x))(n) == layout.voteId(pid, n);
    }
  }

  predicate RightSize(vote: Vote) {
    |vote.processId| == PROCESS_ID_SIZE && |vote.nullifier| == NULLIFIER_SIZE
  }

  /** The state takes a vote exactly if its identifiers have the right size and the trees have
      a vote tree for the process and no leaf for the vote. */
  lemma VoteTakenIffTreeTakesIt(layout: Layout, singles: map<Bytes, map<Bytes, Bytes>>, e: Elections, tx: Transactions.Tx, vote: Vote, height: uint32)
    requires NoCollision(layout) && e.votes.Keys == e.processes.Keys
    requires Agrees(layout.processes, ContentWith(layout, singles, e), tx) && Transactions.Linked(tx.main)
    ensures var path, id := [Processes(layout.processes), Config(Votes, vote.processId)], layout.voteId(vote.processId, vote.nullifier);
            AddVote(e, vote, height).Ok? <==>
            && RightSize(vote)
            && Commits.OpenTree(tx.dir, tx.main, path).Ok?
            && Commits.OpenGet(tx.dir, tx.main, path, id) == Err(KeyNotFound)
  {
    hide NoCollision, VoteLeaves, Created, TreeKeys, Commits.OpenTree, MainHolds, ProcessesHold, SinglesHold, ProcessData;
    var pid, n, c := vote.processId, ContentWith(layout, singles, e), Config(Votes, vote.processId);
    assert c in TreeKeys(e.processes) <==> pid in e.processes;
    if pid in e.votes {
      assert pid in e.processes && TreeHolds(tx, [Processes(layout.processes), c], n.trees[c]);
      OneMoreVoteLeaf(layout, pid, e.votes[pid], vote.nullifier, vote);
    } else {
      assert pid !in e.processes;
      AbsentTree(layout.processes, n, tx, c);
    }
  }

  /** The votes of a process in the last version: its vote tree opens and its leaves are the
      committed votes, or nobody ever opened it and there are none. */
  lemma CommittedVotes(layout: Layout, m: Node, w: World, pid: Bytes)
    requires NoCollision(layout) && HoldsNode(layout, m, w)
    requires pid in m.committed.elections.processes && pid in m.committed.elections.votes
    ensures var path, votes := [Processes(layout.processes), Config(Votes, pid)], m.committed.elections.votes[pid];
            var t := ViewTree(w.db.dir, Versions.VersionRoot(w.db, w.db.current).value, path);
            if Created(w.db.dir, path) then t.Ok? && HoldsVotes(layout, t.value.leaves, pid, votes)
            else t == Err(EmptyTree) && votes == map[]
  {
    hide NoCollision, VoteLeaves, HoldsVotes, ViewTree, Created, TreeKeys, Raws, MainRoot, WellFormed, Agrees;
    var e, c, n := m.committed.elections, Config(Votes, pid), ContentOf(layout, m.committed);
    assert c in TreeKeys(e.processes) && n.trees[c] == VoteLeaves(layout, pid, e.votes[pid]);
    LeavesHoldVotes(layout, pid, e.votes[pid]);
    if e.votes[pid] != map[] {
      var x :| x in e.votes[pid];
      OneMoreVoteLeaf(layout, pid, e.votes[pid], x, e.votes[pid][x]);
    }
  }

  /** The root of a rolling census in the leaf of its process, which anonymous votes prove
      membership against, is that of the keys of the committed census. */
  lemma CommittedCensusRoot(layout: Layout, m: Node, w: World, pid: Bytes)
    requires NoCollision(layout) && HoldsNode(layout, m, w)
    requires pid in m.committed.elections.processes && m.committed.elections.processes[pid].mode.preRegister && pid in m.committed.elections.censuses
    ensures var r := Versions.VersionRoot(w.db, w.db.current).value;
            && ChildRoot(r, Processes(layout.processes)).Ok?
            && ChildRoot(ChildRoot(r, Processes(layout.processes)).value, Config(CensusPoseidon, pid)) ==
               Ok(Raws(CensusLeaves(m.committed.elections.censuses[pid].leaves)))
  {
    hide NoCollision, VoteLeaves, CensusLeaves, WeightLeaves, Shows, TreeKeys, Raws, WellFormed, Agrees, Data;
    var e, c := m.committed.elections, Config(CensusPoseidon, pid);
    assert c in TreeKeys(e.processes);
  }

  /** Two databases have the same root as their last version exactly if the contents of the
      states their nodes committed are equal. */
  lemma SameRootIffSameContent(layout: Layout, m: Node, w: World, m': Node, w': World)
    requires NoCollision(layout) && HoldsNode(layout, m, w) && HoldsNode(layout, m', w')
    ensures Versions.VersionRoot(w.db, w.db.current).Ok?
    ensures Versions.VersionRoot(w.db, w.db.current) == Versions.VersionRoot(w'.db, w'.db.current) <==>
            ContentOf(layout, m.committed) == ContentOf(layout, m'.committed)
  {
    hide NoCollision, ContentOf, Agrees, MainRoot, Shows, WellFormed;
    SameRootIffSameMap(layout.processes, ContentOf(layout, m.committed), ContentOf(layout, m'.committed));
  }

  /** Nodes that start from the same state and go through the same blocks, all saved, commit the
      same main root, whatever each of them checked, evicted and opened in between and in
      whatever order its trees were written. */
  lemma NodesCommitSameRoot(layout: Layout, env: Env, s: Chain.State,
                            chs: seq<Change>, steps: seq<Step>, asides: seq<seq<Change>>, ws: seq<World>,
                            chs': seq<Change>, steps': seq<Step>, asides': seq<seq<Change>>, ws': seq<World>)
    requires NoCollision(layout) && LifeOf(layout, env, s, chs, steps, asides, ws) && LifeOf(layout, env, s, chs', steps', asides', ws')
    requires CacheLaws.SavedRun(env, FirstNode(s), steps, map[]) && CacheLaws.SavedRun(env, FirstNode(s), steps', map[])
    requires CacheLaws.Blocks(steps) == CacheLaws.Blocks(steps')
    ensures ws != [] && ws' != []
    ensures var db, db' := ws[|ws| - 1].db, ws'[|ws'| - 1].db;
            && db.current == db'.current
            && Versions.VersionRoot(db, db.current).Ok?
            && Versions.VersionRoot(db, db.current) == Versions.VersionRoot(db', db'.current)
  {
    hide NoCollision, ContentOf, Agrees, MainRoot, Chain.Run, Shows, WellFormed, Runs.StateOk, AsidesFit, Life, RunDeeds, Genesis,
         CacheLaws.SavedRun, CacheLaws.Blocks;
    RunIsStored(layout, env, s, chs, steps, asides, ws);
    RunIsStored(layout, env, s, chs', steps', asides', ws');
    var n := FirstNode(s);
    Runs.EmptyNodeOk(env, s, 0);
    CacheLaws.NodesAgree(env, n, steps, map[], n, steps', map[]);
    var m, m' := Chain.Run(env, n, steps), Chain.Run(env, n, steps');
    assert CacheLaws.Uncached(m).committed == CacheLaws.Uncached(m').committed && CacheLaws.Uncached(m).saved == CacheLaws.Uncached(m').saved;
    SameRootIffSameContent(layout, m, ws[|ws| - 1], m', ws'[|ws'| - 1]);
  }
}
