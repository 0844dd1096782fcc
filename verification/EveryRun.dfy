/** What holds in every run of the scheduler with its workers, for any number of
    workers, any tree of attributes and any interleaving. */
module EveryRun {
  import opened Wrappers
  import opened Ledger
  import opened Verdicts
  import opened Workers
  import opened Collector
  import opened Discipline
  import opened System

  /** `y` is reached by some run from the start. */
  ghost predicate Reachable(answer: Path -> Payload, n: nat, budget: nat, oom: nat, es: seq<Event>, y: Sys) {
    var start := Init(n, budget, oom);
    Runs(answer, start, es) && y == After(answer, start, es)
  }

  lemma ReachableInv(answer: Path -> Payload, n: nat, budget: nat, oom: nat, es: seq<Event>, y: Sys)
    requires Reachable(answer, n, budget, oom, es, y)
    ensures Inv(answer, y)
  {
    InitInv(answer, n, budget, oom);
    RunInv(answer, Init(n, budget, oom), es);
  }

  /** The collector never meets a line that does not fit the phase, and what is
      between it and each worker always fits the two ends. */
  lemma ProtocolAgreement(answer: Path -> Payload, n: nat, budget: nat, oom: nat, es: seq<Event>, y: Sys)
    requires Reachable(answer, n, budget, oom, es, y)
    ensures y.s.abort != Some(UnexpectedLine)
    ensures y.s.abort.None? ==> AllAgree(answer, y.s)
  {
    ReachableInv(answer, n, budget, oom, es, y);
  }

  // ---- Conservation ----------------------------------------------------------

  function Paths(log: seq<Record>): seq<Path> {
    seq(|log|, k requires 0 <= k < |log| => log[k].path)
  }

  /** How many times a path is in the four structures together. */
  function Copies(b: Board, p: Path): nat {
    (if p in b.todo then 1 else 0) + multiset(b.solo)[p] + multiset(b.held)[Some(p)] + multiset(Paths(b.log))[p]
  }

  lemma {:induction false} CountDistinct<T>(s: seq<T>, x: T)
    requires forall i, j | 0 <= i < j < |s| :: s[i] != x || s[j] != x
    ensures multiset(s)[x] == if x in s then 1 else 0
  {
    if s != [] {
      assert s == [s[0]] + s[1..];
      CountDistinct(s[1..], x);
    }
  }

  /** A path that was ever put in `todo` is in one place, once; others are nowhere. */
  lemma OneCopy(b: Board, p: Path)
    requires Conserved(b)
    ensures Copies(b, p) == if p in b.place then 1 else 0
  {
    assert p in b.place ==> Located(b, p);
    assert p in b.todo ==> IsAt(b, p, Todo);
    assert forall i | 0 <= i < |b.held| && b.held[i] == Some(p) :: IsAt(b, p, At(i));
    assert forall k | 0 <= k < |b.log| && b.log[k].path == p :: IsAt(b, p, Done(k));
    CountDistinct(b.solo, p);
    CountDistinct(b.held, Some(p));
    CountDistinct(Paths(b.log), p);
    assert forall k | 0 <= k < |b.log| :: Paths(b.log)[k] == b.log[k].path;
    assert forall k | 0 <= k < |b.solo| && b.solo[k] == p :: IsAt(b, p, Shelved);
  }

  /** Every path ever put in `todo` is at any time once in `todo`, `solo`, a busy or
      killed worker or the log, and it is handed out twice at most. */
  lemma Conservation(answer: Path -> Payload, n: nat, budget: nat, oom: nat, es: seq<Event>, y: Sys, p: Path)
    requires Reachable(answer, n, budget, oom, es, y) && y.s.abort.None?
    ensures Copies(y.s.board, p) == if p in y.s.board.place then 1 else 0
    ensures y.s.board.handed[p] <= 2
    ensures |y.s.board.held| == |y.s.workers|
    ensures forall i | 0 <= i < |y.s.workers| :: y.s.board.held[i] == HeldBy(y.s.workers[i])
  {
    ReachableInv(answer, n, budget, oom, es, y);
    OneCopy(y.s.board, p);
    assert Tally(y.s.board, p);
    forall i | 0 <= i < |y.s.workers|
      ensures y.s.board.held[i] == HeldBy(y.s.workers[i])
    {
      assert SlotShaped(y.s.workers[i], y.s.board.held[i]);
    }
  }

  // ---- Solo mode ----------------------------------------------------------------

  /** In solo mode one process is alive at most, no job was ever run in it before
      the retry, and `solo` is empty only while the retry runs.  A path given
      up was killed twice, the second time alone. */
  lemma SoloDiscipline(answer: Path -> Payload, n: nat, budget: nat, oom: nat, es: seq<Event>, y: Sys)
    requires Reachable(answer, n, budget, oom, es, y) && y.s.abort.None?
    ensures y.s.board.mode == Solo ==> AtMostOneAlive(y.s.workers)
    ensures y.s.board.mode == Solo ==> forall i | 0 <= i < |y.s.workers| :: FreshFor(y.s.workers[i])
    ensures y.s.board.mode == Solo && NoneRunning(y.s.workers) ==> y.s.board.solo != []
    ensures forall i | 0 <= i < |y.s.workers| && Running(y.s.workers[i]) ::
              y.s.workers[i].attrPath.Some? &&
              y.s.board.killed[y.s.workers[i].attrPath.value] == (if y.s.board.mode == Solo then 1 else 0)
    ensures forall k | 0 <= k < |y.s.board.log| && y.s.board.log[k].verdict.OverBudget? ::
              y.s.board.killed[y.s.board.log[k].path] == 2 == y.s.board.handed[y.s.board.log[k].path]
  {
    ReachableInv(answer, n, budget, oom, es, y);
    var b := y.s.board;
    forall i | 0 <= i < |y.s.workers| && Running(y.s.workers[i])
      ensures y.s.workers[i].attrPath.Some?
      ensures b.killed[y.s.workers[i].attrPath.value] == if b.mode == Solo then 1 else 0
    {
      assert SlotShaped(y.s.workers[i], b.held[i]);
      assert IsAt(b, b.held[i].value, At(i)) && Tally(b, b.held[i].value);
    }
    forall k | 0 <= k < |b.log| && b.log[k].verdict.OverBudget?
      ensures b.killed[b.log[k].path] == 2 == b.handed[b.log[k].path]
    {
      assert IsAt(b, b.log[k].path, Done(k)) && Tally(b, b.log[k].path);
    }
  }

  // ---- The end ---------------------------------------------------------------------

  lemma TerminatedOver(answer: Path -> Payload, y: Sys)
    requires Inv(answer, y) && Terminated(y)
    ensures Sound(answer, y.s.board) && Over(y.s.board)
  {
    NoneHeldIfNoneRunning(y.s);
  }

  /** The loop ends exactly at its top with nothing to do and no process left. */
  lemma TerminatedExactly(answer: Path -> Payload, y: Sys)
    requires Inv(answer, y)
    ensures Terminated(y) <==>
      && y.s.abort.None? && y.at.Top? && y.s.board.todo == {} && y.s.board.solo == []
      && forall i | 0 <= i < |y.s.workers| :: y.s.workers[i].proc.None?
  {
    hide Sound, AllAgree;
    assert y.s.abort.None? ==> forall i | 0 <= i < |y.s.workers| :: SlotShaped(y.s.workers[i], y.s.board.held[i]);
  }

  /** A run that ends has recorded exactly the verdicts of a sequential descent
      that gives up the paths killed twice, each once. */
  lemma EndedRunIsComplete(answer: Path -> Payload, n: nat, budget: nat, oom: nat, es: seq<Event>, y: Sys)
    requires Reachable(answer, n, budget, oom, es, y) && Terminated(y)
    ensures y.s.board.todo == {} && y.s.board.solo == []
    ensures forall i | 0 <= i < |y.s.workers| :: y.s.workers[i].proc.None?
    ensures var log := y.s.board.log;
            && (forall r :: r in log <==>
                Reached(answer, GivenUp(log), r.path) && r.verdict == VerdictFor(answer, GivenUp(log), r.path))
            && (forall i, j | 0 <= i < j < |log| :: log[i].path != log[j].path)
            && (forall p :: p in GivenUp(log) <==> y.s.board.killed[p] == 2)
  {
    ReachableInv(answer, n, budget, oom, es, y);
    TerminatedOver(answer, y);
    TerminatedExactly(answer, y);
    Complete(answer, y.s.board);
  }

  /** Neither the number of workers nor the budget nor the interleaving matters
      beyond the choice of the paths that are given up. */
  lemma InterleavingIndependence(answer: Path -> Payload,
      n: nat, budget: nat, oom: nat, es: seq<Event>, y: Sys,
      n': nat, budget': nat, oom': nat, es': seq<Event>, y': Sys)
    requires Reachable(answer, n, budget, oom, es, y) && Terminated(y)
    requires Reachable(answer, n', budget', oom', es', y') && Terminated(y')
    requires GivenUp(y.s.board.log) == GivenUp(y'.s.board.log)
    ensures multiset(y.s.board.log) == multiset(y'.s.board.log)
  {
    ReachableInv(answer, n, budget, oom, es, y);
    ReachableInv(answer, n', budget', oom', es', y');
    TerminatedOver(answer, y);
    TerminatedOver(answer, y');
    OrderDoesNotMatter(answer, y.s.board, y'.s.board);
  }

  // ---- Clean exit ---------------------------------------------------------------------

  /** No slot has got a process that had none. */
  predicate NothingSpawned(s: State, s': State) {
    |s'.workers| == |s.workers| &&
    forall i | 0 <= i < |s.workers| && s.workers[i].proc.None? :: s'.workers[i].proc.None?
  }

  predicate Winding(s: State, s': State) {
    Finished(s') && NothingSpawned(s, s') && s'.board == s.board
  }

  lemma DispatchWinds(s: State, i: nat, spawnable: nat, x: SlotInput)
    requires Sane(s) && Finished(s) && i < |s.workers|
    ensures SoloHasWork(s) && Winding(s, DispatchSlot(s, i, spawnable, x).0)
  {
    NoneRunningUpdate(s.workers, i, Sent(s.workers[i].(proc := Some(SPAWNED)), Exit).(phase := Exiting));
    assert s.workers[i].phase.Idle? ==> SlotShaped(s.workers[i], s.board.held[i]);
  }

  lemma OnEofWinds(s: State, i: nat)
    requires Sane(s) && Finished(s) && Alive(s, i)
    ensures OnEof(s, i).abort.None? ==> Winding(s, OnEof(s, i))
  {
    NoneRunningUpdate(s.workers, i, NO_WORKER);
    assert s.board.mode == Parallel;
  }

  lemma OnLineWinds(s: State, i: nat, line: Line, rss: nat)
    requires Sane(s) && Finished(s) && i < |s.workers| && s.workers[i].proc.Some?
    ensures OnLine(s, i, line, rss).abort.None? ==> Winding(s, OnLine(s, i, line, rss))
  {
    NoneRunningUpdate(s.workers, i, NO_WORKER);
    NoneRunningUpdate(s.workers, i, s.workers[i].(phase := Idle));
  }

  lemma {:induction false} OnLinesWinds(s: State, i: nat, lines: seq<Line>, rss: nat)
    requires Sane(s) && Finished(s) && i < |s.workers|
    ensures OnLines(s, i, lines, rss).abort.None? ==> Winding(s, OnLines(s, i, lines, rss))
    decreases |lines|
  {
    if lines != [] && s.workers[i].proc.Some? && s.abort.None? {
      OnLineWinds(s, i, lines[0], rss);
      OnLineSane(s, i, lines[0], rss);
      if OnLine(s, i, lines[0], rss).abort.None? {
        OnLinesWinds(OnLine(s, i, lines[0], rss), i, lines[1..], rss);
      }
    }
  }

  lemma SampleWinds(s: State, rss: seq<nat>, own: nat)
    requires Sane(s) && Finished(s) && |rss| == |s.workers|
    ensures Winding(s, SampleMemory(s, rss, own))
  {
    assert forall i | 0 <= i < |s.workers| :: !Running(s.workers[i]);
  }

  lemma ReadWinds(answer: Path -> Payload, y: Sys, n: nat, eof: bool, rss: nat)
    requires Inv(answer, y) && Can(y, Read(n, eof, rss)) && Finished(y.s)
    ensures var y' := Step(answer, y, Read(n, eof, rss));
            y'.s.abort.None? ==> Winding(y.s, y'.s)
  {
    hide Sound, Agrees;
    var i := y.at.idx;
    var p := y.s.workers[i].proc.value;
    var s0 := SetProc(y.s, i, p.(outbox := p.outbox[n..]));
    SetProcSane(y.s, i, p.(outbox := p.outbox[n..]));
    NoneRunningUpdate(y.s.workers, i, s0.workers[i]);
    OnLinesWinds(s0, i, p.outbox[..n], rss);
    OnLinesSane(s0, i, p.outbox[..n], rss);
    var s1 := OnLines(s0, i, p.outbox[..n], rss);
    if s1.abort.None? && eof && s1.workers[i].proc.Some? {
      OnEofWinds(s1, i);
    }
  }

  /** Once the work is finished it stays so: nothing is handed out, recorded or
      spawned by any later step. */
  lemma FinishedForGood(answer: Path -> Payload, y: Sys, e: Event)
    requires Inv(answer, y) && Can(y, e) && Finished(y.s)
    ensures var y' := Step(answer, y, e);
            y'.s.abort.None? ==> Finished(y'.s) && NothingSpawned(y.s, y'.s) && y'.s.board == y.s.board
  {
    hide Sound, AllAgree;
    match e
    case Slot(x) => DispatchWinds(y.s, y.at.idx, y.at.spawnable, x);
    case Sample(rss, own) => SampleWinds(y.s, rss, own);
    case Read(n, eof, rss) => ReadWinds(answer, y, n, eof, rss);
    case ProcessActs(i, act) => NoneRunningUpdate(y.s.workers, i, Step(answer, y, e).s.workers[i]);
    case KernelKills(i) => NoneRunningUpdate(y.s.workers, i, Step(answer, y, e).s.workers[i]);
    case _ =>
  }

  lemma {:induction false} FinishedRunsOut(answer: Path -> Payload, y: Sys, es: seq<Event>)
    requires Inv(answer, y) && Runs(answer, y, es) && Finished(y.s)
    ensures var y' := After(answer, y, es);
            y'.s.abort.None? ==> Finished(y'.s) && NothingSpawned(y.s, y'.s) && y'.s.board == y.s.board
    decreases |es|
  {
    if es != [] {
      var y1 := Step(answer, y, es[0]);
      FinishedForGood(answer, y, es[0]);
      StepInv(answer, y, es[0]);
      if y1.s.abort.None? {
        FinishedRunsOut(answer, y1, es[1..]);
      } else {
        assert es[1..] == [];
      }
    }
  }

  /** A worker is told to exit only when all is done, and then none is started and
      nothing is recorded any more. */
  lemma CleanExit(answer: Path -> Payload, n: nat, budget: nat, oom: nat, es: seq<Event>, y: Sys, later: seq<Event>,
      i: nat)
    requires Reachable(answer, n, budget, oom, es, y) && y.s.abort.None?
    requires i < |y.s.workers| && y.s.workers[i].phase.Exiting?
    requires Runs(answer, y, later)
    ensures Finished(y.s)
    ensures var y' := After(answer, y, later);
            y'.s.abort.None? ==> Finished(y'.s) && NothingSpawned(y.s, y'.s) && y'.s.board == y.s.board
  {
    ReachableInv(answer, n, budget, oom, es, y);
    FinishedRunsOut(answer, y, later);
  }
}
