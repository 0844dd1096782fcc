/** When a run ends by an exception although no worker has failed: the collector
    kills a worker that has just ended by itself to be replaced. */
module Races {
  import opened Wrappers
  import opened Ledger
  import opened Verdicts
  import opened Workers
  import opened Collector
  import opened Discipline
  import opened System
  import opened EveryRun

  /** The collector has tried to kill a process that had already ended. */
  predicate KilledTooLate(w: Worker) {
    w.phase.Killed? && w.proc.Some? && w.proc.value.control.Exited?
  }

  lemma {:induction false} KilledLinesDropped(s: State, i: nat, lines: seq<Line>, rss: nat)
    requires i < |s.workers| == |s.board.held| && s.workers[i].phase.Killed?
    ensures OnLines(s, i, lines, rss) == s
    decreases |lines|
  {
    if lines != [] && s.workers[i].proc.Some? && s.abort.None? {
      KilledLinesDropped(OnLine(s, i, lines[0], rss), i, lines[1..], rss);
    }
  }

  /** Reading to the end of the pipe of a worker that is not `Killed` finds no
      process that ended by itself but one that was told to. */
  lemma DrainedNotExited(answer: Path -> Payload, s: State, i: nat)
    requires ReadingOk(answer, s, i, []) && Alive(s, i) && s.workers[i].proc.value.outbox == []
    ensures s.workers[i].proc.value.control.Exited? ==> s.workers[i].phase.Killed? || s.workers[i].phase.Exiting?
  {
    hide Sound, Sane;
    assert [] + s.workers[i].proc.value.outbox == [];
  }

  lemma {:induction false} PhaseKilledStays(s: State, i: nat, lines: seq<Line>, rss: nat)
    requires i < |s.workers| == |s.board.held|
    ensures OnLines(s, i, lines, rss).workers[i].phase.Killed? ==> s.workers[i].phase.Killed?
    ensures var p := OnLines(s, i, lines, rss).workers[i].proc; p.Some? ==> p == s.workers[i].proc
    decreases |lines|
  {
    if lines != [] && s.workers[i].proc.Some? && s.abort.None? {
      PhaseKilledStays(OnLine(s, i, lines[0], rss), i, lines[1..], rss);
    }
  }

  lemma ReadExits(answer: Path -> Payload, y: Sys, n: nat, eof: bool, rss: nat)
    requires Inv(answer, y) && Can(y, Read(n, eof, rss))
    ensures Step(answer, y, Read(n, eof, rss)).s.abort == Some(WorkerExited) <==>
      eof && KilledTooLate(y.s.workers[y.at.idx])
  {
    hide Sound, Agrees, Sane;
    var i := y.at.idx;
    var p := y.s.workers[i].proc.value;
    var s0 := SetProc(y.s, i, p.(outbox := p.outbox[n..]));
    SetProcSane(y.s, i, p.(outbox := p.outbox[n..]));
    assert SlotAgrees(answer, y.s.workers[i]);
    PoppedAgrees(answer, y.s.workers[i], n);
    OnLinesOk(answer, s0, i, p.outbox[..n], rss);
    var s1 := OnLines(s0, i, p.outbox[..n], rss);
    PhaseKilledStays(s0, i, p.outbox[..n], rss);
    if s0.workers[i].phase.Killed? {
      KilledLinesDropped(s0, i, p.outbox[..n], rss);
    }
    if s1.abort.None? && eof && s1.workers[i].proc.Some? {
      DrainedNotExited(answer, s1, i);
    }
  }

  /** A run ends for a worker that exited exactly when the end of the pipe is read
      from one that the collector killed too late. */
  lemma ExitedExactlyWhenTooLate(answer: Path -> Payload, y: Sys, e: Event)
    requires Inv(answer, y) && Can(y, e)
    ensures Step(answer, y, e).s.abort == Some(WorkerExited) <==>
      e.Read? && e.eof && KilledTooLate(y.s.workers[y.at.idx])
  {
    hide Sound;
    match e
    case Slot(x) => SlotKeepsAgreement(answer, y.s, y.at.idx, y.at.spawnable, x);
    case Read(n, eof, rss) => ReadExits(answer, y, n, eof, rss);
    case _ =>
  }

  lemma ReadKeepsTooLate(answer: Path -> Payload, y: Sys, n: nat, eof: bool, rss: nat, i: nat)
    requires Inv(answer, y) && Can(y, Read(n, eof, rss)) && i < |y.s.workers|
    ensures var s' := Step(answer, y, Read(n, eof, rss)).s;
            s'.abort.None? && i < |s'.workers| && KilledTooLate(s'.workers[i]) ==> KilledTooLate(y.s.workers[i])
  {
    hide Sound, Agrees, Sane;
    var k := y.at.idx;
    var p := y.s.workers[k].proc.value;
    var s0 := SetProc(y.s, k, p.(outbox := p.outbox[n..]));
    SetProcSane(y.s, k, p.(outbox := p.outbox[n..]));
    assert SlotAgrees(answer, y.s.workers[k]);
    PoppedAgrees(answer, y.s.workers[k], n);
    OnLinesOk(answer, s0, k, p.outbox[..n], rss);
    PhaseKilledStays(s0, k, p.outbox[..n], rss);
  }

  lemma SlotKeepsTooLate(s: State, idx: nat, spawnable: nat, x: SlotInput, i: nat)
    requires Sane(s) && idx < |s.workers| && i < |s.workers|
    ensures SoloHasWork(s)
    ensures var s' := DispatchSlot(s, idx, spawnable, x).0;
            i < |s'.workers| && KilledTooLate(s'.workers[i]) ==> KilledTooLate(s.workers[i])
  {}

  /** The victim of a sample. */
  predicate IsVictim(y: Sys, e: Event, i: nat) {
    e.Sample? && |e.sizes| == |y.s.workers| &&
    var ws := Sampled(y.s.workers, e.sizes);
    e.own + TotalRss(ws) > y.s.budget && Victim(ws) == Some(i)
  }

  /** The collector kills too late if and only if its choice falls on a process that
      has ended by itself; and such a worker has answered and asked to be
      replaced, with both lines still to be read. */
  lemma TooLateOrigin(answer: Path -> Payload, y: Sys, e: Event, i: nat)
    requires Inv(answer, y) && Can(y, e) && i < |y.s.workers| && !KilledTooLate(y.s.workers[i])
    requires Step(answer, y, e).s.abort.None? && i < |Step(answer, y, e).s.workers|
    ensures KilledTooLate(Step(answer, y, e).s.workers[i]) <==>
      IsVictim(y, e, i) && y.s.workers[i].proc.Some? && y.s.workers[i].proc.value.control.Exited?
    ensures KilledTooLate(Step(answer, y, e).s.workers[i]) ==>
      y.s.workers[i].attrPath.Some? && y.s.workers[i].proc.Some? &&
      var p := y.s.workers[i].attrPath.value;
      y.s.workers[i].proc.value.outbox == [Answer(p, answer(p)), Restart]
  {
    hide Sound;
    assert SlotAgrees(answer, y.s.workers[i]);
    match e
    case Slot(x) => SlotKeepsTooLate(y.s, y.at.idx, y.at.spawnable, x, i);
    case Read(n, eof, rss) => ReadKeepsTooLate(answer, y, n, eof, rss, i);
    case Sample(rss, own) => VictimTooLate(answer, y, rss, own, i);
    case _ =>
  }

  lemma VictimTooLate(answer: Path -> Payload, y: Sys, rss: seq<nat>, own: nat, i: nat)
    requires Inv(answer, y) && Can(y, Sample(rss, own)) && i < |y.s.workers| && !KilledTooLate(y.s.workers[i])
    ensures var w := y.s.workers[i];
            KilledTooLate(SampleMemory(y.s, rss, own).workers[i]) <==>
              IsVictim(y, Sample(rss, own), i) && w.proc.Some? && w.proc.value.control.Exited?
    ensures KilledTooLate(SampleMemory(y.s, rss, own).workers[i]) ==>
      y.s.workers[i].attrPath.Some? && y.s.workers[i].proc.Some? &&
      var p := y.s.workers[i].attrPath.value;
      y.s.workers[i].proc.value.outbox == [Answer(p, answer(p)), Restart]
  {
    hide Sound, Sane, Agrees, TotalRss, Learned;
    var w := y.s.workers[i];
    assert SlotAgrees(answer, w);
    if w.phase.Busy? && w.proc.Some? && w.proc.value.control.Exited? {
      TooLateOutbox(answer, w);
    }
  }

  lemma TooLateOutbox(answer: Path -> Payload, w: Worker)
    requires w.proc.Some? && SlotAgrees(answer, w) && w.phase.Busy? && w.proc.value.control.Exited?
    ensures w.attrPath.Some? && w.proc.value.outbox == [Answer(w.attrPath.value, answer(w.attrPath.value)), Restart]
  {
    var outbox := w.proc.value.outbox;
    assert outbox == [outbox[0]] + outbox[1..];
  }

  // ---- The other exceptions ------------------------------------------------------

  /** The answer for a path that a descent from the root meets, and it is fatal. */
  ghost predicate FatalAnswer(answer: Path -> Payload, p: Path) {
    Reached(answer, {}, p) && answer(p).Error? && answer(p).fatal
  }

  ghost predicate IsFatal(answer: Path -> Payload, line: Line) {
    line.Answer? && line.payload == answer(line.path) && FatalAnswer(answer, line.path)
  }

  lemma {:induction false} ReachedWithoutLoss(answer: Path -> Payload, lost: set<Path>, p: Path)
    requires Reached(answer, lost, p)
    ensures Reached(answer, {}, p)
    decreases |p|
  {
    if p != [] {
      ReachedWithoutLoss(answer, lost, p[..|p| - 1]);
    }
  }

  lemma RunningIsReached(answer: Path -> Payload, s: State, i: nat)
    requires Shaped(s) && Sound(answer, s.board) && i < |s.workers| && Running(s.workers[i])
    ensures s.workers[i].attrPath.Some? && Reached(answer, {}, s.workers[i].attrPath.value)
  {
    assert SlotShaped(s.workers[i], s.board.held[i]);
    var p := s.workers[i].attrPath.value;
    assert IsAt(s.board, p, At(i));
    SeenIsReached(answer, s.board, p);
    ReachedWithoutLoss(answer, GivenUp(s.board.log), p);
  }

  /** The exception that treating one line raises is called for by that line. */
  lemma LineRaises(answer: Path -> Payload, s: State, i: nat, lines: seq<Line>, rss: nat)
    requires ReadingOk(answer, s, i, lines) && lines != [] && s.abort.None? && s.workers[i].proc.Some?
    ensures var abort := OnLine(s, i, lines[0], rss).abort;
            || abort.None? || (abort == Some(WorkerError) && lines[0].BootError?)
            || (abort == Some(FatalResponse) && IsFatal(answer, lines[0]))
  {
    hide Sound, SoloOk, ExitOk, Reached;
    assert (lines + s.workers[i].proc.value.outbox)[0] == lines[0];
    if Running(s.workers[i]) {
      RunningIsReached(answer, s, i);
    }
  }

  lemma {:induction false} LinesRaise(answer: Path -> Payload, s: State, i: nat, lines: seq<Line>, rss: nat)
    requires ReadingOk(answer, s, i, lines) && s.abort.None?
    ensures var abort := OnLines(s, i, lines, rss).abort;
            || abort.None? || (abort == Some(WorkerError) && BootError in lines)
            || (abort == Some(FatalResponse) && exists l :: l in lines && IsFatal(answer, l))
    decreases |lines|
  {
    hide Sound, SoloOk, ExitOk, Agrees, IsFatal;
    if lines != [] && s.workers[i].proc.Some? {
      LineRaises(answer, s, i, lines, rss);
      OnLineOk(answer, s, i, lines, rss);
      var s1 := OnLine(s, i, lines[0], rss);
      if s1.abort.None? {
        LinesRaise(answer, s1, i, lines[1..], rss);
      } else {
        assert OnLines(s1, i, lines[1..], rss) == s1;
      }
    }
  }

  /** Every exception has its cause: a worker that reported that it cannot start, a
      fatal answer for a path that is there, or a kill that came too late. */
  lemma ExceptionsHaveCauses(answer: Path -> Payload, y: Sys, e: Event)
    requires Inv(answer, y) && Can(y, e) && Step(answer, y, e).s.abort.Some?
    ensures e.Read?
    ensures var w := y.s.workers[y.at.idx];
            match Step(answer, y, e).s.abort.value
            case WorkerError => BootError in w.proc.value.outbox[..e.n]
            case FatalResponse => exists l :: l in w.proc.value.outbox[..e.n] && IsFatal(answer, l)
            case WorkerExited => e.eof && KilledTooLate(w)
            case UnexpectedLine => false
  {
    hide Sound, Agrees, IsFatal;
    ExitedExactlyWhenTooLate(answer, y, e);
    StepInv(answer, y, e);
    match e
    case Slot(x) => SlotKeepsAgreement(answer, y.s, y.at.idx, y.at.spawnable, x);
    case Read(n, eof, rss) =>
      var i := y.at.idx;
      var p := y.s.workers[i].proc.value;
      SetProcSane(y.s, i, p.(outbox := p.outbox[n..]));
      assert SlotAgrees(answer, y.s.workers[i]);
      PoppedAgrees(answer, y.s.workers[i], n);
      LinesRaise(answer, SetProc(y.s, i, p.(outbox := p.outbox[n..])), i, p.outbox[..n], rss);
    case _ =>
  }

  predicate FatalLine(line: Line) {
    line.Answer? && line.payload.Error? && line.payload.fatal
  }

  /** What calls for an exception comes first on the way from a worker. */
  lemma TroubleFirst(answer: Path -> Payload, w: Worker, l: Line)
    requires w.proc.Some? && SlotAgrees(answer, w) && !w.phase.Killed? && l in w.proc.value.outbox
    ensures l.BootError? ==> w.phase.Starting? && w.proc.value.outbox[0] == l
    ensures FatalLine(l) ==> w.phase.Busy? && w.proc.value.outbox[0] == l
  {
    var outbox := w.proc.value.outbox;
    assert outbox == [outbox[0]] + outbox[1..];
  }

  lemma FirstLineEnds(s: State, i: nat, lines: seq<Line>, rss: nat)
    requires i < |s.workers| == |s.board.held| && s.workers[i].proc.Some? && s.abort.None? && lines != []
    requires OnLine(s, i, lines[0], rss).abort.Some?
    ensures OnLines(s, i, lines, rss) == OnLine(s, i, lines[0], rss)
  {
    assert OnLines(OnLine(s, i, lines[0], rss), i, lines[1..], rss) == OnLine(s, i, lines[0], rss);
  }

  lemma TroubleRaises(answer: Path -> Payload, y: Sys, n: nat, eof: bool, rss: nat, l: Line)
    requires Inv(answer, y) && Can(y, Read(n, eof, rss)) && !y.s.workers[y.at.idx].phase.Killed?
    requires l in y.s.workers[y.at.idx].proc.value.outbox[..n] && (l.BootError? || FatalLine(l))
    ensures Step(answer, y, Read(n, eof, rss)).s.abort == Some(if l.BootError? then WorkerError else FatalResponse)
  {
    hide Sound, Agrees, Sane, Respond;
    var i := y.at.idx;
    var p := y.s.workers[i].proc.value;
    assert SlotAgrees(answer, y.s.workers[i]);
    TroubleFirst(answer, y.s.workers[i], l);
    assert p.outbox[..n][0] == p.outbox[0];
    FirstLineEnds(SetProc(y.s, i, p.(outbox := p.outbox[n..])), i, p.outbox[..n], rss);
  }

  /** A run ends by an exception exactly when a read finds one of three things: from a worker
      that the collector has not killed, the report that it cannot start, or a fatal
      answer; or the end of the pipe of one that it killed too late. */
  lemma ExceptionsExactly(answer: Path -> Payload, y: Sys, e: Event)
    requires Inv(answer, y) && Can(y, e)
    ensures Step(answer, y, e).s.abort == Some(WorkerError) <==>
      e.Read? && !y.s.workers[y.at.idx].phase.Killed? && BootError in y.s.workers[y.at.idx].proc.value.outbox[..e.n]
    ensures Step(answer, y, e).s.abort == Some(FatalResponse) <==>
      e.Read? && !y.s.workers[y.at.idx].phase.Killed? &&
      exists l :: l in y.s.workers[y.at.idx].proc.value.outbox[..e.n] && FatalLine(l)
    ensures Step(answer, y, e).s.abort == Some(WorkerExited) <==>
      e.Read? && e.eof && KilledTooLate(y.s.workers[y.at.idx])
    ensures Step(answer, y, e).s.abort != Some(UnexpectedLine)
  {
    hide Inv, Step, IsFatal, KilledTooLate, Reached;
    ExitedExactlyWhenTooLate(answer, y, e);
    if Step(answer, y, e).s.abort.Some? {
      ExceptionsHaveCauses(answer, y, e);
      FatalIsFatal(answer);
      if y.s.workers[y.at.idx].phase.Killed? {
        KilledRaisesNone(answer, y, e);
      }
    }
    if e.Read? && !y.s.workers[y.at.idx].phase.Killed? {
      forall l | l in y.s.workers[y.at.idx].proc.value.outbox[..e.n] && (l.BootError? || FatalLine(l))
        ensures Step(answer, y, e).s.abort == Some(if l.BootError? then WorkerError else FatalResponse)
      {
        TroubleRaises(answer, y, e.n, e.eof, e.rss, l);
      }
    }
  }

  lemma FatalIsFatal(answer: Path -> Payload)
    ensures forall l :: IsFatal(answer, l) ==> FatalLine(l)
  {}

  lemma KilledRaisesNone(answer: Path -> Payload, y: Sys, e: Event)
    requires Inv(answer, y) && Can(y, e) && e.Read? && y.s.workers[y.at.idx].phase.Killed?
    ensures Step(answer, y, e).s.abort in {None, Some(WorkerExited)}
  {
    hide Sound, Agrees, Sane;
    var i := y.at.idx;
    var p := y.s.workers[i].proc.value;
    KilledLinesDropped(SetProc(y.s, i, p.(outbox := p.outbox[e.n..])), i, p.outbox[..e.n], e.rss);
  }

  // ---- States in which nothing is wrong --------------------------------------------

  /** No report of a failed start is on the way, and the worker was not killed too
      late. */
  predicate WellSlot(w: Worker) {
    w.proc.Some? ==> BootError !in w.proc.value.outbox && !KilledTooLate(w)
  }

  ghost predicate Well(answer: Path -> Payload, s: State) {
    && s.abort.None?
    && (forall p :: !FatalAnswer(answer, p))
    && (forall i | 0 <= i < |s.workers| :: WellSlot(s.workers[i]))
  }

  /** Events that bring no trouble with them. */
  predicate Harmless(e: Event) {
    !e.Sample? && !e.KernelKills? && !(e.ProcessActs? && e.act.GiveUp?)
  }

  lemma SlotWell(answer: Path -> Payload, y: Sys, x: SlotInput)
    requires Inv(answer, y) && Can(y, Slot(x)) && Well(answer, y.s)
    ensures Well(answer, Step(answer, y, Slot(x)).s)
  {
    hide Sound, FatalAnswer, Agrees;
    SlotKeepsAgreement(answer, y.s, y.at.idx, y.at.spawnable, x);
    var s' := Step(answer, y, Slot(x)).s;
    forall i | 0 <= i < |s'.workers|
      ensures WellSlot(s'.workers[i])
    {
      assert WellSlot(y.s.workers[i]);
      SlotKeepsTooLate(y.s, y.at.idx, y.at.spawnable, x, i);
    }
  }

  lemma ReadNotAborted(answer: Path -> Payload, y: Sys, n: nat, eof: bool, rss: nat)
    requires Inv(answer, y) && Can(y, Read(n, eof, rss)) && Well(answer, y.s)
    ensures Step(answer, y, Read(n, eof, rss)).s.abort.None?
  {
    hide Inv, FatalAnswer;
    var e := Read(n, eof, rss);
    var w := y.s.workers[y.at.idx];
    assert WellSlot(w);
    var p := w.proc.value;
    assert forall l :: l in p.outbox[..n] ==> l in p.outbox;
    assert forall l :: !IsFatal(answer, l);
    if Step(answer, y, e).s.abort.Some? {
      ExceptionsHaveCauses(answer, y, e);
    }
  }

  lemma ReadWell(answer: Path -> Payload, y: Sys, n: nat, eof: bool, rss: nat)
    requires Inv(answer, y) && Can(y, Read(n, eof, rss)) && Well(answer, y.s)
    ensures Well(answer, Step(answer, y, Read(n, eof, rss)).s)
  {
    hide Sound, FatalAnswer, Agrees, Sane, AllAgree;
    ReadNotAborted(answer, y, n, eof, rss);
    var k := y.at.idx;
    var p := y.s.workers[k].proc.value;
    var s0 := SetProc(y.s, k, p.(outbox := p.outbox[n..]));
    PhaseKilledStays(s0, k, p.outbox[..n], rss);
    OnLinesFrame(s0, k, p.outbox[..n], rss);
    assert WellSlot(y.s.workers[k]);
    assert forall l :: l in p.outbox[n..] ==> l in p.outbox;
    var s' := Step(answer, y, Read(n, eof, rss)).s;
    forall i | 0 <= i < |s'.workers|
      ensures WellSlot(s'.workers[i])
    {
      assert i != k ==> WellSlot(y.s.workers[i]);
    }
  }

  /** Without a failed start, a memory sample or the kernel's help nothing goes
      wrong. */
  lemma HarmlessStepWell(answer: Path -> Payload, y: Sys, e: Event)
    requires Inv(answer, y) && Can(y, e) && Well(answer, y.s) && Harmless(e)
    ensures Well(answer, Step(answer, y, e).s)
  {
    hide Sound, FatalAnswer, Sane;
    match e
    case Slot(x) => SlotWell(answer, y, x);
    case Read(n, eof, rss) => ReadWell(answer, y, n, eof, rss);
    case ProcessActs(i, act) =>
      assert WellSlot(y.s.workers[i]) && SlotAgrees(answer, y.s.workers[i]);
    case _ =>
  }

  // ---- A run that ends so ------------------------------------------------------

  /** No worker fails to start and the kernel kills nobody. */
  predicate WorkersDoWell(es: seq<Event>) {
    forall k | 0 <= k < |es| :: !es[k].KernelKills? && !(es[k].ProcessActs? && es[k].act.GiveUp?)
  }

  lemma OneMore(answer: Path -> Payload, y: Sys, es: seq<Event>, e: Event) returns (es': seq<Event>)
    requires Runs(answer, y, es) && Can(After(answer, y, es), e)
    requires WorkersDoWell(es) && !e.KernelKills? && !(e.ProcessActs? && e.act.GiveUp?)
    ensures Runs(answer, y, es') && After(answer, y, es') == Step(answer, After(answer, y, es), e) && WorkersDoWell(es')
  {
    hide Can, Step;
    es' := es + [e];
    var z := After(answer, y, es);
    OneStep(answer, z, e);
    RunsJoin(answer, y, es, [e]);
  }

  function Single(process: Process, phase: Phase, job: Option<Path>): seq<Worker> {
    [Worker(Some(process), phase, job, 0, 0)]
  }

  /** One worker and a budget of 4096 MiB: a process is started. */
  lemma WorkerStarts(answer: Path -> Payload, y: Sys) returns (es: seq<Event>)
    requires y == Init(1, 4096, 0)
    ensures Runs(answer, y, es) && WorkersDoWell(es)
    ensures After(answer, y, es) == y.(at := Polling, s := y.s.(workers := Single(SPAWNED, Starting, None)))
  {
    assert y.s.workers == [NO_WORKER];
    assert WorkersDoWell([]);
    hide WorkersDoWell;
    es := OneMore(answer, y, [], Begin);
    assert After(answer, y, es) == y.(at := Slots(0, 1));
    es := OneMore(answer, y, es, Slot(SlotInput([], true, 0, 0)));
  }

  /** It says that it is ready. */
  lemma WorkerBoots(answer: Path -> Payload, y: Sys) returns (es: seq<Event>)
    requires y.s.abort.None? && y.at.Polling? && |y.s.board.held| == 1
    requires y.s.workers == Single(SPAWNED, Starting, None)
    ensures Runs(answer, y, es) && WorkersDoWell(es)
    ensures After(answer, y, es) ==
      y.(at := Reading(0, {0}), s := y.s.(workers := Single(Process(Waiting, [], [Next], 0), Starting, None)))
  {
    assert WorkersDoWell([]);
    hide WorkersDoWell;
    es := OneMore(answer, y, [], ProcessActs(0, SayNext));
    assert SPAWNED.outbox + [Next] == [Next];
    assert After(answer, y, es) == y.(s := y.s.(workers := Single(Process(Waiting, [], [Next], 0), Starting, None)));
    es := OneMore(answer, y, es, Poll({0}));
    es := OneMore(answer, y, es, NoSample);
  }

  /** That is heard. */
  lemma WorkerHeard(answer: Path -> Payload, y: Sys) returns (es: seq<Event>)
    requires y.s.abort.None? && y.at == Reading(0, {0}) && |y.s.board.held| == 1
    requires y.s.workers == Single(Process(Waiting, [], [Next], 0), Starting, None)
    ensures Runs(answer, y, es) && WorkersDoWell(es)
    ensures After(answer, y, es) == y.(at := Top, s := y.s.(workers := Single(Process(Waiting, [], [], 0), Idle, None)))
  {
    assert WorkersDoWell([]);
    hide WorkersDoWell;
    assert [Next][..1] == [Next] && [Next][1..] == [];
    es := OneMore(answer, y, [], Read(1, false, 0));
  }

  /** It is given the root. */
  lemma RootHandedOut(answer: Path -> Payload, y: Sys) returns (es: seq<Event>)
    requires y == Init(1, 4096, 0).(s :=
      Init(1, 4096, 0).s.(workers := Single(Process(Waiting, [], [], 0), Idle, None)))
    ensures Runs(answer, y, es) && WorkersDoWell(es)
    ensures After(answer, y, es) == y.(at := Polling, s := y.s.(board := TakeTodo(y.s.board, 0, []),
              workers := Single(Process(Waiting, [Do([])], [], 1), Busy, Some([]))))
  {
    assert WorkersDoWell([]);
    hide WorkersDoWell;
    es := OneMore(answer, y, [], Begin);
    assert After(answer, y, es) == y.(at := Slots(0, 0));
    es := OneMore(answer, y, es, Slot(SlotInput([], true, 0, 0)));
    assert [] + [Do([])] == [Do([])];
    assert After(answer, y, es).s.workers == Single(Process(Waiting, [Do([])], [], 1), Busy, Some([]));
  }

  /** It answers and has grown too large. */
  lemma RootAnswered(answer: Path -> Payload, y: Sys) returns (es: seq<Event>)
    requires y.s.board.held == [Some([])] && y.s.abort.None? && y.at.Polling?
    requires y.s.workers == Single(Process(Waiting, [Do([])], [], 1), Busy, Some([]))
    ensures Runs(answer, y, es) && WorkersDoWell(es)
    ensures After(answer, y, es) ==
      y.(s := y.s.(workers := Single(Process(Leaving, [], [Answer([], answer([]))], 1), Busy, Some([]))))
  {
    assert WorkersDoWell([]);
    hide WorkersDoWell;
    es := OneMore(answer, y, [], ProcessActs(0, Take));
    assert [Do([])][1..] == [];
    assert After(answer, y, es).s.workers == Single(Process(Working([]), [], [], 1), Busy, Some([]));
    es := OneMore(answer, y, es, ProcessActs(0, Say(true)));
    assert [] + [Answer([], answer([]))] == [Answer([], answer([]))];
    assert After(answer, y, es).s.workers == Single(Process(Leaving, [], [Answer([], answer([]))], 1), Busy, Some([]));
  }

  /** It says so and ends. */
  lemma WorkerEnds(answer: Path -> Payload, y: Sys) returns (es: seq<Event>)
    requires y.s.board.held == [Some([])] && y.s.abort.None? && y.at.Polling?
    requires y.s.workers == Single(Process(Leaving, [], [Answer([], answer([]))], 1), Busy, Some([]))
    ensures Runs(answer, y, es) && WorkersDoWell(es)
    ensures After(answer, y, es) ==
      y.(s := y.s.(workers := Single(Process(Exited, [], [Answer([], answer([])), Restart], 1), Busy, Some([]))))
  {
    assert WorkersDoWell([]);
    hide WorkersDoWell;
    es := OneMore(answer, y, [], ProcessActs(0, SayRestart));
    assert [Answer([], answer([]))] + [Restart] == [Answer([], answer([])), Restart];
    assert After(answer, y, es).s.workers ==
      Single(Process(Closing, [], [Answer([], answer([])), Restart], 1), Busy, Some([]));
    es := OneMore(answer, y, es, ProcessActs(0, End));
    assert After(answer, y, es).s.workers ==
      Single(Process(Exited, [], [Answer([], answer([])), Restart], 1), Busy, Some([]));
  }

  /** Only then the collector, which has grown itself, finds the budget exceeded and
      kills it; a process that has ended uses no memory any more. */
  lemma TooLarge(y: Sys)
    requires y.at == Polled({0}) && y.s.budget == 4096 && y.s.abort.None? && y.s.board.held == [Some([])]
    requires |y.s.workers| == 1 && y.s.workers[0].phase.Busy? && y.s.workers[0].proc.Some?
    ensures Can(y, Sample([0], 5000))
    ensures var s' := SampleMemory(y.s, [0], 5000);
            && |s'.workers| == 1 && s'.workers[0].phase.Killed?
            && s'.workers[0].proc == Some(Kill(y.s.workers[0].proc.value))
            && s'.board == y.s.board && s'.abort == y.s.abort
  {
    var ws := Sampled(y.s.workers, [0]);
    assert ws[..0] == [] && ws[0].phase.Busy? && ws[0].rss == 0;
    assert Victim(ws) == Some(0);
    assert TotalRss(ws) == 0;
  }

  lemma WorkerKilled(answer: Path -> Payload, y: Sys) returns (es: seq<Event>)
    requires y.s.board.held == [Some([])] && y.s.budget == 4096 && y.s.abort.None? && y.at.Polling?
    requires y.s.workers == Single(Process(Exited, [], [Answer([], answer([])), Restart], 1), Busy, Some([]))
    ensures Runs(answer, y, es) && WorkersDoWell(es)
    ensures var y' := After(answer, y, es);
            && y'.at == Reading(0, {0}) && y'.s.abort.None? && |y'.s.board.held| == 1
            && |y'.s.workers| == 1 && y'.s.workers[0].phase.Killed? && y'.s.workers[0].proc == y.s.workers[0].proc
  {
    assert WorkersDoWell([]);
    hide WorkersDoWell, SampleMemory;
    es := OneMore(answer, y, [], Poll({0}));
    TooLarge(After(answer, y, es));
    es := OneMore(answer, y, es, Sample([0], 5000));
  }

  lemma WorkerRead(answer: Path -> Payload, y: Sys) returns (es: seq<Event>)
    requires y.at == Reading(0, {0}) && y.s.abort.None? && |y.s.board.held| == |y.s.workers| == 1
    requires y.s.workers[0].phase.Killed?
    requires y.s.workers[0].proc == Some(Process(Exited, [], [Answer([], answer([])), Restart], 1))
    ensures Runs(answer, y, es) && WorkersDoWell(es) && After(answer, y, es).s.abort == Some(WorkerExited)
  {
    assert WorkersDoWell([]);
    hide WorkersDoWell, OnLines;
    var p := y.s.workers[0].proc.value;
    KilledLinesDropped(SetProc(y.s, 0, p.(outbox := p.outbox[2..])), 0, p.outbox[..2], 0);
    es := OneMore(answer, y, [], Read(2, true, 0));
  }

  /** Hence an evaluation in which every worker does as it should can end by an
      exception. */
  lemma HealthyRunCanAbort(answer: Path -> Payload)
    ensures exists es, y ::
      Reachable(answer, 1, 4096, 0, es, y) && WorkersDoWell(es) && y.s.abort == Some(WorkerExited)
  {
    hide Step, Can, Reachable;
    var y := Init(1, 4096, 0);
    var es := WorkerStarts(answer, y);
    var es1 := WorkerBoots(answer, After(answer, y, es));
    RunsJoin(answer, y, es, es1);
    es := es + es1;
    es1 := WorkerHeard(answer, After(answer, y, es));
    RunsJoin(answer, y, es, es1);
    es := es + es1;
    es1 := RootHandedOut(answer, After(answer, y, es));
    RunsJoin(answer, y, es, es1);
    es := es + es1;
    es1 := RootAnswered(answer, After(answer, y, es));
    RunsJoin(answer, y, es, es1);
    es := es + es1;
    es1 := WorkerEnds(answer, After(answer, y, es));
    RunsJoin(answer, y, es, es1);
    es := es + es1;
    es1 := WorkerKilled(answer, After(answer, y, es));
    RunsJoin(answer, y, es, es1);
    es := es + es1;
    es1 := WorkerRead(answer, After(answer, y, es));
    RunsJoin(answer, y, es, es1);
    IsReachable(answer, es + es1);
  }

  lemma IsReachable(answer: Path -> Payload, es: seq<Event>)
    requires Runs(answer, Init(1, 4096, 0), es)
    ensures Reachable(answer, 1, 4096, 0, es, After(answer, Init(1, 4096, 0), es))
  {}
}
