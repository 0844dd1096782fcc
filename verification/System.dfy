/** The scheduler's event loop together with its worker processes, in any
    interleaving: processes act, the kernel kills, and the collector takes the
    steps of `run` one slot or one read at a time. */
module System {
  import opened Wrappers
  import opened Ledger
  import opened Workers
  import opened Collector
  import opened Discipline

  /** Where the collector is in its loop: at the top; dispatching, with a slot
      next and so many workers still to start; back from poll(2), with the
      slots that are ready; or reading, with a slot next. */
  datatype Point =
    | Top
    | Slots(idx: nat, spawnable: nat)
    | Polling
    | Polled(ready: set<nat>)
    | Reading(idx: nat, ready: set<nat>)

  /** `oom` bounds how many more processes the kernel kills. */
  datatype Sys = Sys(s: State, at: Point, oom: nat)

  datatype Event =
    | Begin
    | Slot(x: SlotInput)
    | Poll(ready: set<nat>)
    | Sample(sizes: seq<nat>, own: nat)
    | NoSample
    | Read(n: nat, eof: bool, rss: nat)
    | Skip
    | ProcessActs(i: nat, act: Act)
    | KernelKills(i: nat)

  ghost function Init(n: nat, budget: nat, oom: nat): Sys {
    Sys(State(Start(n), budget, INITIAL_ESTIMATE, seq(n, _ => NO_WORKER), None), Top, oom)
  }

  /** The loop of `run` ends. */
  predicate Terminated(y: Sys) {
    y.at.Top? && Finished(y.s) && !AnyAlive(y.s.workers) && y.s.abort.None?
  }

  function SlotsFrom(idx: nat, n: nat, spawnable: nat): Point { if idx < n then Slots(idx, spawnable) else Polling }

  function ReadFrom(idx: nat, n: nat, ready: set<nat>): Point { if idx < n then Reading(idx, ready) else Top }

  ghost predicate Can(y: Sys, e: Event) {
    && y.s.abort.None? && |y.s.board.held| == |y.s.workers|
    && match e
       case Begin => y.at.Top? && !Terminated(y)
       case Slot(x) => y.at.Slots? && y.at.idx < |y.s.workers| && InputFits(y.s, y.at.idx, x)
         && SoloHasWork(y.s) && (y.s.workers[y.at.idx].phase.Idle? ==> Alive(y.s, y.at.idx))
       case Poll(ready) => y.at.Polling? && forall i | i in ready :: Alive(y.s, i)
       case Sample(rss, own) => y.at.Polled? && |rss| == |y.s.workers|
         && forall i | 0 <= i < |y.s.workers| && y.s.workers[i].phase.Busy? :: Alive(y.s, i)
       case NoSample => y.at.Polled?
       case Read(n, eof, rss) => y.at.Reading? && y.at.idx in y.at.ready && Alive(y.s, y.at.idx)
         && var p := y.s.workers[y.at.idx].proc.value;
            n <= |p.outbox| && (eof ==> Gone(p) && n == |p.outbox|)
       case Skip => y.at.Reading? && y.at.idx !in y.at.ready
       case ProcessActs(i, act) => Alive(y.s, i) && CanAct(y.s.workers[i].proc.value, act)
       case KernelKills(i) => Alive(y.s, i) && !Ended(y.s.workers[i].proc.value) && y.oom > 0
  }

  ghost function Step(answer: Path -> Payload, y: Sys, e: Event): Sys
    requires Can(y, e)
  {
    var n := |y.s.workers|;
    match e
    case Begin =>
      var s := BeginDispatch(y.s);
      y.(s := s, at := SlotsFrom(0, n, Spawnable(s)))
    case Slot(x) =>
      var (s, spawnable) := DispatchSlot(y.s, y.at.idx, y.at.spawnable, x);
      y.(s := s, at := SlotsFrom(y.at.idx + 1, n, spawnable))
    case Poll(ready) => y.(at := Polled(ready))
    case Sample(rss, own) => y.(s := SampleMemory(y.s, rss, own), at := ReadFrom(0, n, y.at.ready))
    case NoSample => y.(at := ReadFrom(0, n, y.at.ready))
    case Read(k, eof, rss) =>
      y.(s := ReadPipe(y.s, y.at.idx, k, eof, rss), at := ReadFrom(y.at.idx + 1, n, y.at.ready))
    case Skip => y.(at := ReadFrom(y.at.idx + 1, n, y.at.ready))
    case ProcessActs(i, act) => y.(s := SetProc(y.s, i, ActOf(answer, y.s.workers[i].proc.value, act)))
    case KernelKills(i) => y.(s := SetProc(y.s, i, Kill(y.s.workers[i].proc.value)), oom := y.oom - 1)
  }

  ghost predicate Runs(answer: Path -> Payload, y: Sys, es: seq<Event>)
    decreases |es|
  {
    es == [] || (Can(y, es[0]) && Runs(answer, Step(answer, y, es[0]), es[1..]))
  }

  ghost function After(answer: Path -> Payload, y: Sys, es: seq<Event>): Sys
    requires Runs(answer, y, es)
    decreases |es|
  {
    if es == [] then y else After(answer, Step(answer, y, es[0]), es[1..])
  }

  // ---- The protocol ----------------------------------------------------------

  /** What can be on the way from a process that has answered. */
  predicate Continues(control: Control, outbox: seq<Line>) {
    || (outbox == [] && (control.Ready? || control.Leaving? || control.Shot?))
    || (outbox == [Next] && (control.Waiting? || control.Shot?))
    || (outbox == [Restart] && (control.Closing? || control.Exited? || control.Shot?))
  }

  /** What can be on the way from a process that was just started. */
  predicate Boots(control: Control, outbox: seq<Line>) {
    || (outbox == [] && control.Booting?)
    || (outbox == [BootError] && (control.Leaving? || control.Shot?))
    || (outbox == [BootError, Restart] && (control.Closing? || control.Exited? || control.Shot?))
  }

  /** The collector's view of a worker and the state of the process fit, with
      `outbox` on the way to the collector. */
  predicate Agrees(answer: Path -> Payload, w: Worker, outbox: seq<Line>) {
    w.proc.None? || (
      var c, inbox := w.proc.value.control, w.proc.value.inbox;
      match w.phase
      case NoProc => false
      case Starting => inbox == [] && (Continues(c, outbox) || Boots(c, outbox))
      case Idle => inbox == [] && outbox == [] && (c.Waiting? || c.Shot?)
      case Busy =>
        && w.attrPath.Some?
        && var p := w.attrPath.value;
           if outbox == [] then
             || (inbox == [Do(p)] && (c.Waiting? || c.Shot?))
             || (inbox == [] && (c == Working(p) || c.Shot?))
           else inbox == [] && outbox[0] == Answer(p, answer(p)) && Continues(c, outbox[1..])
      case Killed => Ended(w.proc.value) && |outbox| <= 2
      case Exiting =>
        outbox == [] && ((inbox == [Exit] && (c.Waiting? || c.Shot?)) || (inbox == [] && Gone(w.proc.value))))
  }

  predicate SlotAgrees(answer: Path -> Payload, w: Worker) {
    w.proc.Some? ==> Agrees(answer, w, w.proc.value.outbox)
  }

  ghost predicate AllAgree(answer: Path -> Payload, s: State) {
    forall i | 0 <= i < |s.workers| :: SlotAgrees(answer, s.workers[i])
  }

  ghost predicate PointOk(y: Sys) {
    match y.at
    case Slots(idx, spawnable) => idx < |y.s.workers| && RoomFor(y.s, spawnable)
    case Polled(ready) => forall i | i in ready :: Alive(y.s, i)
    case Reading(idx, ready) => idx < |y.s.workers| && forall i | i in ready && i >= idx :: Alive(y.s, i)
    case _ => true
  }

  ghost predicate Inv(answer: Path -> Payload, y: Sys) {
    && y.s.abort != Some(UnexpectedLine)
    && (y.s.abort.None? ==> Sane(y.s) && AllAgree(answer, y.s) && Sound(answer, y.s.board) && PointOk(y))
  }

  // ---- Steps of processes ------------------------------------------------------

  lemma ActAgrees(answer: Path -> Payload, w: Worker, act: Act)
    requires w.proc.Some? && CanAct(w.proc.value, act) && SlotAgrees(answer, w)
    ensures SlotAgrees(answer, w.(proc := Some(ActOf(answer, w.proc.value, act))))
  {}

  lemma ProcessActsInv(answer: Path -> Payload, y: Sys, i: nat, act: Act)
    requires Inv(answer, y) && Can(y, ProcessActs(i, act))
    ensures Inv(answer, Step(answer, y, ProcessActs(i, act)))
  {
    hide Sound, Agrees;
    ActAgrees(answer, y.s.workers[i], act);
    SetProcSane(y.s, i, ActOf(answer, y.s.workers[i].proc.value, act));
  }

  lemma KernelKillsInv(answer: Path -> Payload, y: Sys, i: nat)
    requires Inv(answer, y) && Can(y, KernelKills(i))
    ensures Inv(answer, Step(answer, y, KernelKills(i)))
  {
    hide Sound;
    SetProcSane(y.s, i, Kill(y.s.workers[i].proc.value));
  }

  // ---- Steps of the collector ---------------------------------------------------

  lemma NoneHeldIfNoneRunning(s: State)
    requires Shaped(s) && NoneRunning(s.workers)
    ensures NoneHeld(s.board)
  {
    forall i | 0 <= i < |s.board.held|
      ensures s.board.held[i].None?
    {
      assert SlotShaped(s.workers[i], s.board.held[i]);
    }
  }

  lemma BeginInv(answer: Path -> Payload, y: Sys)
    requires Inv(answer, y) && Can(y, Begin)
    ensures Inv(answer, Step(answer, y, Begin))
  {
    BeginDispatchSane(y.s);
    if NoneRunning(y.s.workers) {
      NoneHeldIfNoneRunning(y.s);
    }
    ModeSound(answer, y.s.board, BeginDispatch(y.s).board.mode);
  }

  /** A job that is killed is struck off; a worker that runs nothing and is killed
      leaves the account alone, and in solo mode nothing else runs. */
  lemma OnKilledSound(answer: Path -> Payload, s: State, i: nat)
    requires Shaped(s) && SoloOk(s) && Sound(answer, s.board) && Alive(s, i)
    ensures Sound(answer, OnKilled(s, i).board)
  {
    hide Sound;
    assert SlotShaped(s.workers[i], s.board.held[i]);
    if Running(s.workers[i]) {
      StrikeSound(answer, s.board, i, s.workers[i].attrPath.value);
    } else {
      if s.board.mode == Solo {
        assert forall j | 0 <= j < |s.workers| && j != i ::
          s.workers[j].proc.None? && SlotShaped(s.workers[j], s.board.held[j]);
        NoneHeldIfNoneRunning(s);
      }
      ModeSound(answer, s.board, Parallel);
    }
  }

  lemma HandOutSound(answer: Path -> Payload, s: State, i: nat, x: SlotInput)
    requires Sane(s) && Sound(answer, s.board) && i < |s.workers| && InputFits(s, i, x)
    requires s.workers[i].phase.Idle? && CanTake(s, x.own)
    ensures SoloHasWork(s) && Sound(answer, HandOut(s, i, x.pick).board)
  {
    assert SlotShaped(s.workers[i], s.board.held[i]);
    if s.board.mode == Solo {
      NoneHeldIfNoneRunning(s);
      TakeSoloSound(answer, s.board, i);
    } else {
      TakeTodoSound(answer, s.board, i, x.pick);
    }
  }

  lemma FailedHandOutSound(answer: Path -> Payload, s: State, i: nat, x: SlotInput)
    requires Sane(s) && Sound(answer, s.board) && i < |s.workers| && InputFits(s, i, x)
    requires s.workers[i].phase.Idle? && CanTake(s, x.own)
    ensures Sound(answer, OnKilled(HandOut(s, i, x.pick), i).board)
  {
    hide Sound;
    HandOutSound(answer, s, i, x);
    var s1 := HandOut(s, i, x.pick);
    StrikeSound(answer, s1.board, i, JobFor(s, x.pick));
  }

  lemma SlotSound(answer: Path -> Payload, s: State, i: nat, spawnable: nat, x: SlotInput)
    requires Sane(s) && Sound(answer, s.board) && i < |s.workers| && InputFits(s, i, x)
    ensures SoloHasWork(s)
    ensures var s' := DispatchSlot(s, i, spawnable, x).0;
            s'.abort == s.abort ==> Sound(answer, s'.board)
  {
    hide Sound;
    if s.workers[i].phase.Idle? && !Finished(s) && CanTake(s, x.own) {
      HandOutSound(answer, s, i, x);
      FailedHandOutSound(answer, s, i, x);
    }
  }

  lemma SlotKeepsAgreement(answer: Path -> Payload, s: State, i: nat, spawnable: nat, x: SlotInput)
    requires Sane(s) && AllAgree(answer, s) && s.abort.None? && i < |s.workers| && InputFits(s, i, x)
    ensures SoloHasWork(s)
    ensures var s' := DispatchSlot(s, i, spawnable, x).0;
            AllAgree(answer, s') && s'.abort.None? && |s'.workers| == |s.workers|
  {
    assert SlotAgrees(answer, s.workers[i]);
  }

  lemma SlotInv(answer: Path -> Payload, y: Sys, x: SlotInput)
    requires Inv(answer, y) && Can(y, Slot(x))
    ensures Inv(answer, Step(answer, y, Slot(x)))
  {
    hide Sound, AllAgree, Sane;
    SlotKeepsAgreement(answer, y.s, y.at.idx, y.at.spawnable, x);
    DispatchSlotSane(y.s, y.at.idx, y.at.spawnable, x);
    SlotSound(answer, y.s, y.at.idx, y.at.spawnable, x);
  }

  lemma SampleInv(answer: Path -> Payload, y: Sys, rss: seq<nat>, own: nat)
    requires Inv(answer, y) && Can(y, Sample(rss, own))
    ensures Inv(answer, Step(answer, y, Sample(rss, own)))
  {
    hide Sound;
    SampleMemorySane(y.s, rss, own);
    var s' := SampleMemory(y.s, rss, own);
    forall i | 0 <= i < |s'.workers|
      ensures SlotAgrees(answer, s'.workers[i])
      ensures s'.workers[i].proc.Some? == y.s.workers[i].proc.Some?
    {
      assert SlotAgrees(answer, y.s.workers[i]);
    }
  }

  // ---- Reading -------------------------------------------------------------------

  /** All that holds while the lines of a read are treated, with `rest` read and
      not yet treated. */
  ghost predicate ReadingOk(answer: Path -> Payload, s: State, i: nat, rest: seq<Line>) {
    && Sane(s) && Sound(answer, s.board) && i < |s.workers|
    && (s.workers[i].proc.Some? ==> Agrees(answer, s.workers[i], rest + s.workers[i].proc.value.outbox))
    && (forall j | 0 <= j < |s.workers| && j != i :: SlotAgrees(answer, s.workers[j]))
  }

  lemma OnLineOk(answer: Path -> Payload, s: State, i: nat, lines: seq<Line>, rss: nat)
    requires ReadingOk(answer, s, i, lines) && lines != [] && s.abort.None? && s.workers[i].proc.Some?
    ensures var s' := OnLine(s, i, lines[0], rss);
            && s'.abort != Some(UnexpectedLine) && s'.abort != Some(WorkerExited)
            && (s'.abort.None? ==> ReadingOk(answer, s', i, lines[1..]))
            && (forall j | 0 <= j < |s.workers| && j != i :: s'.workers[j] == s.workers[j])
  {
    hide Sound;
    var w := s.workers[i];
    var outbox := lines + w.proc.value.outbox;
    assert outbox[0] == lines[0] && outbox[1..] == lines[1..] + w.proc.value.outbox;
    OnLineSane(s, i, lines[0], rss);
    assert SlotShaped(w, s.board.held[i]);
    if w.phase.Busy? && lines[0].Answer? {
      RespondSound(answer, s.board, i, w.attrPath.value);
    }
  }

  lemma {:induction false} OnLinesOk(answer: Path -> Payload, s: State, i: nat, lines: seq<Line>, rss: nat)
    requires ReadingOk(answer, s, i, lines) && s.abort.None?
    ensures var s' := OnLines(s, i, lines, rss);
            && s'.abort != Some(UnexpectedLine) && s'.abort != Some(WorkerExited)
            && (s'.abort.None? ==> ReadingOk(answer, s', i, []))
            && (forall j | 0 <= j < |s.workers| && j != i :: s'.workers[j] == s.workers[j])
    decreases |lines|
  {
    hide Sound, Agrees, SoloOk, ExitOk;
    if lines != [] && s.workers[i].proc.Some? {
      OnLineOk(answer, s, i, lines, rss);
      var s1 := OnLine(s, i, lines[0], rss);
      if s1.abort.None? {
        OnLinesOk(answer, s1, i, lines[1..], rss);
      } else {
        assert OnLines(s1, i, lines[1..], rss) == s1;
      }
    }
  }

  lemma OnEofOk(answer: Path -> Payload, s: State, i: nat)
    requires ReadingOk(answer, s, i, []) && s.abort.None? && Alive(s, i)
    ensures OnEof(s, i).abort.None? ==> ReadingOk(answer, OnEof(s, i), i, [])
    ensures OnEof(s, i).abort in {None, Some(WorkerExited)}
  {
    OnEofSane(s, i);
    if !s.workers[i].phase.Exiting? && !s.workers[i].proc.value.control.Exited? {
      OnKilledSound(answer, s, i);
    }
  }

  lemma ReadInv(answer: Path -> Payload, y: Sys, n: nat, eof: bool, rss: nat)
    requires Inv(answer, y) && Can(y, Read(n, eof, rss))
    ensures Inv(answer, Step(answer, y, Read(n, eof, rss)))
  {
    hide Sound, Agrees;
    var i := y.at.idx;
    var p := y.s.workers[i].proc.value;
    var s0 := SetProc(y.s, i, p.(outbox := p.outbox[n..]));
    SetProcSane(y.s, i, p.(outbox := p.outbox[n..]));
    assert SlotAgrees(answer, y.s.workers[i]);
    PoppedAgrees(answer, y.s.workers[i], n);
    OnLinesOk(answer, s0, i, p.outbox[..n], rss);
    var s1 := OnLines(s0, i, p.outbox[..n], rss);
    if s1.abort.None? {
      if eof && s1.workers[i].proc.Some? {
        OnEofOk(answer, s1, i);
        OthersKept(s1, i);
      }
      ReadingAgrees(answer, ReadWorker(s0, i, p.outbox[..n], eof, rss), i);
    }
  }

  /** Reading only moves lines from the pipe into hand. */
  lemma PoppedAgrees(answer: Path -> Payload, w: Worker, n: nat)
    requires w.proc.Some? && n <= |w.proc.value.outbox| && SlotAgrees(answer, w)
    ensures var p := w.proc.value;
            var p' := p.(outbox := p.outbox[n..]);
            Agrees(answer, w.(proc := Some(p')), p.outbox[..n] + p'.outbox)
  {
    assert w.proc.value.outbox[..n] + w.proc.value.outbox[n..] == w.proc.value.outbox;
  }

  lemma OthersKept(s: State, i: nat)
    requires Shaped(s) && Alive(s, i)
    ensures forall j | 0 <= j < |s.workers| && j != i :: OnEof(s, i).workers[j] == s.workers[j]
  {}

  lemma ReadingAgrees(answer: Path -> Payload, s: State, i: nat)
    ensures ReadingOk(answer, s, i, []) ==> AllAgree(answer, s)
  {
    if ReadingOk(answer, s, i, []) && s.workers[i].proc.Some? {
      assert [] + s.workers[i].proc.value.outbox == s.workers[i].proc.value.outbox;
    }
  }

  // ---- Every run ---------------------------------------------------------------

  lemma StepInv(answer: Path -> Payload, y: Sys, e: Event)
    requires Inv(answer, y) && Can(y, e)
    ensures Inv(answer, Step(answer, y, e))
  {
    match e
    case Begin => BeginInv(answer, y);
    case Slot(x) => SlotInv(answer, y, x);
    case Poll(ready) =>
    case Sample(rss, own) => SampleInv(answer, y, rss, own);
    case NoSample =>
    case Read(n, eof, rss) => ReadInv(answer, y, n, eof, rss);
    case Skip =>
    case ProcessActs(i, act) => ProcessActsInv(answer, y, i, act);
    case KernelKills(i) => KernelKillsInv(answer, y, i);
  }

  lemma InitInv(answer: Path -> Payload, n: nat, budget: nat, oom: nat)
    ensures Inv(answer, Init(n, budget, oom))
  {
    StartSound(answer, n);
  }

  lemma {:induction false} RunInv(answer: Path -> Payload, y: Sys, es: seq<Event>)
    requires Inv(answer, y) && Runs(answer, y, es)
    ensures Inv(answer, After(answer, y, es))
    decreases |es|
  {
    if es != [] {
      StepInv(answer, y, es[0]);
      RunInv(answer, Step(answer, y, es[0]), es[1..]);
    }
  }

  lemma {:induction false} RunsJoin(answer: Path -> Payload, y: Sys, es: seq<Event>, es': seq<Event>)
    requires Runs(answer, y, es) && Runs(answer, After(answer, y, es), es')
    ensures Runs(answer, y, es + es') && After(answer, y, es + es') == After(answer, After(answer, y, es), es')
    decreases |es|
  {
    hide Step, Can;
    if es == [] {
      assert es + es' == es';
    } else {
      RunsJoin(answer, Step(answer, y, es[0]), es[1..], es');
      assert (es + es')[1..] == es[1..] + es';
    }
  }

  lemma OneStep(answer: Path -> Payload, z: Sys, e: Event)
    requires Can(z, e)
    ensures Runs(answer, z, [e]) && After(answer, z, [e]) == Step(answer, z, e)
  {
    hide Step, Can;
    var z' := Step(answer, z, e);
    assert [e][0] == e && [e][1..] == [];
    assert After(answer, z', []) == z';
    assert After(answer, z, [e]) == After(answer, z', [e][1..]);
  }
}
