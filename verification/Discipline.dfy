/** What every step of the scheduler keeps of its own state: the phases fit the
    processes, solo mode means one fresh worker and never runs dry, and
    workers are told to exit only when all is done. */
module Discipline {
  import opened Wrappers
  import opened Ledger
  import opened Workers
  import opened Collector

  /** The path whose evaluation runs in a slot. */
  function HeldBy(w: Worker): Option<Path> { if Running(w) then w.attrPath else None }

  ghost predicate SlotShaped(w: Worker, held: Option<Path>) {
    && (w.proc.None? <==> w.phase.NoProc?)
    && held == HeldBy(w)
    && (Running(w) ==> w.attrPath.Some?)
  }

  ghost predicate Shaped(s: State) {
    && |s.board.held| == |s.workers|
    && forall i | 0 <= i < |s.workers| :: SlotShaped(s.workers[i], s.board.held[i])
  }

  /** A worker of solo mode was given no job before the one it runs. */
  predicate FreshFor(w: Worker) {
    w.proc.Some? ==> w.proc.value.given == if Running(w) then 1 else 0
  }

  predicate AtMostOneAlive(ws: seq<Worker>) {
    forall i, j | 0 <= i < j < |ws| :: ws[i].proc.None? || ws[j].proc.None?
  }

  ghost predicate SoloOk(s: State) {
    s.board.mode == Solo ==>
      && AtMostOneAlive(s.workers)
      && (forall i | 0 <= i < |s.workers| :: FreshFor(s.workers[i]))
      && (s.board.solo != [] || !NoneRunning(s.workers))
  }

  ghost predicate ExitOk(s: State) {
    (exists i :: 0 <= i < |s.workers| && s.workers[i].phase.Exiting?) ==> Finished(s)
  }

  ghost predicate Sane(s: State) {
    Shaped(s) && SoloOk(s) && ExitOk(s)
  }

  /** In solo mode a worker may be started only when there is none. */
  predicate RoomFor(s: State, spawnable: nat) {
    s.board.mode == Solo && spawnable > 0 ==> spawnable == 1 && !AnyAlive(s.workers)
  }

  // ---- Changing one slot ------------------------------------------------------

  lemma ShapedUpdate(s: State, i: nat, w: Worker, board: Board)
    requires Shaped(s) && i < |s.workers|
    requires |board.held| == |s.board.held| && SlotShaped(w, board.held[i])
    requires forall j | 0 <= j < |s.board.held| && j != i :: board.held[j] == s.board.held[j]
    ensures Shaped(s.(board := board, workers := s.workers[i := w]))
  {}

  /** Replacing a slot by one that is not running leaves the others alone. */
  lemma NoneRunningUpdate(ws: seq<Worker>, i: nat, w: Worker)
    requires i < |ws| && !Running(w)
    ensures NoneRunning(ws) ==> NoneRunning(ws[i := w])
    ensures !Running(ws[i]) && NoneRunning(ws[i := w]) ==> NoneRunning(ws)
  {
    if !Running(ws[i]) && NoneRunning(ws[i := w]) {
      assert forall j | 0 <= j < |ws| && j != i :: ws[i := w][j] == ws[j];
    }
  }

  // ---- Dispatch -------------------------------------------------------------

  lemma BeginDispatchSane(s: State)
    requires Sane(s)
    ensures Sane(BeginDispatch(s)) && RoomFor(BeginDispatch(s), Spawnable(BeginDispatch(s)))
  {}

  lemma HandOutSane(s: State, i: nat, x: SlotInput)
    requires Sane(s) && i < |s.workers| && s.workers[i].phase.Idle? && !Finished(s) && CanTake(s, x.own)
    ensures var s1 := HandOut(s, i, x.pick);
            var w := Sent(s1.workers[i], Do(JobFor(s, x.pick)));
            Shaped(s1) && ExitOk(s1) && Sane(s1.(workers := s1.workers[i := w]))
  {
    var s1 := HandOut(s, i, x.pick);
    var w := Sent(s1.workers[i], Do(JobFor(s, x.pick)));
    var ws := s1.workers[i := w];
    assert ws == s.workers[i := w] && Running(ws[i]);
    ShapedUpdate(s, i, s1.workers[i], s1.board);
    ShapedUpdate(s, i, w, s1.board);
    NoExiting(s);
    assert s1.(workers := ws) == s.(board := s1.board, workers := ws);
  }

  lemma NoExiting(s: State)
    requires ExitOk(s) && !Finished(s)
    ensures forall i | 0 <= i < |s.workers| :: !s.workers[i].phase.Exiting?
  {}

  lemma OnKilledSane(s: State, i: nat)
    requires Shaped(s) && ExitOk(s) && i < |s.workers| && !s.workers[i].phase.Exiting?
    ensures Sane(OnKilled(s, i))
  {
    var s' := OnKilled(s, i);
    assert !Running(NO_WORKER);
    ShapedUpdate(s, i, NO_WORKER, s'.board);
    if Running(s.workers[i]) {
      NoExiting(s);
    } else {
      NoneRunningUpdate(s.workers, i, NO_WORKER);
    }
  }

  lemma DispatchSlotSane(s: State, i: nat, spawnable: nat, x: SlotInput)
    requires Sane(s) && s.abort.None? && i < |s.workers| && RoomFor(s, spawnable)
    ensures SoloHasWork(s)
    ensures var (s', spawnable') := DispatchSlot(s, i, spawnable, x);
            |s'.workers| == |s.workers| && (s'.abort.None? ==> Sane(s') && RoomFor(s', spawnable'))
  {
    var w := s.workers[i];
    var (s', spawnable') := DispatchSlot(s, i, spawnable, x);
    if w.phase.Idle? && Finished(s) {
      var w' := Sent(w, Exit).(phase := Exiting);
      ShapedUpdate(s, i, w', s.board);
      NoneRunningUpdate(s.workers, i, w');
      assert s' == s.(board := s.board, workers := s.workers[i := w']);
      assert s.board.mode == Parallel;
    } else if w.phase.Idle? {
      assert AnyAlive(s.workers);
      if CanTake(s, x.own) {
        HandOutSane(s, i, x);
        if !x.sent {
          OnKilledSane(HandOut(s, i, x.pick), i);
        }
      }
    } else if w.phase.NoProc? && spawnable > 0 && !Finished(s) {
      var w' := w.(proc := Some(SPAWNED), phase := Starting, rss := x.rss);
      ShapedUpdate(s, i, w', s.board);
      NoneRunningUpdate(s.workers, i, w');
      NoExiting(s);
      assert s' == s.(board := s.board, workers := s.workers[i := w']);
    }
  }

  // ---- Output -----------------------------------------------------------------

  lemma ResetSane(s: State, i: nat)
    requires Sane(s) && i < |s.workers| && !Running(s.workers[i])
    ensures Sane(Reset(s, i))
  {
    ShapedUpdate(s, i, NO_WORKER, s.board);
    NoneRunningUpdate(s.workers, i, NO_WORKER);
  }

  lemma OnEofSane(s: State, i: nat)
    requires Sane(s) && i < |s.workers| && s.workers[i].proc.Some?
    ensures OnEof(s, i).abort.None? ==> Sane(OnEof(s, i))
  {
    if s.workers[i].phase.Exiting? {
      ResetSane(s, i);
    } else if !s.workers[i].proc.value.control.Exited? {
      OnKilledSane(s, i);
    }
  }

  lemma OnLineSane(s: State, i: nat, line: Line, rss: nat)
    requires Sane(s) && i < |s.workers| && s.workers[i].proc.Some?
    ensures OnLine(s, i, line, rss).abort.None? ==> Sane(OnLine(s, i, line, rss))
  {
    var w := s.workers[i];
    var s' := OnLine(s, i, line, rss);
    if w.phase.Starting? && line.Next? {
      var w' := w.(phase := Idle);
      ShapedUpdate(s, i, w', s.board);
      NoneRunningUpdate(s.workers, i, w');
    } else if w.phase.Starting? && line.Restart? {
      ResetSane(s, i);
    } else if w.phase.Busy? && line.Answer? && s'.abort.None? {
      NoExiting(s);
      ShapedUpdate(s, i, s'.workers[i], s'.board);
      assert s'.workers == s.workers[i := s'.workers[i]];
    }
  }

  lemma {:induction false} OnLinesSane(s: State, i: nat, lines: seq<Line>, rss: nat)
    requires Sane(s) && i < |s.workers|
    ensures OnLines(s, i, lines, rss).abort.None? ==> Sane(OnLines(s, i, lines, rss))
    decreases |lines|
  {
    if lines != [] && s.workers[i].proc.Some? && s.abort.None? {
      OnLineSane(s, i, lines[0], rss);
      if OnLine(s, i, lines[0], rss).abort.None? {
        OnLinesSane(OnLine(s, i, lines[0], rss), i, lines[1..], rss);
      }
    }
  }

  /** The lines of one worker change no other slot. */
  lemma {:induction false} OnLinesFrame(s: State, i: nat, lines: seq<Line>, rss: nat)
    requires i < |s.workers| == |s.board.held|
    ensures var s' := OnLines(s, i, lines, rss);
            |s'.workers| == |s.workers| && forall j | 0 <= j < |s.workers| && j != i :: s'.workers[j] == s.workers[j]
    decreases |lines|
  {
    if lines != [] && s.workers[i].proc.Some? && s.abort.None? {
      OnLinesFrame(OnLine(s, i, lines[0], rss), i, lines[1..], rss);
    }
  }

  lemma ReadWorkerSane(s: State, i: nat, lines: seq<Line>, eof: bool, rss: nat)
    requires Sane(s) && i < |s.workers| && s.workers[i].proc.Some?
    ensures ReadWorker(s, i, lines, eof, rss).abort.None? ==> Sane(ReadWorker(s, i, lines, eof, rss))
  {
    OnLinesSane(s, i, lines, rss);
    var s1 := OnLines(s, i, lines, rss);
    if eof && s1.workers[i].proc.Some? && s1.abort.None? {
      OnEofSane(s1, i);
    }
  }

  lemma SetProcSane(s: State, i: nat, p: Process)
    requires Sane(s) && Alive(s, i) && p.given == s.workers[i].proc.value.given
    ensures Sane(SetProc(s, i, p))
  {
    var s' := SetProc(s, i, p);
    var w := s'.workers[i];
    assert SlotShaped(w, s.board.held[i]) && Running(w) == Running(s.workers[i]);
    assert FreshFor(s.workers[i]) ==> FreshFor(w);
    assert forall j | 0 <= j < |s.workers| && j != i :: s'.workers[j] == s.workers[j];
    assert NoneRunning(s'.workers) == NoneRunning(s.workers);
  }

  lemma ReadPipeSane(s: State, i: nat, n: nat, eof: bool, rss: nat)
    requires Sane(s) && Alive(s, i) && n <= |s.workers[i].proc.value.outbox|
    ensures ReadPipe(s, i, n, eof, rss).abort.None? ==> Sane(ReadPipe(s, i, n, eof, rss))
  {
    var p := s.workers[i].proc.value;
    SetProcSane(s, i, p.(outbox := p.outbox[n..]));
    ReadWorkerSane(SetProc(s, i, p.(outbox := p.outbox[n..])), i, p.outbox[..n], eof, rss);
  }

  // ---- Memory --------------------------------------------------------------------

  lemma SampleMemorySane(s: State, rss: seq<nat>, own: nat)
    requires Sane(s) && |rss| == |s.workers|
    ensures Sane(SampleMemory(s, rss, own))
  {
    var s' := SampleMemory(s, rss, own);
    forall i | 0 <= i < |s.workers|
      ensures SlotShaped(s'.workers[i], s'.board.held[i])
      ensures Running(s'.workers[i]) == Running(s.workers[i])
      ensures s'.workers[i].phase.Exiting? == s.workers[i].phase.Exiting?
      ensures FreshFor(s.workers[i]) ==> FreshFor(s'.workers[i])
      ensures s'.workers[i].proc.Some? == s.workers[i].proc.Some?
    {
      assert SlotShaped(s.workers[i], s.board.held[i]);
    }
    assert NoneRunning(s'.workers) == NoneRunning(s.workers);
  }
}
