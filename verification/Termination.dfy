/** A measure that every step of the scheduler and its workers lowers unless the
    step leaves all but memory readings as it was. */
module Termination {
  import opened Wrappers
  import opened Ledger
  import opened Workers
  import opened Collector
  import opened Discipline
  import opened System

  // ---- The measure ------------------------------------------------------------

  function Total(xs: seq<nat>): nat {
    if xs == [] then 0 else Total(xs[..|xs| - 1]) + xs[|xs| - 1]
  }

  /** How much is still to come from a job, and from a process that was killed. */
  function Weight(w: Worker): nat {
    (if w.phase.Busy? then 6 else if w.phase.Killed? then 2 else 0)
    + (if w.proc.Some? && w.proc.value.control.Shot? then 2 else 0)
  }

  const MAX_WEIGHT: nat := 8

  /** How far a worker is from waiting for its next command, or from its end. */
  function Rank(w: Worker, finished: bool): nat {
    if w.proc.None? then (if finished then 0 else 8)
    else
      var p := w.proc.value;
      match w.phase
      case NoProc => 0
      case Starting => (
        match p.control
        case Booting => 7
        case Ready => 6
        case Leaving => if p.outbox == [] then 11 else 6
        case Closing => if p.outbox == [Restart] then 10 else 5
        case Exited => if p.outbox == [Restart] then 9 else 4
        case _ => 5)
      case Idle => 4
      case Exiting => if p.control.Waiting? then 3 else if p.control.Closing? then 2 else 1
      case Busy => (
        match p.control
        case Waiting => if p.outbox == [] then 5 else 1
        case Working(_) => 4
        case Leaving => 3
        case Ready => 2
        case Closing => 2
        case Exited => 1
        case _ => 0)
      case Killed => if |p.outbox| <= 2 then |p.outbox| else 2
  }

  const MAX_RANK: nat := 11

  function Weights(ws: seq<Worker>): seq<nat> {
    seq(|ws|, i requires 0 <= i < |ws| => Weight(ws[i]))
  }

  function Ranks(ws: seq<Worker>, finished: bool): seq<nat> {
    seq(|ws|, i requires 0 <= i < |ws| => Rank(ws[i], finished))
  }

  datatype Measure = Measure(tries: int, running: nat, rank: nat)

  /** `oom` is how many processes the kernel may still kill. */
  ghost function MeasureOf(s: State, oom: nat): Measure {
    Measure(
      oom - |s.board.handed|,
      Total(Weights(s.workers)) + (if s.board.mode == Parallel then 1 else 0),
      Total(Ranks(s.workers, Finished(s))))
  }

  predicate Below(m: Measure, m': Measure) {
    || m.tries < m'.tries
    || (m.tries == m'.tries && m.running < m'.running)
    || (m.tries == m'.tries && m.running == m'.running && m.rank < m'.rank)
  }

  // ---- Sums ---------------------------------------------------------------------

  lemma {:induction false} TotalUpdate(xs: seq<nat>, i: nat, v: nat)
    requires i < |xs|
    ensures Total(xs[i := v]) == Total(xs) - xs[i] + v
  {
    var last := |xs| - 1;
    if i < last {
      TotalUpdate(xs[..last], i, v);
      assert xs[i := v][..last] == xs[..last][i := v];
    } else {
      assert xs[i := v][..last] == xs[..last];
    }
  }

  lemma {:induction false} TotalBounded(xs: seq<nat>, bound: nat)
    requires forall i | 0 <= i < |xs| :: xs[i] <= bound
    ensures Total(xs) <= bound * |xs|
  {
    if xs != [] {
      TotalBounded(xs[..|xs| - 1], bound);
      assert bound * |xs| == bound * (|xs| - 1) + bound;
    }
  }

  /** A step that changes one slot lowers the measure if it lowers the weight, or
      keeps it and lowers the rank. */
  lemma OneSlot(s: State, s': State, oom: nat, i: nat, w: Worker)
    requires i < |s.workers| && s'.workers == s.workers[i := w] && s'.board.handed == s.board.handed
    requires var d, d' := if s.board.mode == Parallel then 1 else 0, if s'.board.mode == Parallel then 1 else 0;
             || Weight(w) + d' < Weight(s.workers[i]) + d
             || (Weight(w) + d' == Weight(s.workers[i]) + d && Finished(s') == Finished(s)
                 && Rank(w, Finished(s)) < Rank(s.workers[i], Finished(s)))
    ensures Below(MeasureOf(s', oom), MeasureOf(s, oom))
  {
    assert Weights(s'.workers) == Weights(s.workers)[i := Weight(w)];
    TotalUpdate(Weights(s.workers), i, Weight(w));
    assert Ranks(s'.workers, Finished(s)) == Ranks(s.workers, Finished(s))[i := Rank(w, Finished(s))];
    TotalUpdate(Ranks(s.workers, Finished(s)), i, Rank(w, Finished(s)));
  }

  // ---- Steps ------------------------------------------------------------------------

  predicate SameSlot(w: Worker, w': Worker) {
    w'.proc == w.proc && w'.phase == w.phase && w'.attrPath == w.attrPath
  }

  /** Nothing has changed but memory readings. */
  ghost predicate Quiet(s: State, s': State) {
    && s'.board == s.board && s'.abort == s.abort && |s'.workers| == |s.workers|
    && forall i | 0 <= i < |s.workers| :: SameSlot(s.workers[i], s'.workers[i])
  }

  ghost predicate Advances(s: State, oom: nat, s': State, oom': nat) {
    s'.abort.Some? || Below(MeasureOf(s', oom'), MeasureOf(s, oom))
  }

  lemma BeginAdvances(s: State, oom: nat)
    requires Shaped(s)
    ensures Quiet(s, BeginDispatch(s)) || Advances(s, oom, BeginDispatch(s), oom)
  {
    var s' := BeginDispatch(s);
    TotalBounded(Weights(EnterSolo(s.workers)), 0);
  }

  lemma SlotAdvances(s: State, oom: nat, i: nat, spawnable: nat, x: SlotInput)
    requires Sane(s) && i < |s.workers|
    ensures SoloHasWork(s)
    ensures var s' := DispatchSlot(s, i, spawnable, x).0;
            Quiet(s, s') || Advances(s, oom, s', oom)
  {
    var w := s.workers[i];
    var s' := DispatchSlot(s, i, spawnable, x).0;
    assert SlotShaped(w, s.board.held[i]);
    if w.phase.Idle? && Finished(s) {
      NoneRunningUpdate(s.workers, i, s'.workers[i]);
      OneSlot(s, s', oom, i, s'.workers[i]);
    } else if w.phase.Idle? && CanTake(s, x.own) {
      assert |s'.board.handed| == |s.board.handed| + 1;
    } else if w.phase.NoProc? && spawnable > 0 && !Finished(s) {
      NoneRunningUpdate(s.workers, i, s'.workers[i]);
      OneSlot(s, s', oom, i, s'.workers[i]);
    }
  }

  lemma SampleAdvances(s: State, oom: nat, rss: seq<nat>, own: nat)
    requires Sane(s) && |rss| == |s.workers|
    ensures Quiet(s, SampleMemory(s, rss, own)) || Advances(s, oom, SampleMemory(s, rss, own), oom)
  {
    var ws := Sampled(s.workers, rss);
    var s1 := s.(workers := ws);
    var s' := SampleMemory(s, rss, own);
    if own + TotalRss(ws) > s.budget && Victim(ws).Some? {
      var v := Victim(ws).value;
      assert Weights(ws) == Weights(s.workers);
      assert NoneRunning(ws) == NoneRunning(s.workers);
      assert Ranks(ws, Finished(s)) == Ranks(s.workers, Finished(s));
      OneSlot(s1, s', oom, v, s'.workers[v]);
    }
  }

  lemma ActAdvances(answer: Path -> Payload, s: State, oom: nat, i: nat, act: Act)
    requires Sane(s) && Alive(s, i) && SlotAgrees(answer, s.workers[i]) && CanAct(s.workers[i].proc.value, act)
    ensures Advances(s, oom, SetProc(s, i, ActOf(answer, s.workers[i].proc.value, act)), oom)
  {
    var s' := SetProc(s, i, ActOf(answer, s.workers[i].proc.value, act));
    ActLowersRank(answer, s.workers[i], act, Finished(s));
    RunningUpdate(s.workers, i, s'.workers[i]);
    OneSlot(s, s', oom, i, s'.workers[i]);
  }

  lemma ActLowersRank(answer: Path -> Payload, w: Worker, act: Act, finished: bool)
    requires w.proc.Some? && SlotAgrees(answer, w) && CanAct(w.proc.value, act)
    ensures var w' := w.(proc := Some(ActOf(answer, w.proc.value, act)));
            Rank(w', finished) < Rank(w, finished) && Weight(w') == Weight(w)
  {}

  lemma RunningUpdate(ws: seq<Worker>, i: nat, w: Worker)
    requires i < |ws| && Running(w) == Running(ws[i])
    ensures NoneRunning(ws[i := w]) == NoneRunning(ws)
  {
    var ws' := ws[i := w];
    assert forall j | 0 <= j < |ws| && j != i :: ws'[j] == ws[j];
    if NoneRunning(ws') {
      assert !Running(ws'[i]);
    }
  }

  // ---- Reading ------------------------------------------------------------------------

  /** The state with lines that were read put back into the pipe. */
  function PutBack(s: State, i: nat, lines: seq<Line>): State
    requires i < |s.workers|
  {
    if s.workers[i].proc.None? then s
    else
      var p := s.workers[i].proc.value;
      SetProc(s, i, p.(outbox := lines + p.outbox))
  }

  lemma OnLineAdvances(answer: Path -> Payload, s: State, oom: nat, i: nat, lines: seq<Line>, rss: nat)
    requires ReadingOk(answer, s, i, lines) && lines != [] && s.abort.None? && s.workers[i].proc.Some?
    ensures Advances(PutBack(s, i, lines), oom, PutBack(OnLine(s, i, lines[0], rss), i, lines[1..]), oom)
  {
    hide Sound, SoloOk, ExitOk, Agrees, Weight, Rank, MeasureOf, Growth;
    var outbox := lines + s.workers[i].proc.value.outbox;
    assert outbox[0] == lines[0] && outbox[1..] == lines[1..] + s.workers[i].proc.value.outbox;
    assert outbox == [outbox[0]] + outbox[1..];
    var t, t' := PutBack(s, i, lines), PutBack(OnLine(s, i, lines[0], rss), i, lines[1..]);
    if t'.abort.None? {
      assert t'.workers == t.workers[i := t'.workers[i]];
      LineLowers(answer, s, i, lines, rss);
      if Running(t.workers[i]) == Running(t'.workers[i]) {
        RunningUpdate(t.workers, i, t'.workers[i]);
      }
      OneSlot(t, t', oom, i, t'.workers[i]);
    }
  }

  lemma LineLowers(answer: Path -> Payload, s: State, i: nat, lines: seq<Line>, rss: nat)
    requires ReadingOk(answer, s, i, lines) && lines != [] && s.abort.None? && s.workers[i].proc.Some?
    requires OnLine(s, i, lines[0], rss).abort.None?
    ensures var t, t' := PutBack(s, i, lines), PutBack(OnLine(s, i, lines[0], rss), i, lines[1..]);
            var w, w' := t.workers[i], t'.workers[i];
            || (Running(w) && Weight(w') + 1 < Weight(w))
            || (t'.board == t.board && Weight(w') < Weight(w))
            || (t'.board == t.board && Weight(w') == Weight(w) && Running(w) == Running(w')
                && Rank(w', Finished(t)) < Rank(w, Finished(t)))
  {
    hide Sound, SoloOk, ExitOk, SlotShaped, Growth, Max;
    var outbox := lines + s.workers[i].proc.value.outbox;
    assert outbox[0] == lines[0] && outbox[1..] == lines[1..] + s.workers[i].proc.value.outbox;
    assert outbox == [outbox[0]] + outbox[1..];
  }

  lemma {:induction false} OnLinesAdvance(answer: Path -> Payload, s: State, oom: nat, i: nat, lines: seq<Line>,
      rss: nat)
    requires ReadingOk(answer, s, i, lines) && s.abort.None?
    ensures var s' := OnLines(s, i, lines, rss);
            s' == PutBack(s, i, lines) || Advances(PutBack(s, i, lines), oom, s', oom)
    decreases |lines|
  {
    hide Sound, Agrees, SoloOk, ExitOk, MeasureOf;
    if lines != [] && s.workers[i].proc.Some? {
      OnLineOk(answer, s, i, lines, rss);
      OnLineAdvances(answer, s, oom, i, lines, rss);
      var s1 := OnLine(s, i, lines[0], rss);
      if s1.abort.None? {
        OnLinesAdvance(answer, s1, oom, i, lines[1..], rss);
      } else {
        assert OnLines(s1, i, lines[1..], rss) == s1;
      }
    } else if s.workers[i].proc.Some? {
      assert lines + s.workers[i].proc.value.outbox == s.workers[i].proc.value.outbox;
    }
  }

  lemma OnEofAdvances(answer: Path -> Payload, s: State, oom: nat, i: nat)
    requires ReadingOk(answer, s, i, []) && s.abort.None? && Alive(s, i)
    requires Gone(s.workers[i].proc.value) && s.workers[i].proc.value.outbox == []
    ensures Advances(s, oom, OnEof(s, i), oom)
  {
    hide Sound, SoloOk;
    var s' := OnEof(s, i);
    assert [] + s.workers[i].proc.value.outbox == [];
    if s'.abort.None? {
      assert s'.workers == s.workers[i := NO_WORKER];
      if s.workers[i].phase.Exiting? {
        NoneRunningUpdate(s.workers, i, NO_WORKER);
      }
      OneSlot(s, s', oom, i, NO_WORKER);
    }
  }

  lemma ReadAdvances(answer: Path -> Payload, y: Sys, n: nat, eof: bool, rss: nat)
    requires Inv(answer, y) && Can(y, Read(n, eof, rss))
    ensures var y' := Step(answer, y, Read(n, eof, rss));
            Quiet(y.s, y'.s) || Advances(y.s, y.oom, y'.s, y'.oom)
  {
    hide Sound, Agrees, SoloOk, ExitOk, MeasureOf;
    var i := y.at.idx;
    var p := y.s.workers[i].proc.value;
    var s0 := SetProc(y.s, i, p.(outbox := p.outbox[n..]));
    SetProcSane(y.s, i, p.(outbox := p.outbox[n..]));
    assert SlotAgrees(answer, y.s.workers[i]);
    PoppedAgrees(answer, y.s.workers[i], n);
    OnLinesOk(answer, s0, i, p.outbox[..n], rss);
    OnLinesAdvance(answer, s0, y.oom, i, p.outbox[..n], rss);
    assert PutBack(s0, i, p.outbox[..n]) == y.s by {
      assert p.outbox[..n] + p.outbox[n..] == p.outbox;
      assert s0.workers[i := y.s.workers[i]] == y.s.workers;
    }
    var s1 := OnLines(s0, i, p.outbox[..n], rss);
    if s1.abort.None? && eof && s1.workers[i].proc.Some? {
      ProcKept(s0, i, p.outbox[..n], rss);
      OnEofAdvances(answer, s1, y.oom, i);
    }
  }

  lemma {:induction false} ProcKept(s: State, i: nat, lines: seq<Line>, rss: nat)
    requires i < |s.workers| == |s.board.held|
    ensures var p := OnLines(s, i, lines, rss).workers[i].proc; p.Some? ==> p == s.workers[i].proc
    decreases |lines|
  {
    if lines != [] && s.workers[i].proc.Some? && s.abort.None? {
      ProcKept(OnLine(s, i, lines[0], rss), i, lines[1..], rss);
    }
  }

  /** Every step that is not quiet lowers the measure or ends the run. */
  lemma EveryStepAdvances(answer: Path -> Payload, y: Sys, e: Event)
    requires Inv(answer, y) && Can(y, e)
    ensures var y' := Step(answer, y, e);
            (Quiet(y.s, y'.s) && y'.oom == y.oom) || Advances(y.s, y.oom, y'.s, y'.oom)
  {
    hide Sound, Agrees;
    match e
    case Begin => BeginAdvances(y.s, y.oom);
    case Slot(x) => SlotAdvances(y.s, y.oom, y.at.idx, y.at.spawnable, x);
    case Sample(rss, own) => SampleAdvances(y.s, y.oom, rss, own);
    case Read(n, eof, rss) => ReadAdvances(answer, y, n, eof, rss);
    case ProcessActs(i, act) =>
      assert SlotAgrees(answer, y.s.workers[i]);
      ActAdvances(answer, y.s, y.oom, i, act);
    case _ =>
  }

  // ---- How long a run can take ----------------------------------------------------------

  /** However the evaluation goes, it only ever sees paths of `universe`. */
  ghost predicate StaysIn(answer: Path -> Payload, universe: set<Path>) {
    forall b: Board :: Explored(answer, b) ==> b.place.Keys <= universe
  }

  lemma {:induction false} HandedBounded(handed: multiset<Path>, universe: set<Path>)
    requires forall p :: handed[p] <= 2 && (p !in universe ==> handed[p] == 0)
    ensures |handed| <= 2 * |universe|
    decreases universe
  {
    if universe == {} {
      assert handed == multiset{};
    } else {
      var p :| p in universe;
      HandedBounded(handed[p := 0], universe - {p});
    }
  }

  /** The measure as one number, for `n` slots. */
  function Digits(n: nat, tries: nat, running: nat, rank: nat): nat {
    rank + (MAX_RANK * n + 1) * (running + (MAX_WEIGHT * n + 2) * tries)
  }

  lemma DigitsOrdered(base: nat, high: nat, low: nat, high': nat, low': nat)
    requires low' < base && (high' < high || (high' == high && low' < low))
    ensures low' + base * high' < low + base * high
  {
    if high' < high {
      assert base * high' + base == base * (high' + 1);
      assert base * (high' + 1) <= base * high;
    }
  }

  lemma DigitsFall(n: nat, tries: nat, running: nat, rank: nat, tries': nat, running': nat, rank': nat)
    requires running' <= MAX_WEIGHT * n + 1 && rank' <= MAX_RANK * n
    requires tries' < tries || (tries' == tries && (running' < running || (running' == running && rank' < rank)))
    ensures Digits(n, tries', running', rank') < Digits(n, tries, running, rank)
  {
    var base := MAX_WEIGHT * n + 2;
    if tries' < tries || running' < running {
      DigitsOrdered(base, tries, running, tries', running');
    }
    DigitsOrdered(MAX_RANK * n + 1, running + base * tries, rank, running' + base * tries', rank');
  }

  /** A bound on the number of steps that are not quiet; an exception is one. */
  ghost function Remaining(universe: set<Path>, y: Sys): nat {
    if y.s.abort.Some? then 0
    else
      var m := MeasureOf(y.s, y.oom);
      var tries := m.tries + 2 * |universe|;
      if tries < 0 then 0 else 1 + Digits(|y.s.workers|, tries, m.running, m.rank)
  }

  lemma HandedInUniverse(answer: Path -> Payload, universe: set<Path>, y: Sys)
    requires Inv(answer, y) && y.s.abort.None? && StaysIn(answer, universe)
    ensures |y.s.board.handed| <= 2 * |universe|
  {
    hide Sane, AllAgree, PointOk, Explored, Conserved, Alone;
    assert y.s.board.place.Keys <= universe;
    forall p
      ensures y.s.board.handed[p] <= 2 && (p !in universe ==> y.s.board.handed[p] == 0)
    {
      assert Tally(y.s.board, p);
    }
    HandedBounded(y.s.board.handed, universe);
  }

  lemma SlotBounded(w: Worker, finished: bool)
    ensures Weight(w) <= MAX_WEIGHT && Rank(w, finished) <= MAX_RANK
  {}

  lemma MeasureBounded(answer: Path -> Payload, universe: set<Path>, y: Sys)
    requires Inv(answer, y) && y.s.abort.None? && StaysIn(answer, universe)
    ensures var m := MeasureOf(y.s, y.oom);
            m.tries + 2 * |universe| >= 0 && m.running <= MAX_WEIGHT * |y.s.workers| + 1 &&
            m.rank <= MAX_RANK * |y.s.workers|
  {
    hide Inv, StaysIn, Weight, Rank, Finished;
    forall i | 0 <= i < |y.s.workers|
      ensures Weight(y.s.workers[i]) <= MAX_WEIGHT && Rank(y.s.workers[i], Finished(y.s)) <= MAX_RANK
    {
      SlotBounded(y.s.workers[i], Finished(y.s));
    }
    TotalBounded(Weights(y.s.workers), MAX_WEIGHT);
    TotalBounded(Ranks(y.s.workers, Finished(y.s)), MAX_RANK);
    HandedInUniverse(answer, universe, y);
  }

  lemma RemainingFalls(answer: Path -> Payload, universe: set<Path>, y: Sys, y': Sys)
    requires Inv(answer, y) && Inv(answer, y') && StaysIn(answer, universe)
    requires y.s.abort.None? && Advances(y.s, y.oom, y'.s, y'.oom) && |y'.s.workers| == |y.s.workers|
    ensures Remaining(universe, y') < Remaining(universe, y)
  {
    hide Inv, StaysIn, MeasureOf, Finished;
    MeasureBounded(answer, universe, y);
    if y'.s.abort.None? {
      MeasureBounded(answer, universe, y');
      var n, m, m' := |y.s.workers|, MeasureOf(y.s, y.oom), MeasureOf(y'.s, y'.oom);
      var tries, tries' := m.tries + 2 * |universe|, m'.tries + 2 * |universe|;
      DigitsFall(n, tries, m.running, m.rank, tries', m'.running, m'.rank);
    }
  }

  lemma {:induction false} QuietTotals(ws: seq<Worker>, ws': seq<Worker>, finished: bool)
    requires |ws'| == |ws| && forall i | 0 <= i < |ws| :: SameSlot(ws[i], ws'[i])
    ensures Weights(ws') == Weights(ws) && Ranks(ws', finished) == Ranks(ws, finished)
    ensures NoneRunning(ws') == NoneRunning(ws)
  {
    assert forall i | 0 <= i < |ws| :: SameSlot(ws[i], ws'[i]) ==> Running(ws'[i]) == Running(ws[i]);
  }

  lemma QuietRemains(universe: set<Path>, y: Sys, y': Sys)
    requires Quiet(y.s, y'.s) && y'.oom == y.oom
    ensures Remaining(universe, y') == Remaining(universe, y)
  {
    QuietTotals(y.s.workers, y'.s.workers, Finished(y.s));
  }

  /** How many steps of a run are not quiet. */
  ghost function Moves(answer: Path -> Payload, y: Sys, es: seq<Event>): nat
    requires Runs(answer, y, es)
    decreases |es|
  {
    if es == [] then 0
    else
      var y' := Step(answer, y, es[0]);
      (if Quiet(y.s, y'.s) && y'.oom == y.oom then 0 else 1) + Moves(answer, y', es[1..])
  }

  lemma WorkersStay(answer: Path -> Payload, y: Sys, e: Event)
    requires Inv(answer, y) && Can(y, e)
    ensures |Step(answer, y, e).s.workers| == |y.s.workers|
  {
    hide Sound, AllAgree;
    match e
    case Slot(x) => DispatchSlotSane(y.s, y.at.idx, y.at.spawnable, x);
    case _ =>
  }

  lemma {:induction false} MovesBounded(answer: Path -> Payload, universe: set<Path>, y: Sys, es: seq<Event>)
    requires Inv(answer, y) && Runs(answer, y, es) && StaysIn(answer, universe)
    ensures Moves(answer, y, es) <= Remaining(universe, y)
    decreases |es|
  {
    hide Inv, Can, Step, StaysIn, Remaining, Quiet, Advances;
    if es != [] {
      var y' := Step(answer, y, es[0]);
      StepInv(answer, y, es[0]);
      EveryStepAdvances(answer, y, es[0]);
      WorkersStay(answer, y, es[0]);
      MovesBounded(answer, universe, y', es[1..]);
      NotOver(y, es[0]);
      if Quiet(y.s, y'.s) && y'.oom == y.oom {
        QuietRemains(universe, y, y');
      } else {
        RemainingFalls(answer, universe, y, y');
      }
    }
  }

  lemma NotOver(y: Sys, e: Event)
    requires Can(y, e)
    ensures y.s.abort.None?
  {}

  /** Only so many steps of any run change anything but memory readings: the rest
      is waiting for the workers. */
  lemma RunsAreBounded(answer: Path -> Payload, universe: set<Path>, n: nat, budget: nat, oom: nat, es: seq<Event>)
    requires Runs(answer, Init(n, budget, oom), es) && StaysIn(answer, universe)
    ensures Moves(answer, Init(n, budget, oom), es) <= 1 + Digits(n, oom + 2 * |universe|, 1, 8 * n)
  {
    hide Inv, Can, Step, StaysIn, Runs, Moves;
    var y := Init(n, budget, oom);
    InitInv(answer, n, budget, oom);
    MovesBounded(answer, universe, y, es);
    TotalBounded(Weights(y.s.workers), 0);
    TotalBounded(Ranks(y.s.workers, Finished(y.s)), 8);
    MeasureBounded(answer, universe, y);
    DigitsGrow(n, oom + 2 * |universe|, 1, MeasureOf(y.s, oom).rank, 8 * n);
  }

  lemma DigitsGrow(n: nat, tries: nat, running: nat, rank: nat, rank': nat)
    requires rank <= rank'
    ensures Digits(n, tries, running, rank) <= Digits(n, tries, running, rank')
  {}
}
