/** Who can end as over budget when the kernel kills nobody: only a path whose
    worker, alone, took the scheduler over the budget. */
module Overruns {
  import opened Wrappers
  import opened Ledger
  import opened Workers
  import opened Collector
  import opened Discipline
  import opened System
  import opened EveryRun

  /** The worker in slot `i` runs `p` alone. */
  predicate RunsAlone(s: State, i: nat, p: Path) {
    && s.board.mode == Solo && i < |s.workers| && s.workers[i].phase.Busy? && s.workers[i].attrPath == Some(p)
    && forall j | 0 <= j < |s.workers| && j != i :: s.workers[j].proc.None?
  }

  /** A sample finds the collector and the worker that runs `p` alone over the
      budget. */
  ghost predicate Overruns(y: Sys, e: Event, p: Path) {
    e.Sample? && |e.sizes| == |y.s.workers| &&
    exists i :: 0 <= i < |e.sizes| && RunsAlone(y.s, i, p) && e.own + e.sizes[i] > y.s.budget
  }

  ghost predicate SomeOverrun(answer: Path -> Payload, y: Sys, es: seq<Event>, p: Path)
    requires Runs(answer, y, es)
    decreases |es|
  {
    es != [] && (Overruns(y, es[0], p) || SomeOverrun(answer, Step(answer, y, es[0]), es[1..], p))
  }

  /** The kernel kills nobody: only the collector's victims are killed. */
  ghost predicate NoKernel(y: Sys) {
    y.oom == 0 && forall i | 0 <= i < |y.s.workers| && y.s.workers[i].proc.Some? ::
      y.s.workers[i].proc.value.control.Shot? ==> y.s.workers[i].phase.Killed?
  }

  ghost predicate LogBlamed(log: seq<Record>, blamed: iset<Path>) {
    forall k | 0 <= k < |log| && log[k].verdict.OverBudget? :: log[k].path in blamed
  }

  ghost predicate KilledBlamed(s: State, blamed: iset<Path>) {
    forall i | 0 <= i < |s.workers| && s.workers[i].phase.Killed? && s.board.mode == Solo ::
      s.workers[i].attrPath.Some? && s.workers[i].attrPath.value in blamed
  }

  /** Paths given up, and paths killed alone, are among `blamed`. */
  ghost predicate Blamed(y: Sys, blamed: iset<Path>) {
    LogBlamed(y.s.board.log, blamed) && (y.s.abort.None? ==> NoKernel(y) && KilledBlamed(y.s, blamed))
  }

  lemma {:induction false} OnlyOneCounts(ws: seq<Worker>, i: nat)
    requires i < |ws| && forall j | 0 <= j < |ws| && j != i :: ws[j].rss == 0
    ensures TotalRss(ws) == ws[i].rss
  {
    var last := |ws| - 1;
    if i == last {
      NothingCounts(ws[..last]);
    } else {
      OnlyOneCounts(ws[..last], i);
    }
  }

  lemma {:induction false} NothingCounts(ws: seq<Worker>)
    requires forall j | 0 <= j < |ws| :: ws[j].rss == 0
    ensures TotalRss(ws) == 0
  {
    if ws != [] {
      NothingCounts(ws[..|ws| - 1]);
    }
  }

  /** In solo mode a victim has overrun the budget alone. */
  lemma VictimOverruns(y: Sys, sizes: seq<nat>, own: nat, i: nat)
    requires Sane(y.s) && y.s.board.mode == Solo && |sizes| == |y.s.workers|
    requires i < |y.s.workers| && !y.s.workers[i].phase.Killed?
    requires SampleMemory(y.s, sizes, own).workers[i].phase.Killed?
    ensures y.s.workers[i].attrPath.Some? && Overruns(y, Sample(sizes, own), y.s.workers[i].attrPath.value)
  {
    assert SlotShaped(y.s.workers[i], y.s.board.held[i]);
    var ws := Sampled(y.s.workers, sizes);
    assert Victim(ws) == Some(i);
    assert y.s.workers[i].proc.Some? && ws[i].rss == sizes[i];
    OnlyOneCounts(ws, i);
    assert RunsAlone(y.s, i, y.s.workers[i].attrPath.value);
  }

  lemma SampleBlames(answer: Path -> Payload, y: Sys, sizes: seq<nat>, own: nat, blamed: iset<Path>)
    requires Inv(answer, y) && Can(y, Sample(sizes, own)) && Blamed(y, blamed)
    requires forall p | Overruns(y, Sample(sizes, own), p) :: p in blamed
    ensures Blamed(Step(answer, y, Sample(sizes, own)), blamed)
  {
    hide Sound, AllAgree, Overruns, Sane, Victim, Learned;
    var y' := Step(answer, y, Sample(sizes, own));
    forall i | 0 <= i < |y'.s.workers| && y'.s.workers[i].phase.Killed? && y'.s.board.mode == Solo
      ensures y'.s.workers[i].attrPath.Some? && y'.s.workers[i].attrPath.value in blamed
    {
      if !y.s.workers[i].phase.Killed? {
        VictimOverruns(y, sizes, own, i);
      }
    }
  }

  /** Every job that is taken can be sent, as no idle worker was killed. */
  lemma SlotBlames(answer: Path -> Payload, y: Sys, x: SlotInput, blamed: iset<Path>)
    requires Inv(answer, y) && Can(y, Slot(x)) && Blamed(y, blamed)
    ensures Blamed(Step(answer, y, Slot(x)), blamed)
  {
    hide Sound, Sane;
    assert SlotAgrees(answer, y.s.workers[y.at.idx]);
  }

  lemma {:induction false} LinesBlame(s: State, i: nat, lines: seq<Line>, rss: nat, blamed: iset<Path>)
    requires i < |s.workers| == |s.board.held| && LogBlamed(s.board.log, blamed)
    ensures var s' := OnLines(s, i, lines, rss);
            && LogBlamed(s'.board.log, blamed) && (s'.board.mode == Solo ==> s.board.mode == Solo)
            && (s'.workers[i].phase.Killed? ==> s'.workers[i] == s.workers[i])
            && (s.workers[i].phase.Killed? ==> s' == s)
            && (s'.workers[i].proc.Some? ==> s'.workers[i].proc == s.workers[i].proc)
    decreases |lines|
  {
    hide Growth, Max, Misplaced, More;
    if lines != [] && s.workers[i].proc.Some? && s.abort.None? {
      LinesBlame(OnLine(s, i, lines[0], rss), i, lines[1..], rss, blamed);
    }
  }

  /** Only a worker killed by the collector is found at the end of its pipe with a
      job. */
  lemma EofBlames(answer: Path -> Payload, s: State, i: nat, blamed: iset<Path>)
    requires ReadingOk(answer, s, i, []) && s.abort.None? && Alive(s, i) && Gone(s.workers[i].proc.value)
    requires s.workers[i].proc.value.outbox == [] && LogBlamed(s.board.log, blamed)
    requires s.workers[i].proc.value.control.Shot? ==> s.workers[i].phase.Killed?
    requires s.board.mode == Solo && s.workers[i].phase.Killed? ==>
      s.workers[i].attrPath.Some? && s.workers[i].attrPath.value in blamed
    ensures var s' := OnEof(s, i);
            && LogBlamed(s'.board.log, blamed) && (s'.board.mode == Solo ==> s.board.mode == Solo)
            && (s'.abort.None? ==> s'.workers == s.workers[i := NO_WORKER])
  {
    hide Sound, SoloOk, ExitOk;
    assert [] + s.workers[i].proc.value.outbox == [];
  }

  lemma ReadBlames(answer: Path -> Payload, y: Sys, n: nat, eof: bool, rss: nat, blamed: iset<Path>)
    requires Inv(answer, y) && Can(y, Read(n, eof, rss)) && Blamed(y, blamed)
    ensures Blamed(Step(answer, y, Read(n, eof, rss)), blamed)
  {
    hide Sound, Agrees, SoloOk, ExitOk, OnLines, OnLine, OnEof, LogBlamed;
    var i := y.at.idx;
    var p := y.s.workers[i].proc.value;
    var s0 := SetProc(y.s, i, p.(outbox := p.outbox[n..]));
    SetProcSane(y.s, i, p.(outbox := p.outbox[n..]));
    assert SlotAgrees(answer, y.s.workers[i]);
    PoppedAgrees(answer, y.s.workers[i], n);
    OnLinesOk(answer, s0, i, p.outbox[..n], rss);
    LinesBlame(s0, i, p.outbox[..n], rss, blamed);
    OnLinesFrame(s0, i, p.outbox[..n], rss);
    var s1 := OnLines(s0, i, p.outbox[..n], rss);
    if s1.abort.None? && eof && s1.workers[i].proc.Some? {
      EofBlames(answer, s1, i, blamed);
    }
  }

  lemma StepBlames(answer: Path -> Payload, y: Sys, e: Event, blamed: iset<Path>)
    requires Inv(answer, y) && Can(y, e) && Blamed(y, blamed)
    requires forall p | Overruns(y, e, p) :: p in blamed
    ensures Blamed(Step(answer, y, e), blamed)
  {
    hide Sound, AllAgree, Sane;
    match e
    case Slot(x) => SlotBlames(answer, y, x, blamed);
    case Sample(sizes, own) => SampleBlames(answer, y, sizes, own, blamed);
    case Read(n, eof, rss) => ReadBlames(answer, y, n, eof, rss, blamed);
    case _ =>
  }

  lemma {:induction false} RunBlames(answer: Path -> Payload, y: Sys, es: seq<Event>, blamed: iset<Path>)
    requires Inv(answer, y) && Runs(answer, y, es) && Blamed(y, blamed)
    requires forall p | SomeOverrun(answer, y, es, p) :: p in blamed
    ensures Blamed(After(answer, y, es), blamed)
    decreases |es|
  {
    hide Inv, Can, Step, Blamed, Overruns;
    if es != [] {
      assert forall p | Overruns(y, es[0], p) :: SomeOverrun(answer, y, es, p);
      StepBlames(answer, y, es[0], blamed);
      StepInv(answer, y, es[0]);
      assert forall p | SomeOverrun(answer, Step(answer, y, es[0]), es[1..], p) :: SomeOverrun(answer, y, es, p);
      RunBlames(answer, Step(answer, y, es[0]), es[1..], blamed);
    }
  }

  /** When the kernel kills nobody, a path is reported as over budget only after a
      sample found the collector and the one worker that ran it alone over the
      budget. */
  lemma OnlyHugeErrors(answer: Path -> Payload, n: nat, budget: nat, es: seq<Event>, y: Sys, p: Path)
    requires Reachable(answer, n, budget, 0, es, y) && Record(p, OverBudget) in y.s.board.log
    ensures SomeOverrun(answer, Init(n, budget, 0), es, p)
  {
    var start := Init(n, budget, 0);
    var blamed := iset q | SomeOverrun(answer, start, es, q);
    InitInv(answer, n, budget, 0);
    RunBlames(answer, start, es, blamed);
  }
}
