/** The memory budget: what `estimate` is, whom a sample kills, and that a job is
    admitted only if all running jobs still have room to grow. */
module Memory {
  import opened Ledger
  import opened Workers
  import opened Collector
  import opened Discipline
  import opened Capacity
  import opened System
  import opened EveryRun

  // ---- The estimate ---------------------------------------------------------------

  /** A growth seen by a sample while a job runs, or when it is finished. */
  datatype Observation = Seen(growth: nat) | Finish(growth: nat)

  function Decay(e: nat): nat { e * 98 / 100 }

  /** How much more the second reading shows. */
  function Increase(from: nat, to: nat): nat { if to > from then to - from else 0 }

  function Aged(e: nat, times: nat): nat {
    if times == 0 then e else Decay(Aged(e, times - 1))
  }

  function Finishes(h: seq<Observation>): nat {
    if h == [] then 0 else Finishes(h[..|h| - 1]) + if h[|h| - 1].Finish? then 1 else 0
  }

  /** How the scheduler updates the estimate. */
  function Folded(e: nat, h: seq<Observation>): nat {
    if h == [] then e
    else
      var before := Folded(e, h[..|h| - 1]);
      match h[|h| - 1]
      case Seen(g) => Max(before, g)
      case Finish(g) => Max(Decay(before), g)
  }

  /** The growth observed at `k`, decayed once for every job finished since. */
  function Contribution(h: seq<Observation>, k: nat): nat
    requires k < |h|
  {
    Aged(h[k].growth, Finishes(h[k + 1..]))
  }

  lemma DecayMonotone(a: nat, b: nat)
    requires a <= b
    ensures Decay(a) <= Decay(b)
  {
    assert a * 98 <= b * 98;
  }

  lemma ContributionLater(h: seq<Observation>, k: nat)
    requires k < |h| - 1
    ensures var before := Contribution(h[..|h| - 1], k);
            Contribution(h, k) == if h[|h| - 1].Finish? then Decay(before) else before
  {
    assert h[k + 1..][..|h[k + 1..]| - 1] == h[..|h| - 1][k + 1..];
    assert h[k + 1..][|h[k + 1..]| - 1] == h[|h| - 1];
  }

  /** The estimate is the largest of the start value and all growths observed, each
      decayed once for every job that was finished since. */
  lemma {:induction false} DecayedMaximum(e: nat, h: seq<Observation>)
    ensures Aged(e, Finishes(h)) <= Folded(e, h)
    ensures forall k | 0 <= k < |h| :: Contribution(h, k) <= Folded(e, h)
    ensures Folded(e, h) == Aged(e, Finishes(h)) || exists k :: 0 <= k < |h| && Folded(e, h) == Contribution(h, k)
  {
    if h != [] {
      var last := |h| - 1;
      var before := h[..last];
      DecayedMaximum(e, before);
      assert Contribution(h, last) == h[last].growth by {
        assert h[last + 1..] == [];
      }
      forall k | 0 <= k < last
        ensures Contribution(h, k) <= Folded(e, h)
      {
        ContributionLater(h, k);
        DecayMonotone(Contribution(before, k), Folded(e, before));
      }
      DecayMonotone(Aged(e, Finishes(before)), Folded(e, before));
      if Folded(e, h) != h[last].growth && Folded(e, before) != Aged(e, Finishes(before)) {
        var k :| 0 <= k < |before| && Folded(e, before) == Contribution(before, k);
        ContributionLater(h, k);
      }
    }
  }

  // ---- What the scheduler observes ----------------------------------------------------

  function SampleSees(ws: seq<Worker>): seq<Observation> {
    if ws == [] then []
    else
      var w := ws[|ws| - 1];
      SampleSees(ws[..|ws| - 1]) + if w.phase.Busy? || w.phase.Killed? then [Seen(Increase(w.startRss, w.rss))] else []
  }

  ghost function LineSees(s: State, i: nat, line: Line, rss: nat): seq<Observation>
    requires i < |s.workers|
  {
    if s.workers[i].phase.Busy? && line.Answer? && !(line.payload.Error? && line.payload.fatal) then
      [Finish(Increase(s.workers[i].startRss, rss))]
    else []
  }

  ghost function LinesSee(s: State, i: nat, lines: seq<Line>, rss: nat): seq<Observation>
    requires i < |s.workers| == |s.board.held|
    decreases |lines|
  {
    if lines == [] || s.workers[i].proc.None? || s.abort.Some? then []
    else LineSees(s, i, lines[0], rss) + LinesSee(OnLine(s, i, lines[0], rss), i, lines[1..], rss)
  }

  ghost function Sees(y: Sys, e: Event): seq<Observation>
    requires Can(y, e)
  {
    match e
    case Sample(rss, own) => SampleSees(Sampled(y.s.workers, rss))
    case Read(n, eof, rss) =>
      var p := y.s.workers[y.at.idx].proc.value;
      LinesSee(SetProc(y.s, y.at.idx, p.(outbox := p.outbox[n..])), y.at.idx, p.outbox[..n], rss)
    case _ => []
  }

  lemma {:induction false} FoldedJoin(e: nat, h: seq<Observation>, h': seq<Observation>)
    ensures Folded(e, h + h') == Folded(Folded(e, h), h')
  {
    if h' == [] {
      assert h + h' == h;
    } else {
      assert (h + h')[..|h + h'| - 1] == h + h'[..|h'| - 1];
      FoldedJoin(e, h, h'[..|h'| - 1]);
    }
  }

  lemma {:induction false} LearnedIsFolded(e: nat, ws: seq<Worker>)
    ensures Learned(e, ws) == Folded(e, SampleSees(ws))
  {
    if ws != [] {
      var before := ws[..|ws| - 1];
      LearnedIsFolded(e, before);
      if Running(ws[|ws| - 1]) {
        assert SampleSees(ws)[..|SampleSees(ws)| - 1] == SampleSees(before);
      } else {
        assert SampleSees(ws) == SampleSees(before);
      }
    }
  }

  lemma {:induction false} LinesFold(s: State, i: nat, lines: seq<Line>, rss: nat)
    requires i < |s.workers| == |s.board.held|
    ensures OnLines(s, i, lines, rss).estimate == Folded(s.estimate, LinesSee(s, i, lines, rss))
    decreases |lines|
  {
    if lines != [] && s.workers[i].proc.Some? && s.abort.None? {
      var s1 := OnLine(s, i, lines[0], rss);
      LineFolds(s, i, lines[0], rss);
      hide OnLine, LineSees, Folded;
      LinesFold(s1, i, lines[1..], rss);
      FoldedJoin(s.estimate, LineSees(s, i, lines[0], rss), LinesSee(s1, i, lines[1..], rss));
    } else {
      assert LinesSee(s, i, lines, rss) == [];
    }
  }

  lemma LineFolds(s: State, i: nat, line: Line, rss: nat)
    requires i < |s.workers| == |s.board.held|
    ensures OnLine(s, i, line, rss).estimate == Folded(s.estimate, LineSees(s, i, line, rss))
  {
    OneObservation(s.estimate, LineSees(s, i, line, rss));
  }

  lemma OneObservation(e: nat, h: seq<Observation>)
    requires |h| <= 1
    ensures Folded(e, h) ==
      if h == [] then e else if h[0].Seen? then Max(e, h[0].growth) else Max(Decay(e), h[0].growth)
  {
    if h != [] {
      assert h[..0] == [];
    }
  }

  ghost function AllSeen(answer: Path -> Payload, y: Sys, es: seq<Event>): seq<Observation>
    requires Runs(answer, y, es)
    decreases |es|
  {
    if es == [] then [] else Sees(y, es[0]) + AllSeen(answer, Step(answer, y, es[0]), es[1..])
  }

  lemma StepFolds(answer: Path -> Payload, y: Sys, e: Event)
    requires Can(y, e)
    ensures Step(answer, y, e).s.estimate == Folded(y.s.estimate, Sees(y, e))
  {
    match e
    case Sample(rss, own) => LearnedIsFolded(y.s.estimate, Sampled(y.s.workers, rss));
    case Read(n, eof, rss) =>
      var p := y.s.workers[y.at.idx].proc.value;
      LinesFold(SetProc(y.s, y.at.idx, p.(outbox := p.outbox[n..])), y.at.idx, p.outbox[..n], rss);
    case _ =>
  }

  lemma {:induction false} RunFolds(answer: Path -> Payload, y: Sys, es: seq<Event>)
    requires Runs(answer, y, es)
    ensures After(answer, y, es).s.estimate == Folded(y.s.estimate, AllSeen(answer, y, es))
    decreases |es|
  {
    hide Can, Step, Sees;
    if es != [] {
      var y1 := Step(answer, y, es[0]);
      StepFolds(answer, y, es[0]);
      RunFolds(answer, y1, es[1..]);
      FoldedJoin(y.s.estimate, Sees(y, es[0]), AllSeen(answer, y1, es[1..]));
    }
  }

  /** In every run the estimate is the decayed maximum of what the run has
      observed, the start value of 512 MiB included. */
  lemma EstimateIsDecayedMaximum(answer: Path -> Payload, n: nat, budget: nat, oom: nat, es: seq<Event>, y: Sys)
    requires Reachable(answer, n, budget, oom, es, y)
    ensures var h := AllSeen(answer, Init(n, budget, oom), es);
            && Aged(512, Finishes(h)) <= y.s.estimate
            && (forall k | 0 <= k < |h| :: Contribution(h, k) <= y.s.estimate)
            && (y.s.estimate == Aged(512, Finishes(h)) ||
                exists k :: 0 <= k < |h| && y.s.estimate == Contribution(h, k))
  {
    RunFolds(answer, Init(n, budget, oom), es);
    DecayedMaximum(512, AllSeen(answer, Init(n, budget, oom), es));
  }

  // ---- The readings -------------------------------------------------------------------------

  /** What the lines of one read do to the readings of their worker: one that was busy
      and is not any more has a new one. */
  lemma {:induction false} LinesKeepReadings(s: State, i: nat, lines: seq<Line>, rss: nat)
    requires i < |s.workers| == |s.board.held|
    ensures var w, w' := s.workers[i], OnLines(s, i, lines, rss).workers[i];
            && (w'.phase.Busy? || w'.phase.Killed? ==> w'.phase == w.phase && w'.startRss == w.startRss)
            && (w'.proc.Some? ==> w'.rss == if w.phase.Busy? && !w'.phase.Busy? then rss else w.rss)
    decreases |lines|
  {
    if lines != [] && s.workers[i].proc.Some? && s.abort.None? {
      LinesKeepReadings(OnLine(s, i, lines[0], rss), i, lines[1..], rss);
    }
  }

  /** The reading of a worker after a step: a new one in a sample, when it is started and
      when it has answered; otherwise the last one. */
  function LastReading(y: Sys, e: Event, i: nat, before: Worker, after: Worker): nat {
    match e
    case Sample(sizes, _) => if i < |sizes| then sizes[i] else 0
    case Slot(x) => if before.proc.None? then x.rss else before.rss
    case Read(_, _, rss) => if before.phase.Busy? && !after.phase.Busy? then rss else before.rss
    case _ => before.rss
  }

  /** The growth of a job is counted from the last reading before it was handed out: this
      is noted at the hand-out and kept as long as the job runs. */
  predicate ReadingKept(y: Sys, e: Event, i: nat, before: Worker, after: Worker) {
    && (after.proc.Some? ==> after.rss == LastReading(y, e, i, before, after))
    && (after.phase.Busy? || after.phase.Killed? ==>
          after.startRss == if before.phase.Busy? || before.phase.Killed? then before.startRss else before.rss)
  }

  lemma SlotKeepsReading(s: State, y: Sys, idx: nat, spawnable: nat, x: SlotInput, i: nat)
    requires Sane(s) && idx < |s.workers| && i < |s.workers|
    ensures SoloHasWork(s)
    ensures var s' := DispatchSlot(s, idx, spawnable, x).0;
            |s'.workers| == |s.workers| && ReadingKept(y, Slot(x), i, s.workers[i], s'.workers[i])
  {
    assert SlotShaped(s.workers[idx], s.board.held[idx]) && SlotShaped(s.workers[i], s.board.held[i]);
  }

  lemma SampleKeepsReading(y: Sys, sizes: seq<nat>, own: nat, i: nat)
    requires Sane(y.s) && |sizes| == |y.s.workers| && i < |y.s.workers|
    ensures var s' := SampleMemory(y.s, sizes, own);
            |s'.workers| == |y.s.workers| && ReadingKept(y, Sample(sizes, own), i, y.s.workers[i], s'.workers[i])
  {
    assert SlotShaped(y.s.workers[i], y.s.board.held[i]);
  }

  lemma ReadKeepsReading(answer: Path -> Payload, y: Sys, n: nat, eof: bool, rss: nat, i: nat)
    requires Inv(answer, y) && Can(y, Read(n, eof, rss)) && i < |y.s.workers|
    ensures var s' := Step(answer, y, Read(n, eof, rss)).s;
            |s'.workers| == |y.s.workers| &&
            (s'.abort.None? ==> ReadingKept(y, Read(n, eof, rss), i, y.s.workers[i], s'.workers[i]))
  {
    hide Sound, AllAgree, Sane;
    var p := y.s.workers[y.at.idx].proc.value;
    var s0 := SetProc(y.s, y.at.idx, p.(outbox := p.outbox[n..]));
    OnLinesFrame(s0, y.at.idx, p.outbox[..n], rss);
    LinesKeepReadings(s0, y.at.idx, p.outbox[..n], rss);
  }

  lemma ReadingsKept(answer: Path -> Payload, y: Sys, e: Event, i: nat)
    requires Inv(answer, y) && Can(y, e) && i < |y.s.workers| && Step(answer, y, e).s.abort.None?
    ensures |Step(answer, y, e).s.workers| == |y.s.workers|
    ensures ReadingKept(y, e, i, y.s.workers[i], Step(answer, y, e).s.workers[i])
  {
    hide Sound, AllAgree, DispatchSlot, SampleMemory, ReadPipe;
    assert SlotShaped(y.s.workers[i], y.s.board.held[i]);
    match e
    case Slot(x) => SlotKeepsReading(y.s, y, y.at.idx, y.at.spawnable, x, i);
    case Sample(sizes, own) => SampleKeepsReading(y, sizes, own, i);
    case Read(n, eof, rss) => ReadKeepsReading(answer, y, n, eof, rss, i);
    case _ =>
  }

  // ---- The victim ----------------------------------------------------------------------

  /** The victim is the first of the busy workers that use most, if any is busy. */
  lemma {:induction false} VictimIsLargest(ws: seq<Worker>)
    ensures Victim(ws).None? <==> forall i | 0 <= i < |ws| :: !ws[i].phase.Busy?
    ensures Victim(ws).Some? ==> forall i | 0 <= i < |ws| && ws[i].phase.Busy? ::
              ws[i].rss <= ws[Victim(ws).value].rss && (i < Victim(ws).value ==> ws[i].rss < ws[Victim(ws).value].rss)
  {
    if ws != [] {
      VictimIsLargest(ws[..|ws| - 1]);
      assert forall i | 0 <= i < |ws| - 1 :: ws[i] == ws[..|ws| - 1][i];
    }
  }

  /** What a sample reads; an empty slot uses nothing. */
  function AliveSizes(ws: seq<Worker>, rss: seq<nat>): seq<nat>
    requires |rss| == |ws|
  {
    seq(|ws|, i requires 0 <= i < |ws| => if ws[i].proc.Some? then rss[i] else 0)
  }

  /** A sample kills one worker at most, and this is one exactly when the budget is
      exceeded and it is the first of the busy ones that use most. */
  lemma SampleKills(s: State, rss: seq<nat>, own: nat, i: nat)
    requires Sane(s) && |rss| == |s.workers| && i < |s.workers| && !s.workers[i].phase.Killed?
    ensures SampleMemory(s, rss, own).workers[i].phase.Killed? <==>
      && own + Sum(AliveSizes(s.workers, rss)) > s.budget && s.workers[i].phase.Busy?
      && (forall j | 0 <= j < |s.workers| && s.workers[j].phase.Busy? ::
          rss[j] <= rss[i] && (j < i ==> rss[j] < rss[i]))
  {
    var ws := Sampled(s.workers, rss);
    VictimIsLargest(ws);
    TotalExactly(ws);
    assert Readings(ws) == AliveSizes(s.workers, rss);
    assert forall j | 0 <= j < |s.workers| ::
      ws[j].phase == s.workers[j].phase && SlotShaped(s.workers[j], s.board.held[j]);
    assert forall j | 0 <= j < |s.workers| && s.workers[j].phase.Busy? :: ws[j].rss == rss[j];
  }

  // ---- Admission ---------------------------------------------------------------------

  /** What a worker may use: busy ones may grow by the estimate. */
  function Allowance(s: State, i: nat): nat
    requires i < |s.workers|
  {
    s.workers[i].rss + if s.workers[i].phase.Busy? then s.estimate else 0
  }

  predicate Within(s0: State, rss: seq<nat>) {
    |rss| <= |s0.workers| && forall i | 0 <= i < |rss| :: rss[i] <= Allowance(s0, i)
  }

  function Sizes(ws: seq<Worker>): seq<nat> {
    seq(|ws|, i requires 0 <= i < |ws| => ws[i].rss)
  }

  lemma {:induction false} AllowanceSum(s0: State, ws: seq<Worker>)
    requires Within(s0, Sizes(ws))
    ensures TotalRss(ws) <= TotalRss(s0.workers[..|ws|]) + CountPhase(s0.workers[..|ws|], Busy) * s0.estimate
  {
    if ws != [] {
      var last := |ws| - 1;
      var ws0 := s0.workers[..|ws|];
      assert Sizes(ws[..last]) == Sizes(ws)[..last];
      AllowanceSum(s0, ws[..last]);
      assert ws0[..last] == s0.workers[..last];
      assert Sizes(ws)[last] <= Allowance(s0, last);
      var count := CountPhase(ws0[..last], Busy);
      assert (count + 1) * s0.estimate == count * s0.estimate + s0.estimate;
    }
  }

  /** All running jobs can grow by the estimate within the budget. */
  predicate RoomToGrow(s: State, own: nat) {
    own + TotalRss(s.workers) + CountPhase(s.workers, Busy) * s.estimate <= s.budget
  }

  lemma {:induction false} CountUpdate(ws: seq<Worker>, i: nat, w: Worker, phase: Phase)
    requires i < |ws|
    ensures CountPhase(ws[i := w], phase) ==
      CountPhase(ws, phase) - (if ws[i].phase == phase then 1 else 0) + (if w.phase == phase then 1 else 0)
  {
    var last := |ws| - 1;
    if i < last {
      CountUpdate(ws[..last], i, w, phase);
      assert ws[i := w][..last] == ws[..last][i := w];
    } else {
      assert ws[i := w][..last] == ws[..last];
    }
  }

  lemma {:induction false} RssUpdate(ws: seq<Worker>, i: nat, w: Worker)
    requires i < |ws|
    ensures TotalRss(ws[i := w]) == TotalRss(ws) - ws[i].rss + w.rss
  {
    var last := |ws| - 1;
    if i < last {
      RssUpdate(ws[..last], i, w);
      assert ws[i := w][..last] == ws[..last][i := w];
    } else {
      assert ws[i := w][..last] == ws[..last];
    }
  }

  /** A job handed out in parallel mode while another is busy leaves room. */
  lemma AdmissionLeavesRoom(s: State, i: nat, spawnable: nat, x: SlotInput)
    requires Sane(s) && s.abort.None? && i < |s.workers| && s.board.mode == Parallel && x.sent
    requires s.workers[i].phase.Idle? && !Finished(s) && CanTake(s, x.own) && CountPhase(s.workers, Busy) > 0
    ensures SoloHasWork(s) && RoomToGrow(DispatchSlot(s, i, spawnable, x).0, x.own)
  {
    var s' := DispatchSlot(s, i, spawnable, x).0;
    assert SlotShaped(s.workers[i], s.board.held[i]);
    var w' := s'.workers[i];
    assert s'.workers == s.workers[i := w'];
    CountUpdate(s.workers, i, w', Busy);
    RssUpdate(s.workers, i, w');
  }

  /** What is assumed of the surroundings after the job was handed out in `s0`:
      no more jobs or processes, and no process uses more than it is allowed. */
  ghost predicate Calm(answer: Path -> Payload, s0: State, own0: nat, y: Sys, e: Event)
    requires Can(y, e)
  {
    match e
    case Slot(x) =>
      var y' := Step(answer, y, e);
      y'.s.board.handed == y.s.board.handed && NothingSpawned(y.s, y'.s)
    case Sample(rss, own) => own <= own0 && Within(s0, rss)
    case Read(n, eof, rss) => y.at.idx < |s0.workers| && rss <= Allowance(s0, y.at.idx)
    case _ => true
  }

  ghost predicate AllCalm(answer: Path -> Payload, s0: State, own0: nat, y: Sys, es: seq<Event>)
    requires Runs(answer, y, es)
    decreases |es|
  {
    es == [] || (Calm(answer, s0, own0, y, es[0]) && AllCalm(answer, s0, own0, Step(answer, y, es[0]), es[1..]))
  }

  ghost predicate Tame(s0: State, s: State) {
    |s.workers| == |s0.workers| && s.budget == s0.budget && Within(s0, Sizes(s.workers))
  }

  lemma {:induction false} LinesTame(s0: State, s: State, i: nat, lines: seq<Line>, rss: nat)
    requires Tame(s0, s) && i < |s.workers| == |s.board.held| && rss <= Allowance(s0, i)
    ensures Tame(s0, OnLines(s, i, lines, rss))
    decreases |lines|
  {
    if lines != [] && s.workers[i].proc.Some? && s.abort.None? {
      var s1 := OnLine(s, i, lines[0], rss);
      assert forall j | 0 <= j < |s.workers| :: Sizes(s.workers)[j] <= Allowance(s0, j);
      forall j | 0 <= j < |s.workers|
        ensures Sizes(s1.workers)[j] <= Allowance(s0, j)
      {
      }
      LinesTame(s0, s1, i, lines[1..], rss);
    }
  }

  lemma SampleTame(s0: State, own0: nat, s: State, rss: seq<nat>, own: nat)
    requires Tame(s0, s) && RoomToGrow(s0, own0) && Sane(s) && |rss| == |s.workers| && own <= own0 && Within(s0, rss)
    ensures var s' := SampleMemory(s, rss, own);
            && Tame(s0, s') && own + TotalRss(s'.workers) <= s.budget
            && forall i | 0 <= i < |s.workers| :: s'.workers[i].phase == s.workers[i].phase
  {
    var ws := Sampled(s.workers, rss);
    forall i | 0 <= i < |ws|
      ensures Sizes(ws)[i] <= Allowance(s0, i)
    {
    }
    AllowanceSum(s0, ws);
    assert s0.workers[..|ws|] == s0.workers;
  }

  /** Slots change only by losing or keeping their memory readings. */
  lemma SlotTame(answer: Path -> Payload, s0: State, own0: nat, y: Sys, x: SlotInput)
    requires Inv(answer, y) && Can(y, Slot(x)) && Calm(answer, s0, own0, y, Slot(x)) && Tame(s0, y.s)
    ensures Tame(s0, Step(answer, y, Slot(x)).s)
  {
    hide Sound, AllAgree;
    var y' := Step(answer, y, Slot(x));
    var i := y.at.idx;
    assert SlotShaped(y.s.workers[i], y.s.board.held[i]);
    assert forall j | 0 <= j < |y.s.workers| :: Sizes(y.s.workers)[j] <= Allowance(s0, j);
    forall j | 0 <= j < |y'.s.workers|
      ensures Sizes(y'.s.workers)[j] <= Allowance(s0, j)
    {
    }
  }

  lemma StepTame(answer: Path -> Payload, s0: State, own0: nat, y: Sys, e: Event)
    requires Inv(answer, y) && Can(y, e) && Calm(answer, s0, own0, y, e) && Tame(s0, y.s) && RoomToGrow(s0, own0)
    ensures Tame(s0, Step(answer, y, e).s)
    ensures e.Sample? ==> forall i | 0 <= i < |y.s.workers| ::
      Step(answer, y, e).s.workers[i].phase == y.s.workers[i].phase
    ensures e.Sample? ==> e.own + TotalRss(Step(answer, y, e).s.workers) <= y.s.budget
  {
    hide Sound, AllAgree;
    assert forall j | 0 <= j < |y.s.workers| :: Sizes(y.s.workers)[j] <= Allowance(s0, j);
    match e
    case Slot(x) => SlotTame(answer, s0, own0, y, x);
    case Sample(rss, own) => SampleTame(s0, own0, y.s, rss, own);
    case Read(n, eof, rss) =>
      var p := y.s.workers[y.at.idx].proc.value;
      var s1 := SetProc(y.s, y.at.idx, p.(outbox := p.outbox[n..]));
      assert Sizes(s1.workers) == Sizes(y.s.workers);
      LinesTame(s0, s1, y.at.idx, p.outbox[..n], rss);
      EofTame(s0, OnLines(s1, y.at.idx, p.outbox[..n], rss), y.at.idx);
    case _ =>
  }

  lemma EofTame(s0: State, s: State, i: nat)
    requires Tame(s0, s) && i < |s.workers| == |s.board.held|
    ensures s.workers[i].proc.Some? ==> Tame(s0, OnEof(s, i))
  {
    assert forall j | 0 <= j < |s.workers| :: Sizes(s.workers)[j] <= Allowance(s0, j);
  }

  /** No sample of the run finds the budget exceeded or kills a worker. */
  ghost predicate NoneKilled(answer: Path -> Payload, y: Sys, es: seq<Event>)
    requires Runs(answer, y, es)
    decreases |es|
  {
    es == [] || (
      var y' := Step(answer, y, es[0]);
      && (es[0].Sample? ==>
            && es[0].own + TotalRss(y'.s.workers) <= y.s.budget && |y'.s.workers| == |y.s.workers|
            && forall i | 0 <= i < |y.s.workers| :: y'.s.workers[i].phase == y.s.workers[i].phase)
      && NoneKilled(answer, y', es[1..]))
  }

  lemma {:induction false} CalmRunsKillNone(answer: Path -> Payload, s0: State, own0: nat, y: Sys, es: seq<Event>)
    requires Inv(answer, y) && Runs(answer, y, es) && AllCalm(answer, s0, own0, y, es)
    requires Tame(s0, y.s) && RoomToGrow(s0, own0)
    ensures NoneKilled(answer, y, es)
    decreases |es|
  {
    hide Inv, Can, Step, Calm, RoomToGrow, Within;
    if es != [] {
      StepTame(answer, s0, own0, y, es[0]);
      StepInv(answer, y, es[0]);
      CalmRunsKillNone(answer, s0, own0, Step(answer, y, es[0]), es[1..]);
    }
  }

  lemma SlotKeepsBudget(s: State, i: nat, spawnable: nat, x: SlotInput)
    requires Sane(s) && i < |s.workers|
    ensures SoloHasWork(s)
    ensures var s' := DispatchSlot(s, i, spawnable, x).0;
            Tame(s', s')
  {
    var s' := DispatchSlot(s, i, spawnable, x).0;
    assert forall j | 0 <= j < |s'.workers| :: Sizes(s'.workers)[j] <= Allowance(s', j);
  }

  /** After the last hand-out in parallel mode that was admitted while another job
      was busy, memory stays within the budget and no sample kills, as long as
      no worker grows by more than the estimate of then, nothing else grows and
      nothing is started or handed out. */
  lemma AdmissionIsSafe(answer: Path -> Payload, n: nat, budget: nat, oom: nat, es0: seq<Event>, y: Sys, x: SlotInput,
      es: seq<Event>)
    requires Reachable(answer, n, budget, oom, es0, y) && Can(y, Slot(x)) && y.s.board.mode == Parallel && x.sent
    requires y.s.workers[y.at.idx].phase.Idle? && MayTake(y.s, x.own) && PhaseSlots(y.s.workers, Busy) != {}
    requires var y1 := Step(answer, y, Slot(x)); Runs(answer, y1, es) && AllCalm(answer, y1.s, x.own, y1, es)
    ensures NoneKilled(answer, Step(answer, y, Slot(x)), es)
  {
    hide Sound, AllAgree, Reachable;
    ReachableInv(answer, n, budget, oom, es0, y);
    SlotInv(answer, y, x);
    CanTakeExactly(y.s, x.own);
    NothingLeftExactly(y.s);
    CountExactly(y.s.workers, Busy);
    AdmissionLeavesRoom(y.s, y.at.idx, y.at.spawnable, x);
    SlotKeepsBudget(y.s, y.at.idx, y.at.spawnable, x);
    var y1 := Step(answer, y, Slot(x));
    CalmRunsKillNone(answer, y1.s, x.own, y1, es);
  }
}
