/** The loop `run` of the class `Scheduler`, with the surroundings acting between its
    calls, is a run of `System`. */
module EventLoop {
  import opened Wrappers
  import opened Ledger
  import opened Verdicts
  import opened Workers
  import opened Collector
  import opened Discipline
  import opened System
  import opened EveryRun
  import opened Progress
  import opened Refinement
  import S = Scheduler

  /** What the surroundings do in one round of the loop: processes act and are killed
      before `dispatch` and before the poll; inputs of `dispatch`; a sample if it
      is time for one; and the pipes that are ready.  What is not possible when
      it comes to it does not happen. */
  datatype Round = Round(
    before: seq<Event>, inputs: seq<SlotInput>,
    between: seq<Event>, sample: Option<(seq<nat>, nat)>, pipes: seq<S.ReadInput>)

  predicate RoundFits(r: Round, n: nat) {
    |r.inputs| == n && |r.pipes| == n && (r.sample.Some? ==> |r.sample.value.0| == n)
  }

  // ---- The surroundings ------------------------------------------------------------

  method Surround(s: S.Scheduler, answer: Path -> Payload, e: Event, oom: nat, ghost at: Point)
    returns (oom': nat, ghost es: seq<Event>)
    requires s.Valid() && s.abort.None?
    modifies s.workers
    ensures s.Valid() && Runs(answer, Sys(old(s.Abs()), at, oom), es)
    ensures After(answer, Sys(old(s.Abs()), at, oom), es) == Sys(s.Abs(), at, oom')
  {
    ghost var y := Sys(s.Abs(), at, oom);
    oom', es := oom, [];
    match e {
      case ProcessActs(i, act) =>
        if i < s.workers.Length && s.workers[i].proc.Some? && CanAct(s.workers[i].proc.value, act) {
          SetProcSane(s.Abs(), i, ActOf(answer, s.workers[i].proc.value, act));
          OneStep(answer, y, e);
          es := [e];
          s.workers[i] := s.workers[i].(proc := Some(ActOf(answer, s.workers[i].proc.value, act)));
        }
      case KernelKills(i) =>
        if i < s.workers.Length && s.workers[i].proc.Some? && !Ended(s.workers[i].proc.value) && oom > 0 {
          SetProcSane(s.Abs(), i, Kill(s.workers[i].proc.value));
          OneStep(answer, y, e);
          es := [e];
          s.workers[i] := s.workers[i].(proc := Some(Kill(s.workers[i].proc.value)));
          oom' := oom - 1;
        }
      case _ =>
    }
  }

  method SurroundAll(s: S.Scheduler, answer: Path -> Payload, events: seq<Event>, oom: nat, ghost at: Point)
    returns (oom': nat, ghost es: seq<Event>)
    requires s.Valid() && s.abort.None?
    modifies s.workers
    ensures s.Valid() && Runs(answer, Sys(old(s.Abs()), at, oom), es)
    ensures After(answer, Sys(old(s.Abs()), at, oom), es) == Sys(s.Abs(), at, oom')
  {
    oom', es := oom, [];
    ghost var y := Sys(s.Abs(), at, oom);
    for k := 0 to |events|
      invariant s.Valid() && s.abort.None? && Runs(answer, y, es) && After(answer, y, es) == Sys(s.Abs(), at, oom')
    {
      ghost var more;
      oom', more := Surround(s, answer, events[k], oom', at);
      RunsJoin(answer, y, es, more);
      es := es + more;
    }
  }

  // ---- Dispatch ---------------------------------------------------------------------

  /** A line can always be sent to a process that has its pipe open. */
  function Sendable(ws: seq<Worker>, xs: seq<SlotInput>): seq<SlotInput>
    requires |xs| == |ws|
  {
    seq(|xs|, i requires 0 <= i < |xs| =>
      xs[i].(sent := xs[i].sent || (ws[i].proc.Some? && !Gone(ws[i].proc.value))))
  }

  ghost predicate SentFits(ws: seq<Worker>, i: nat, xs: seq<SlotInput>)
    requires i + |xs| == |ws|
  {
    forall k | 0 <= k < |xs| && !xs[k].sent && ws[i + k].proc.Some? :: Gone(ws[i + k].proc.value)
  }

  lemma {:induction false} SendableFits(first: set<Path> -> Path, s: State, i: nat, spawnable: nat, xs: seq<SlotInput>)
    requires S.Picks(first) && S.PassOk(s, spawnable) && i + |xs| == |s.workers| && SentFits(s.workers, i, xs)
    ensures PassFits(first, s, i, spawnable, xs)
    decreases |xs|
  {
    hide SoloOk, ExitOk, RoomFor, DispatchSlot;
    if xs != [] && s.abort.None? {
      var x := S.Choose(first, s, xs[0]);
      DispatchSlotSane(s, i, spawnable, x);
      S.SlotFrame(s, i, spawnable, x);
      var (s1, spawnable1) := DispatchSlot(s, i, spawnable, x);
      assert s.workers[i] == s.workers[i + 0];
      forall k | 0 <= k < |xs[1..]| && !xs[1..][k].sent && s1.workers[i + 1 + k].proc.Some?
        ensures Gone(s1.workers[i + 1 + k].proc.value)
      {
        assert xs[1..][k] == xs[k + 1] && s1.workers[i + (k + 1)] == s.workers[i + (k + 1)];
      }
      SendableFits(first, s1, i + 1, spawnable1, xs[1..]);
    }
  }

  method DispatchRound(s: S.Scheduler, ghost answer: Path -> Payload, inputs: seq<SlotInput>, ghost oom: nat)
    returns (ghost es: seq<Event>)
    requires s.Valid() && s.abort.None? && |inputs| == s.workers.Length
    requires Inv(answer, Sys(s.Abs(), Top, oom)) && !Terminated(Sys(s.Abs(), Top, oom))
    modifies s, s.workers
    ensures s.Valid() && Runs(answer, Sys(old(s.Abs()), Top, oom), es)
    ensures After(answer, Sys(old(s.Abs()), Top, oom), es) == Sys(s.Abs(), Polling, oom)
  {
    hide Sound, AllAgree, Sane, PassFits;
    ghost var y := Sys(s.Abs(), Top, oom);
    var xs := Sendable(s.workers[..], inputs);
    ghost var s0 := BeginDispatch(s.Abs());
    BeginDispatchSane(s.Abs());
    SendableFits(s.first, s0, 0, Spawnable(s0), xs);
    CanBegin(answer, y);
    DispatchIsRun(answer, s.first, y, xs);
    es := [Begin] + SlotEvents(Chosen(s.first, s0, 0, Spawnable(s0), xs));
    s.Dispatch(xs);
  }

  lemma CanBegin(answer: Path -> Payload, y: Sys)
    requires Inv(answer, y) && y.s.abort.None? && y.at.Top? && !Terminated(y)
    ensures Can(y, Begin)
  {}

  // ---- The poll ----------------------------------------------------------------------

  /** A pipe yields no more than it holds, and its end only behind all of it. */
  function Readable(ws: seq<Worker>, xs: seq<S.ReadInput>): seq<S.ReadInput>
    requires |xs| == |ws|
  {
    seq(|xs|, i requires 0 <= i < |xs| =>
      if xs[i].Silent? || ws[i].proc.None? then S.Silent
      else
        var p := ws[i].proc.value;
        var n := if xs[i].n <= |p.outbox| then xs[i].n else |p.outbox|;
        S.Readable(n, xs[i].eof && Gone(p) && n == |p.outbox|, xs[i].rss))
  }

  lemma ReadableFits(s: State, xs: seq<S.ReadInput>)
    requires |xs| == |s.workers|
    ensures S.CanReadFrom(s, 0, Readable(s.workers, xs)) && EofFits(s, 0, Readable(s.workers, xs))
  {}

  lemma SampleKeepsEof(s: State, sizes: seq<nat>, own: nat, xs: seq<S.ReadInput>)
    requires |sizes| == |s.workers| == |xs| && EofFits(s, 0, xs)
    requires forall i | 0 <= i < |s.workers| && s.workers[i].phase.Busy? :: s.workers[i].proc.Some?
    ensures EofFits(SampleMemory(s, sizes, own), 0, xs)
  {
    var s' := SampleMemory(s, sizes, own);
    forall k | 0 <= k < |xs| && Alive(s', k)
      ensures Alive(s, k) && s'.workers[k].proc.value.outbox == s.workers[k].proc.value.outbox
      ensures Gone(s.workers[k].proc.value) ==> Gone(s'.workers[k].proc.value)
    {
    }
  }

  ghost function ReadySet(xs: seq<S.ReadInput>): set<nat> {
    set k: nat | k < |xs| && xs[k].Readable?
  }

  method PollRound(s: S.Scheduler, ghost answer: Path -> Payload, sample: Option<(seq<nat>, nat)>,
      pipes: seq<S.ReadInput>, ghost oom: nat)
    returns (ghost es: seq<Event>)
    requires s.Valid() && s.abort.None? && |pipes| == s.workers.Length
    requires sample.Some? ==> |sample.value.0| == s.workers.Length
    requires Inv(answer, Sys(s.Abs(), Polling, oom))
    modifies s, s.workers
    ensures s.Valid() && Runs(answer, Sys(old(s.Abs()), Polling, oom), es)
    ensures Polls(After(answer, Sys(old(s.Abs()), Polling, oom), es), s.Abs(), oom)
  {
    hide Sound, AllAgree, EofFits, SampleMemory;
    ghost var y := Sys(s.Abs(), Polling, oom);
    var xs := Readable(s.workers[..], pipes);
    ReadableFits(s.Abs(), pipes);
    ghost var ready := ReadySet(xs);
    if sample.Some? {
      BusyHasProc(s.Abs());
      SampleKeepsEof(s.Abs(), sample.value.0, sample.value.1, xs);
      PollAndSampleIsRun(answer, y, sample.value.0, sample.value.1, xs, ready);
      es := [Poll(ready)] +
        ([Sample(sample.value.0, sample.value.1)] +
          ReadEvents(SampleMemory(y.s, sample.value.0, sample.value.1), 0, xs));
    } else {
      PollIsRun(answer, y, xs, ready);
      es := [Poll(ready)] + ([NoSample] + ReadEvents(y.s, 0, xs));
    }
    s.PollWorkers(sample, xs);
  }

  lemma BusyHasProc(s: State)
    requires Sane(s)
    ensures forall i | 0 <= i < |s.workers| && s.workers[i].phase.Busy? :: s.workers[i].proc.Some?
  {
    assert forall i | 0 <= i < |s.workers| :: SlotShaped(s.workers[i], s.board.held[i]);
  }

  // ---- The loop --------------------------------------------------------------------------

  /** `es` leads from `y` to the state of the scheduler. */
  ghost predicate Leads(answer: Path -> Payload, y: Sys, es: seq<Event>, s: State, at: Point, oom: nat) {
    Runs(answer, y, es) && After(answer, y, es) == Sys(s, at, oom)
  }

  lemma LeadsOn(answer: Path -> Payload, y: Sys, es: seq<Event>, s: State, at: Point, oom: nat,
      es': seq<Event>, s': State, at': Point, oom': nat)
    requires Inv(answer, y) && Leads(answer, y, es, s, at, oom) && Leads(answer, Sys(s, at, oom), es', s', at', oom')
    ensures Leads(answer, y, es + es', s', at', oom') && Inv(answer, Sys(s', at', oom'))
  {
    hide Inv;
    RunsJoin(answer, y, es, es');
    RunInv(answer, y, es + es');
  }

  /** Once around: dispatch, whatever happens meanwhile, and poll. */
  method Around(s: S.Scheduler, answer: Path -> Payload, r: Round, oom: nat)
    returns (oom': nat, ghost es: seq<Event>, ghost at: Point)
    requires s.Valid() && s.abort.None? && RoundFits(r, s.workers.Length)
    requires Inv(answer, Sys(s.Abs(), Top, oom)) && !Terminated(Sys(s.Abs(), Top, oom))
    modifies s, s.workers
    ensures s.Valid() && Leads(answer, Sys(old(s.Abs()), Top, oom), es, s.Abs(), at, oom')
    ensures Inv(answer, Sys(s.Abs(), at, oom')) && (s.abort.None? ==> at.Top?)
  {
    hide Inv, Runs, After;
    ghost var y := Sys(s.Abs(), Top, oom);
    oom', at := oom, Polling;
    es := DispatchRound(s, answer, r.inputs, oom);
    ghost var s1 := s.Abs();
    NothingMore(answer, s1, Polling, oom);
    LeadsOn(answer, y, es, s1, Polling, oom, [], s1, Polling, oom);
    assert es + [] == es;
    if s.abort.None? {
      ghost var es2;
      oom', es2 := SurroundAll(s, answer, r.between, oom, Polling);
      ghost var s2 := s.Abs();
      LeadsOn(answer, y, es, s1, Polling, oom, es2, s2, Polling, oom');
      ghost var es3 := PollRound(s, answer, r.sample, r.pipes, oom');
      at := After(answer, Sys(s2, Polling, oom'), es3).at;
      LeadsOn(answer, y, es + es2, s2, Polling, oom', es3, s.Abs(), at, oom');
      es := es + es2 + es3;
    }
  }

  lemma NothingMore(answer: Path -> Payload, s: State, at: Point, oom: nat)
    ensures Leads(answer, Sys(s, at, oom), [], s, at, oom)
  {}

  predicate AllEmpty(ws: seq<Worker>) {
    forall i | 0 <= i < |ws| :: ws[i].proc.None?
  }

  /** The loop of `run`, for as many rounds as the surroundings are told for.  It ends
      when the work is done, and all it does is a run of `System`. */
  method Run(s: S.Scheduler, answer: Path -> Payload, rounds: seq<Round>, oom: nat)
    returns (ended: bool, ghost oom': nat, ghost es: seq<Event>, ghost at: Point)
    requires s.Valid() && s.abort.None? && Inv(answer, Sys(s.Abs(), Top, oom))
    requires forall k | 0 <= k < |rounds| :: RoundFits(rounds[k], s.workers.Length)
    modifies s, s.workers
    ensures s.Valid() && Leads(answer, Sys(old(s.Abs()), Top, oom), es, s.Abs(), at, oom')
    ensures ended <==> Terminated(Sys(s.Abs(), at, oom'))
    ensures ended <==> s.abort.None? && s.todo == {} && s.solo == [] && AllEmpty(s.workers[..])
    ensures s.abort.None? ==> at.Top?
  {
    hide Inv, Leads;
    ghost var y := Sys(s.Abs(), Top, oom);
    var left, k := oom, 0;
    es, at := [], Top;
    NothingMore(answer, s.Abs(), Top, oom);
    while k < |rounds| && s.abort.None? && !(s.IsFinished() && !AnyAlive(s.workers[..]))
      invariant k <= |rounds| && s.Valid() && Leads(answer, y, es, s.Abs(), at, left)
      invariant Inv(answer, Sys(s.Abs(), at, left)) && (s.abort.None? ==> at.Top?)
    {
      ghost var more, s1, before := [], s.Abs(), left;
      left, more := SurroundAll(s, answer, rounds[k].before, left, Top);
      LeadsByRun(answer, Sys(s1, Top, before), more, s.Abs(), Top, left);
      LeadsOn(answer, y, es, s1, Top, before, more, s.Abs(), Top, left);
      es := es + more;
      s1, before := s.Abs(), left;
      if !(s.IsFinished() && !AnyAlive(s.workers[..])) {
        left, more, at := Around(s, answer, rounds[k], left);
        LeadsOn(answer, y, es, s1, Top, before, more, s.Abs(), at, left);
        es := es + more;
      }
      k := k + 1;
    }
    oom' := left;
    ended := s.abort.None? && s.IsFinished() && !AnyAlive(s.workers[..]);
    TerminatedExactly(answer, Sys(s.Abs(), at, left));
  }

  lemma LeadsByRun(answer: Path -> Payload, y: Sys, es: seq<Event>, s: State, at: Point, oom: nat)
    requires Runs(answer, y, es) && After(answer, y, es) == Sys(s, at, oom)
    ensures Leads(answer, y, es, s, at, oom)
  {}

  /** An evaluation from the start: when its loop ends, what was handed on is what a
      run of `System` that ended has recorded. */
  method Evaluation(nrWorkers: nat, maxMemorySize: nat, first: set<Path> -> Path,
      answer: Path -> Payload, rounds: seq<Round>, oom: nat)
    returns (ended: bool, emitted: seq<Record>, ghost es: seq<Event>, ghost y: Sys)
    requires S.Picks(first) && forall k | 0 <= k < |rounds| :: RoundFits(rounds[k], nrWorkers)
    ensures Reachable(answer, nrWorkers, nrWorkers * maxMemorySize, oom, es, y)
    ensures emitted == S.Emissions(y.s.board.log)
    ensures ended <==> Terminated(y)
  {
    hide Inv, Terminated;
    var s := new S.Scheduler(nrWorkers, maxMemorySize, first);
    InitInv(answer, nrWorkers, nrWorkers * maxMemorySize, oom);
    ghost var oom', at;
    ended, oom', es, at := Run(s, answer, rounds, oom);
    emitted := s.emitted;
    y := Sys(s.Abs(), at, oom');
  }
}
