/** The class `Scheduler` of src/nix-eval-jobs.cc: its methods update its fields
    in place and are shown to do what the functions of `Collector` say, which
    are the steps of `System`. */
module Scheduler {
  import opened Wrappers
  import opened Ledger
  import opened Workers
  import opened Collector
  import opened Discipline
  import opened Capacity

  // ---- Whole passes over the slots ---------------------------------------------

  ghost predicate PassOk(s: State, spawnable: nat) {
    s.abort.None? ==> Sane(s) && RoomFor(s, spawnable)
  }

  /** `first` is the order in which `todo` is taken. */
  ghost predicate Picks(first: set<Path> -> Path) {
    forall todo: set<Path> | todo != {} :: first(todo) in todo
  }

  function Choose(first: set<Path> -> Path, s: State, x: SlotInput): SlotInput {
    x.(pick := first(s.board.todo))
  }

  /** `DispatchSlot` for the slots from `i` on, until an exception. */
  ghost function DispatchFrom(first: set<Path> -> Path, s: State, i: nat, spawnable: nat,
      xs: seq<SlotInput>): (r: State)
    requires PassOk(s, spawnable) && i + |xs| == |s.workers|
    ensures r.abort.None? ==> Sane(r)
    decreases |xs|
  {
    if xs == [] || s.abort.Some? then s
    else
      var x := Choose(first, s, xs[0]);
      DispatchSlotSane(s, i, spawnable, x);
      var (s1, spawnable1) := DispatchSlot(s, i, spawnable, x);
      DispatchFrom(first, s1, i + 1, spawnable1, xs[1..])
  }

  /** How many slots from `i` on have a process in `after` and had none in `before`. */
  function Started(before: seq<Worker>, after: seq<Worker>, i: nat): nat
    requires |before| == |after|
    decreases |before| - i
  {
    if i >= |before| then 0
    else (if before[i].proc.None? && after[i].proc.Some? then 1 else 0) + Started(before, after, i + 1)
  }

  lemma {:induction false} StartedSame(before: seq<Worker>, before': seq<Worker>, after: seq<Worker>, i: nat)
    requires |before| == |after| == |before'| && forall k | i <= k < |before| :: before[k] == before'[k]
    ensures Started(before, after, i) == Started(before', after, i)
    decreases |before| - i
  {
    if i < |before| {
      StartedSame(before, before', after, i + 1);
    }
  }

  lemma SlotFrame(s: State, i: nat, spawnable: nat, x: SlotInput)
    requires Sane(s) && s.abort.None? && i < |s.workers| && RoomFor(s, spawnable)
    ensures SoloHasWork(s)
    ensures var (s', spawnable') := DispatchSlot(s, i, spawnable, x);
            && |s'.workers| == |s.workers| && (forall k | 0 <= k < |s.workers| && k != i ::
                s'.workers[k] == s.workers[k])
            && spawnable' + (if s.workers[i].proc.None? && s'.workers[i].proc.Some? then 1 else 0) == spawnable
  {
    DispatchSlotSane(s, i, spawnable, x);
    assert SlotShaped(s.workers[i], s.board.held[i]);
  }

  /** A pass starts no more workers than it may, and changes no slot twice. */
  lemma {:induction false} PassStarts(first: set<Path> -> Path, s: State, i: nat, spawnable: nat, xs: seq<SlotInput>)
    requires PassOk(s, spawnable) && i + |xs| == |s.workers|
    ensures var s' := DispatchFrom(first, s, i, spawnable, xs);
            && |s'.workers| == |s.workers| && (forall k | 0 <= k < i :: s'.workers[k] == s.workers[k])
            && Started(s.workers, s'.workers, i) <= spawnable
    decreases |xs|
  {
    hide SoloOk, ExitOk, DispatchSlot, RoomFor;
    if xs == [] {
    } else if s.abort.Some? {
      NoneStarted(s.workers, i);
    } else {
      var x := Choose(first, s, xs[0]);
      DispatchSlotSane(s, i, spawnable, x);
      SlotFrame(s, i, spawnable, x);
      var (s1, spawnable1) := DispatchSlot(s, i, spawnable, x);
      PassStarts(first, s1, i + 1, spawnable1, xs[1..]);
      StartedSame(s.workers, s1.workers, DispatchFrom(first, s, i, spawnable, xs).workers, i + 1);
    }
  }

  lemma {:induction false} NoneStarted(ws: seq<Worker>, i: nat)
    ensures Started(ws, ws, i) == 0
    decreases |ws| - i
  {
    if i < |ws| {
      NoneStarted(ws, i + 1);
    }
  }

  /** With the workers that are starting or idle already, no more are started than
      there are jobs to hand out; in solo mode one at most, into an empty vector. */
  lemma NoMoreWorkersThanJobs(first: set<Path> -> Path, s: State, xs: seq<SlotInput>)
    requires Sane(s) && s.abort.None? && |xs| == |s.workers|
    ensures var s0 := BeginDispatch(s);
            && PassOk(s0, Spawnable(s0)) && |s0.workers| == |xs|
            && var s' := DispatchFrom(first, s0, 0, Spawnable(s0), xs);
               && |s'.workers| == |s0.workers|
               && var started := Started(s0.workers, s'.workers, 0);
                  && (started > 0 && s0.board.mode == Solo ==> started == 1 && !AnyAlive(s0.workers))
                  && (started > 0 && s0.board.mode == Parallel ==>
                        s0.board.solo == [] &&
                        started + CountPhase(s0.workers, Starting) + CountPhase(s0.workers, Idle) <= |s0.board.todo|)
  {
    hide Sane;
    BeginDispatchSane(s);
    var s0 := BeginDispatch(s);
    PassStarts(first, s0, 0, Spawnable(s0), xs);
  }

  // ---- How many workers a pass starts ------------------------------------------------

  function Least(a: nat, b: nat): nat { if a <= b then a else b }

  /** The slots that got a process. */
  ghost function NewSlots(before: seq<Worker>, after: seq<Worker>): set<nat>
    requires |before| == |after|
  {
    set i: nat | i < |before| && before[i].proc.None? && after[i].proc.Some?
  }

  /** As many workers are started as there are empty slots, but no more than there are
      jobs beyond the workers that are starting or idle; in solo mode one, if
      there is none. */
  ghost predicate StartsEnough(before: State, after: State) {
    var ws := before.workers;
    |after.workers| == |ws| &&
    |NewSlots(ws, after.workers)| ==
      if before.board.mode == Solo then
        if ws != [] && forall i | 0 <= i < |ws| :: ws[i].proc.None? then 1 else 0
      else if before.board.solo == [] then
        var served := |PhaseSlots(ws, Starting)| + |PhaseSlots(ws, Idle)|;
        Least(|PhaseSlots(ws, NoProc)|, if |before.board.todo| > served then |before.board.todo| - served else 0)
      else 0
  }

  /** How many slots from `i` on are empty. */
  function Empty(ws: seq<Worker>, i: nat): nat
    decreases |ws| - i
  {
    if i >= |ws| then 0 else (if ws[i].proc.None? then 1 else 0) + Empty(ws, i + 1)
  }

  lemma {:induction false} EmptySame(ws: seq<Worker>, ws': seq<Worker>, i: nat)
    requires |ws| == |ws'| && forall k | i <= k < |ws| :: ws[k] == ws'[k]
    ensures Empty(ws, i) == Empty(ws', i)
    decreases |ws| - i
  {
    if i < |ws| {
      EmptySame(ws, ws', i + 1);
    }
  }

  /** There is work, and workers may be started for it. */
  ghost predicate GoesOn(s: State, spawnable: nat) {
    spawnable == 0 || (!Finished(s) && (s.board.mode == Parallel || !AnyAlive(s.workers)))
  }

  lemma SlotGoesOn(s: State, i: nat, spawnable: nat, x: SlotInput)
    requires Sane(s) && s.abort.None? && i < |s.workers| && RoomFor(s, spawnable) && GoesOn(s, spawnable)
    ensures SoloHasWork(s)
    ensures var (s', spawnable') := DispatchSlot(s, i, spawnable, x);
            && (s'.abort.None? ==> GoesOn(s', spawnable'))
            && |s'.workers| == |s.workers|
            && (s.workers[i].proc.None? && spawnable > 0 <==>
                  s.workers[i].proc.None? && s'.workers[i].proc.Some?)
  {
    var (s', spawnable') := DispatchSlot(s, i, spawnable, x);
    assert SlotShaped(s.workers[i], s.board.held[i]);
    if s.workers[i].phase.Idle? && !Finished(s) && CanTake(s, x.own) && x.sent {
      assert Running(s'.workers[i]);
    } else if s'.abort.None? && s.workers[i].phase.NoProc? && spawnable > 0 {
      NoneRunningUpdate(s.workers, i, s'.workers[i]);
    }
  }

  /** A pass that raises no exception starts as many workers as it may, as long as there
      are empty slots. */
  lemma {:induction false} PassStartsAll(first: set<Path> -> Path, s: State, i: nat, spawnable: nat, xs: seq<SlotInput>)
    requires PassOk(s, spawnable) && i + |xs| == |s.workers| && GoesOn(s, spawnable)
    ensures var s' := DispatchFrom(first, s, i, spawnable, xs);
            && |s'.workers| == |s.workers|
            && (s'.abort.None? ==> Started(s.workers, s'.workers, i) == Least(spawnable, Empty(s.workers, i)))
    decreases |xs|
  {
    hide SoloOk, ExitOk, DispatchSlot, RoomFor, GoesOn;
    PassStarts(first, s, i, spawnable, xs);
    if xs != [] && s.abort.None? {
      var x := Choose(first, s, xs[0]);
      DispatchSlotSane(s, i, spawnable, x);
      SlotFrame(s, i, spawnable, x);
      SlotGoesOn(s, i, spawnable, x);
      var (s1, spawnable1) := DispatchSlot(s, i, spawnable, x);
      if s1.abort.None? {
        var s' := DispatchFrom(first, s1, i + 1, spawnable1, xs[1..]);
        PassStarts(first, s1, i + 1, spawnable1, xs[1..]);
        PassStartsAll(first, s1, i + 1, spawnable1, xs[1..]);
        StartedSame(s.workers, s1.workers, s'.workers, i + 1);
        EmptySame(s.workers, s1.workers, i + 1);
      }
    }
  }

  lemma {:induction false} EmptyExactly(ws: seq<Worker>, i: nat)
    requires i <= |ws|
    ensures Empty(ws, i) == |set k: nat | i <= k < |ws| && ws[k].proc.None?|
    decreases |ws| - i
  {
    var all := set k: nat | i <= k < |ws| && ws[k].proc.None?;
    if i < |ws| {
      EmptyExactly(ws, i + 1);
      var rest := set k: nat | i + 1 <= k < |ws| && ws[k].proc.None?;
      assert all == rest + if ws[i].proc.None? then {i} else {};
    } else {
      assert all == {};
    }
  }

  lemma {:induction false} StartedExactly(before: seq<Worker>, after: seq<Worker>, i: nat)
    requires |before| == |after| && i <= |before|
    ensures Started(before, after, i) ==
      |set k: nat | i <= k < |before| && before[k].proc.None? && after[k].proc.Some?|
    decreases |before| - i
  {
    var all := set k: nat | i <= k < |before| && before[k].proc.None? && after[k].proc.Some?;
    if i < |before| {
      StartedExactly(before, after, i + 1);
      var rest := set k: nat | i + 1 <= k < |before| && before[k].proc.None? && after[k].proc.Some?;
      assert all == rest + if before[i].proc.None? && after[i].proc.Some? then {i} else {};
    } else {
      assert all == {};
    }
  }

  lemma EmptySlots(s: State)
    requires Shaped(s)
    ensures Empty(s.workers, 0) == |PhaseSlots(s.workers, NoProc)|
  {
    EmptyExactly(s.workers, 0);
    assert forall k | 0 <= k < |s.workers| :: SlotShaped(s.workers[k], s.board.held[k]);
    assert (set k: nat | 0 <= k < |s.workers| && s.workers[k].proc.None?) == PhaseSlots(s.workers, NoProc);
  }

  /** A pass of `dispatch` that raises no exception starts exactly so many workers. */
  lemma WorkersStarted(first: set<Path> -> Path, s: State, xs: seq<SlotInput>)
    requires Sane(s) && s.abort.None? && |xs| == |s.workers|
    ensures var s0 := BeginDispatch(s);
            && PassOk(s0, Spawnable(s0)) && |s0.workers| == |xs|
            && var s' := DispatchFrom(first, s0, 0, Spawnable(s0), xs);
               s'.abort.None? ==> StartsEnough(s0, s')
  {
    BeginDispatchSane(s);
    var s0 := BeginDispatch(s);
    var s' := DispatchFrom(first, s0, 0, Spawnable(s0), xs);
    MayStart(s0);
    hide Sane, Spawnable, BeginDispatch, DispatchFrom;
    PassStartsAll(first, s0, 0, Spawnable(s0), xs);
    if s'.abort.None? {
      StartedExactly(s0.workers, s'.workers, 0);
      assert NewSlots(s0.workers, s'.workers) ==
        set k: nat | 0 <= k < |s0.workers| && s0.workers[k].proc.None? && s'.workers[k].proc.Some?;
    }
  }

  /** How many may be started. */
  lemma MayStart(s: State)
    requires Sane(s)
    ensures GoesOn(s, Spawnable(s))
    ensures s.board.mode == Solo ==>
      Least(Spawnable(s), Empty(s.workers, 0)) ==
        if s.workers != [] && forall i | 0 <= i < |s.workers| :: s.workers[i].proc.None? then 1 else 0
    ensures s.board.mode == Parallel && s.board.solo != [] ==> Spawnable(s) == 0
    ensures Empty(s.workers, 0) == |PhaseSlots(s.workers, NoProc)|
    ensures s.board.mode == Parallel && s.board.solo == [] ==>
      var served := |PhaseSlots(s.workers, Starting)| + |PhaseSlots(s.workers, Idle)|;
      Spawnable(s) == if |s.board.todo| > served then |s.board.todo| - served else 0
  {
    EmptySlots(s);
    CountExactly(s.workers, Starting);
    CountExactly(s.workers, Idle);
    if !AnyAlive(s.workers) {
      assert forall i | 0 <= i < |s.workers| :: SlotShaped(s.workers[i], s.board.held[i]);
      assert s.workers != [] ==> s.workers[0].proc.None?;
    }
  }

  /** How many lines a worker's pipe yields when it is read and whether it was
      closed behind them; or it has nothing to be read. */
  datatype ReadInput = Silent | Readable(n: nat, eof: bool, rss: nat)

  ghost predicate CanRead(s: State, i: nat, x: ReadInput) {
    x.Readable? ==> Alive(s, i) && x.n <= |s.workers[i].proc.value.outbox|
  }

  ghost predicate CanReadFrom(s: State, i: nat, xs: seq<ReadInput>) {
    forall k | i <= k < |xs| :: CanRead(s, k, xs[k])
  }

  /** `ReadPipe` for the slots from `i` on that were ready, until an exception. */
  ghost function ReadSlots(s: State, i: nat, xs: seq<ReadInput>): (r: State)
    requires i <= |xs| == |s.workers| && (s.abort.None? ==> Sane(s)) && CanReadFrom(s, i, xs)
    ensures r.abort.None? ==> Sane(r)
    decreases |xs| - i
  {
    if i == |xs| || s.abort.Some? then s
    else if xs[i].Silent? then ReadSlots(s, i + 1, xs)
    else
      assert CanRead(s, i, xs[i]);
      ReadPipeSane(s, i, xs[i].n, xs[i].eof, xs[i].rss);
      ReadPipeFrame(s, i, xs[i].n, xs[i].eof, xs[i].rss);
      var s1 := ReadPipe(s, i, xs[i].n, xs[i].eof, xs[i].rss);
      assert forall k | i < k < |xs| :: CanRead(s, k, xs[k]) ==> CanRead(s1, k, xs[k]);
      ReadSlots(s1, i + 1, xs)
  }

  /** Reading one worker leaves the other slots alone. */
  lemma ReadPipeFrame(s: State, i: nat, n: nat, eof: bool, rss: nat)
    requires |s.workers| == |s.board.held| && Alive(s, i) && n <= |s.workers[i].proc.value.outbox|
    ensures var s' := ReadPipe(s, i, n, eof, rss);
            |s'.workers| == |s.workers| && forall j | 0 <= j < |s.workers| && j != i :: s'.workers[j] == s.workers[j]
  {
    var p := s.workers[i].proc.value;
    OnLinesFrame(SetProc(s, i, p.(outbox := p.outbox[n..])), i, p.outbox[..n], rss);
  }

  // ---- What is handed on ----------------------------------------------------------

  /** The records that lead to a line of output: all but attribute sets. */
  function Emissions(log: seq<Record>): seq<Record> {
    if log == [] then []
    else
      var r := log[|log| - 1];
      Emissions(log[..|log| - 1]) + if r.verdict.Answered? && r.verdict.payload.Attrs? then [] else [r]
  }

  lemma EmissionsSnoc(log: seq<Record>, r: Record)
    ensures Emissions(log + [r]) == Emissions(log) + if r.verdict.Answered? && r.verdict.payload.Attrs? then [] else [r]
  {
    assert (log + [r])[..|log|] == log;
  }

  class Scheduler {
    const budget: nat
    const workers: array<Worker>
    const first: set<Path> -> Path
    var todo: set<Path>
    var solo: seq<Path>
    var mode: Mode
    var estimate: nat
    /** The jobs and errors handed to the resolver or to `emitResponse`. */
    var emitted: seq<Record>
    /** The exception that ends the run. */
    var abort: Option<Abort>

    /** The account of all paths; its first fields are those above. */
    ghost var board: Board

    ghost function Abs(): State
      reads this, workers
    {
      State(board, budget, estimate, workers[..], abort)
    }

    ghost predicate Coupled()
      reads this
    {
      board.todo == todo && board.solo == solo && board.mode == mode && emitted == Emissions(board.log)
    }

    ghost predicate Valid()
      reads this, workers
    {
      Picks(first) && Coupled() && (abort.None? ==> Sane(Abs()))
    }

    constructor (nrWorkers: nat, maxMemorySize: nat, first: set<Path> -> Path)
      requires Picks(first)
      ensures this.first == first
      ensures Valid() && fresh(workers) && workers.Length == nrWorkers
      ensures Abs() == State(Start(nrWorkers), nrWorkers * maxMemorySize, 512,
        seq(nrWorkers, _ => NO_WORKER), None)
    {
      budget := nrWorkers * maxMemorySize;
      workers := new Worker[nrWorkers](_ => NO_WORKER);
      this.first := first;
      todo := {[]};
      solo := [];
      mode := Parallel;
      estimate := INITIAL_ESTIMATE;
      emitted := [];
      abort := None;
      board := Start(nrWorkers);
      new;
      assert workers[..] == seq(nrWorkers, _ => NO_WORKER);
    }

    // ---- Handing out jobs ------------------------------------------------------------

    predicate IsFinished()
      reads this, workers
    {
      todo == {} && solo == [] && NoneRunning(workers[..])
    }

    method TakeJob(idx: nat, x: SlotInput) returns (job: Option<Path>)
      requires Valid() && abort.None? && idx < workers.Length && x.pick == first(todo)
      modifies this`todo, this`solo, this`board, workers
      ensures job.Some? <==> CanTake(old(Abs()), x.own)
      ensures job.Some? <==> MayTake(old(Abs()), x.own)
      ensures job.None? ==> Valid() && Abs() == old(Abs())
      ensures job.Some? ==> SoloHasWork(old(Abs())) && job.value == JobFor(old(Abs()), x.pick)
      ensures job.Some? ==> Coupled() && board == HandOut(old(Abs()), idx, x.pick).board
      ensures job.Some? ==>
        workers[..] == old(workers[..])[idx := old(workers[idx]).(startRss := old(workers[idx]).rss)]
    {
      CanTakeExactly(Abs(), x.own);
      hide MayTake;
      if !NoneRunning(workers[..]) && (mode == Solo || solo != []) {
        return None;
      }
      if mode == Solo {
        assert SoloHasWork(Abs());
        board := HandOut(Abs(), idx, x.pick).board;
        job := Some(solo[|solo| - 1]);
        solo := solo[..|solo| - 1];
      } else if solo == [] && todo != {} && FitsMemory(x.own) {
        board := HandOut(Abs(), idx, x.pick).board;
        job := Some(first(todo));
        todo := todo - {first(todo)};
      } else {
        return None;
      }
      workers[idx] := workers[idx].(startRss := workers[idx].rss);
    }

    predicate FitsMemory(own: nat)
      reads this, workers
    {
      var busy := CountPhase(workers[..], Busy);
      busy == 0 || own + TotalRss(workers[..]) + (busy + 1) * estimate <= budget
    }

    /** Drops every worker. */
    method EnterSolo()
      requires Valid() && abort.None? && mode == Parallel && solo != [] && NoneRunning(workers[..])
      modifies this`mode, this`board, workers
      ensures Valid() && Abs() == BeginDispatch(old(Abs()))
    {
      var idx := 0;
      while idx < workers.Length
        invariant idx <= workers.Length
        invariant forall k | 0 <= k < idx :: workers[k] == NO_WORKER
        modifies workers
      {
        workers[idx] := NO_WORKER;
        idx := idx + 1;
      }
      mode := Solo;
      BeginDispatchSane(old(Abs()));
      board := board.(mode := Solo);
      assert workers[..] == Collector.EnterSolo(old(workers[..]));
    }

    // ---- Output of the workers ---------------------------------------------------------

    method ResetWorker(idx: nat)
      requires idx < workers.Length
      modifies workers
      ensures workers[..] == old(workers[..])[idx := NO_WORKER]
    {
      workers[idx] := NO_WORKER;
    }

    /** Records a verdict that leads to a line of output. */
    method Emit(r: Record)
      requires Coupled() && !(r.verdict.Answered? && r.verdict.payload.Attrs?)
      modifies this`emitted, this`board
      ensures emitted == old(emitted) + [r] && board == old(board).(log := old(board.log) + [r]) && Coupled()
    {
      EmissionsSnoc(board.log, r);
      emitted := emitted + [r];
      board := board.(log := board.log + [r]);
    }

    method OnKilled(idx: nat)
      requires Coupled() && Picks(first) && idx < workers.Length && !workers[idx].phase.Exiting?
      requires Shaped(Abs()) && ExitOk(Abs())
      modifies this, workers
      ensures Valid() && Abs() == Collector.OnKilled(old(Abs()), idx)
    {
      hide Emissions, SoloOk, AtMostOneAlive, FreshFor;
      var w := workers[idx];
      ghost var s := Abs();
      if Running(w) {
        assert SlotShaped(w, board.held[idx]);
        var p := w.attrPath.value;
        board := Strike(board, idx, p).(mode := board.mode, log := board.log);
        if mode == Solo {
          Emit(Record(p, OverBudget));
        } else {
          solo := solo + [p];
        }
      }
      ResetWorker(idx);
      mode := Parallel;
      board := board.(mode := Parallel);
      OnKilledSane(s, idx);
    }

    /** `waitpid` tells a process that ended by itself from one that was killed. */
    method OnEof(idx: nat)
      requires Coupled() && Picks(first) && abort.None? && idx < workers.Length && workers[idx].proc.Some?
      requires Shaped(Abs()) && ExitOk(Abs()) && (workers[idx].phase.Exiting? ==> Sane(Abs()))
      modifies this, workers
      ensures Valid() && Abs() == Collector.OnEof(old(Abs()), idx)
    {
      if workers[idx].phase.Exiting? {
        ResetSane(Abs(), idx);
        ResetWorker(idx);
        return;
      }
      if workers[idx].proc.value.control.Exited? {
        abort := Some(WorkerExited);
        return;
      }
      OnKilled(idx);
    }

    method JobFinished(idx: nat, rss: nat)
      requires idx < workers.Length
      modifies this`estimate, this`mode, workers
      ensures mode == Parallel
      ensures var w := old(workers[idx]).(rss := rss);
              && estimate == Max(old(estimate) * 98 / 100, if rss > w.startRss then rss - w.startRss else 0)
              && workers[..] == old(workers[..])[idx := w.(phase := Starting, attrPath := None)]
    {
      workers[idx] := workers[idx].(rss := rss);
      estimate := Max(estimate * DECAY_PERCENT / 100, Growth(workers[idx]));
      workers[idx] := workers[idx].(phase := Starting);
      workers[idx] := workers[idx].(attrPath := None);
      mode := Parallel;
    }

    /** Adds the attributes of an answer to `todo`, one by one. */
    method InsertChildren(path: Path, names: seq<string>)
      modifies this`todo
      ensures todo == old(todo) + Children(path, names)
    {
      for k := 0 to |names|
        invariant todo == old(todo) + Children(path, names[..k])
      {
        todo := todo + {path + [names[k]]};
        assert names[..k + 1] == names[..k] + [names[k]];
      }
      assert names[..|names|] == names;
    }

    method OnResponse(idx: nat, path: Path, payload: Payload, rss: nat)
      requires Valid() && abort.None? && idx < workers.Length && workers[idx].phase.Busy?
      modifies this, workers
      ensures Coupled() && Abs() == Collector.OnResponse(old(Abs()), idx, path, payload, rss)
    {
      hide SoloOk, ExitOk, SlotShaped, Emissions, Max;
      ghost var b := board;
      if payload.Attrs? {
        InsertChildren(path, payload.names);
        EmissionsSnoc(board.log, Record(path, Answered(payload)));
      } else {
        Emit(Record(path, Answered(payload)));
        if payload.Error? && payload.fatal {
          abort := Some(FatalResponse);
          return;
        }
      }
      JobFinished(idx, rss);
      board := Respond(b, idx, path, payload);
    }

    method OnLine(idx: nat, line: Line, rss: nat)
      requires Valid() && abort.None? && idx < workers.Length && workers[idx].proc.Some?
      modifies this, workers
      ensures Valid() && Abs() == Collector.OnLine(old(Abs()), idx, line, rss)
    {
      OnLineSane(Abs(), idx, line, rss);
      match workers[idx].phase {
        case Starting =>
          match line {
            case Next => workers[idx] := workers[idx].(phase := Idle);
            case Restart => ResetWorker(idx);
            case BootError => abort := Some(WorkerError);
            case Answer(_, payload) => abort := Some(Misplaced(payload));
          }
        case Busy =>
          match line {
            case Answer(path, payload) => OnResponse(idx, path, payload, rss);
            case _ => abort := Some(UnexpectedLine);
          }
        case Killed =>
        case Exiting =>
        case Idle => abort := Some(UnexpectedLine);
        case NoProc => assert false;
      }
    }

    /** Takes whole lines out of a pipe. */
    method Fill(idx: nat, n: nat) returns (lines: seq<Line>)
      requires Valid() && abort.None? && Alive(Abs(), idx) && n <= |workers[idx].proc.value.outbox|
      modifies workers
      ensures Valid() && lines == old(workers[idx]).proc.value.outbox[..n]
      ensures var p := old(workers[idx]).proc.value;
              Abs() == SetProc(old(Abs()), idx, p.(outbox := p.outbox[n..]))
    {
      var p := workers[idx].proc.value;
      SetProcSane(Abs(), idx, p.(outbox := p.outbox[n..]));
      lines := p.outbox[..n];
      workers[idx] := workers[idx].(proc := Some(p.(outbox := p.outbox[n..])));
    }

    method ReadWorker(idx: nat, n: nat, eof: bool, rss: nat)
      requires Valid() && abort.None? && Alive(Abs(), idx) && n <= |workers[idx].proc.value.outbox|
      modifies this, workers
      ensures Valid() && Abs() == ReadPipe(old(Abs()), idx, n, eof, rss)
    {
      var lines := Fill(idx, n);
      ghost var s := Abs();
      OnLinesSane(s, idx, lines, rss);
      var next := 0;
      while workers[idx].proc.Some? && abort.None? && next < |lines|
        invariant next <= |lines| && Valid() && |board.held| == workers.Length
        invariant OnLines(Abs(), idx, lines[next..], rss) == OnLines(s, idx, lines, rss)
      {
        OnLine(idx, lines[next], rss);
        assert lines[next..][1..] == lines[next + 1..];
        next := next + 1;
      }
      assert Abs() == OnLines(s, idx, lines, rss);
      if eof && abort.None? && workers[idx].proc.Some? {
        OnEof(idx);
      }
    }

    // ---- Memory -----------------------------------------------------------------------

    /** `sizes` are the memory readings of the workers and `own` that of the
        collector. */
    method SampleMemory(sizes: seq<nat>, own: nat)
      requires Valid() && abort.None? && |sizes| == workers.Length
      modifies this`estimate, workers
      ensures Valid() && Abs() == Collector.SampleMemory(old(Abs()), sizes, own)
    {
      SampleMemorySane(Abs(), sizes, own);
      TakeSamples(sizes);
      if own + TotalRss(workers[..]) <= budget {
        return;
      }
      var victim := LargestBusy();
      if victim.None? {
        return;
      }
      var w := workers[victim.value];
      assert w.proc.Some? by {
        assert SlotShaped(old(workers[..])[victim.value], board.held[victim.value]);
      }
      workers[victim.value] := w.(phase := Killed, proc := Some(Kill(w.proc.value)));
    }

    method TakeSamples(sizes: seq<nat>)
      requires |sizes| == workers.Length
      modifies this`estimate, workers
      ensures workers[..] == Sampled(old(workers[..]), sizes)
      ensures estimate == Learned(old(estimate), workers[..])
    {
      ghost var sampled := Sampled(workers[..], sizes);
      for idx := 0 to workers.Length
        invariant forall k | 0 <= k < idx :: workers[k] == sampled[k]
        invariant forall k | idx <= k < workers.Length :: workers[k] == old(workers[k])
        invariant estimate == Learned(old(estimate), workers[..idx])
      {
        ghost var before := workers[..idx];
        workers[idx] := workers[idx].(rss := if workers[idx].proc.Some? then sizes[idx] else 0);
        if Running(workers[idx]) {
          estimate := Max(estimate, Growth(workers[idx]));
        }
        assert workers[..idx + 1] == before + [workers[idx]];
        assert workers[..idx + 1][..idx] == before;
      }
      assert workers[..] == workers[..workers.Length];
    }

    method LargestBusy() returns (victim: Option<nat>)
      ensures victim == Victim(workers[..])
    {
      victim := None;
      for idx := 0 to workers.Length
        invariant victim == Victim(workers[..idx])
      {
        if workers[idx].phase.Busy? && (victim.None? || workers[idx].rss > workers[victim.value].rss) {
          victim := Some(idx);
        }
        assert workers[..idx + 1][..idx] == workers[..idx];
      }
      assert workers[..] == workers[..workers.Length];
    }

    // ---- The event loop ------------------------------------------------------------------

    /** One slot of a pass of `Dispatch`. */
    method DispatchSlot(idx: nat, spawnable: nat, x: SlotInput) returns (left: nat)
      requires Valid() && abort.None? && idx < workers.Length && RoomFor(Abs(), spawnable)
      requires x.pick == first(todo)
      modifies this, workers
      ensures Valid() && (Abs(), left) == Collector.DispatchSlot(old(Abs()), idx, spawnable, x)
    {
      ghost var s := Abs();
      DispatchSlotSane(s, idx, spawnable, x);
      assert SlotShaped(workers[idx], board.held[idx]);
      left := spawnable;
      var w := workers[idx];
      if w.phase.Idle? && IsFinished() {
        workers[idx] := Sent(w, Exit).(phase := Exiting);
      } else if w.phase.Idle? {
        var job := TakeJob(idx, x);
        if job.Some? {
          HandTo(idx, job.value, s, x);
        }
      } else if w.phase.NoProc? && spawnable > 0 && !IsFinished() {
        workers[idx] := w.(proc := Some(SPAWNED), phase := Starting, rss := x.rss);
        left := spawnable - 1;
      }
    }

    /** Gives the job just taken to a worker; when the line cannot be sent, the worker
        is gone. */
    method HandTo(idx: nat, job: Path, ghost s: State, x: SlotInput)
      requires Coupled() && Picks(first) && abort.None? && idx < workers.Length
      requires s.abort.None? && Sane(s) && CanTake(s, x.own) && !Finished(s) && |s.workers| == workers.Length
      requires s.workers[idx].phase.Idle? && job == JobFor(s, x.pick)
      requires workers[..] == s.workers[idx := s.workers[idx].(startRss := s.workers[idx].rss)]
      requires budget == s.budget && estimate == s.estimate && board == HandOut(s, idx, x.pick).board
      modifies this, workers
      ensures Valid() && Abs() == Collector.DispatchSlot(s, idx, 0, x).0
    {
      HandOutSane(s, idx, x);
      workers[idx] := workers[idx].(attrPath := Some(job));
      workers[idx] := workers[idx].(phase := Busy);
      ghost var s1 := HandOut(s, idx, x.pick);
      assert workers[..] == s1.workers;
      if x.sent {
        workers[idx] := Sent(workers[idx], Do(job));
        assert Abs() == s1.(workers := s1.workers[idx := Sent(s1.workers[idx], Do(job))]);
      } else {
        OnEof(idx);
      }
    }

    /** How many workers a pass may start. */
    method CountSpawnable() returns (spawnable: nat)
      requires Coupled()
      ensures spawnable == Spawnable(Abs())
    {
      spawnable := 0;
      if mode == Solo {
        spawnable := if AnyAlive(workers[..]) then 0 else 1;
      } else if solo == [] {
        var started := CountPhase(workers[..], Starting) + CountPhase(workers[..], Idle);
        spawnable := |todo| - if |todo| < started then |todo| else started;
      }
    }

    /** Gives every idle worker a job or tells it to exit, and starts workers while
        there are jobs for them. */
    method Dispatch(xs: seq<SlotInput>)
      requires Valid() && abort.None? && |xs| == workers.Length
      modifies this, workers
      ensures Valid()
      ensures var s := BeginDispatch(old(Abs()));
              && PassOk(s, Spawnable(s)) && Abs() == DispatchFrom(first, s, 0, Spawnable(s), xs)
              && (abort.None? ==> StartsEnough(s, Abs()))
    {
      ghost var start := Abs();
      hide Sane, Collector.DispatchSlot, RoomFor, StartsEnough;
      ghost var s := BeginDispatch(Abs());
      BeginDispatchSane(Abs());
      if mode == Parallel && solo != [] && NoneRunning(workers[..]) {
        EnterSolo();
      }
      var spawnable := CountSpawnable();
      ghost var spawnable0 := spawnable;
      var idx := 0;
      while idx < workers.Length && abort.None?
        invariant idx <= workers.Length && Valid() && PassOk(Abs(), spawnable)
        invariant DispatchFrom(first, Abs(), idx, spawnable, xs[idx..]) == DispatchFrom(first, s, 0, spawnable0, xs)
      {
        DispatchSlotSane(Abs(), idx, spawnable, Choose(first, Abs(), xs[idx]));
        spawnable := DispatchSlot(idx, spawnable, xs[idx].(pick := first(todo)));
        assert xs[idx..][1..] == xs[idx + 1..];
        idx := idx + 1;
      }
      WorkersStarted(first, start, xs);
    }

    /** Reads the workers whose pipes were ready. */
    method ReadReady(xs: seq<ReadInput>)
      requires Valid() && abort.None? && |xs| == workers.Length
      requires CanReadFrom(Abs(), 0, xs)
      modifies this, workers
      ensures Valid() && Abs() == ReadSlots(old(Abs()), 0, xs)
    {
      hide SoloOk, ExitOk, ReadPipe;
      ghost var s := Abs();
      var idx := 0;
      while idx < workers.Length && abort.None?
        invariant idx <= workers.Length && Valid() && CanReadFrom(Abs(), idx, xs)
        invariant ReadSlots(Abs(), idx, xs) == ReadSlots(s, 0, xs)
      {
        assert CanRead(Abs(), idx, xs[idx]);
        if xs[idx].Readable? {
          ReadPipeFrame(Abs(), idx, xs[idx].n, xs[idx].eof, xs[idx].rss);
          ghost var before := Abs();
          ReadWorker(idx, xs[idx].n, xs[idx].eof, xs[idx].rss);
          assert forall k | idx < k < workers.Length :: CanRead(before, k, xs[k]) ==> CanRead(Abs(), k, xs[k]);
        }
        idx := idx + 1;
      }
    }

    /** Samples memory if it is time to, and reads the workers whose pipes were
        ready when they were polled. */
    method PollWorkers(sample: Option<(seq<nat>, nat)>, xs: seq<ReadInput>)
      requires Valid() && abort.None? && |xs| == workers.Length
      requires sample.Some? ==> |sample.value.0| == workers.Length
      requires CanReadFrom(Abs(), 0, xs)
      modifies this, workers
      ensures Valid()
      ensures var s := if sample.None? then old(Abs())
        else Collector.SampleMemory(old(Abs()), sample.value.0, sample.value.1);
              CanReadFrom(s, 0, xs) && Sane(s) && Abs() == ReadSlots(s, 0, xs)
    {
      if sample.Some? {
        SampleKeepsPipes(Abs(), sample.value.0, sample.value.1, xs);
        SampleMemorySane(Abs(), sample.value.0, sample.value.1);
        SampleMemory(sample.value.0, sample.value.1);
      }
      ReadReady(xs);
    }
  }

  lemma SampleKeepsPipes(s: State, sizes: seq<nat>, own: nat, xs: seq<ReadInput>)
    requires Sane(s) && |sizes| == |s.workers| == |xs| && CanReadFrom(s, 0, xs)
    ensures (forall i | 0 <= i < |s.workers| && s.workers[i].phase.Busy? :: s.workers[i].proc.Some?)
    ensures CanReadFrom(Collector.SampleMemory(s, sizes, own), 0, xs)
  {
    assert forall i | 0 <= i < |s.workers| :: SlotShaped(s.workers[i], s.board.held[i]);
    var ws := Sampled(s.workers, sizes);
    assert forall k | 0 <= k < |xs| :: CanRead(s, k, xs[k]) ==> CanRead(s.(workers := ws), k, xs[k]);
  }
}
