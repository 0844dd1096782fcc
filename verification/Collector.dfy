/** The scheduler as a function of its state: what each of its methods does
    (src/nix-eval-jobs.cc).  `Scheduler` has the methods themselves, and
    `System` puts this together with the worker processes. */
module Collector {
  import opened Wrappers
  import opened Ledger
  import opened Workers

  datatype Phase = NoProc | Starting | Idle | Busy | Killed | Exiting

  /** One slot of the vector of workers. */
  datatype Worker = Worker(proc: Option<Process>, phase: Phase, attrPath: Option<Path>, rss: nat, startRss: nat)

  const NO_WORKER := Worker(None, NoProc, None, 0, 0)

  /** What ends a run by an exception: a line that does not fit the phase, an
      error of the worker while it starts, a response marked fatal, or a worker
      that ended by itself when it should not have. */
  datatype Abort = UnexpectedLine | WorkerError | FatalResponse | WorkerExited

  datatype State = State(board: Board, budget: nat, estimate: nat, workers: seq<Worker>, abort: Option<Abort>)

  const INITIAL_ESTIMATE: nat := 512
  const DECAY_PERCENT: nat := 98

  predicate Running(w: Worker) { w.phase.Busy? || w.phase.Killed? }

  function Growth(w: Worker): nat { if w.rss > w.startRss then w.rss - w.startRss else 0 }

  function Max(a: nat, b: nat): nat { if a < b then b else a }

  predicate NoneRunning(ws: seq<Worker>) { forall i | 0 <= i < |ws| :: !Running(ws[i]) }

  predicate AnyAlive(ws: seq<Worker>) { exists i :: 0 <= i < |ws| && ws[i].proc.Some? }

  function CountPhase(ws: seq<Worker>, phase: Phase): nat {
    if ws == [] then 0
    else CountPhase(ws[..|ws| - 1], phase) + if ws[|ws| - 1].phase == phase then 1 else 0
  }

  function TotalRss(ws: seq<Worker>): nat {
    if ws == [] then 0 else TotalRss(ws[..|ws| - 1]) + ws[|ws| - 1].rss
  }

  predicate Finished(s: State) {
    s.board.todo == {} && s.board.solo == [] && NoneRunning(s.workers)
  }

  /** `own` is the memory of the collector itself. */
  predicate FitsBudget(s: State, own: nat) {
    var busy := CountPhase(s.workers, Busy);
    busy == 0 || own + TotalRss(s.workers) + (busy + 1) * s.estimate <= s.budget
  }

  // ---- Handing out jobs ---------------------------------------------------

  /** `takeJob` yields a job. */
  predicate CanTake(s: State, own: nat) {
    && (NoneRunning(s.workers) || (s.board.mode == Parallel && s.board.solo == []))
    && (s.board.mode == Solo || (s.board.solo == [] && s.board.todo != {} && FitsBudget(s, own)))
  }

  /** In solo mode there is a job to retry whenever none runs. */
  predicate SoloHasWork(s: State) {
    s.board.mode == Solo && NoneRunning(s.workers) ==> s.board.solo != []
  }

  /** The job `takeJob` yields; from `todo` it may be any. */
  function JobFor(s: State, pick: Path): Path
    requires s.board.mode == Solo ==> s.board.solo != []
  {
    if s.board.mode == Solo then s.board.solo[|s.board.solo| - 1] else pick
  }

  ghost function HandOut(s: State, i: nat, pick: Path): State
    requires i < |s.workers| == |s.board.held| && (s.board.mode == Solo ==> s.board.solo != [])
  {
    var w := s.workers[i];
    var p := JobFor(s, pick);
    s.(board := if s.board.mode == Solo then TakeSolo(s.board, i) else TakeTodo(s.board, i, p),
       workers := s.workers[i := w.(phase := Busy, attrPath := Some(p), startRss := w.rss)])
  }

  function Sent(w: Worker, c: Command): Worker
    requires w.proc.Some?
  {
    var p := w.proc.value;
    w.(proc := Some(p.(inbox := p.inbox + [c], given := if c.Do? then p.given + 1 else p.given)))
  }

  function EnterSolo(ws: seq<Worker>): seq<Worker> {
    seq(|ws|, _ => NO_WORKER)
  }

  ghost function BeginDispatch(s: State): State {
    if s.board.mode == Parallel && s.board.solo != [] && NoneRunning(s.workers) then
      s.(board := s.board.(mode := Solo), workers := EnterSolo(s.workers))
    else s
  }

  /** How many workers a pass of `dispatch` may start. */
  function Spawnable(s: State): nat {
    if s.board.mode == Solo then (if AnyAlive(s.workers) then 0 else 1)
    else if s.board.solo == [] then
      var n := CountPhase(s.workers, Starting) + CountPhase(s.workers, Idle);
      if |s.board.todo| <= n then 0 else |s.board.todo| - n
    else 0
  }

  /** What the surroundings contribute while `dispatch` treats one slot: the job
      that comes first in `todo`, whether the line could be sent, and memory
      readings. */
  datatype SlotInput = SlotInput(pick: Path, sent: bool, rss: nat, own: nat)

  predicate InputFits(s: State, i: nat, x: SlotInput)
    requires i < |s.workers|
  {
    && (s.board.todo != {} ==> x.pick in s.board.todo)
    && (!x.sent && s.workers[i].proc.Some? ==> Gone(s.workers[i].proc.value))
  }

  ghost function DispatchSlot(s: State, i: nat, spawnable: nat, x: SlotInput): (State, nat)
    requires i < |s.workers| == |s.board.held| && SoloHasWork(s)
    requires s.workers[i].phase.Idle? ==> s.workers[i].proc.Some?
  {
    var w := s.workers[i];
    if w.phase.Idle? && Finished(s) then
      (s.(workers := s.workers[i := Sent(w, Exit).(phase := Exiting)]), spawnable)
    else if w.phase.Idle? then
      if CanTake(s, x.own) then
        var s1 := HandOut(s, i, x.pick);
        if x.sent then
          (s1.(workers := s1.workers[i := Sent(s1.workers[i], Do(JobFor(s, x.pick)))]), spawnable)
        else (OnEof(s1, i), spawnable)
      else (s, spawnable)
    else if w.phase.NoProc? && spawnable > 0 && !Finished(s) then
      (s.(workers := s.workers[i := w.(proc := Some(SPAWNED), phase := Starting, rss := x.rss)]), spawnable - 1)
    else (s, spawnable)
  }

  // ---- Output of the workers ------------------------------------------------

  function Reset(s: State, i: nat): State
    requires i < |s.workers|
  {
    s.(workers := s.workers[i := NO_WORKER])
  }

  ghost function OnKilled(s: State, i: nat): State
    requires i < |s.workers| == |s.board.held|
  {
    var w := s.workers[i];
    Reset(s.(board := if Running(w) && w.attrPath.Some? then Strike(s.board, i, w.attrPath.value)
                      else s.board.(mode := Parallel)), i)
  }

  /** The pipe of the worker was closed. */
  ghost function OnEof(s: State, i: nat): State
    requires i < |s.workers| == |s.board.held| && s.workers[i].proc.Some?
  {
    if s.workers[i].phase.Exiting? then Reset(s, i)
    else if s.workers[i].proc.value.control.Exited? then s.(abort := Some(WorkerExited))
    else OnKilled(s, i)
  }

  ghost function OnResponse(s: State, i: nat, p: Path, payload: Payload, rss: nat): State
    requires i < |s.workers| == |s.board.held|
  {
    if payload.Error? && payload.fatal then
      s.(board := s.board.(log := s.board.log + [Record(p, Answered(payload))]), abort := Some(FatalResponse))
    else
      var w := s.workers[i].(rss := rss);
      s.(board := Respond(s.board, i, p, payload),
         estimate := Max(s.estimate * DECAY_PERCENT / 100, Growth(w)),
         workers := s.workers[i := w.(phase := Starting, attrPath := None)])
  }

  /** An answer that comes while the worker is starting; one with an error text
      is taken for a report of the worker. */
  function Misplaced(payload: Payload): Abort {
    if payload.Error? && payload.message != "" then WorkerError else UnexpectedLine
  }

  ghost function OnLine(s: State, i: nat, line: Line, rss: nat): (r: State)
    requires i < |s.workers| == |s.board.held|
    ensures |r.workers| == |s.workers| == |r.board.held|
  {
    match s.workers[i].phase
    case Starting => (
      match line
      case Next => s.(workers := s.workers[i := s.workers[i].(phase := Idle)])
      case Restart => Reset(s, i)
      case BootError => s.(abort := Some(WorkerError))
      case Answer(_, payload) => s.(abort := Some(Misplaced(payload))))
    case Busy =>
      if line.Answer? then OnResponse(s, i, line.path, line.payload, rss)
      else s.(abort := Some(UnexpectedLine))
    case Killed => s
    case Exiting => s
    case _ => s.(abort := Some(UnexpectedLine))
  }

  /** The lines of one read, until the worker is dropped or an exception ends
      the run. */
  ghost function OnLines(s: State, i: nat, lines: seq<Line>, rss: nat): (r: State)
    requires i < |s.workers| == |s.board.held|
    ensures |r.workers| == |s.workers| == |r.board.held|
    decreases |lines|
  {
    if lines == [] || s.workers[i].proc.None? || s.abort.Some? then s
    else OnLines(OnLine(s, i, lines[0], rss), i, lines[1..], rss)
  }

  ghost function ReadWorker(s: State, i: nat, lines: seq<Line>, eof: bool, rss: nat): State
    requires i < |s.workers| == |s.board.held| && s.workers[i].proc.Some?
  {
    var s1 := OnLines(s, i, lines, rss);
    if eof && s1.workers[i].proc.Some? && s1.abort.None? then OnEof(s1, i) else s1
  }

  predicate Alive(s: State, i: nat) { i < |s.workers| && s.workers[i].proc.Some? }

  function SetProc(s: State, i: nat, p: Process): State
    requires i < |s.workers|
  {
    s.(workers := s.workers[i := s.workers[i].(proc := Some(p))])
  }

  /** Takes the first `n` lines out of the pipe of a worker and treats them. */
  ghost function ReadPipe(s: State, i: nat, n: nat, eof: bool, rss: nat): State
    requires |s.workers| == |s.board.held| && Alive(s, i) && n <= |s.workers[i].proc.value.outbox|
  {
    var p := s.workers[i].proc.value;
    ReadWorker(SetProc(s, i, p.(outbox := p.outbox[n..])), i, p.outbox[..n], eof, rss)
  }

  // ---- Memory ----------------------------------------------------------------

  function Sampled(ws: seq<Worker>, rss: seq<nat>): seq<Worker>
    requires |rss| == |ws|
  {
    seq(|ws|, i requires 0 <= i < |ws| => ws[i].(rss := if ws[i].proc.Some? then rss[i] else 0))
  }

  function Learned(estimate: nat, ws: seq<Worker>): nat {
    if ws == [] then estimate
    else
      var w := ws[|ws| - 1];
      var e := Learned(estimate, ws[..|ws| - 1]);
      if Running(w) then Max(e, Growth(w)) else e
  }

  /** The first of the busy workers that use most. */
  function Victim(ws: seq<Worker>): (v: Option<nat>)
    ensures v.Some? ==> v.value < |ws| && ws[v.value].phase.Busy?
  {
    if ws == [] then None
    else
      var last := |ws| - 1;
      var v := Victim(ws[..last]);
      if ws[last].phase.Busy? && (v.None? || ws[last].rss > ws[v.value].rss) then Some(last) else v
  }

  function SampleMemory(s: State, rss: seq<nat>, own: nat): State
    requires |rss| == |s.workers|
    requires forall i | 0 <= i < |s.workers| && s.workers[i].phase.Busy? :: s.workers[i].proc.Some?
  {
    var ws := Sampled(s.workers, rss);
    var s1 := s.(workers := ws, estimate := Learned(s.estimate, ws));
    var v := Victim(ws);
    if own + TotalRss(ws) <= s.budget || v.None? then s1
    else
      var w := ws[v.value];
      s1.(workers := ws[v.value := w.(phase := Killed, proc := Some(Kill(w.proc.value)))])
  }
}
