/** Every run can be carried on to its end: whatever has happened, there is always
    a way to go on that changes something, and only finitely many such steps.
    Unless something is wrong already, that end is the normal one. */
module Liveness {
  import opened Wrappers
  import opened Ledger
  import opened Workers
  import opened Collector
  import opened Discipline
  import opened System
  import opened EveryRun
  import opened Races
  import opened Progress
  import opened Termination
  import opened Evaluation

  /** The run goes on by `es`, has no more steps left than before, and nothing goes
      wrong on the way. */
  ghost predicate GoesOn(answer: Path -> Payload, universe: set<Path>, y: Sys, es: seq<Event>) {
    Runs(answer, y, es) && Inv(answer, After(answer, y, es)) &&
    var y' := After(answer, y, es);
    && Remaining(universe, y') <= Remaining(universe, y) && |y'.s.workers| == |y.s.workers|
    && (Well(answer, y.s) ==> Well(answer, y'.s))
  }

  lemma NoStep(answer: Path -> Payload, universe: set<Path>, y: Sys)
    requires Inv(answer, y)
    ensures GoesOn(answer, universe, y, []) && After(answer, y, []) == y
  {}

  lemma Then(answer: Path -> Payload, universe: set<Path>, y: Sys, es: seq<Event>, es': seq<Event>)
    requires GoesOn(answer, universe, y, es) && GoesOn(answer, universe, After(answer, y, es), es')
    ensures GoesOn(answer, universe, y, es + es')
    ensures After(answer, y, es + es') == After(answer, After(answer, y, es), es')
  {
    hide Inv, Remaining, Runs, After, Well;
    RunsJoin(answer, y, es, es');
  }

  /** One step: either it is quiet or fewer steps are left. */
  lemma OneEvent(answer: Path -> Payload, universe: set<Path>, y: Sys, e: Event)
    requires Inv(answer, y) && Can(y, e) && StaysIn(answer, universe) && Harmless(e)
    ensures GoesOn(answer, universe, y, [e]) && After(answer, y, [e]) == Step(answer, y, e)
    ensures Remaining(universe, Step(answer, y, e)) < Remaining(universe, y) ||
      (Quiet(y.s, Step(answer, y, e).s) && Step(answer, y, e).oom == y.oom)
  {
    hide Inv, Can, Step, StaysIn, Remaining, Quiet, Advances, Well;
    var y' := Step(answer, y, e);
    if Well(answer, y.s) {
      HarmlessStepWell(answer, y, e);
    }
    StepInv(answer, y, e);
    EveryStepAdvances(answer, y, e);
    WorkersStay(answer, y, e);
    NotOver(y, e);
    OneStep(answer, y, e);
    if Quiet(y.s, y'.s) && y'.oom == y.oom {
      QuietRemains(universe, y, y');
    } else {
      RemainingFalls(answer, universe, y, y');
    }
  }

  // ---- To the top of the loop -----------------------------------------------------

  /** Inputs that are possible for a slot in any state. */
  function AnyInput(s: State, i: nat, pick: Path): SlotInput
    requires i < |s.workers|
  {
    SlotInput(pick, s.workers[i].proc.Some? && !Gone(s.workers[i].proc.value), 0, 0)
  }

  lemma CanDispatch(answer: Path -> Payload, y: Sys) returns (x: SlotInput)
    requires Inv(answer, y) && y.s.abort.None? && y.at.Slots?
    ensures Can(y, Slot(x)) && Step(answer, y, Slot(x)).s.abort.None?
    ensures Step(answer, y, Slot(x)).at ==
      SlotsFrom(y.at.idx + 1, |y.s.workers|, DispatchSlot(y.s, y.at.idx, y.at.spawnable, x).1)
  {
    hide Sound, AllAgree;
    var pick: Path := [];
    if y.s.board.todo != {} {
      pick :| pick in y.s.board.todo;
    }
    x := AnyInput(y.s, y.at.idx, pick);
    assert SlotShaped(y.s.workers[y.at.idx], y.s.board.held[y.at.idx]);
    DispatchSlotSane(y.s, y.at.idx, y.at.spawnable, x);
    SlotKeepsAgreement(answer, y.s, y.at.idx, y.at.spawnable, x);
  }

  function Distance(y: Sys): nat {
    var n := |y.s.workers|;
    match y.at
    case Top => 0
    case Reading(idx, _) => if idx < n then n - idx else 0
    case Polled(_) => n + 1
    case Polling => n + 2
    case Slots(idx, _) => if idx < n then n + 3 + n - idx else n + 3
  }

  /** A step towards the top of the loop. */
  lemma NextEvent(answer: Path -> Payload, y: Sys) returns (e: Event)
    requires Inv(answer, y) && y.s.abort.None? && !y.at.Top?
    ensures Can(y, e) && Harmless(e) && Step(answer, y, e).s.abort.None? && Distance(Step(answer, y, e)) < Distance(y)
  {
    hide Sound, AllAgree;
    match y.at
    case Slots(_, _) =>
      var x := CanDispatch(answer, y);
      e := Slot(x);
      WorkersStay(answer, y, e);
    case Polling => e := Poll({});
    case Polled(_) => e := NoSample;
    case Reading(idx, ready) =>
      e := if idx in ready then Read(0, false, 0) else Skip;
  }

  lemma {:induction false} ToTop(answer: Path -> Payload, universe: set<Path>, y: Sys) returns (es: seq<Event>)
    requires Inv(answer, y) && y.s.abort.None? && StaysIn(answer, universe)
    ensures GoesOn(answer, universe, y, es) && After(answer, y, es).at.Top? && After(answer, y, es).s.abort.None?
    decreases Distance(y)
  {
    hide Inv, Can, Step, StaysIn, GoesOn, Quiet, Runs, After, Well;
    if y.at.Top? {
      NoStep(answer, universe, y);
      es := [];
    } else {
      var e := NextEvent(answer, y);
      OneEvent(answer, universe, y, e);
      StepInv(answer, y, e);
      var es' := ToTop(answer, universe, Step(answer, y, e));
      Then(answer, universe, y, [e], es');
      es := [e] + es';
    }
  }

  // ---- Once around the loop ---------------------------------------------------------

  /** `Promised` at the point where the collector is. */
  ghost predicate PromisedHere(y: Sys, killed: multiset<Path>) {
    match y.at
    case Slots(idx, spawnable) => Promised(y.s, idx, spawnable, killed)
    case Polling => Promised(y.s, |y.s.workers|, 0, killed)
    case _ => false
  }

  lemma {:induction false} PassOn(answer: Path -> Payload, universe: set<Path>, y: Sys, killed: multiset<Path>)
      returns (es: seq<Event>)
    requires Inv(answer, y) && y.s.abort.None? && StaysIn(answer, universe)
    requires (y.at.Slots? || y.at.Polling?) && PromisedHere(y, killed)
    ensures GoesOn(answer, universe, y, es) && After(answer, y, es).s.abort.None?
    ensures var y' := After(answer, y, es);
            y'.at.Polling? && PromisedHere(y', killed)
            && (Remaining(universe, y') < Remaining(universe, y) || y'.s.board == y.s.board)
    decreases Distance(y)
  {
    hide Inv, Can, StaysIn, GoesOn, Runs, After, Remaining, DispatchSlot, Promised, Well;
    if y.at.Polling? {
      NoStep(answer, universe, y);
      es := [];
    } else {
      var x := CanDispatch(answer, y);
      OneEvent(answer, universe, y, Slot(x));
      StepInv(answer, y, Slot(x));
      WorkersStay(answer, y, Slot(x));
      SlotPromise(answer, y, x, killed);
      var es' := PassOn(answer, universe, Step(answer, y, Slot(x)), killed);
      Then(answer, universe, y, [Slot(x)], es');
      RemainingAfter(answer, universe, y, [Slot(x)]);
      RemainingAfter(answer, universe, Step(answer, y, Slot(x)), es');
      es := [Slot(x)] + es';
    }
  }

  lemma RemainingAfter(answer: Path -> Payload, universe: set<Path>, y: Sys, es: seq<Event>)
    requires GoesOn(answer, universe, y, es)
    ensures Runs(answer, y, es) && Remaining(universe, After(answer, y, es)) <= Remaining(universe, y)
    ensures Inv(answer, After(answer, y, es)) && |After(answer, y, es).s.workers| == |y.s.workers|
    ensures Well(answer, y.s) ==> Well(answer, After(answer, y, es).s)
  {}

  lemma SlotPromise(answer: Path -> Payload, y: Sys, x: SlotInput, killed: multiset<Path>)
    requires Inv(answer, y) && y.at.Slots? && Can(y, Slot(x)) && PromisedHere(y, killed)
    ensures PromisedHere(Step(answer, y, Slot(x)), killed)
    ensures Step(answer, y, Slot(x)).at.Slots? || Step(answer, y, Slot(x)).at.Polling?
  {
    hide Sound, AllAgree, Promised;
    SlotKeepsPromise(y.s, y.at.idx, y.at.spawnable, x, killed);
    DispatchSlotSane(y.s, y.at.idx, y.at.spawnable, x);
    WorkersStay(answer, y, Slot(x));
    var (s', spawnable') := DispatchSlot(y.s, y.at.idx, y.at.spawnable, x);
    if y.at.idx + 1 == |y.s.workers| {
      LastSlot(s', spawnable', killed);
    }
  }

  /** Something can be had from an awaited worker when the collector is about to
      poll. */
  lemma Served(answer: Path -> Payload, universe: set<Path>, y: Sys, i: nat) returns (es: seq<Event>)
    requires Inv(answer, y) && y.s.abort.None? && StaysIn(answer, universe) && y.at.Polling?
    requires i < |y.s.workers| && Awaited(y.s.workers[i])
    ensures GoesOn(answer, universe, y, es) && Remaining(universe, After(answer, y, es)) < Remaining(universe, y)
  {
    hide Inv, StaysIn, GoesOn, Runs, After, Remaining, Well;
    var p := y.s.workers[i].proc.value;
    if act :| CanAct(p, act) && !act.GiveUp? {
      NotOverInv(answer, y);
      OneEvent(answer, universe, y, ProcessActs(i, act));
      ActIsNoisy(answer, y, i, act);
      es := [ProcessActs(i, act)];
    } else {
      assert CanAct(p, GiveUp) ==> CanAct(p, SayNext);
      es := ReadOut(answer, universe, y, i);
    }
  }

  lemma NotOverInv(answer: Path -> Payload, y: Sys)
    requires Inv(answer, y) && y.s.abort.None?
    ensures |y.s.board.held| == |y.s.workers|
  {}

  lemma ActIsNoisy(answer: Path -> Payload, y: Sys, i: nat, act: Act)
    requires Can(y, ProcessActs(i, act))
    ensures !Quiet(y.s, Step(answer, y, ProcessActs(i, act)).s)
  {
    var y' := Step(answer, y, ProcessActs(i, act));
    assert y'.s.workers[i].proc != y.s.workers[i].proc;
  }

  lemma ReadOut(answer: Path -> Payload, universe: set<Path>, y: Sys, i: nat) returns (es: seq<Event>)
    requires Inv(answer, y) && y.s.abort.None? && StaysIn(answer, universe) && y.at.Polling?
    requires Alive(y.s, i) && (y.s.workers[i].proc.value.outbox != [] || Gone(y.s.workers[i].proc.value))
    ensures GoesOn(answer, universe, y, es) && Remaining(universe, After(answer, y, es)) < Remaining(universe, y)
  {
    hide Inv, StaysIn, GoesOn, Runs, After, Remaining, Quiet, Well;
    NotOverInv(answer, y);
    OneEvent(answer, universe, y, Poll({i}));
    var y1 := y.(at := Polled({i}));
    StepInv(answer, y, Poll({i}));
    OneEvent(answer, universe, y1, NoSample);
    var y2 := y.(at := Reading(0, {i}));
    StepInv(answer, y1, NoSample);
    RemainingAfter(answer, universe, y, [Poll({i})]);
    RemainingAfter(answer, universe, y1, [NoSample]);
    Then(answer, universe, y, [Poll({i})], [NoSample]);
    es := SkipTo(answer, universe, y2, 0, i);
    Then(answer, universe, y, [Poll({i})] + [NoSample], es);
    RemainingAfter(answer, universe, y, [Poll({i})] + [NoSample]);
    es := [Poll({i})] + [NoSample] + es;
  }

  lemma {:induction false} SkipTo(answer: Path -> Payload, universe: set<Path>, y: Sys, idx: nat, i: nat)
      returns (es: seq<Event>)
    requires Inv(answer, y) && y.s.abort.None? && StaysIn(answer, universe)
    requires y.at == Reading(idx, {i}) && idx <= i && |y.s.board.held| == |y.s.workers|
    requires Alive(y.s, i) && (y.s.workers[i].proc.value.outbox != [] || Gone(y.s.workers[i].proc.value))
    ensures GoesOn(answer, universe, y, es) && Remaining(universe, After(answer, y, es)) < Remaining(universe, y)
    decreases i - idx
  {
    hide Inv, StaysIn, GoesOn, Runs, After, Remaining, Quiet, Well;
    if idx == i {
      var p := y.s.workers[i].proc.value;
      var e := Read(|p.outbox|, Gone(p), 0);
      OneEvent(answer, universe, y, e);
      ReadIsNoisy(answer, y, i);
      es := [e];
    } else {
      OneEvent(answer, universe, y, Skip);
      RemainingAfter(answer, universe, y, [Skip]);
      StepInv(answer, y, Skip);
      var es' := SkipTo(answer, universe, y.(at := Reading(idx + 1, {i})), idx + 1, i);
      Then(answer, universe, y, [Skip], es');
      es := [Skip] + es';
    }
  }

  lemma ReadIsNoisy(answer: Path -> Payload, y: Sys, i: nat)
    requires y.at.Reading? && y.at.idx == i && Alive(y.s, i)
    requires var p := y.s.workers[i].proc.value;
             Can(y, Read(|p.outbox|, Gone(p), 0)) && (p.outbox != [] || Gone(p))
    ensures var p := y.s.workers[i].proc.value;
            !Quiet(y.s, Step(answer, y, Read(|p.outbox|, Gone(p), 0)).s)
  {
    var p := y.s.workers[i].proc.value;
    var p' := p.(outbox := p.outbox[|p.outbox|..]);
    var s0 := SetProc(y.s, i, p');
    ProcKept(s0, i, p.outbox[..|p.outbox|], 0);
    var s' := Step(answer, y, Read(|p.outbox|, Gone(p), 0)).s;
    assert s'.abort.None? ==> s'.workers[i].proc != Some(p);
  }

  /** From the top of the loop, when it goes on: once around, and fewer steps are
      left. */
  lemma Around(answer: Path -> Payload, universe: set<Path>, y: Sys) returns (es: seq<Event>)
    requires Inv(answer, y) && y.s.abort.None? && StaysIn(answer, universe)
    requires y.at.Top? && !Terminated(y) && |y.s.workers| > 0
    ensures GoesOn(answer, universe, y, es) && Remaining(universe, After(answer, y, es)) < Remaining(universe, y)
  {
    hide StaysIn, GoesOn, Runs, After, Remaining, Sound, AllAgree, Well;
    OneEvent(answer, universe, y, Begin);
    StepInv(answer, y, Begin);
    DispatchPromises(y.s);
    var y1 := Step(answer, y, Begin);
    RemainingAfter(answer, universe, y, [Begin]);
    es := PassOn(answer, universe, y1, y.s.board.killed);
    RemainingAfter(answer, universe, y1, es);
    var y2 := After(answer, y1, es);
    Then(answer, universe, y, [Begin], es);
    es := [Begin] + es;
    if Remaining(universe, y2) == Remaining(universe, y) {
      assert y2.s.board.killed == y.s.board.killed;
      SomeAwaited(answer, y2.s);
      var i :| 0 <= i < |y2.s.workers| && Awaited(y2.s.workers[i]);
      var es' := Served(answer, universe, y2, i);
      Then(answer, universe, y, es, es');
      es := es + es';
    }
  }

  /** Any run over a finite tree, with at least one slot, can be carried on until
      it ends, normally if nothing is wrong yet. */
  lemma {:induction false} CanEnd(answer: Path -> Payload, universe: set<Path>, y: Sys) returns (es: seq<Event>)
    requires Inv(answer, y) && StaysIn(answer, universe) && |y.s.workers| > 0
    ensures Runs(answer, y, es)
    ensures Terminated(After(answer, y, es)) || After(answer, y, es).s.abort.Some?
    ensures Well(answer, y.s) ==> Terminated(After(answer, y, es))
    decreases Remaining(universe, y)
  {
    hide Inv, StaysIn, GoesOn, Remaining, Can, Step, FatalAnswer, WellSlot;
    if y.s.abort.Some? {
      return [];
    }
    es := ToTop(answer, universe, y);
    RemainingAfter(answer, universe, y, es);
    var y1 := After(answer, y, es);
    if Terminated(y1) {
      return es;
    }
    var es1 := Around(answer, universe, y1);
    RemainingAfter(answer, universe, y1, es1);
    var y2 := After(answer, y1, es1);
    var es2 := CanEnd(answer, universe, y2);
    RunsJoin(answer, y1, es1, es2);
    RunsJoin(answer, y, es, es1 + es2);
    es := es + (es1 + es2);
  }

  lemma ReachedCanEnd(g: Graph, n: nat, budget: nat, oom: nat, es: seq<Event>, y: Sys) returns (es': seq<Event>)
    requires Closed(g) && n > 0 && Reachable(AnswerOf(g), n, budget, oom, es, y)
    ensures Runs(AnswerOf(g), y, es')
    ensures Terminated(After(AnswerOf(g), y, es')) || After(AnswerOf(g), y, es').s.abort.Some?
    ensures Well(AnswerOf(g), y.s) ==> Terminated(After(AnswerOf(g), y, es'))
  {
    hide Closed, Step, Can, Terminated, Well;
    ReachableInv(AnswerOf(g), n, budget, oom, es, y);
    InitInv(AnswerOf(g), n, budget, oom);
    SlotsStay(AnswerOf(g), Init(n, budget, oom), es);
    GraphStaysIn(g);
    es' := CanEnd(AnswerOf(g), Words(AllNames(g), |g.sets|), y);
  }

  /** An evaluation of a finite graph, cyclic or not, can finish normally from every
      state a run can reach without an exception, provided that no attribute's
      answer is fatal, no worker has just reported that it cannot start and
      none was killed too late.  So no interleaving of answers, restarts and
      kills leads where the work cannot be finished. */
  lemma EveryRunCanFinish(g: Graph, n: nat, budget: nat, oom: nat, es: seq<Event>, y: Sys)
    requires Closed(g) && n > 0 && Reachable(AnswerOf(g), n, budget, oom, es, y)
    requires y.s.abort.None? && forall p :: !FatalAnswer(AnswerOf(g), p)
    requires forall i | 0 <= i < |y.s.workers| :: WellSlot(y.s.workers[i])
    ensures exists es' :: Runs(AnswerOf(g), y, es') && Terminated(After(AnswerOf(g), y, es'))
  {
    hide Closed, Step, Can, Terminated, Reachable, FatalAnswer, WellSlot;
    var es' := ReachedCanEnd(g, n, budget, oom, es, y);
  }

  /** In any case the run can be carried on until it ends or an exception ends it. */
  lemma EveryRunCanEnd(g: Graph, n: nat, budget: nat, oom: nat, es: seq<Event>, y: Sys)
    requires Closed(g) && n > 0 && Reachable(AnswerOf(g), n, budget, oom, es, y)
    ensures exists es' ::
      Runs(AnswerOf(g), y, es') && (Terminated(After(AnswerOf(g), y, es')) || After(AnswerOf(g), y, es').s.abort.Some?)
  {
    hide Closed, Step, Can, Terminated, Reachable, Well;
    var es' := ReachedCanEnd(g, n, budget, oom, es, y);
  }

  lemma {:induction false} SlotsStay(answer: Path -> Payload, y: Sys, es: seq<Event>)
    requires Inv(answer, y) && Runs(answer, y, es)
    ensures |After(answer, y, es).s.workers| == |y.s.workers|
    decreases |es|
  {
    hide Can, Step, Inv;
    if es != [] {
      WorkersStay(answer, y, es[0]);
      StepInv(answer, y, es[0]);
      SlotsStay(answer, Step(answer, y, es[0]), es[1..]);
    }
  }
}
