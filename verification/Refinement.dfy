/** The calls of `Scheduler.Dispatch` and `Scheduler.PollWorkers` are runs of steps
    of `System`: what is proved of runs holds for the class. */
module Refinement {
  import opened Ledger
  import opened Workers
  import opened Collector
  import opened Discipline
  import opened System
  import opened Progress
  import Scheduler

  /** A line cannot be sent only to a process that has closed its pipe. */
  ghost predicate PassFits(first: set<Path> -> Path, s: State, i: nat, spawnable: nat, xs: seq<SlotInput>)
    requires Scheduler.PassOk(s, spawnable) && i + |xs| == |s.workers|
    decreases |xs|
  {
    xs != [] && s.abort.None? ==>
      var x := Scheduler.Choose(first, s, xs[0]);
      DispatchSlotSane(s, i, spawnable, x);
      var (s1, spawnable1) := DispatchSlot(s, i, spawnable, x);
      InputFits(s, i, x) && PassFits(first, s1, i + 1, spawnable1, xs[1..])
  }

  /** The inputs with the jobs that come first when their turn comes. */
  ghost function Chosen(first: set<Path> -> Path, s: State, i: nat, spawnable: nat,
      xs: seq<SlotInput>): (r: seq<SlotInput>)
    requires Scheduler.PassOk(s, spawnable) && i + |xs| == |s.workers|
    ensures |r| == |xs|
    decreases |xs|
  {
    if xs == [] || s.abort.Some? then xs
    else
      var x := Scheduler.Choose(first, s, xs[0]);
      DispatchSlotSane(s, i, spawnable, x);
      var (s1, spawnable1) := DispatchSlot(s, i, spawnable, x);
      [x] + Chosen(first, s1, i + 1, spawnable1, xs[1..])
  }

  lemma {:induction false} PassIsRun(answer: Path -> Payload, first: set<Path> -> Path, y: Sys, i: nat,
      spawnable: nat, xs: seq<SlotInput>)
    requires Inv(answer, y) && y.s.abort.None? && i + |xs| == |y.s.workers|
    requires y.at == SlotsFrom(i, |y.s.workers|, spawnable) && RoomFor(y.s, spawnable)
    requires PassFits(first, y.s, i, spawnable, xs)
    ensures var es := SlotEvents(Chosen(first, y.s, i, spawnable, xs));
            && Runs(answer, y, es)
            && After(answer, y, es) == Sys(Scheduler.DispatchFrom(first, y.s, i, spawnable, xs), Polling, y.oom)
    decreases |xs|
  {
    hide Sound, AllAgree, Sane, InputFits, DispatchSlot;
    if xs != [] {
      var x := Scheduler.Choose(first, y.s, xs[0]);
      DispatchSlotSane(y.s, i, spawnable, x);
      SlotKeepsAgreement(answer, y.s, i, spawnable, x);
      CanSlot(y, i, spawnable, x);
      SlotInv(answer, y, x);
      var (s1, spawnable1) := DispatchSlot(y.s, i, spawnable, x);
      var y1 := Step(answer, y, Slot(x));
      assert y1 == y.(s := s1, at := SlotsFrom(i + 1, |y.s.workers|, spawnable1));
      PassIsRun(answer, first, y1, i + 1, spawnable1, xs[1..]);
      var chosen := Chosen(first, y.s, i, spawnable, xs);
      assert SlotEvents(chosen)[1..] == SlotEvents(chosen[1..]);
      assert chosen[1..] == Chosen(first, s1, i + 1, spawnable1, xs[1..]);
    }
  }

  lemma CanSlot(y: Sys, i: nat, spawnable: nat, x: SlotInput)
    requires y.s.abort.None? && Sane(y.s) && i < |y.s.workers| && y.at == Slots(i, spawnable) && InputFits(y.s, i, x)
    ensures Can(y, Slot(x))
  {
    assert SlotShaped(y.s.workers[i], y.s.board.held[i]);
  }

  /** From the top of the loop, `Dispatch` takes the system to the same state as
      the event `Begin` and one event for each slot. */
  lemma DispatchIsRun(answer: Path -> Payload, first: set<Path> -> Path, y: Sys, xs: seq<SlotInput>)
    requires Inv(answer, y) && Can(y, Begin) && |xs| == |y.s.workers|
    requires var s := BeginDispatch(y.s);
             Scheduler.PassOk(s, Spawnable(s)) && PassFits(first, s, 0, Spawnable(s), xs)
    ensures var s := BeginDispatch(y.s);
            var es := [Begin] + SlotEvents(Chosen(first, s, 0, Spawnable(s), xs));
            && Runs(answer, y, es)
            && After(answer, y, es) == Sys(Scheduler.DispatchFrom(first, s, 0, Spawnable(s), xs), Polling, y.oom)
  {
    hide Sound, AllAgree, Sane, PassFits;
    var s := BeginDispatch(y.s);
    BeginInv(answer, y);
    BeginDispatchSane(y.s);
    PassIsRun(answer, first, Step(answer, y, Begin), 0, Spawnable(s), xs);
    var es := [Begin] + SlotEvents(Chosen(first, s, 0, Spawnable(s), xs));
    assert es[0] == Begin && es[1..] == SlotEvents(Chosen(first, s, 0, Spawnable(s), xs));
  }

  // ---- Polling ------------------------------------------------------------------

  /** The end of a pipe is seen only when all is read and the process closed it. */
  ghost predicate EofFits(s: State, i: nat, xs: seq<Scheduler.ReadInput>) {
    forall k | i <= k < |xs| && xs[k].Readable? && xs[k].eof && Alive(s, k) ::
      Gone(s.workers[k].proc.value) && xs[k].n == |s.workers[k].proc.value.outbox|
  }

  ghost predicate ReadyAre(ready: set<nat>, xs: seq<Scheduler.ReadInput>) {
    forall k: nat :: k in ready <==> k < |xs| && xs[k].Readable?
  }

  ghost function ReadEvents(s: State, i: nat, xs: seq<Scheduler.ReadInput>): seq<Event>
    requires i <= |xs| == |s.workers| && (s.abort.None? ==> Sane(s)) && Scheduler.CanReadFrom(s, i, xs)
    decreases |xs| - i
  {
    if i == |xs| || s.abort.Some? then []
    else if xs[i].Silent? then [Skip] + ReadEvents(s, i + 1, xs)
    else
      assert Scheduler.CanRead(s, i, xs[i]);
      ReadOne(s, i, xs);
      [Read(xs[i].n, xs[i].eof, xs[i].rss)] + ReadEvents(ReadPipe(s, i, xs[i].n, xs[i].eof, xs[i].rss), i + 1, xs)
  }

  lemma ReadOne(s: State, i: nat, xs: seq<Scheduler.ReadInput>)
    requires i < |xs| == |s.workers| && Sane(s) && Scheduler.CanReadFrom(s, i, xs) && xs[i].Readable?
    requires Scheduler.CanRead(s, i, xs[i])
    ensures var s1 := ReadPipe(s, i, xs[i].n, xs[i].eof, xs[i].rss);
            && |s1.workers| == |s.workers| && (s1.abort.None? ==> Sane(s1)) && Scheduler.CanReadFrom(s1, i + 1, xs)
            && (EofFits(s, i, xs) ==> EofFits(s1, i + 1, xs))
  {
    ReadPipeSane(s, i, xs[i].n, xs[i].eof, xs[i].rss);
    Scheduler.ReadPipeFrame(s, i, xs[i].n, xs[i].eof, xs[i].rss);
    var s1 := ReadPipe(s, i, xs[i].n, xs[i].eof, xs[i].rss);
    assert forall k | i < k < |xs| :: Scheduler.CanRead(s, k, xs[k]) ==> Scheduler.CanRead(s1, k, xs[k]);
  }

  /** All pipes were read, which led to `s` or ended in an exception. */
  predicate Polls(y': Sys, s: State, oom: nat) {
    y'.s == s && y'.oom == oom && (s.abort.None? ==> y'.at.Top?)
  }

  lemma ConsRun(answer: Path -> Payload, y: Sys, e: Event, es: seq<Event>)
    requires Can(y, e) && Runs(answer, Step(answer, y, e), es)
    ensures Runs(answer, y, [e] + es) && After(answer, y, [e] + es) == After(answer, Step(answer, y, e), es)
  {
    hide Can, Step;
    assert ([e] + es)[0] == e && ([e] + es)[1..] == es;
  }

  lemma {:induction false} ReadingIsRun(answer: Path -> Payload, y: Sys, i: nat, xs: seq<Scheduler.ReadInput>,
      ready: set<nat>)
    requires Inv(answer, y) && y.s.abort.None? && i <= |xs| == |y.s.workers| && ReadyAre(ready, xs)
    requires y.at == ReadFrom(i, |y.s.workers|, ready)
    requires Scheduler.CanReadFrom(y.s, i, xs) && EofFits(y.s, i, xs)
    ensures var es := ReadEvents(y.s, i, xs);
            && Runs(answer, y, es) && Polls(After(answer, y, es), Scheduler.ReadSlots(y.s, i, xs), y.oom)
    decreases |xs| - i
  {
    hide Sound, AllAgree, SoloOk, ExitOk, ReadPipe, EofFits;
    if i < |xs| && xs[i].Silent? {
      var y1 := Step(answer, y, Skip);
      StepInv(answer, y, Skip);
      LessEof(y.s, i, xs);
      ReadingIsRun(answer, y1, i + 1, xs, ready);
      ConsRun(answer, y, Skip, ReadEvents(y.s, i + 1, xs));
    } else if i < |xs| {
      var e := Read(xs[i].n, xs[i].eof, xs[i].rss);
      assert Scheduler.CanRead(y.s, i, xs[i]);
      CanReadHere(y, i, xs, ready);
      var y1 := Step(answer, y, e);
      StepInv(answer, y, e);
      ReadOne(y.s, i, xs);
      if y1.s.abort.None? {
        ReadingIsRun(answer, y1, i + 1, xs, ready);
      }
      ConsRun(answer, y, e, ReadEvents(y1.s, i + 1, xs));
    }
  }

  lemma LessEof(s: State, i: nat, xs: seq<Scheduler.ReadInput>)
    ensures EofFits(s, i, xs) ==> EofFits(s, i + 1, xs)
  {}

  lemma CanReadHere(y: Sys, i: nat, xs: seq<Scheduler.ReadInput>, ready: set<nat>)
    requires y.s.abort.None? && |y.s.board.held| == |y.s.workers| && i < |xs| == |y.s.workers|
    requires y.at == Reading(i, ready) && ReadyAre(ready, xs) && xs[i].Readable?
    requires Scheduler.CanRead(y.s, i, xs[i]) && EofFits(y.s, i, xs)
    ensures Can(y, Read(xs[i].n, xs[i].eof, xs[i].rss))
  {}

  /** `PollWorkers` without a memory sample is a poll that finds the given pipes
      ready, followed by one event for each slot. */
  lemma PollIsRun(answer: Path -> Payload, y: Sys, xs: seq<Scheduler.ReadInput>, ready: set<nat>)
    requires Inv(answer, y) && y.s.abort.None? && y.at.Polling? && |xs| == |y.s.workers| && ReadyAre(ready, xs)
    requires Scheduler.CanReadFrom(y.s, 0, xs) && EofFits(y.s, 0, xs)
    ensures var es := [Poll(ready)] + ([NoSample] + ReadEvents(y.s, 0, xs));
            Runs(answer, y, es) && Polls(After(answer, y, es), Scheduler.ReadSlots(y.s, 0, xs), y.oom)
  {
    hide Sound, AllAgree, SoloOk, ExitOk, EofFits;
    ReadyAlive(y, xs, ready);
    StepInv(answer, y, Poll(ready));
    var y1 := Step(answer, y, Poll(ready));
    StepInv(answer, y1, NoSample);
    var y2 := Step(answer, y1, NoSample);
    ReadingIsRun(answer, y2, 0, xs, ready);
    ConsRun(answer, y1, NoSample, ReadEvents(y.s, 0, xs));
    ConsRun(answer, y, Poll(ready), [NoSample] + ReadEvents(y.s, 0, xs));
  }

  lemma ReadyAlive(y: Sys, xs: seq<Scheduler.ReadInput>, ready: set<nat>)
    requires Sane(y.s) && y.s.abort.None? && y.at.Polling? && |xs| == |y.s.workers|
    requires ReadyAre(ready, xs) && Scheduler.CanReadFrom(y.s, 0, xs)
    ensures Can(y, Poll(ready))
  {
    forall k | k in ready
      ensures Alive(y.s, k)
    {
      assert Scheduler.CanRead(y.s, k, xs[k]);
    }
  }

  /** With a memory sample, that comes between. */
  lemma PollAndSampleIsRun(answer: Path -> Payload, y: Sys, sizes: seq<nat>, own: nat, xs: seq<Scheduler.ReadInput>,
      ready: set<nat>)
    requires Inv(answer, y) && y.s.abort.None? && y.at.Polling? && |xs| == |sizes| == |y.s.workers|
    requires ReadyAre(ready, xs)
    requires Sane(y.s) && Scheduler.CanReadFrom(y.s, 0, xs)
    requires (forall i | 0 <= i < |y.s.workers| && y.s.workers[i].phase.Busy? :: y.s.workers[i].proc.Some?)
    requires EofFits(SampleMemory(y.s, sizes, own), 0, xs)
    ensures var s := SampleMemory(y.s, sizes, own);
            && Sane(s) && |s.workers| == |xs| && Scheduler.CanReadFrom(s, 0, xs)
            && var es := [Poll(ready)] + ([Sample(sizes, own)] + ReadEvents(s, 0, xs));
               Runs(answer, y, es) && Polls(After(answer, y, es), Scheduler.ReadSlots(s, 0, xs), y.oom)
  {
    hide Sound, AllAgree, SoloOk, ExitOk, EofFits, SampleMemory;
    ReadyAlive(y, xs, ready);
    StepInv(answer, y, Poll(ready));
    var y1 := Step(answer, y, Poll(ready));
    StepInv(answer, y1, Sample(sizes, own));
    var y2 := Step(answer, y1, Sample(sizes, own));
    Scheduler.SampleKeepsPipes(y.s, sizes, own, xs);
    SampleMemorySane(y.s, sizes, own);
    SampledSame(y.s, sizes, own);
    ReadingIsRun(answer, y2, 0, xs, ready);
    ConsRun(answer, y1, Sample(sizes, own), ReadEvents(y2.s, 0, xs));
    ConsRun(answer, y, Poll(ready), [Sample(sizes, own)] + ReadEvents(y2.s, 0, xs));
  }

  lemma SampledSame(s: State, sizes: seq<nat>, own: nat)
    requires |sizes| == |s.workers|
    requires forall i | 0 <= i < |s.workers| && s.workers[i].phase.Busy? :: s.workers[i].proc.Some?
    ensures |SampleMemory(s, sizes, own).workers| == |s.workers| && SampleMemory(s, sizes, own).abort == s.abort
  {}
}
