/** The loop of the scheduler never waits for nothing: after a pass of `dispatch`
    there is a worker from which something will come, or a job was just
    struck off. */
module Progress {
  import opened Ledger
  import opened Workers
  import opened Collector
  import opened Discipline
  import opened System
  import opened EveryRun

  predicate Active(w: Worker) {
    w.phase.Starting? || w.phase.Busy? || w.phase.Killed? || w.phase.Exiting?
  }

  predicate SomeActive(ws: seq<Worker>) {
    exists i :: 0 <= i < |ws| && Active(ws[i])
  }

  /** The rest of the pass, from slot `i` on, will start or feed a worker. */
  ghost predicate Due(s: State, i: nat, spawnable: nat) {
    && (s.board.solo != [] || s.board.todo != {} || Finished(s))
    && (s.board.mode == Parallel && s.board.solo != [] ==> Finished(s))
    && (|| (exists k :: i <= k < |s.workers| && s.workers[k].phase.Idle?)
        || (spawnable > 0 && !Finished(s) && i < |s.workers| && s.workers[i].phase.NoProc?))
  }

  /** Struck off since there were `killed` kills. */
  ghost predicate Promised(s: State, i: nat, spawnable: nat, killed: multiset<Path>) {
    killed < s.board.killed || (killed == s.board.killed && (SomeActive(s.workers) || Due(s, i, spawnable)))
  }

  lemma IdleMoves(s: State, i: nat, spawnable: nat, x: SlotInput)
    requires Sane(s) && s.abort.None? && i < |s.workers| && RoomFor(s, spawnable)
    requires !SomeActive(s.workers) && Due(s, i, spawnable) && s.workers[i].phase.Idle?
    ensures SoloHasWork(s)
    ensures var s' := DispatchSlot(s, i, spawnable, x).0;
            s.board.killed < s'.board.killed || (s.board.killed == s'.board.killed &&
                i < |s'.workers| && Active(s'.workers[i]))
  {
    assert NoneRunning(s.workers);
    NoneCounted(s.workers, Busy);
    assert !Finished(s) ==> CanTake(s, x.own);
  }

  lemma {:induction false} NoneCounted(ws: seq<Worker>, phase: Phase)
    requires forall i | 0 <= i < |ws| :: ws[i].phase != phase
    ensures CountPhase(ws, phase) == 0
  {
    if ws != [] {
      NoneCounted(ws[..|ws| - 1], phase);
    }
  }

  lemma {:induction false} SomeCounted(ws: seq<Worker>, phase: Phase)
    requires CountPhase(ws, phase) > 0
    ensures exists i :: 0 <= i < |ws| && ws[i].phase == phase
  {
    if ws[|ws| - 1].phase != phase {
      SomeCounted(ws[..|ws| - 1], phase);
      var i :| 0 <= i < |ws| - 1 && ws[..|ws| - 1][i].phase == phase;
      assert ws[i].phase == phase;
    }
  }

  lemma SlotKeepsPromise(s: State, i: nat, spawnable: nat, x: SlotInput, killed: multiset<Path>)
    requires Sane(s) && s.abort.None? && i < |s.workers| && RoomFor(s, spawnable)
    requires Promised(s, i, spawnable, killed)
    ensures SoloHasWork(s)
    ensures var (s', spawnable') := DispatchSlot(s, i, spawnable, x);
            Promised(s', i + 1, spawnable', killed)
  {
    var (s', spawnable') := DispatchSlot(s, i, spawnable, x);
    if killed < s.board.killed {
      assert s.board.killed <= s'.board.killed;
    } else if SomeActive(s.workers) {
      var k :| 0 <= k < |s.workers| && Active(s.workers[k]);
      assert s'.board.killed == s.board.killed ==> Active(s'.workers[k]);
    } else if s.workers[i].phase.Idle? {
      IdleMoves(s, i, spawnable, x);
    } else if spawnable > 0 && !Finished(s) {
      assert SlotShaped(s.workers[i], s.board.held[i]);
      assert Active(s'.workers[i]);
    }
  }

  lemma DispatchPromises(s: State)
    requires Sane(s) && |s.workers| > 0 && (Finished(s) ==> AnyAlive(s.workers))
    ensures var s' := BeginDispatch(s);
            Promised(s', 0, Spawnable(s'), s.board.killed)
  {
    var s' := BeginDispatch(s);
    BeginDispatchSane(s);
    if !SomeActive(s'.workers) {
      assert NoneRunning(s'.workers);
      NoneCounted(s'.workers, Starting);
      assert SlotShaped(s'.workers[0], s'.board.held[0]);
      if AnyAlive(s'.workers) {
        var k :| 0 <= k < |s'.workers| && s'.workers[k].proc.Some?;
        assert SlotShaped(s'.workers[k], s'.board.held[k]) && s'.workers[k].phase.Idle?;
      } else {
        assert forall k | 0 <= k < |s'.workers| :: SlotShaped(s'.workers[k], s'.board.held[k]);
        NoneCounted(s'.workers, Idle);
      }
    }
  }

  function SlotEvents(xs: seq<SlotInput>): (es: seq<Event>)
    ensures |es| == |xs|
  {
    seq(|xs|, k requires 0 <= k < |xs| => Slot(xs[k]))
  }

  lemma {:induction false} PassKeepsPromise(answer: Path -> Payload, y: Sys, xs: seq<SlotInput>, killed: multiset<Path>)
    requires Inv(answer, y) && y.s.abort.None? && Runs(answer, y, SlotEvents(xs))
    requires match y.at
             case Slots(idx, spawnable) => Promised(y.s, idx, spawnable, killed) && |xs| == |y.s.workers| - idx
             case Polling => Promised(y.s, |y.s.workers|, 0, killed) && xs == []
             case _ => false
    ensures Promised(After(answer, y, SlotEvents(xs)).s, |y.s.workers|, 0, killed)
    ensures Inv(answer, After(answer, y, SlotEvents(xs))) && After(answer, y, SlotEvents(xs)).s.abort.None?
    ensures |After(answer, y, SlotEvents(xs)).s.workers| == |y.s.workers|
    decreases |xs|
  {
    hide Sound, AllAgree, Sane, Promised, DispatchSlot;
    if xs != [] {
      assert SlotEvents(xs)[1..] == SlotEvents(xs[1..]);
      SlotInv(answer, y, xs[0]);
      SlotKeepsAgreement(answer, y.s, y.at.idx, y.at.spawnable, xs[0]);
      SlotKeepsPromise(y.s, y.at.idx, y.at.spawnable, xs[0], killed);
      if y.at.idx + 1 == |y.s.workers| {
        LastSlot(Step(answer, y, Slot(xs[0])).s, DispatchSlot(y.s, y.at.idx, y.at.spawnable, xs[0]).1, killed);
      }
      PassKeepsPromise(answer, Step(answer, y, Slot(xs[0])), xs[1..], killed);
    } else if y.at.Slots? {
      assert false;
    }
  }

  lemma LastSlot(s: State, spawnable: nat, killed: multiset<Path>)
    requires Promised(s, |s.workers|, spawnable, killed)
    ensures Promised(s, |s.workers|, 0, killed)
  {}

  /** A worker in an active phase can act, or has written or closed its pipe. */
  lemma ActiveIsAwaited(answer: Path -> Payload, w: Worker)
    requires w.proc.Some? && SlotAgrees(answer, w) && Active(w)
    ensures (exists act :: CanAct(w.proc.value, act)) || w.proc.value.outbox != [] || Gone(w.proc.value)
  {
    var p := w.proc.value;
    if p.outbox == [] && !Gone(p) {
      assert CanAct(p, SayNext) || CanAct(p, Take) || CanAct(p, Say(false)) || CanAct(p, SayRestart);
    }
  }

  ghost predicate Awaited(w: Worker) {
    w.proc.Some? && Active(w) &&
    ((exists act :: CanAct(w.proc.value, act)) || w.proc.value.outbox != [] || Gone(w.proc.value))
  }

  lemma SomeAwaited(answer: Path -> Payload, s: State)
    requires Shaped(s) && AllAgree(answer, s) && SomeActive(s.workers)
    ensures exists i :: 0 <= i < |s.workers| && Awaited(s.workers[i])
  {
    hide Agrees;
    var i :| 0 <= i < |s.workers| && Active(s.workers[i]);
    assert SlotShaped(s.workers[i], s.board.held[i]) && SlotAgrees(answer, s.workers[i]);
    ActiveIsAwaited(answer, s.workers[i]);
  }

  /** At the top of the loop, when it goes on: after the whole pass of `dispatch`
      some worker is starting, busy, killed or exiting, and will act or be
      heard; or a job was struck off in the pass. */
  lemma NoDeadlock(answer: Path -> Payload, n: nat, budget: nat, oom: nat, es: seq<Event>, y: Sys, xs: seq<SlotInput>)
    requires Reachable(answer, n, budget, oom, es, y) && y.s.abort.None? && y.at.Top? && !Terminated(y)
    requires |y.s.workers| > 0 && |xs| == |y.s.workers|
    requires Runs(answer, y, [Begin] + SlotEvents(xs))
    ensures var s' := After(answer, y, [Begin] + SlotEvents(xs)).s;
            || (exists i :: 0 <= i < |s'.workers| && Awaited(s'.workers[i]))
            || y.s.board.killed < s'.board.killed
  {
    hide Sound, AllAgree, Awaited, SoloOk, ExitOk, Reachable;
    ReachableInv(answer, n, budget, oom, es, y);
    BeginInv(answer, y);
    DispatchPromises(y.s);
    var es' := [Begin] + SlotEvents(xs);
    assert es'[0] == Begin && es'[1..] == SlotEvents(xs);
    PassKeepsPromise(answer, Step(answer, y, Begin), xs, y.s.board.killed);
    var y' := After(answer, y, es');
    if SomeActive(y'.s.workers) {
      SomeAwaited(answer, y'.s);
    }
  }
}
