/** When a job may be handed out and how many workers a pass of `dispatch` starts,
    by the numbers of slots and readings. */
module Capacity {
  import opened Wrappers
  import opened Ledger
  import opened Workers
  import opened Collector
  import opened Discipline

  ghost function PhaseSlots(ws: seq<Worker>, phase: Phase): set<nat> {
    set i: nat | i < |ws| && ws[i].phase == phase
  }

  function Sum(readings: seq<nat>): nat {
    if readings == [] then 0 else readings[0] + Sum(readings[1..])
  }

  function Readings(ws: seq<Worker>): seq<nat> {
    seq(|ws|, i requires 0 <= i < |ws| => ws[i].rss)
  }

  lemma SlotsSnoc(ws: seq<Worker>, phase: Phase)
    requires ws != []
    ensures var last := |ws| - 1;
            var before := PhaseSlots(ws[..last], phase);
            last !in before && PhaseSlots(ws, phase) == before + if ws[last].phase == phase then {last} else {}
  {
    var last := |ws| - 1;
    var before := PhaseSlots(ws[..last], phase);
    forall i: nat
      ensures i in PhaseSlots(ws, phase) <==> i in before || (i == last && ws[last].phase == phase)
    {
    }
  }

  lemma {:induction false} CountExactly(ws: seq<Worker>, phase: Phase)
    ensures CountPhase(ws, phase) == |PhaseSlots(ws, phase)|
  {
    if ws == [] {
      assert PhaseSlots(ws, phase) == {};
    } else {
      CountExactly(ws[..|ws| - 1], phase);
      SlotsSnoc(ws, phase);
      hide PhaseSlots;
    }
  }

  lemma {:induction false} SumSnoc(readings: seq<nat>, r: nat)
    ensures Sum(readings + [r]) == Sum(readings) + r
  {
    if readings != [] {
      assert (readings + [r])[1..] == readings[1..] + [r];
      SumSnoc(readings[1..], r);
    }
  }

  lemma {:induction false} TotalExactly(ws: seq<Worker>)
    ensures TotalRss(ws) == Sum(Readings(ws))
  {
    if ws != [] {
      var last := |ws| - 1;
      TotalExactly(ws[..last]);
      assert Readings(ws) == Readings(ws[..last]) + [ws[last].rss];
      SumSnoc(Readings(ws[..last]), ws[last].rss);
    }
  }

  // ---- Handing out a job ---------------------------------------------------------------

  /** All running jobs and one more can grow by the estimate within the budget; or
      none is running. */
  ghost predicate Fits(s: State, own: nat) {
    var busy := |PhaseSlots(s.workers, Busy)|;
    busy == 0 || own + Sum(Readings(s.workers)) + (busy + 1) * s.estimate <= s.budget
  }

  /** In solo mode one job at a time; otherwise, when nothing is kept for solo mode, as
      many as fit. */
  ghost predicate MayTake(s: State, own: nat) {
    if s.board.mode == Solo then PhaseSlots(s.workers, Busy) == {} && PhaseSlots(s.workers, Killed) == {}
    else s.board.solo == [] && s.board.todo != {} && Fits(s, own)
  }

  lemma NoneRunningExactly(ws: seq<Worker>)
    ensures NoneRunning(ws) <==> PhaseSlots(ws, Busy) == {} && PhaseSlots(ws, Killed) == {}
  {
    if !NoneRunning(ws) {
      var i :| 0 <= i < |ws| && Running(ws[i]);
      assert i in PhaseSlots(ws, Busy) || i in PhaseSlots(ws, Killed);
    }
  }

  lemma CanTakeExactly(s: State, own: nat)
    ensures CanTake(s, own) <==> MayTake(s, own)
  {
    CountExactly(s.workers, Busy);
    TotalExactly(s.workers);
    NoneRunningExactly(s.workers);
  }

  ghost predicate NothingLeft(s: State) {
    s.board.todo == {} && s.board.solo == [] && PhaseSlots(s.workers, Busy) == {} && PhaseSlots(s.workers, Killed) == {}
  }

  lemma NothingLeftExactly(s: State)
    ensures NothingLeft(s) <==> Finished(s)
  {
    NoneRunningExactly(s.workers);
  }

  /** An idle worker whose pipe is open is given a job if and only if one may be handed
      out: the last one kept for solo mode or the first of `todo`; and its growth
      is counted from then on.  Otherwise it is told to exit when all is done, and
      else left alone. */
  lemma JobGiven(s: State, i: nat, spawnable: nat, x: SlotInput)
    requires Sane(s) && s.abort.None? && i < |s.workers| && s.workers[i].phase.Idle? && x.sent
    ensures SoloHasWork(s)
    ensures var s' := DispatchSlot(s, i, spawnable, x).0;
            var w, w' := s.workers[i], s'.workers[i];
            && (w'.phase.Busy? <==> MayTake(s, x.own))
            && (MayTake(s, x.own) ==>
                  && w'.attrPath.Some? && w'.rss == w'.startRss == w.rss && w.proc.Some?
                  && w'.proc == Some(w.proc.value.(inbox := w.proc.value.inbox + [Do(w'.attrPath.value)],
                                                   given := w.proc.value.given + 1))
                  && if s.board.mode == Solo then s.board.solo == s'.board.solo + [w'.attrPath.value]
                     else w'.attrPath.value == x.pick && s'.board.todo == s.board.todo - {x.pick})
            && (!MayTake(s, x.own) ==>
                  && s'.board == s.board
                  && (w'.phase.Exiting? <==> NothingLeft(s)) && (w'.phase.Exiting? || s' == s))
  {
    CanTakeExactly(s, x.own);
    NothingLeftExactly(s);
    hide MayTake, NothingLeft;
    assert SlotShaped(s.workers[i], s.board.held[i]);
  }
}
