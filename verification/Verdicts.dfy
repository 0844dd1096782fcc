/** What a finished evaluation has found, whatever the order in which workers
    answered, restarted and were killed. */
module Verdicts {
  import opened Ledger

  /** The attribute paths that a depth-first descent from the root meets when it
      does not descend below the paths in `lost`. */
  ghost predicate Reached(answer: Path -> Payload, lost: set<Path>, p: Path)
    decreases |p|
  {
    p == [] || (
      var parent := p[..|p| - 1];
      && Reached(answer, lost, parent) && parent !in lost
      && answer(parent).Attrs? && p[|p| - 1] in answer(parent).names)
  }

  function VerdictFor(answer: Path -> Payload, lost: set<Path>, p: Path): Verdict {
    if p in lost then OverBudget else Answered(answer(p))
  }

  ghost function GivenUp(log: seq<Record>): set<Path> {
    set r | r in log && r.verdict.OverBudget? :: r.path
  }

  /** Nothing is waiting and nothing runs. */
  ghost predicate Over(b: Board) {
    b.todo == {} && b.solo == [] && NoneHeld(b)
  }

  lemma AllDone(b: Board, p: Path)
    requires Conserved(b) && Over(b) && p in b.place
    ensures b.place[p].Done? && b.place[p].entry < |b.log| && b.log[b.place[p].entry].path == p
  {
    assert Located(b, p);
  }

  lemma GivenUpByPlace(b: Board, p: Path)
    requires Conserved(b) && p in b.place && b.place[p].Done?
    ensures b.place[p].entry < |b.log| && b.log[b.place[p].entry].path == p
    ensures p in GivenUp(b.log) <==> b.log[b.place[p].entry].verdict.OverBudget?
  {
    assert Located(b, p);
    var k := b.place[p].entry;
    assert b.log[k] in b.log;
    if p in GivenUp(b.log) {
      var r :| r in b.log && r.verdict.OverBudget? && r.path == p;
      var j :| 0 <= j < |b.log| && b.log[j] == r;
      assert IsAt(b, b.log[j].path, Done(j));
    }
  }

  lemma {:induction false} ReachedIsSeen(answer: Path -> Payload, b: Board, p: Path)
    requires Conserved(b) && Explored(answer, b) && Over(b) && Reached(answer, GivenUp(b.log), p)
    ensures p in b.place
    decreases |p|
  {
    hide Conserved, GivenUp;
    if p != [] {
      var parent := p[..|p| - 1];
      ReachedIsSeen(answer, b, parent);
      AllDone(b, parent);
      GivenUpByPlace(b, parent);
      ChildSeen(answer, b, b.place[parent].entry, p[|p| - 1]);
      assert p == parent + [p[|p| - 1]];
    }
  }

  lemma ChildSeen(answer: Path -> Payload, b: Board, k: nat, name: string)
    requires Explored(answer, b) && k < |b.log| && b.log[k].verdict.Answered?
    requires answer(b.log[k].path).Attrs? && name in answer(b.log[k].path).names
    ensures b.log[k].path + [name] in b.place
  {
    assert LoggedRight(answer, b, k);
    assert b.log[k].path + [name] in More(b.log[k].path, answer(b.log[k].path));
  }

  lemma {:induction false} SeenIsReached(answer: Path -> Payload, b: Board, p: Path)
    requires Conserved(b) && Explored(answer, b) && p in b.place
    ensures Reached(answer, GivenUp(b.log), p)
    decreases |p|
  {
    if p != [] {
      assert Found(answer, b, p);
      var parent := p[..|p| - 1];
      GivenUpByPlace(b, parent);
      SeenIsReached(answer, b, parent);
    }
  }

  /** When the work is over, the log holds for each path that a sequential
      descent meets exactly one record, with the verdict the descent gives.
      A path killed twice is given up in place of all that lies below it. */
  lemma Complete(answer: Path -> Payload, b: Board)
    requires Sound(answer, b) && Over(b)
    ensures forall r :: r in b.log <==>
      Reached(answer, GivenUp(b.log), r.path) && r.verdict == VerdictFor(answer, GivenUp(b.log), r.path)
    ensures forall i, j | 0 <= i < j < |b.log| :: b.log[i].path != b.log[j].path
    ensures forall p :: p in GivenUp(b.log) <==> b.killed[p] == 2
  {
    var lost := GivenUp(b.log);
    forall r
      ensures r in b.log <==> Reached(answer, lost, r.path) && r.verdict == VerdictFor(answer, lost, r.path)
    {
      if r in b.log {
        var k :| 0 <= k < |b.log| && b.log[k] == r;
        assert IsAt(b, r.path, Done(k));
        GivenUpByPlace(b, r.path);
        SeenIsReached(answer, b, r.path);
      }
      if Reached(answer, lost, r.path) && r.verdict == VerdictFor(answer, lost, r.path) {
        ReachedIsSeen(answer, b, r.path);
        AllDone(b, r.path);
        GivenUpByPlace(b, r.path);
        assert b.log[b.place[r.path].entry] == r;
      }
    }
    assert forall k | 0 <= k < |b.log| :: IsAt(b, b.log[k].path, Done(k));
    forall p
      ensures p in lost <==> b.killed[p] == 2
    {
      assert Tally(b, p);
      if p in b.place {
        AllDone(b, p);
        GivenUpByPlace(b, p);
      }
    }
  }

  /** Two finished evaluations that gave up the same paths recorded the same. */
  lemma OrderDoesNotMatter(answer: Path -> Payload, b: Board, b': Board)
    requires Sound(answer, b) && Over(b) && Sound(answer, b') && Over(b')
    requires GivenUp(b.log) == GivenUp(b'.log)
    ensures multiset(b.log) == multiset(b'.log)
  {
    Complete(answer, b);
    Complete(answer, b');
    forall r
      ensures multiset(b.log)[r] == multiset(b'.log)[r]
    {
      CountOne(b.log, r);
      CountOne(b'.log, r);
    }
  }

  lemma {:induction false} CountOne(log: seq<Record>, r: Record)
    requires forall i, j | 0 <= i < j < |log| :: log[i].path != log[j].path
    ensures multiset(log)[r] == if r in log then 1 else 0
  {
    if log != [] {
      assert log == [log[0]] + log[1..];
      CountOne(log[1..], r);
    }
  }
}
