/** From the verdicts of a run to the lines of output: jobs and errors are entered
    into the table under their joined names, in whatever order scheduler and
    resolver come to them, and the aggregates are printed at the end. */
module Report {
  import opened Wrappers
  import opened Ledger
  import opened Verdicts
  import opened System
  import opened EveryRun
  import opened AttrPath
  import opened JobTable
  import C = Constituents
  import E = EventLoop
  import R = Resolver
  import S = Scheduler
  import T = TopoSort
  import W = Walk

  const TOO_BIG := "evaluation exceeded the memory budget even when run alone"

  predicate Printable(r: Record) {
    !(r.verdict.Answered? && r.verdict.payload.Attrs?)
  }

  /** What the table keeps of a verdict. */
  function EntryOf(r: Record): C.Entry
    requires Printable(r)
  {
    match r.verdict
    case OverBudget => C.Entry(None, map[], [], false, [], Some(C.EvaluationFailed(TOO_BIG)))
    case Answered(Error(message, _)) => C.Entry(None, map[], [], false, [], Some(C.EvaluationFailed(message)))
    case Answered(Job(drvPath, outputs, constituents, named, glob)) =>
      C.Entry(Some(drvPath), outputs, named, glob, constituents, None)
  }

  ghost predicate DistinctPaths(rs: seq<Record>) {
    forall i, j | 0 <= i < j < |rs| :: rs[i].path != rs[j].path
  }

  ghost predicate AllPrintable(rs: seq<Record>) {
    forall r | r in rs :: Printable(r)
  }

  /** The table has exactly the records of `rs`, under their joined names. */
  ghost predicate Holds(jobs: C.JobMap, rs: seq<Record>)
    requires AllPrintable(rs)
  {
    && (forall r | r in rs :: Join(r.path) in jobs && jobs[Join(r.path)] == EntryOf(r))
    && (forall n | n in jobs :: exists r :: r in rs && Join(r.path) == n)
  }

  lemma NewName(jobs: C.JobMap, rs: seq<Record>, r: Record)
    requires AllPrintable(rs) && Holds(jobs, rs) && forall q | q in rs :: q.path != r.path
    ensures Join(r.path) !in jobs
  {
    if Join(r.path) in jobs {
      var q :| q in rs && Join(q.path) == Join(r.path);
      JoinInjective(q.path, r.path);
    }
  }

  lemma HoldsOneMore(jobs: C.JobMap, rs: seq<Record>, r: Record)
    requires AllPrintable(rs) && Printable(r) && Holds(jobs, rs) && forall q | q in rs :: q.path != r.path
    ensures AllPrintable(rs + [r]) && Holds(jobs[Join(r.path) := EntryOf(r)], rs + [r])
  {
    NewName(jobs, rs, r);
    var jobs' := jobs[Join(r.path) := EntryOf(r)];
    assert forall q :: q in rs + [r] <==> q in rs || q == r;
    forall n | n in jobs'
      ensures exists q :: q in rs + [r] && Join(q.path) == n
    {
      if n in jobs {
        var q :| q in rs && Join(q.path) == n;
        assert q in rs + [r];
      } else {
        assert r in rs + [r];
      }
    }
  }

  lemma HeldIsEvaluated(jobs: C.JobMap, rs: seq<Record>)
    requires AllPrintable(rs) && Holds(jobs, rs)
    ensures C.Evaluated(jobs)
  {
    forall n | n in jobs
      ensures jobs[n].error.None? <==> jobs[n].drvPath.Some?
      ensures jobs[n].error.Some? ==> jobs[n].named == []
    {
      var r :| r in rs && Join(r.path) == n;
    }
  }

  ghost predicate PrintedAsRecorded(table: Table, r: Record)
    reads table
  {
    Printable(r) && EntryOf(r).named == [] ==> Line(Join(r.path), EntryOf(r)) in table.printed
  }

  /** The table that held `entered` is printed: each name once, jobs without named
      constituents and errors as they were entered, the aggregates `items` as
      `HandleConstituents` leaves them. */
  ghost predicate PrintedFrom(table: Table, entered: C.JobMap, items: T.Aggregates)
    reads table
  {
    && table.Valid() && table.jobs.Keys == entered.Keys
    && Accounted(table.printed, table.jobs, entered.Keys)
    && (forall n | n in entered && entered[n].named == [] :: table.jobs[n] == entered[n])
    && C.ResolvesAll(entered, table.fnmatch, items) && table.Settled(entered, table.jobs, items)
    && table.AggregatesDone(entered, table.jobs, items)
  }

  /** Every record is entered and printed once. */
  method PrintAll(table: Table, rs: seq<Record>) returns (ghost entered: C.JobMap, ghost items: T.Aggregates)
    requires table.Valid() && table.jobs == map[] && table.printed == []
    requires DistinctPaths(rs) && AllPrintable(rs)
    modifies table
    ensures Holds(entered, rs) && PrintedFrom(table, entered, items)
    ensures forall n :: n in Printed(table.printed) <==> exists r :: r in rs && Join(r.path) == n
    ensures forall r | r in rs :: PrintedAsRecorded(table, r)
  {
    assert table.OnlyAggregatesOwed();
    for k := 0 to |rs|
      invariant table.OnlyAggregatesOwed() && AllPrintable(rs[..k]) && Holds(table.jobs, rs[..k])
    {
      assert rs[k] in rs && rs[..k + 1] == rs[..k] + [rs[k]];
      NewName(table.jobs, rs[..k], rs[k]);
      HoldsOneMore(table.jobs, rs[..k], rs[k]);
      table.Emit(Join(rs[k].path), EntryOf(rs[k]));
    }
    assert rs[..|rs|] == rs;
    HeldIsEvaluated(table.jobs, rs);
    entered := table.jobs;
    items := table.HandleConstituents();
    forall r | r in rs
      ensures PrintedAsRecorded(table, r)
    {
      assert Join(r.path) in Printed(table.printed);
    }
  }

  // ---- The records of a run ------------------------------------------------------

  lemma {:induction false} InEmissions(log: seq<Record>, r: Record)
    ensures r in S.Emissions(log) <==> r in log && Printable(r)
  {
    if log != [] {
      var last := |log| - 1;
      InEmissions(log[..last], r);
      assert log == log[..last] + [log[last]];
    }
  }

  lemma {:induction false} EmissionsDistinct(log: seq<Record>)
    requires DistinctPaths(log)
    ensures DistinctPaths(S.Emissions(log))
  {
    if log != [] {
      var last := |log| - 1;
      EmissionsDistinct(log[..last]);
      forall r | r in S.Emissions(log[..last])
        ensures r.path != log[last].path
      {
        InEmissions(log[..last], r);
      }
    }
  }

  lemma TwiceCounts(rs: seq<Record>, i: nat, j: nat)
    requires i < j < |rs| && rs[i] == rs[j]
    ensures multiset(rs)[rs[i]] >= 2
  {
    assert rs == rs[..j] + rs[j..];
    assert rs[..j][i] == rs[i] && rs[i] in rs[..j];
    assert rs[j..][0] == rs[i] && rs[i] in rs[j..];
  }

  lemma PermutedDistinct(rs: seq<Record>, log: seq<Record>)
    requires DistinctPaths(log) && multiset(rs) == multiset(log)
    ensures DistinctPaths(rs)
  {
    forall i, j | 0 <= i < j < |rs|
      ensures rs[i].path != rs[j].path
    {
      assert rs[i] in multiset(rs) && rs[j] in multiset(rs);
      assert rs[i] in log && rs[j] in log;
      if rs[i] == rs[j] {
        TwiceCounts(rs, i, j);
        CountOne(log, rs[i]);
      }
    }
  }

  /** The verdict for `p` is entered under its joined name, unless `p` is not met or
      is an attribute set. */
  ghost predicate Filed(jobs: C.JobMap, answer: Path -> Payload, lost: set<Path>, p: Path) {
    var r := Record(p, VerdictFor(answer, lost, p));
    if Reached(answer, lost, p) && Printable(r) then Join(p) in jobs && jobs[Join(p)] == EntryOf(r)
    else Join(p) !in jobs
  }

  /** `jobs` has the verdicts of a sequential descent, and nothing else. */
  ghost predicate Entered(jobs: C.JobMap, answer: Path -> Payload, lost: set<Path>) {
    && (forall p :: Filed(jobs, answer, lost, p))
    && (forall n | n in jobs :: exists p :: Join(p) == n)
  }

  /** What a run that ended must print: one line for each path that a sequential
      descent meets and that is no attribute set, and no other line; as
      recorded, unless it is an aggregate, which is rewritten or marked. */
  ghost predicate Reported(table: Table, answer: Path -> Payload, lost: set<Path>, entered: C.JobMap,
      items: T.Aggregates)
    reads table
  {
    && Entered(entered, answer, lost) && PrintedFrom(table, entered, items)
    && (forall n | n in Printed(table.printed) :: exists p :: Join(p) == n)
    && (forall p :: Join(p) in Printed(table.printed) <==>
          Reached(answer, lost, p) && Printable(Record(p, VerdictFor(answer, lost, p))))
    && (forall p :: Reached(answer, lost, p) ==> PrintedAsRecorded(table, Record(p, VerdictFor(answer, lost, p))))
  }

  /** The records of a run that ended, in any order. */
  method PrintRun(table: Table, ghost answer: Path -> Payload, ghost n: nat, ghost budget: nat, ghost oom: nat,
      ghost es: seq<Event>, ghost y: Sys, rs: seq<Record>)
    returns (ghost entered: C.JobMap, ghost items: T.Aggregates)
    requires Reachable(answer, n, budget, oom, es, y) && Terminated(y)
    requires multiset(rs) == multiset(S.Emissions(y.s.board.log))
    requires table.Valid() && table.jobs == map[] && table.printed == []
    modifies table
    ensures Reported(table, answer, GivenUp(y.s.board.log), entered, items)
  {
    hide Reachable, Accounted, Reached, Reported;
    RecordsOfRun(answer, n, budget, oom, es, y, rs);
    entered, items := PrintAll(table, rs);
    AllEntered(entered, answer, GivenUp(y.s.board.log), rs);
    AllReported(table, answer, GivenUp(y.s.board.log), rs, entered, items);
  }

  /** What is entered for a path that was dealt with. */
  function EntryFor(answer: Path -> Payload, lost: set<Path>, p: Path): Option<C.Entry> {
    if p in lost then
      Some(C.Entry(None, map[], [], false, [],
        Some(C.EvaluationFailed("evaluation exceeded the memory budget even when run alone"))))
    else
      match answer(p)
      case Attrs(_) => None
      case Error(message, _) => Some(C.Entry(None, map[], [], false, [], Some(C.EvaluationFailed(message))))
      case Job(drvPath, outputs, constituents, named, glob) =>
        Some(C.Entry(Some(drvPath), outputs, named, glob, constituents, None))
  }

  /** What is reported for a path, by the answers: nothing for one that the descent does not
      meet or that is an attribute set; the error or the derivation of the answer; and
      for an aggregate one line with what `HandleConstituents` made of it. */
  lemma LinesSay(table: Table, answer: Path -> Payload, lost: set<Path>, entered: C.JobMap,
      items: T.Aggregates, p: Path)
    requires Reported(table, answer, lost, entered, items)
    ensures var entry := EntryFor(answer, lost, p);
            if !Reached(answer, lost, p) || entry.None? then
              Join(p) !in entered && forall l | l in table.printed :: l.name != Join(p)
            else
              && Join(p) in entered && entered[Join(p)] == entry.value && Join(p) in table.jobs
              && (entry.value.named == [] ==> table.jobs[Join(p)] == entry.value)
              && forall l :: l in table.printed && l.name == Join(p) <==> l == Line(Join(p), table.jobs[Join(p)])
  {
    EnteredSays(entered, answer, lost, p);
    LineOf(table, entered, items, Join(p));
    hide Reached, Reported, Join;
  }

  lemma EnteredSays(entered: C.JobMap, answer: Path -> Payload, lost: set<Path>, p: Path)
    requires Entered(entered, answer, lost)
    ensures var entry := EntryFor(answer, lost, p);
            if !Reached(answer, lost, p) || entry.None? then Join(p) !in entered
            else Join(p) in entered && entered[Join(p)] == entry.value
  {
    hide Reached, Join;
    assert Filed(entered, answer, lost, p);
  }

  lemma LineOf(table: Table, entered: C.JobMap, items: T.Aggregates, n: string)
    requires PrintedFrom(table, entered, items)
    ensures n !in entered ==> forall l | l in table.printed :: l.name != n
    ensures n in entered ==> n in table.jobs && (entered[n].named == [] ==> table.jobs[n] == entered[n])
    ensures n in entered ==> forall l :: l in table.printed && l.name == n <==> l == Line(n, table.jobs[n])
  {
    hide C.ResolvesAll, T.Acyclic;
    assert forall l | l in table.printed :: l.name in Printed(table.printed) && l.entry == table.jobs[l.name];
    if n in entered {
      assert n in Printed(table.printed);
      var l :| l in table.printed && l.name == n;
      assert l == Line(n, table.jobs[n]);
    }
  }

  /** `rs` are the printable verdicts of the descent. */
  ghost predicate AreVerdicts(answer: Path -> Payload, lost: set<Path>, rs: seq<Record>) {
    forall r :: r in rs <==>
      Reached(answer, lost, r.path) && r.verdict == VerdictFor(answer, lost, r.path) && Printable(r)
  }

  lemma RecordsOfRun(answer: Path -> Payload, n: nat, budget: nat, oom: nat, es: seq<Event>, y: Sys, rs: seq<Record>)
    requires Reachable(answer, n, budget, oom, es, y) && Terminated(y)
    requires multiset(rs) == multiset(S.Emissions(y.s.board.log))
    ensures DistinctPaths(rs) && AreVerdicts(answer, GivenUp(y.s.board.log), rs)
  {
    hide Reachable, Terminated, Reached;
    var log := y.s.board.log;
    EndedRunIsComplete(answer, n, budget, oom, es, y);
    EmissionsDistinct(log);
    PermutedDistinct(rs, S.Emissions(log));
    forall r
      ensures r in rs <==> r in log && Printable(r)
    {
      assert r in rs <==> r in multiset(rs);
      InEmissions(log, r);
    }
  }

  lemma AllEntered(jobs: C.JobMap, answer: Path -> Payload, lost: set<Path>, rs: seq<Record>)
    requires AllPrintable(rs) && Holds(jobs, rs) && AreVerdicts(answer, lost, rs)
    ensures Entered(jobs, answer, lost)
  {
    hide Reached;
    forall p
      ensures Filed(jobs, answer, lost, p)
    {
      NamesAreVerdicts(answer, lost, rs, p);
      assert Reached(answer, lost, p) ==>
        (Printable(Record(p, VerdictFor(answer, lost, p))) <==> Record(p, VerdictFor(answer, lost, p)) in rs);
    }
  }

  lemma AllReported(table: Table, answer: Path -> Payload, lost: set<Path>, rs: seq<Record>,
      entered: C.JobMap, items: T.Aggregates)
    requires AreVerdicts(answer, lost, rs) && Entered(entered, answer, lost) && PrintedFrom(table, entered, items)
    requires forall n :: n in Printed(table.printed) <==> exists r :: r in rs && Join(r.path) == n
    requires forall r | r in rs :: PrintedAsRecorded(table, r)
    ensures Reported(table, answer, lost, entered, items)
  {
    hide PrintedFrom, Entered, Reached, Printed;
    forall p
      ensures Join(p) in Printed(table.printed) <==>
        Reached(answer, lost, p) && Printable(Record(p, VerdictFor(answer, lost, p)))
      ensures Reached(answer, lost, p) ==> PrintedAsRecorded(table, Record(p, VerdictFor(answer, lost, p)))
    {
      NamesAreVerdicts(answer, lost, rs, p);
    }
  }

  lemma NamesAreVerdicts(answer: Path -> Payload, lost: set<Path>, rs: seq<Record>, p: Path)
    requires AreVerdicts(answer, lost, rs)
    ensures (exists r :: r in rs && Join(r.path) == Join(p)) <==>
      Reached(answer, lost, p) && Printable(Record(p, VerdictFor(answer, lost, p)))
  {
    var mine := Record(p, VerdictFor(answer, lost, p));
    if r :| r in rs && Join(r.path) == Join(p) {
      JoinInjective(r.path, p);
      assert r == mine;
    }
    assert mine in rs <==> Reached(answer, lost, p) && Printable(mine);
  }

  // ---- With the resolver and without ---------------------------------------------------

  /** Without a resolver the scheduler prints what it records as it goes. */
  method ReportWithoutResolver(table: Table, ghost answer: Path -> Payload, ghost n: nat, ghost budget: nat,
      ghost oom: nat, ghost es: seq<Event>, ghost y: Sys, emitted: seq<Record>)
    returns (ghost entered: C.JobMap, ghost items: T.Aggregates)
    requires Reachable(answer, n, budget, oom, es, y) && Terminated(y)
    requires emitted == S.Emissions(y.s.board.log)
    requires table.Valid() && table.jobs == map[] && table.printed == []
    modifies table
    ensures Reported(table, answer, GivenUp(y.s.board.log), entered, items)
  {
    entered, items := PrintRun(table, answer, n, budget, oom, es, y, emitted);
  }

  /** A whole evaluation, from the root to the aggregates.  The lines tell what a
      descent from the root finds, whatever the surroundings do. */
  method EvaluateAndPrint(nrWorkers: nat, maxMemorySize: nat, first: set<Path> -> Path,
      answer: Path -> Payload, rounds: seq<E.Round>, oom: nat, table: Table)
    returns (ended: bool, ghost es: seq<Event>, ghost y: Sys, ghost entered: C.JobMap, ghost items: T.Aggregates)
    requires S.Picks(first) && forall k | 0 <= k < |rounds| :: E.RoundFits(rounds[k], nrWorkers)
    requires table.Valid() && table.jobs == map[] && table.printed == []
    modifies table
    ensures Reachable(answer, nrWorkers, nrWorkers * maxMemorySize, oom, es, y) && (ended <==> Terminated(y))
    ensures ended ==> Reported(table, answer, GivenUp(y.s.board.log), entered, items)
  {
    hide Reachable, Terminated, Reported;
    var emitted;
    ended, emitted, es, y := E.Evaluation(nrWorkers, maxMemorySize, first, answer, rounds, oom);
    if ended {
      entered, items := ReportWithoutResolver(table, answer, nrWorkers, nrWorkers * maxMemorySize, oom, es, y, emitted);
    } else {
      entered, items := map[], map[];
    }
  }

  predicate IsJob(r: Record) { r.verdict.Answered? && r.verdict.payload.Job? }

  /** The jobs, or all but the jobs, in order. */
  function Select(rs: seq<Record>, jobs: bool): seq<Record> {
    if rs == [] then []
    else
      var r := rs[|rs| - 1];
      Select(rs[..|rs| - 1], jobs) + if IsJob(r) == jobs then [r] else []
  }

  lemma CountLast<T>(s: seq<T>, x: T)
    ensures multiset(s + [x]) == multiset(s) + multiset{x}
  {}

  lemma SelectLast(rs: seq<Record>, r: Record, jobs: bool)
    ensures Select(rs + [r], jobs) == if IsJob(r) == jobs then Select(rs, jobs) + [r] else Select(rs, jobs)
  {
    assert (rs + [r])[..|rs + [r]| - 1] == rs;
  }

  lemma {:induction false} SelectSplits(rs: seq<Record>)
    ensures multiset(Select(rs, true)) + multiset(Select(rs, false)) == multiset(rs)
  {
    if rs != [] {
      var before, r := rs[..|rs| - 1], rs[|rs| - 1];
      assert rs == before + [r];
      SelectSplits(before);
      hide Select, IsJob;
      SelectLast(before, r, true);
      SelectLast(before, r, false);
      CountLast(before, r);
      CountLast(Select(before, IsJob(r)), r);
    }
  }

  /** What is pushed to the resolver for some jobs. */
  function Pushes(jobs: seq<Record>, toJob: Record -> W.Job): seq<R.Response> {
    seq(|jobs|, i requires 0 <= i < |jobs| => R.JobResponse(jobs[i], toJob(jobs[i])))
  }

  function RecordsOf(responses: seq<R.Response>): seq<Record> {
    seq(|responses|, i requires 0 <= i < |responses| => responses[i].record)
  }

  lemma RecordsTakeOut(b: seq<R.Response>, j: nat) returns (rest: seq<R.Response>)
    requires j < |b|
    ensures |rest| == |b| - 1 && multiset(rest) == multiset(b) - multiset{b[j]}
    ensures multiset(RecordsOf(b)) == multiset(RecordsOf(rest)) + multiset{b[j].record}
  {
    rest := b[..j] + b[j + 1..];
    assert b == b[..j] + [b[j]] + b[j + 1..];
    assert RecordsOf(b) == RecordsOf(b[..j]) + [b[j].record] + RecordsOf(b[j + 1..]);
    assert RecordsOf(rest) == RecordsOf(b[..j]) + RecordsOf(b[j + 1..]);
  }

  lemma {:induction false} RecordsPermuted(a: seq<R.Response>, b: seq<R.Response>)
    requires multiset(a) == multiset(b)
    ensures multiset(RecordsOf(a)) == multiset(RecordsOf(b))
    decreases |a|
  {
    hide RecordsOf;
    assert |a| == |multiset(a)| == |b|;
    if a == [] {
      assert a == b;
    } else {
      assert a[0] in multiset(b);
      var j :| 0 <= j < |b| && b[j] == a[0];
      var restA := RecordsTakeOut(a, 0);
      var restB := RecordsTakeOut(b, j);
      RecordsPermuted(restA, restB);
    }
  }

  /** One list into the other, as `choices` say. */
  method Interleave(a: seq<Record>, b: seq<Record>, choices: seq<bool>) returns (c: seq<Record>)
    ensures multiset(c) == multiset(a) + multiset(b)
  {
    c := [];
    var i, j := 0, 0;
    while i < |a| || j < |b|
      invariant i <= |a| && j <= |b| && multiset(c) == multiset(a[..i]) + multiset(b[..j])
      decreases |a| - i + |b| - j
    {
      if i < |a| && (j == |b| || (|c| < |choices| && choices[|c|])) {
        assert a[..i + 1] == a[..i] + [a[i]];
        c, i := c + [a[i]], i + 1;
      } else {
        assert b[..j + 1] == b[..j] + [b[j]];
        c, j := c + [b[j]], j + 1;
      }
    }
    assert a[..|a|] == a && b[..|b|] == b;
  }

  /** The job of `r` came out of the resolver with the status that its outputs have. */
  ghost predicate ResolvedRight(store: W.Answers, emitted: seq<R.Emission>, r: Record, job: W.Job) {
    exists e :: e in emitted && e.response == R.JobResponse(r, job)
      && e.resolution.Some? && W.StatusRight(store, job.outputs, e.resolution.value.status)
  }

  lemma {:induction false} JobSelected(rs: seq<Record>, r: Record)
    requires r in rs && r.verdict.Answered? && r.verdict.payload.Job?
    ensures r in Select(rs, true)
  {
    if r in rs[..|rs| - 1] {
      JobSelected(rs[..|rs| - 1], r);
    } else {
      assert r == rs[|rs| - 1];
    }
  }

  lemma JobsResolved(store: W.Answers, resolved: seq<R.Emission>, rs: seq<Record>, toJob: Record -> W.Job)
    requires multiset(R.Responses(resolved)) == multiset(Pushes(Select(rs, true), toJob))
    requires R.StatusesRight(store, resolved)
    ensures forall r | r in rs && r.verdict.Answered? && r.verdict.payload.Job? ::
      ResolvedRight(store, resolved, r, toJob(r))
  {
    hide W.StatusRight, W.NeedsRight;
    forall r | r in rs && r.verdict.Answered? && r.verdict.payload.Job?
      ensures ResolvedRight(store, resolved, r, toJob(r))
    {
      JobSelected(rs, r);
      var jobs := Select(rs, true);
      var k :| 0 <= k < |jobs| && jobs[k] == r;
      assert Pushes(jobs, toJob)[k] == R.JobResponse(r, toJob(r));
      assert R.JobResponse(r, toJob(r)) in multiset(R.Responses(resolved));
      var i :| 0 <= i < |resolved| && R.Responses(resolved)[i] == R.JobResponse(r, toJob(r));
      assert resolved[i] in resolved;
    }
  }

  /** With a resolver, jobs are pushed in the order of the log, in portions that the
      thread finds at its looks at the inbox; the sink enters them into the table
      while the scheduler enters the rest, in any interleaving.  An exception of the
      store ends the program before the aggregates are printed. */
  method ReportRun(table: Table, resolver: R.CacheStatusResolver, toJob: Record -> W.Job,
      ghost answer: Path -> Payload, ghost n: nat, ghost budget: nat, ghost oom: nat,
      ghost es: seq<Event>, ghost y: Sys,
      emitted: seq<Record>, arrivals: seq<seq<R.Response>>, choices: seq<bool>,
      healthyRounds: nat, tried: nat)
    returns (ok: bool, ghost entered: C.JobMap, ghost items: T.Aggregates)
    requires Reachable(answer, n, budget, oom, es, y) && Terminated(y)
    requires emitted == S.Emissions(y.s.board.log)
    requires table.Valid() && table.jobs == map[] && table.printed == []
    requires R.Flatten(arrivals) == Pushes(Select(emitted, true), toJob)
    requires resolver.Valid() && resolver.DerivationsRead() && resolver.AskedOnce() && !resolver.Waiting()
    requires resolver.inbox == resolver.pushed == [] && resolver.emitted == [] && !resolver.closed && !resolver.failed
    requires resolver.validCache == map[] && resolver.probeCache == map[] && resolver.failedRounds == 0
    requires forall i | 0 <= i < |arrivals| :: R.AllInReach(resolver.graph, arrivals[i])
    modifies table, resolver
    ensures ok <==> !resolver.failed
    ensures !ok ==> healthyRounds <= 2 * |resolver.graph.paths| + 2 * |arrivals|
    ensures ok ==> Reported(table, answer, GivenUp(y.s.board.log), entered, items)
    ensures ok ==> forall r | r in emitted && r.verdict.Answered? && r.verdict.payload.Job? ::
      ResolvedRight(resolver.store, resolver.emitted, r, toJob(r))
    ensures W.WellFormed(resolver.graph) && R.Correct(resolver.store, resolver.graph, resolver.emitted)
  {
    hide Reachable, Reported, R.Correct, ResolvedRight, R.StatusesRight;
    resolver.Run(arrivals, healthyRounds, tried, false);
    ok := !resolver.failed;
    if !ok {
      entered, items := map[], map[];
      return;
    }
    var sunk := RecordsOf(R.Responses(resolver.emitted));
    var rs := Interleave(sunk, Select(emitted, false), choices);
    RecordsPermuted(R.Responses(resolver.emitted), R.Flatten(arrivals));
    assert RecordsOf(Pushes(Select(emitted, true), toJob)) == Select(emitted, true);
    SelectSplits(emitted);
    JobsResolved(resolver.store, resolver.emitted, emitted, toJob);
    entered, items := PrintRun(table, answer, n, budget, oom, es, y, rs);
  }
}
