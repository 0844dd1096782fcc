/** Aggregate jobs: which jobs their constituents stand for
    (src/constituents.cc). */
module Constituents {
  import opened Wrappers
  import opened TopoSort

  datatype JobError =
    | EvaluationFailed(message: string)
    | ConstituentsBroken(jobs: map<string, string>)
    | InCycle(a: string, b: string)
    | SkippedForCycle
  {
    function Message(): string {
      match this
      case EvaluationFailed(message) => message
      case ConstituentsBroken(_) => "broken constituents"
      case InCycle(a, b) => "Dependency cycle: " + a + " <-> " + b
      case SkippedForCycle => "Skipping aggregate because of a dependency cycle"
    }
  }

  /** What the job map keeps of a response: a derivation, or an error. */
  datatype Entry = Entry(
    drvPath: Option<string>,
    outputs: map<string, string>,
    named: seq<string>,
    glob: bool,
    constituents: seq<string>,
    error: Option<JobError>)

  type JobMap = map<string, Entry>

  /** The map as the evaluation leaves it: an entry is a derivation without an
      error or an error without a derivation. */
  predicate Evaluated(jobs: JobMap) {
    forall n | n in jobs ::
      && (jobs[n].error.None? <==> jobs[n].drvPath.Some?)
      && (jobs[n].error.Some? ==> jobs[n].named == [])
  }

  // ---- Which jobs the constituents of an aggregate stand for ---------------

  /** An existing job name stands for that job; any other name is a pattern if
      the aggregate allows patterns, and never selects the aggregate itself. */
  predicate Selects(jobs: JobMap, fnmatch: (string, string) -> bool, aggregate: string, child: string, n: string)
    requires aggregate in jobs
  {
    && n in jobs
    && if child in jobs then n == child
       else jobs[aggregate].glob && n != aggregate && fnmatch(child, n)
  }

  predicate SelectsGood(jobs: JobMap, fnmatch: (string, string) -> bool, aggregate: string, child: string, n: string)
    requires aggregate in jobs
  {
    Selects(jobs, fnmatch, aggregate, child, n) && jobs[n].error.None?
  }

  predicate SelectsBroken(jobs: JobMap, fnmatch: (string, string) -> bool, aggregate: string, child: string, n: string)
    requires aggregate in jobs
  {
    Selects(jobs, fnmatch, aggregate, child, n) && jobs[n].error.Some?
  }

  /** `child` names no job and no healthy job matches it. */
  ghost predicate Unmatched(jobs: JobMap, fnmatch: (string, string) -> bool, aggregate: string, child: string)
    requires aggregate in jobs
  {
    child !in jobs && forall n :: !SelectsGood(jobs, fnmatch, aggregate, child, n)
  }

  /** `n` is one of the jobs that `children` stand for. */
  ghost predicate Constituent(jobs: JobMap, fnmatch: (string, string) -> bool, aggregate: string,
      children: seq<string>, n: string)
    requires aggregate in jobs
  {
    exists c :: c in children && SelectsGood(jobs, fnmatch, aggregate, c, n)
  }

  /** `n` is a job in error that `children` stand for, or one of `children`
      that stands for nothing. */
  ghost predicate Breaks(jobs: JobMap, fnmatch: (string, string) -> bool, aggregate: string, children: seq<string>,
      n: string)
    requires aggregate in jobs
  {
    exists c :: c in children
      && (SelectsBroken(jobs, fnmatch, aggregate, c, n) || (n == c && Unmatched(jobs, fnmatch, aggregate, c)))
  }

  function Reason(jobs: JobMap, aggregate: string, n: string): string
    requires aggregate in jobs
  {
    if n in jobs then (if jobs[n].error.Some? then jobs[n].error.value.Message() else "")
    else if jobs[aggregate].glob then "constituent glob pattern had no matches"
    else "does not exist"
  }

  ghost predicate Explained(jobs: JobMap, aggregate: string, broken: map<string, string>)
    requires aggregate in jobs
  {
    forall n | n in broken :: broken[n] == Reason(jobs, aggregate, n)
  }

  /** What `agg` must be; this fixes all three of its fields. */
  ghost predicate Resolves(jobs: JobMap, fnmatch: (string, string) -> bool, aggregate: string, children: seq<string>,
      agg: AggregateJob)
    requires aggregate in jobs
  {
    && agg.name == aggregate
    && (forall n :: n in agg.dependencies <==> Constituent(jobs, fnmatch, aggregate, children, n))
    && (forall n :: n in agg.brokenJobs <==> Breaks(jobs, fnmatch, aggregate, children, n))
    && Explained(jobs, aggregate, agg.brokenJobs)
  }

  /** The pattern branch: every other job that matches is taken, or noted as
      broken. */
  method InsertMatchingConstituents(child: string, aggregate: string, jobs: JobMap, fnmatch: (string, string) -> bool,
                                    results: set<string>, broken: map<string, string>)
    returns (results': set<string>, broken': map<string, string>, expansionFound: bool)
    requires aggregate in jobs && child !in jobs && jobs[aggregate].glob && Explained(jobs, aggregate, broken)
    ensures forall n :: n in results' <==> n in results || SelectsGood(jobs, fnmatch, aggregate, child, n)
    ensures forall n :: n in broken' <==> n in broken || SelectsBroken(jobs, fnmatch, aggregate, child, n)
    ensures Explained(jobs, aggregate, broken')
    ensures expansionFound <==> !Unmatched(jobs, fnmatch, aggregate, child)
  {
    results', broken', expansionFound := results, broken, false;
    var rest := jobs.Keys;
    while rest != {}
      invariant rest <= jobs.Keys
      invariant forall n :: n in results' <==>
          n in results || (n !in rest && SelectsGood(jobs, fnmatch, aggregate, child, n))
      invariant forall n :: n in broken' <==>
          n in broken || (n !in rest && SelectsBroken(jobs, fnmatch, aggregate, child, n))
      invariant Explained(jobs, aggregate, broken')
      invariant expansionFound <==> exists n :: n !in rest && SelectsGood(jobs, fnmatch, aggregate, child, n)
      decreases rest
    {
      var current :| current in rest;
      rest := rest - {current};
      if current == aggregate {
        continue;
      }
      if fnmatch(child, current) {
        if jobs[current].error.Some? {
          broken' := broken'[current := jobs[current].error.value.Message()];
        } else {
          results' := results' + {current};
          assert SelectsGood(jobs, fnmatch, aggregate, child, current);
          expansionFound := true;
        }
      }
    }
  }

  /** One name of the list of constituents. */
  method ResolveChild(child: string, aggregate: string, jobs: JobMap, fnmatch: (string, string) -> bool,
                      results: set<string>, broken: map<string, string>)
    returns (results': set<string>, broken': map<string, string>)
    requires aggregate in jobs && Explained(jobs, aggregate, broken)
    ensures forall n :: n in results' <==> n in results || SelectsGood(jobs, fnmatch, aggregate, child, n)
    ensures forall n :: n in broken' <==> n in broken || SelectsBroken(jobs, fnmatch, aggregate, child, n)
                                          || (n == child && Unmatched(jobs, fnmatch, aggregate, child))
    ensures Explained(jobs, aggregate, broken')
  {
    results', broken' := results, broken;
    if child !in jobs {
      if !jobs[aggregate].glob {
        broken' := broken'[child := "does not exist"];
      } else {
        var found;
        results', broken', found := InsertMatchingConstituents(child, aggregate, jobs, fnmatch, results, broken);
        if !found {
          broken' := broken'[child := "constituent glob pattern had no matches"];
        }
      }
    } else if jobs[child].error.Some? {
      broken' := broken'[child := jobs[child].error.value.Message()];
    } else {
      results' := results' + {child};
    }
  }

  method ResolveChildren(aggregate: string, jobs: JobMap, fnmatch: (string, string) -> bool) returns (agg: AggregateJob)
    requires aggregate in jobs
    ensures Resolves(jobs, fnmatch, aggregate, jobs[aggregate].named, agg)
  {
    var named := jobs[aggregate].named;
    agg := AggregateJob(aggregate, {}, map[]);
    for k := 0 to |named|
      invariant Resolves(jobs, fnmatch, aggregate, named[..k], agg)
    {
      var results, broken := ResolveChild(named[k], aggregate, jobs, fnmatch, agg.dependencies, agg.brokenJobs);
      OneMoreChild(jobs, fnmatch, aggregate, named[..k], named[k]);
      assert named[..k + 1] == named[..k] + [named[k]];
      agg := AggregateJob(aggregate, results, broken);
    }
    assert named[..|named|] == named;
  }

  lemma OneMoreChild(jobs: JobMap, fnmatch: (string, string) -> bool, aggregate: string, children: seq<string>,
      child: string)
    requires aggregate in jobs
    ensures forall n ::
      Constituent(jobs, fnmatch, aggregate, children + [child], n)
      <==> Constituent(jobs, fnmatch, aggregate, children, n) || SelectsGood(jobs, fnmatch, aggregate, child, n)
    ensures forall n ::
      Breaks(jobs, fnmatch, aggregate, children + [child], n)
      <==> Breaks(jobs, fnmatch, aggregate, children, n) || SelectsBroken(jobs, fnmatch, aggregate, child, n)
           || (n == child && Unmatched(jobs, fnmatch, aggregate, child))
  {
    assert forall c :: c in children + [child] <==> c in children || c == child;
  }

  /** `aggregates` are exactly the jobs with named constituents, each with
      exactly the jobs its names select. */
  ghost predicate ResolvesAll(jobs: JobMap, fnmatch: (string, string) -> bool, aggregates: Aggregates) {
    && (forall n :: n in aggregates <==> n in jobs && jobs[n].named != [])
    && (forall n | n in aggregates :: Resolves(jobs, fnmatch, n, jobs[n].named, aggregates[n]))
  }

  // ---- The same, by the table ------------------------------------------------------

  /** One of the constituents' names is `n`, or is no job and a pattern for `n`, and `n` is
      not the aggregate itself. */
  ghost predicate IsNamed(jobs: JobMap, fnmatch: (string, string) -> bool, aggregate: string, n: string)
    requires aggregate in jobs
  {
    var named := jobs[aggregate].named;
    n in named || (jobs[aggregate].glob && n != aggregate && exists c :: c in named && c !in jobs && fnmatch(c, n))
  }

  ghost predicate IsConstituent(jobs: JobMap, fnmatch: (string, string) -> bool, aggregate: string, n: string)
    requires aggregate in jobs
  {
    n in jobs && jobs[n].error.None? && IsNamed(jobs, fnmatch, aggregate, n)
  }

  /** `n` breaks the aggregate: it is a job in error that is named, or a name that is no
      job, nor a pattern for a healthy job other than the aggregate. */
  ghost predicate IsBroken(jobs: JobMap, fnmatch: (string, string) -> bool, aggregate: string, n: string)
    requires aggregate in jobs
  {
    if n in jobs then jobs[n].error.Some? && IsNamed(jobs, fnmatch, aggregate, n)
    else n in jobs[aggregate].named && (jobs[aggregate].glob ==>
      forall m | m in jobs && m != aggregate && fnmatch(n, m) :: jobs[m].error.Some?)
  }

  predicate ReasonsGiven(jobs: JobMap, aggregate: string, broken: map<string, string>)
    requires aggregate in jobs
  {
    forall n | n in broken ::
      if n !in jobs then
        broken[n] == if jobs[aggregate].glob then "constituent glob pattern had no matches" else "does not exist"
      else
        && jobs[n].error.Some?
        && (jobs[n].error.value.EvaluationFailed? ==> broken[n] == jobs[n].error.value.message)
  }

  ghost predicate AggregateRight(jobs: JobMap, fnmatch: (string, string) -> bool, aggregate: string, agg: AggregateJob)
    requires aggregate in jobs
  {
    && agg.name == aggregate
    && (forall n :: n in agg.dependencies <==> IsConstituent(jobs, fnmatch, aggregate, n))
    && (forall n :: n in agg.brokenJobs <==> IsBroken(jobs, fnmatch, aggregate, n))
    && ReasonsGiven(jobs, aggregate, agg.brokenJobs)
  }

  lemma ConstituentExactly(jobs: JobMap, fnmatch: (string, string) -> bool, aggregate: string, n: string)
    requires aggregate in jobs
    ensures Constituent(jobs, fnmatch, aggregate, jobs[aggregate].named, n)
      <==> IsConstituent(jobs, fnmatch, aggregate, n)
  {
    if IsConstituent(jobs, fnmatch, aggregate, n) && n in jobs[aggregate].named {
      assert SelectsGood(jobs, fnmatch, aggregate, n, n);
    }
  }

  lemma BreaksExactly(jobs: JobMap, fnmatch: (string, string) -> bool, aggregate: string, n: string)
    requires aggregate in jobs
    ensures Breaks(jobs, fnmatch, aggregate, jobs[aggregate].named, n) <==> IsBroken(jobs, fnmatch, aggregate, n)
  {
    var named := jobs[aggregate].named;
    if n in jobs {
      if IsBroken(jobs, fnmatch, aggregate, n) && n in named {
        assert SelectsBroken(jobs, fnmatch, aggregate, n, n);
      }
    } else {
      assert Unmatched(jobs, fnmatch, aggregate, n) <==>
        forall m | m in jobs :: !SelectsGood(jobs, fnmatch, aggregate, n, m);
    }
  }

  /** An aggregate is resolved only if it has exactly the constituents and the broken
      jobs that its names stand for, with the reasons. */
  lemma ResolvesExactly(jobs: JobMap, fnmatch: (string, string) -> bool, aggregate: string, agg: AggregateJob)
    requires aggregate in jobs && Resolves(jobs, fnmatch, aggregate, jobs[aggregate].named, agg)
    ensures AggregateRight(jobs, fnmatch, aggregate, agg)
  {
    hide Constituent, Breaks, IsConstituent, IsBroken;
    forall n
      ensures n in agg.dependencies <==> IsConstituent(jobs, fnmatch, aggregate, n)
      ensures n in agg.brokenJobs <==> IsBroken(jobs, fnmatch, aggregate, n)
    {
      ConstituentExactly(jobs, fnmatch, aggregate, n);
      BreaksExactly(jobs, fnmatch, aggregate, n);
    }
    ReasonsExactly(jobs, fnmatch, aggregate, agg.brokenJobs);
  }

  lemma ReasonsExactly(jobs: JobMap, fnmatch: (string, string) -> bool, aggregate: string, broken: map<string, string>)
    requires aggregate in jobs && Explained(jobs, aggregate, broken)
    requires forall n :: n in broken ==> Breaks(jobs, fnmatch, aggregate, jobs[aggregate].named, n)
    ensures ReasonsGiven(jobs, aggregate, broken)
  {
    forall n | n in broken
      ensures n in jobs ==> jobs[n].error.Some?
    {
      BreaksExactly(jobs, fnmatch, aggregate, n);
    }
  }

  ghost predicate AllRight(jobs: JobMap, fnmatch: (string, string) -> bool, aggregates: Aggregates) {
    && (forall n :: n in aggregates <==> n in jobs && jobs[n].named != [])
    && (forall n | n in aggregates :: AggregateRight(jobs, fnmatch, n, aggregates[n]))
  }

  lemma ResolvesAllExactly(jobs: JobMap, fnmatch: (string, string) -> bool, aggregates: Aggregates)
    requires ResolvesAll(jobs, fnmatch, aggregates)
    ensures AllRight(jobs, fnmatch, aggregates)
  {
    hide AggregateRight, Resolves;
    forall n | n in aggregates
      ensures AggregateRight(jobs, fnmatch, n, aggregates[n])
    {
      ResolvesExactly(jobs, fnmatch, n, aggregates[n]);
    }
  }

  /** Succeeds exactly when no two or more aggregates wait for one another in a
      ring, with every aggregate after all it waits for. */
  method ResolveNamedConstituents(jobs: JobMap, fnmatch: (string, string) -> bool)
    returns (r: SortResult, aggregates: Aggregates)
    ensures ResolvesAll(jobs, fnmatch, aggregates) && AllRight(jobs, fnmatch, aggregates)
    ensures r.Sorted? <==> Acyclic(aggregates)
    ensures r.Sorted? ==> Sorts(aggregates, r.jobs) && Names(r.jobs) == aggregates.Keys
    ensures r.Cyclic? ==> RealCycle(aggregates, r.cycle)
  {
    aggregates := map[];
    var rest := jobs.Keys;
    while rest != {}
      invariant rest <= jobs.Keys
      invariant forall n :: n in aggregates <==> n in jobs && n !in rest && jobs[n].named != []
      invariant forall n | n in aggregates :: Resolves(jobs, fnmatch, n, jobs[n].named, aggregates[n])
      decreases rest
    {
      var name :| name in rest;
      rest := rest - {name};
      if jobs[name].named != [] {
        var agg := ResolveChildren(name, jobs, fnmatch);
        aggregates := aggregates[name := agg];
      }
    }
    ResolvesAllExactly(jobs, fnmatch, aggregates);
    hide ResolvesAll, AllRight;
    r := TopoSort.TopoSort(aggregates);
  }
}
