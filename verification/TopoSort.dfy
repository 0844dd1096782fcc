/** The depth-first topological sort of aggregate jobs (src/constituents.cc). */
module TopoSort {
  import opened Wrappers

  datatype AggregateJob = AggregateJob(name: string, dependencies: set<string>, brokenJobs: map<string, string>)

  /** A set of aggregates, which the program compares by name. */
  type Aggregates = m: map<string, AggregateJob> | forall k | k in m :: m[k].name == k witness map[]

  datatype DependencyCycle = DependencyCycle(a: string, b: string, remaining: set<string>)

  // ---- Dependencies between aggregates ------------------------------------

  /** `from` waits for `to`: both are aggregates, and they are two. */
  predicate Edge(items: Aggregates, from: string, to: string) {
    from in items && to in items && from != to && to in items[from].dependencies
  }

  ghost predicate IsPath(items: Aggregates, p: seq<string>) {
    p != [] && forall i, j | 0 <= i && j == i + 1 < |p| :: Edge(items, p[i], p[j])
  }

  /** A walk of at least one edge that returns to its start; no aggregate has
      an edge to itself, so it visits two or more. */
  ghost predicate IsCycle(items: Aggregates, p: seq<string>) {
    |p| >= 2 && IsPath(items, p) && p[0] == p[|p| - 1]
  }

  ghost predicate Acyclic(items: Aggregates) {
    forall p :: !IsCycle(items, p)
  }

  ghost function Names(jobs: seq<AggregateJob>): set<string> {
    set j | j in jobs :: j.name
  }

  ghost predicate Distinct(jobs: seq<AggregateJob>) {
    forall i, j | 0 <= i < j < |jobs| :: jobs[i].name != jobs[j].name
  }

  /** Every job is preceded by all it waits for. */
  ghost predicate DependenciesFirst(items: Aggregates, jobs: seq<AggregateJob>) {
    forall k, d | 0 <= k < |jobs| && Edge(items, jobs[k].name, d) :: d in Names(jobs[..k])
  }

  ghost predicate Sorts(items: Aggregates, jobs: seq<AggregateJob>) {
    && Distinct(jobs)
    && (forall j | j in jobs :: j.name in items && items[j.name] == j)
    && DependenciesFirst(items, jobs)
  }

  /** The reported pair closes a real cycle: `a` leads to `b`, which waits for
      `a`; and the pair and the rest are all the aggregates. */
  ghost predicate RealCycle(items: Aggregates, c: DependencyCycle) {
    && (exists p :: IsPath(items, p) && p[0] == c.a && p[|p| - 1] == c.b)
    && Edge(items, c.b, c.a)
    && c.remaining == items.Keys - {c.a, c.b}
  }

  // ---- The sort --------------------------------------------------------

  class Sorter {
    var sorted: seq<AggregateJob>
    var visited: set<string>
    var parents: set<string>
    var dict: Aggregates

    /** `stack` is the chain of visits in progress. */
    ghost predicate Valid(items: Aggregates, stack: seq<string>)
      reads this
    {
      && dict == items
      && parents == (set n | n in stack)
      && parents <= visited <= items.Keys
      && Names(sorted) == visited - parents
      && Sorts(items, sorted)
    }

    constructor (items: Aggregates)
      ensures Valid(items, []) && sorted == [] && visited == {}
    {
      sorted, visited, parents, dict := [], {}, {}, items;
    }

    method Enter(path: string, ghost items: Aggregates, ghost stack: seq<string>)
      requires Valid(items, stack) && path in items && path !in visited
      modifies this
      ensures Valid(items, stack + [path])
      ensures visited == old(visited) + {path} && sorted == old(sorted)
      ensures |items.Keys - visited| < |old(items.Keys - visited)|
    {
      assert items.Keys - (visited + {path}) == items.Keys - visited - {path};
      visited := visited + {path};
      parents := parents + {path};
    }

    method Leave(path: string, ghost items: Aggregates, ghost stack: seq<string>)
      requires Valid(items, stack + [path]) && path in items && path !in stack
      requires forall d | Edge(items, path, d) :: d in Names(sorted)
      modifies this
      ensures Valid(items, stack) && visited == old(visited)
      ensures sorted == old(sorted) + [items[path]] && path in Names(sorted)
    {
      assert path in stack + [path];
      AppendSorted(items, sorted, items[path]);
      sorted := sorted + [dict[path]];
      parents := parents - {path};
    }

    method ReportCycle(path: string, parent: Option<string>, ghost items: Aggregates, ghost stack: seq<string>)
      returns (cycle: DependencyCycle)
      requires Valid(items, stack) && path in parents
      requires IsPath(items, stack + [path])
      requires parent == if stack == [] then None else Some(stack[|stack| - 1])
      modifies this
      ensures RealCycle(items, cycle)
    {
      ghost var k :| 0 <= k < |stack| && stack[k] == path;
      CycleFound(items, stack, path, k);
      dict := dict - {path};
      dict := dict - {parent.value};
      assert dict.Keys == items.Keys - {path, parent.value};
      cycle := DependencyCycle(path, parent.value, dict.Keys);
    }

    method DfsVisit(path: string, parent: Option<string>, ghost items: Aggregates, ghost stack: seq<string>)
      returns (cycle: Option<DependencyCycle>)
      requires Valid(items, stack) && path in items
      requires IsPath(items, stack + [path])
      requires parent == if stack == [] then None else Some(stack[|stack| - 1])
      modifies this
      ensures cycle.None? ==> Valid(items, stack) && path in Names(sorted)
      ensures cycle.None? ==> old(visited) <= visited && old(sorted) <= sorted
      ensures cycle.Some? ==> RealCycle(items, cycle.value)
      decreases |items.Keys - visited|, 0
    {
      if path in parents {
        var c := ReportCycle(path, parent, items, stack);
        return Some(c);
      }
      if path in visited {
        return None;
      }
      Enter(path, items, stack);
      cycle := VisitReferences(path, items, stack + [path]);
      if cycle.None? {
        Leave(path, items, stack);
      }
    }

    /** The loop of `DfsVisit` over what `path` waits for. */
    method VisitReferences(path: string, ghost items: Aggregates, ghost chain: seq<string>)
      returns (cycle: Option<DependencyCycle>)
      requires Valid(items, chain) && IsPath(items, chain) && chain[|chain| - 1] == path && path in items
      modifies this
      ensures cycle.None? ==> Valid(items, chain) && old(visited) <= visited && old(sorted) <= sorted
      ensures cycle.None? ==> forall d | Edge(items, path, d) :: d in Names(sorted)
      ensures cycle.Some? ==> RealCycle(items, cycle.value)
      decreases |items.Keys - visited|, 1
    {
      var references := dict[path].dependencies;
      while references != {}
        invariant references <= items[path].dependencies
        invariant Valid(items, chain) && old(visited) <= visited && old(sorted) <= sorted
        invariant forall d | Edge(items, path, d) :: d in references || d in Names(sorted)
        decreases references
      {
        var ref :| ref in references;
        references := references - {ref};
        if ref != path && ref in dict {
          PathExtends(items, chain, ref);
          CardinalityMonotone(items.Keys - visited, items.Keys - old(visited));
          cycle := DfsVisit(ref, Some(path), items, chain);
          if cycle.Some? {
            return;
          }
        }
      }
      cycle := None;
    }
  }

  lemma CardinalityMonotone<T>(a: set<T>, b: set<T>)
    requires a <= b
    ensures |a| <= |b|
  {
    if a != b {
      assert b == a + (b - a);
    }
  }

  lemma PathExtends(items: Aggregates, p: seq<string>, n: string)
    requires IsPath(items, p) && Edge(items, p[|p| - 1], n)
    ensures IsPath(items, p + [n])
  {}

  lemma CycleFound(items: Aggregates, stack: seq<string>, path: string, k: nat)
    requires IsPath(items, stack + [path]) && k < |stack| && stack[k] == path
    ensures RealCycle(items, DependencyCycle(path, stack[|stack| - 1], items.Keys - {path, stack[|stack| - 1]}))
  {
    var whole := stack + [path];
    forall i, j | 0 <= i && j == i + 1 < |stack[k..]|
      ensures Edge(items, stack[k..][i], stack[k..][j])
    {
      assert Edge(items, whole[k + i], whole[k + j]);
    }
    assert IsPath(items, stack[k..]);
    assert Edge(items, whole[|stack| - 1], whole[|stack|]);
  }

  lemma NamesAppend(jobs: seq<AggregateJob>, job: AggregateJob)
    ensures Names(jobs + [job]) == Names(jobs) + {job.name}
  {
    assert forall j :: j in jobs + [job] <==> j in jobs || j == job;
  }

  lemma AppendSorted(items: Aggregates, jobs: seq<AggregateJob>, job: AggregateJob)
    requires Sorts(items, jobs) && job.name !in Names(jobs)
    requires job.name in items && items[job.name] == job
    requires forall d | Edge(items, job.name, d) :: d in Names(jobs)
    ensures Sorts(items, jobs + [job]) && Names(jobs + [job]) == Names(jobs) + {job.name}
  {
    NamesAppend(jobs, job);
    var all := jobs + [job];
    forall k, d | 0 <= k < |all| && Edge(items, all[k].name, d)
      ensures d in Names(all[..k])
    {
      assert all[..k] == jobs[..k];
    }
    forall i, j | 0 <= i < j < |all|
      ensures all[i].name != all[j].name
    {
      assert all[i] in jobs;
    }
  }

  datatype SortResult = Sorted(jobs: seq<AggregateJob>) | Cyclic(cycle: DependencyCycle)

  /** The sort succeeds exactly when no two or more aggregates wait for one
      another in a ring, and then lists every aggregate once, each after all
      it waits for.  Otherwise the pair it reports lies on a real ring. */
  method TopoSort(items: Aggregates) returns (r: SortResult)
    ensures r.Sorted? <==> Acyclic(items)
    ensures r.Sorted? ==> Sorts(items, r.jobs) && Names(r.jobs) == items.Keys
    ensures r.Cyclic? ==> RealCycle(items, r.cycle)
  {
    var s := new Sorter(items);
    var keys := items.Keys;
    while keys != {}
      invariant keys <= items.Keys && s.Valid(items, []) && items.Keys - keys <= s.visited
      decreases keys
    {
      var key :| key in keys;
      keys := keys - {key};
      var cycle := s.DfsVisit(key, None, items, []);
      if cycle.Some? {
        CycleRefutes(items, cycle.value);
        return Cyclic(cycle.value);
      }
    }
    assert s.parents == {};
    SortedRefutesCycles(items, s.sorted);
    r := Sorted(s.sorted);
  }

  lemma CycleRefutes(items: Aggregates, c: DependencyCycle)
    requires RealCycle(items, c)
    ensures !Acyclic(items)
  {
    var p :| IsPath(items, p) && p[0] == c.a && p[|p| - 1] == c.b;
    PathExtends(items, p, c.a);
    assert IsCycle(items, p + [c.a]);
  }

  /** Along a path, positions in the sorted list only go down. */
  lemma {:induction false} PathDescends(items: Aggregates, jobs: seq<AggregateJob>, p: seq<string>, k: nat)
      returns (m: nat)
    requires DependenciesFirst(items, jobs) && IsPath(items, p)
    requires k < |jobs| && jobs[k].name == p[0]
    ensures m <= k && jobs[m].name == p[|p| - 1]
    ensures |p| >= 2 ==> m < k
    decreases |p|
  {
    if |p| == 1 {
      m := k;
    } else {
      assert Edge(items, p[0], p[1]);
      assert p[1] in Names(jobs[..k]);
      var next :| 0 <= next < k && jobs[next].name == p[1];
      m := PathDescends(items, jobs, p[1..], next);
    }
  }

  lemma SortedRefutesCycles(items: Aggregates, jobs: seq<AggregateJob>)
    requires Sorts(items, jobs) && Names(jobs) == items.Keys
    ensures Acyclic(items)
  {
    forall p ensures !IsCycle(items, p) {
      if IsCycle(items, p) {
        assert Edge(items, p[0], p[1]);
        var k :| 0 <= k < |jobs| && jobs[k].name == p[0];
        var m := PathDescends(items, jobs, p, k);
        assert false;
      }
    }
  }
}
