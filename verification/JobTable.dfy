/** The table of finished jobs: printing them, and rewriting aggregates once all
    are known (`emitResponse` and `handleConstituents` of src/nix-eval-jobs.cc,
    `rewriteAggregates` of src/constituents.cc). */
module JobTable {
  import opened Wrappers
  import opened TopoSort
  import opened Constituents

  /** A line of output: the entry of a job as it was when printed. */
  datatype Line = Line(name: string, entry: Entry)

  /** Nothing is printed twice. */
  ghost predicate NoRepeats(lines: seq<Line>) {
    forall i, j | 0 <= i < j < |lines| :: lines[i].name != lines[j].name
  }

  ghost function Printed(lines: seq<Line>): set<string> {
    set l | l in lines :: l.name
  }

  /** Every line printed shows the entry the table holds. */
  ghost predicate UpToDate(lines: seq<Line>, jobs: JobMap) {
    forall l | l in lines :: l.name in jobs && l.entry == jobs[l.name]
  }

  /** `lines` is one line for each of `names`, as the table has it. */
  ghost predicate Accounted(lines: seq<Line>, jobs: JobMap, names: set<string>) {
    NoRepeats(lines) && UpToDate(lines, jobs) && Printed(lines) == names
  }

  ghost predicate IsEnumeration(order: seq<string>, s: set<string>) {
    && (forall n :: n in order <==> n in s)
    && (forall i, j | 0 <= i < j < |order| :: order[i] != order[j])
  }

  /** The path each constituent has while `aggregate` is being rewritten: its own
      is the one from before, any other constituent's is its final one. */
  ghost function PathsSeen(before: JobMap, after: JobMap, aggregate: string, order: seq<string>): seq<string>
    requires aggregate in before && before[aggregate].drvPath.Some?
    requires forall n | n in order :: n in after && after[n].drvPath.Some?
  {
    seq(|order|, i requires 0 <= i < |order| =>
      if order[i] == aggregate then before[aggregate].drvPath.value else after[order[i]].drvPath.value)
  }

  ghost predicate Resolvable(jobs: JobMap, agg: AggregateJob) {
    && agg.name in jobs && jobs[agg.name].drvPath.Some?
    && (forall n | n in agg.dependencies :: n in jobs && jobs[n].drvPath.Some?)
  }

  class Table {
    const fnmatch: (string, string) -> bool
    /** The order in which std::set hands out its members. */
    const enumerate: set<string> -> seq<string>
    /** Where a derivation is stored after constituents became inputs, each with one
        of its outputs. */
    const rewrite: (string, map<string, string>) -> string
    /** The first output of a stored derivation, and the paths of all. */
    const firstOutput: string -> string
    const outputsOf: string -> map<string, string>
    var jobs: JobMap
    var printed: seq<Line>

    ghost predicate Valid() {
      forall s :: IsEnumeration(enumerate(s), s)
    }

    constructor (fnmatch: (string, string) -> bool, enumerate: set<string> -> seq<string>,
                 rewrite: (string, map<string, string>) -> string,
                 firstOutput: string -> string, outputsOf: string -> map<string, string>)
      ensures this.fnmatch == fnmatch && this.enumerate == enumerate && this.rewrite == rewrite
      ensures this.firstOutput == firstOutput && this.outputsOf == outputsOf
      ensures jobs == map[] && printed == [] && OnlyAggregatesOwed()
    {
      this.fnmatch, this.enumerate, this.rewrite := fnmatch, enumerate, rewrite;
      this.firstOutput, this.outputsOf := firstOutput, outputsOf;
      jobs, printed := map[], [];
    }

    /** Exactly the jobs without named constituents were printed, once each. */
    ghost predicate OnlyAggregatesOwed()
      reads this
    {
      && NoRepeats(printed) && UpToDate(printed, jobs)
      && (forall n :: n in Printed(printed) <==> n in jobs && jobs[n].named == [])
    }

    ghost predicate AllPrinted()
      reads this
    {
      Accounted(printed, jobs, jobs.Keys)
    }

    /** `emitResponse`.  Under a name not used before it keeps the account of
        what is printed. */
    method Emit(name: string, entry: Entry)
      modifies this
      ensures jobs == old(jobs)[name := entry]
      ensures printed == if entry.named == [] then old(printed) + [Line(name, entry)] else old(printed)
      ensures old(OnlyAggregatesOwed()) && name !in old(jobs) ==> OnlyAggregatesOwed()
    {
      ghost var before := printed;
      jobs := jobs[name := entry];
      if entry.named == [] {
        printed := printed + [Line(name, entry)];
        PrintedAppend(before, Line(name, entry));
      }
    }

    /** The inputs that constituents become, by path. */
    ghost function InputsOf(paths: seq<string>): map<string, string> {
      map p | p in paths :: firstOutput(p)
    }

    lemma InputsOneMore(paths: seq<string>, path: string)
      ensures InputsOf(paths + [path]) == InputsOf(paths)[path := firstOutput(path)]
    {
      assert forall p :: p in paths + [path] <==> p in paths || p == path;
    }

    /** The state of an aggregate that was dealt with, between the table
        `before` the rewriting and the table `after`. */
    ghost predicate Rewritten(before: JobMap, after: JobMap, agg: AggregateJob)
      requires Valid() && Resolvable(before, agg) && Resolvable(after, agg)
    {
      var was := before[agg.name];
      if agg.brokenJobs == map[] then
        var paths := PathsSeen(before, after, agg.name, enumerate(agg.dependencies));
        var path := rewrite(was.drvPath.value, InputsOf(paths));
        after[agg.name] == was.(
          drvPath := Some(path),
          outputs := if path == was.drvPath.value then was.outputs else was.outputs + outputsOf(path),
          constituents := was.constituents + paths,
          named := [])
      else
        after[agg.name] == was.(named := [], error := Some(ConstituentsBroken(agg.brokenJobs)))
    }

    method AddConstituents(name: string, dependencies: set<string>)
        returns (ghost paths: seq<string>, inputs: map<string, string>)
      requires Valid() && name in jobs && jobs[name].drvPath.Some?
      requires forall n | n in dependencies :: n in jobs && jobs[n].drvPath.Some?
      modifies this
      ensures paths == PathsSeen(old(jobs), old(jobs), name, enumerate(dependencies)) && inputs == InputsOf(paths)
      ensures jobs == old(jobs)[name := old(jobs[name]).(constituents := old(jobs[name]).constituents + paths)]
      ensures printed == old(printed)
    {
      paths, inputs := [], map[];
      assert inputs == InputsOf(paths);
      hide InputsOf;
      var order := enumerate(dependencies);
      assert IsEnumeration(order, dependencies);
      for k := 0 to |order|
        invariant |paths| == k && inputs == InputsOf(paths)
        invariant forall i | 0 <= i < k :: paths[i] == old(jobs)[order[i]].drvPath.value
        invariant jobs.Keys == old(jobs).Keys
        invariant forall n | n in jobs && n != name :: jobs[n] == old(jobs)[n]
        invariant jobs[name] == old(jobs[name]).(constituents := old(jobs[name]).constituents + paths)
        invariant printed == old(printed)
      {
        var child := order[k];
        assert child in order;
        var childDrvPath := jobs[child].drvPath.value;
        jobs := jobs[name := jobs[name].(constituents := jobs[name].constituents + [childDrvPath])];
        InputsOneMore(paths, childDrvPath);
        inputs := inputs[childDrvPath := firstOutput(childDrvPath)];
        paths := paths + [childDrvPath];
      }
    }

    /** Stores the derivation with its new inputs; nothing changes if that leaves it
        where it is. */
    method RewriteDrv(name: string, drvPath: string, inputs: map<string, string>)
      requires name in jobs && jobs[name].drvPath == Some(drvPath)
      modifies `jobs
      ensures var path := rewrite(drvPath, inputs);
              var was := old(jobs[name]);
              jobs == old(jobs)[name := was.(drvPath := Some(path),
                outputs := if path == drvPath then was.outputs else was.outputs + outputsOf(path))]
    {
      var newDrvPath := rewrite(drvPath, inputs);
      if newDrvPath == drvPath {
        assert jobs == jobs[name := jobs[name].(drvPath := Some(drvPath))];
        return;
      }
      jobs := jobs[name := jobs[name].(drvPath := Some(newDrvPath))];
      jobs := jobs[name := jobs[name].(outputs := jobs[name].outputs + outputsOf(newDrvPath))];
    }

    method RewriteOne(agg: AggregateJob)
      requires Valid() && Resolvable(jobs, agg)
      modifies this
      ensures jobs.Keys == old(jobs).Keys
      ensures forall n | n in jobs && n != agg.name :: jobs[n] == old(jobs)[n]
      ensures Resolvable(jobs, agg) && Rewritten(old(jobs), jobs, agg)
      ensures printed == old(printed) + [Line(agg.name, jobs[agg.name])]
    {
      var drvPath := jobs[agg.name].drvPath.value;
      ghost var seen := [];
      if agg.brokenJobs == map[] {
        var paths, inputs := AddConstituents(agg.name, agg.dependencies);
        RewriteDrv(agg.name, drvPath, inputs);
        assert IsEnumeration(enumerate(agg.dependencies), agg.dependencies);
        seen := paths;
      }
      jobs := jobs[agg.name := jobs[agg.name].(named := [])];
      if agg.brokenJobs != map[] {
        jobs := jobs[agg.name := jobs[agg.name].(error := Some(ConstituentsBroken(agg.brokenJobs)))];
      }
      printed := printed + [Line(agg.name, jobs[agg.name])];
      assert agg.brokenJobs == map[] ==> PathsSeen(old(jobs), jobs, agg.name, enumerate(agg.dependencies)) == seen;
    }

    /** Changing a job that `agg` does not use leaves `agg` as it should be. */
    lemma RewrittenStable(before: JobMap, after: JobMap, later: JobMap, agg: AggregateJob, changed: string)
      requires Valid() && Resolvable(before, agg) && Resolvable(after, agg) && Resolvable(later, agg)
      requires Rewritten(before, after, agg)
      requires changed != agg.name && changed !in agg.dependencies
      requires forall n | n in after && n != changed :: n in later && later[n] == after[n]
      ensures Rewritten(before, later, agg)
    {
      var order := enumerate(agg.dependencies);
      assert IsEnumeration(order, agg.dependencies);
      assert PathsSeen(before, later, agg.name, order) == PathsSeen(before, after, agg.name, order);
    }

    /** What the rewriting has achieved when the first `k` aggregates are done. */
    ghost predicate RewrittenUpTo(start: JobMap, now: JobMap, items: Aggregates, aggs: seq<AggregateJob>, k: nat)
      requires Valid() && k <= |aggs|
    {
      && now.Keys == start.Keys
      && (forall n | n in items :: Resolvable(start, items[n]) && Resolvable(now, items[n]))
      && (forall n | n in now && n !in Names(aggs[..k]) :: now[n] == start[n])
      && (forall m | 0 <= m < k ::
          aggs[m].name in items && items[aggs[m].name] == aggs[m] && Rewritten(start, now, aggs[m]))
    }

    lemma RewrittenOneMore(start: JobMap, mid: JobMap, now: JobMap, items: Aggregates, aggs: seq<AggregateJob>, k: nat)
      requires Valid() && Sorts(items, aggs) && k < |aggs| && RewrittenUpTo(start, mid, items, aggs, k)
      requires now.Keys == mid.Keys && forall n | n in now && n != aggs[k].name :: now[n] == mid[n]
      requires Resolvable(mid, aggs[k]) && Resolvable(now, aggs[k]) && Rewritten(mid, now, aggs[k])
      ensures RewrittenUpTo(start, now, items, aggs, k + 1) && aggs[k].name !in Names(aggs[..k])
    {
      var agg := aggs[k];
      assert agg.name in mid;
      hide Rewritten, Sorts, PathsSeen, Resolvable;
      NotYetRewritten(start, mid, items, aggs, k);
      StillResolvable(start, mid, now, items, aggs, k);
      assert Names(aggs[..k + 1]) == Names(aggs[..k]) + {agg.name} by {
        assert aggs[..k + 1] == aggs[..k] + [agg];
        NamesAppend(aggs[..k], agg);
      }
      RewrittenFromStart(start, mid, now, agg);
      forall m | 0 <= m < k
        ensures Rewritten(start, now, aggs[m])
      {
        EarlierStable(start, mid, now, items, aggs, m, k);
      }
    }

    lemma StillResolvable(start: JobMap, mid: JobMap, now: JobMap, items: Aggregates, aggs: seq<AggregateJob>, k: nat)
      requires Valid() && k < |aggs| && RewrittenUpTo(start, mid, items, aggs, k)
      requires now.Keys == mid.Keys && forall n | n in now && n != aggs[k].name :: now[n] == mid[n]
      requires Resolvable(now, aggs[k])
      ensures forall n | n in items :: Resolvable(start, items[n]) && Resolvable(now, items[n])
    {
      assert forall n | n in items :: Resolvable(mid, items[n]);
    }

    lemma EarlierStable(start: JobMap, mid: JobMap, now: JobMap, items: Aggregates, aggs: seq<AggregateJob>, m: nat,
        k: nat)
      requires Valid() && Sorts(items, aggs) && m < k < |aggs|
      requires Resolvable(start, aggs[m]) && Resolvable(mid, aggs[m]) && Resolvable(now, aggs[m])
      requires Rewritten(start, mid, aggs[m])
      requires forall n | n in mid && n != aggs[k].name :: n in now && now[n] == mid[n]
      ensures Rewritten(start, now, aggs[m])
    {
      LaterNotUsed(items, aggs, m, k);
      RewrittenStable(start, mid, now, aggs[m], aggs[k].name);
    }

    /** An aggregate still to come is as it was at the start. */
    lemma NotYetRewritten(start: JobMap, mid: JobMap, items: Aggregates, aggs: seq<AggregateJob>, k: nat)
      requires Valid() && Sorts(items, aggs) && k < |aggs| && RewrittenUpTo(start, mid, items, aggs, k)
      ensures aggs[k].name !in Names(aggs[..k])
      ensures aggs[k].name in items && items[aggs[k].name] == aggs[k]
    {
      assert aggs[k] in aggs;
    }

    lemma RewritingStarts(start: JobMap, items: Aggregates, aggs: seq<AggregateJob>)
      requires Valid() && forall n | n in items :: Resolvable(start, items[n])
      ensures RewrittenUpTo(start, start, items, aggs, 0) && Accounted([], start, Names(aggs[..0]))
    {
      assert aggs[..0] == [];
    }

    /** Rewrites the aggregates in the order the sort gave: every constituent
        path written down is the path its job ends up with, because jobs that
        are rewritten themselves come first. */
    method RewriteAggregates(aggs: seq<AggregateJob>, ghost items: Aggregates)
      requires Valid() && Sorts(items, aggs) && Names(aggs) == items.Keys
      requires forall n | n in items :: Resolvable(jobs, items[n])
      modifies this
      ensures jobs.Keys == old(jobs).Keys
      ensures forall n | n in jobs && n !in items :: jobs[n] == old(jobs)[n]
      ensures forall n | n in items ::
        Resolvable(old(jobs), items[n]) && Resolvable(jobs, items[n]) && Rewritten(old(jobs), jobs, items[n])
      ensures forall n | n in items ::
        n in jobs && n in old(jobs) && jobs[n].named == [] && jobs[n].error ==
          if items[n].brokenJobs == map[] then old(jobs)[n].error else Some(ConstituentsBroken(items[n].brokenJobs))
      ensures PrintedSince(old(printed), items.Keys)
    {
      hide Sorts, Resolvable, Rewritten, RewrittenUpTo, Accounted;
      ghost var lines: seq<Line> := [];
      ghost var start := jobs;
      RewritingStarts(start, items, aggs);
      for k := 0 to |aggs|
        invariant RewrittenUpTo(start, jobs, items, aggs, k)
        invariant printed == old(printed) + lines && Accounted(lines, jobs, Names(aggs[..k]))
      {
        lines := RewriteStep(aggs, k, start, items, lines);
      }
      assert aggs[..|aggs|] == aggs;
      assert printed[|old(printed)|..] == lines;
      AllRewritten(start, jobs, items, aggs);
      forall n | n in items
        ensures n in jobs && n in start && jobs[n].named == [] && jobs[n].error ==
          if items[n].brokenJobs == map[] then start[n].error else Some(ConstituentsBroken(items[n].brokenJobs))
      {
        MemberResolvable(start, jobs, items[n]);
        ErrorIfBroken(start, jobs, items[n]);
      }
    }

    lemma MemberResolvable(before: JobMap, after: JobMap, agg: AggregateJob)
      requires Resolvable(before, agg) && Resolvable(after, agg)
      ensures agg.name in before && agg.name in after
    {}

    lemma ErrorIfBroken(before: JobMap, after: JobMap, agg: AggregateJob)
      requires Valid() && Resolvable(before, agg) && Resolvable(after, agg) && Rewritten(before, after, agg)
      ensures after[agg.name].named == [] && after[agg.name].error ==
        if agg.brokenJobs == map[] then before[agg.name].error else Some(ConstituentsBroken(agg.brokenJobs))
    {}

    lemma NextResolvable(aggs: seq<AggregateJob>, k: nat, start: JobMap, items: Aggregates)
      requires Valid() && Sorts(items, aggs) && k < |aggs| && RewrittenUpTo(start, jobs, items, aggs, k)
      ensures Resolvable(jobs, aggs[k])
    {
      assert aggs[k] in aggs;
    }

    lemma LinesOneMore(lines: seq<Line>, mid: JobMap, now: JobMap, aggs: seq<AggregateJob>, k: nat)
      requires k < |aggs| && Accounted(lines, mid, Names(aggs[..k])) && aggs[k].name !in Names(aggs[..k])
      requires aggs[k].name in now && forall n | n in mid && n != aggs[k].name :: n in now && now[n] == mid[n]
      ensures Accounted(lines + [Line(aggs[k].name, now[aggs[k].name])], now, Names(aggs[..k + 1]))
    {
      LineAdded(lines, mid, now, aggs[k].name);
      assert aggs[..k + 1] == aggs[..k] + [aggs[k]];
      NamesAppend(aggs[..k], aggs[k]);
    }

    /** One round of the loop above. */
    method RewriteStep(aggs: seq<AggregateJob>, k: nat, ghost start: JobMap, ghost items: Aggregates,
        ghost lines: seq<Line>)
      returns (ghost lines': seq<Line>)
      requires Valid() && Sorts(items, aggs) && k < |aggs| && RewrittenUpTo(start, jobs, items, aggs, k)
      requires Accounted(lines, jobs, Names(aggs[..k]))
      modifies this
      ensures RewrittenUpTo(start, jobs, items, aggs, k + 1)
      ensures lines' == lines + [Line(aggs[k].name, jobs[aggs[k].name])] && printed == old(printed) + lines'[|lines|..]
      ensures Accounted(lines', jobs, Names(aggs[..k + 1]))
    {
      var agg := aggs[k];
      NextResolvable(aggs, k, start, items);
      ghost var mid := jobs;
      hide Rewritten, PathsSeen, RewrittenUpTo, Sorts, Names;
      RewriteOne(agg);
      RewrittenOneMore(start, mid, jobs, items, aggs, k);
      LinesOneMore(lines, mid, jobs, aggs, k);
      lines' := lines + [Line(agg.name, jobs[agg.name])];
    }

    lemma AllRewritten(start: JobMap, now: JobMap, items: Aggregates, aggs: seq<AggregateJob>)
      requires Valid() && Names(aggs) == items.Keys && RewrittenUpTo(start, now, items, aggs, |aggs|)
      ensures now.Keys == start.Keys
      ensures forall n | n in now && n !in items :: now[n] == start[n]
      ensures forall n | n in items ::
        Resolvable(start, items[n]) && Resolvable(now, items[n]) && Rewritten(start, now, items[n])
    {
      assert aggs[..|aggs|] == aggs;
      forall n | n in items
        ensures Rewritten(start, now, items[n])
      {
        assert n in Names(aggs);
        var m :| 0 <= m < |aggs| && aggs[m].name == n;
      }
    }

    /** What was printed after `before` is a line for each of `names`. */
    ghost predicate PrintedSince(before: seq<Line>, names: set<string>)
      reads this
    {
      before <= printed && Accounted(printed[|before|..], jobs, names)
    }

    lemma RewrittenFromStart(start: JobMap, mid: JobMap, after: JobMap, agg: AggregateJob)
      requires Valid() && Resolvable(start, agg) && Resolvable(mid, agg) && Resolvable(after, agg)
      requires start[agg.name] == mid[agg.name] && Rewritten(mid, after, agg)
      ensures Rewritten(start, after, agg)
    {
      var order := enumerate(agg.dependencies);
      assert IsEnumeration(order, agg.dependencies);
      assert PathsSeen(start, after, agg.name, order) == PathsSeen(mid, after, agg.name, order);
    }

    lemma LaterNotUsed(items: Aggregates, aggs: seq<AggregateJob>, m: nat, k: nat)
      requires Sorts(items, aggs) && m < k < |aggs|
      ensures aggs[k].name != aggs[m].name && aggs[k].name !in aggs[m].dependencies
    {
      assert aggs[k] in aggs && aggs[m] in aggs;
      assert aggs[k].name !in Names(aggs[..m]);
      assert !Edge(items, aggs[m].name, aggs[k].name);
    }

    /** The constituent paths recorded for a rewritten aggregate are the final
        paths of the jobs they name, with one exception: an aggregate that
        lists itself records its path from before its own rewriting, which is
        wrong unless storing it with its constituents leaves it where it is. */
    lemma RecordedPathsFinal(before: JobMap, after: JobMap, agg: AggregateJob)
      requires Valid() && Resolvable(before, agg) && Resolvable(after, agg)
      requires agg.brokenJobs == map[] && Rewritten(before, after, agg)
      ensures var order := enumerate(agg.dependencies);
              var recorded := after[agg.name].constituents[|before[agg.name].constituents|..];
              && IsEnumeration(order, agg.dependencies) && |recorded| == |order|
              && var was := before[agg.name].drvPath.value;
                 (forall k | 0 <= k < |order| :: Some(recorded[k]) == after[order[k]].drvPath)
                 <==> (agg.name !in agg.dependencies ||
                       rewrite(was, InputsOf(PathsSeen(before, after, agg.name, order))) == was)
    {
      var order := enumerate(agg.dependencies);
      assert IsEnumeration(order, agg.dependencies);
      var paths := PathsSeen(before, after, agg.name, order);
      var recorded := after[agg.name].constituents[|before[agg.name].constituents|..];
      assert recorded == paths;
      if agg.name in agg.dependencies {
        var k :| 0 <= k < |order| && order[k] == agg.name;
        assert Some(recorded[k]) == before[agg.name].drvPath;
      }
    }

    /** What becomes of the aggregates: without a cycle each is rewritten from the
        paths its constituents end up with, or marked broken; with one, the two
        of a real cycle get its error and the rest are skipped. */
    ghost predicate Settled(before: JobMap, after: JobMap, items: Aggregates)
      requires Valid()
    {
      if Acyclic(items) then
        forall n | n in items ::
          Resolvable(before, items[n]) && Resolvable(after, items[n]) && Rewritten(before, after, items[n])
      else
        exists c :: RealCycle(items, c) && Marked(before, after, items, c)
    }

    // ---- What becomes of an aggregate, by the table before ----------------------------

    /** The aggregate `n` is stored with its constituents as inputs, each with its first
        output, and has their paths listed, in the order `order`: the final ones, its
        own excepted.  Its outputs are those of the new path, if it moved. */
    ghost predicate StoredAnew(before: JobMap, after: JobMap, n: string, order: seq<string>)
      requires n in before && n in after && before[n].drvPath.Some?
    {
      var was, now := before[n], after[n];
      && (forall m :: m in order <==> IsConstituent(before, fnmatch, n, m))
      && (forall i, j | 0 <= i < j < |order| :: order[i] != order[j])
      && was.constituents <= now.constituents && |now.constituents| == |was.constituents| + |order|
      && var paths := now.constituents[|was.constituents|..];
         && (forall k | 0 <= k < |order| && order[k] == n :: Some(paths[k]) == was.drvPath)
         && (forall k | 0 <= k < |order| && order[k] != n ::
               order[k] in after && Some(paths[k]) == after[order[k]].drvPath)
         && var path := rewrite(was.drvPath.value, map p | p in paths :: firstOutput(p));
            && now.drvPath == Some(path)
            && now.outputs == if path == was.drvPath.value then was.outputs else was.outputs + outputsOf(path)
    }

    /** A broken aggregate keeps what it had and gets an error that lists exactly what breaks
        it; one that is not broken gets no error. */
    ghost predicate AggregateDone(before: JobMap, after: JobMap, n: string) {
      && n in before && n in after && before[n].drvPath.Some?
      && var was, now := before[n], after[n];
         && now.named == [] && now.glob == was.glob
         && if exists m :: IsBroken(before, fnmatch, n, m) then
              && now == was.(named := [], error := now.error)
              && now.error.Some? && now.error.value.ConstituentsBroken?
              && (forall m :: m in now.error.value.jobs <==> IsBroken(before, fnmatch, n, m))
              && ReasonsGiven(before, n, now.error.value.jobs)
            else
              now.error.None? && exists order :: StoredAnew(before, after, n, order)
    }

    /** The pair that closes the cycle and the other aggregates have their errors. */
    predicate CycleTold(before: JobMap, after: JobMap, n: string, a: string, b: string) {
      && n in before && n in after && after[n] == before[n].(error := after[n].error)
      && after[n].error.Some? && after[n].error.value.Message() ==
           if n == a || n == b then "Dependency cycle: " + a + " <-> " + b
           else "Skipping aggregate because of a dependency cycle"
    }

    predicate AllTold(before: JobMap, after: JobMap, c: DependencyCycle) {
      forall n | n in before && before[n].named != [] :: CycleTold(before, after, n, c.a, c.b)
    }

    ghost predicate AggregatesDone(before: JobMap, after: JobMap, items: Aggregates) {
      if Acyclic(items) then forall n | n in before && before[n].named != [] :: AggregateDone(before, after, n)
      else exists c :: RealCycle(items, c) && AllTold(before, after, c)
    }

    lemma RewrittenIsDone(before: JobMap, after: JobMap, agg: AggregateJob)
      requires Valid() && Evaluated(before) && Resolvable(before, agg) && Resolvable(after, agg)
      requires Rewritten(before, after, agg) && AggregateRight(before, fnmatch, agg.name, agg)
      requires before[agg.name].named != []
      ensures AggregateDone(before, after, agg.name)
    {
      hide IsConstituent, IsBroken;
      if agg.brokenJobs == map[] {
        var order := enumerate(agg.dependencies);
        assert IsEnumeration(order, agg.dependencies);
        assert after[agg.name].constituents[|before[agg.name].constituents|..] ==
          PathsSeen(before, after, agg.name, order);
        assert StoredAnew(before, after, agg.name, order);
        assert forall m :: m !in agg.brokenJobs;
      } else {
        var m :| m in agg.brokenJobs;
      }
    }

    lemma MarkedIsTold(before: JobMap, after: JobMap, items: Aggregates, cycle: DependencyCycle)
      requires Marked(before, after, items, cycle)
      ensures forall n | n in items :: CycleTold(before, after, n, cycle.a, cycle.b)
    {}

    lemma SettledIsDone(before: JobMap, after: JobMap, items: Aggregates)
      requires Valid() && Evaluated(before) && Settled(before, after, items) && ResolvesAll(before, fnmatch, items)
      ensures AllRight(before, fnmatch, items) && AggregatesDone(before, after, items)
    {
      hide Rewritten, AggregateDone, AggregateRight, CycleTold, Resolvable, Resolves, Acyclic, RealCycle, Marked;
      ResolvesAllExactly(before, fnmatch, items);
      if Acyclic(items) {
        forall n | n in items
          ensures AggregateDone(before, after, n)
        {
          RewrittenIsDone(before, after, items[n]);
        }
      } else {
        var c :| RealCycle(items, c) && Marked(before, after, items, c);
        MarkedIsTold(before, after, items, c);
      }
    }

    /** `handleConstituents`: in the sorted and in the cycle branch alike it
        prints exactly the aggregates, so that with what was printed before,
        every job of the table is printed once, as the table has it. */
    method HandleConstituents() returns (ghost items: Aggregates)
      requires Valid() && Evaluated(jobs)
      modifies this
      ensures jobs.Keys == old(jobs).Keys
      ensures forall n | n in jobs && old(jobs)[n].named == [] :: jobs[n] == old(jobs)[n]
      ensures ResolvesAll(old(jobs), fnmatch, items) && Settled(old(jobs), jobs, items)
      ensures AllRight(old(jobs), fnmatch, items) && AggregatesDone(old(jobs), jobs, items)
      ensures old(OnlyAggregatesOwed()) ==> AllPrinted()
    {
      hide Settled;
      items := RewriteOrReport();
      assert forall n :: n in items <==> n in old(jobs) && old(jobs)[n].named != [];
      SettledIsDone(old(jobs), jobs, items);
      hide AllRight, AggregatesDone, ResolvesAll;
      if old(OnlyAggregatesOwed()) {
        assert printed == old(printed) + printed[|old(printed)|..];
        PrintedJoin(old(printed), printed[|old(printed)|..], old(jobs), jobs);
      }
    }

    method RewriteOrReport() returns (ghost items: Aggregates)
      requires Valid() && Evaluated(jobs)
      modifies this
      ensures ResolvesAll(old(jobs), fnmatch, items) && Settled(old(jobs), jobs, items)
      ensures jobs.Keys == old(jobs).Keys
      ensures forall n | n in jobs && n !in items :: jobs[n] == old(jobs)[n]
      ensures PrintedSince(old(printed), items.Keys)
    {
      hide Acyclic, RealCycle, Resolves;
      var r;
      r, items := ResolveNamedConstituents(jobs, fnmatch);
      match r {
        case Sorted(aggs) =>
          AllResolvable(jobs, items);
          RewriteAggregates(aggs, items);
        case Cyclic(cycle) =>
          PairInItems(items, cycle);
          PrintCycle(cycle, items.Keys);
          assert Marked(old(jobs), jobs, items, cycle);
      }
    }

    lemma PairInItems(items: Aggregates, cycle: DependencyCycle)
      requires RealCycle(items, cycle)
      ensures PairAndRest(cycle, items.Keys)
    {}

    lemma AllResolvable(jobs: JobMap, items: Aggregates)
      requires Evaluated(jobs) && ResolvesAll(jobs, fnmatch, items)
      ensures forall n | n in items :: Resolvable(jobs, items[n])
    {
      forall n | n in items
        ensures Resolvable(jobs, items[n])
      {
        assert Resolves(jobs, fnmatch, n, jobs[n].named, items[n]);
        assert jobs[n].error.None?;
        forall d | d in items[n].dependencies
          ensures d in jobs && jobs[d].drvPath.Some?
        {
          assert Constituent(jobs, fnmatch, n, jobs[n].named, d);
        }
      }
    }

    /** The cycle branch: the two jobs of the reported pair, then the rest. */
    method PrintCycle(cycle: DependencyCycle, ghost names: set<string>)
      requires Valid() && names <= jobs.Keys && PairAndRest(cycle, names)
      modifies this
      ensures jobs.Keys == old(jobs).Keys
      ensures forall n | n in jobs :: jobs[n] == if n in names then CycleEntry(old(jobs)[n], n, cycle) else old(jobs)[n]
      ensures PrintedSince(old(printed), names)
    {
      MarkPair(cycle);
      ghost var pair := [Line(cycle.a, jobs[cycle.a]), Line(cycle.b, jobs[cycle.b])];
      ghost var lines := PrintRemaining(cycle, pair);
      assert printed[|old(printed)|..] == lines;
      assert {cycle.a, cycle.b} + cycle.remaining == names;
    }

    method PrintRemaining(cycle: DependencyCycle, ghost pair: seq<Line>) returns (ghost lines: seq<Line>)
      requires Valid() && cycle.remaining <= jobs.Keys && cycle.remaining !! {cycle.a, cycle.b}
      requires Accounted(pair, jobs, {cycle.a, cycle.b})
      modifies this
      ensures jobs.Keys == old(jobs).Keys
      ensures forall n | n in jobs ::
        jobs[n] == if n in cycle.remaining then CycleEntry(old(jobs)[n], n, cycle) else old(jobs)[n]
      ensures pair <= lines && printed == old(printed) + lines[|pair|..]
      ensures Accounted(lines, jobs, {cycle.a, cycle.b} + cycle.remaining)
    {
      hide Accounted;
      ghost var done := {};
      lines := pair;
      assert {cycle.a, cycle.b} + done == {cycle.a, cycle.b};
      var rest := enumerate(cycle.remaining);
      assert IsEnumeration(rest, cycle.remaining);
      for k := 0 to |rest|
        invariant jobs.Keys == old(jobs).Keys && done <= cycle.remaining
        invariant forall n | n in jobs ::
          jobs[n] == if n in done then CycleEntry(old(jobs)[n], n, cycle) else old(jobs)[n]
        invariant pair <= lines && printed == old(printed) + lines[|pair|..]
        invariant Accounted(lines, jobs, {cycle.a, cycle.b} + done)
        invariant forall i | 0 <= i < |rest| :: rest[i] in done <==> i < k
      {
        assert rest[k] in rest;
        lines := SkipOne(rest[k], lines, {cycle.a, cycle.b} + done);
        assert {cycle.a, cycle.b} + done + {rest[k]} == {cycle.a, cycle.b} + (done + {rest[k]});
        done := done + {rest[k]};
      }
      AllEnumerated(rest, cycle.remaining, done);
    }

    lemma AllEnumerated(rest: seq<string>, all: set<string>, done: set<string>)
      requires IsEnumeration(rest, all) && done <= all
      requires forall i | 0 <= i < |rest| :: rest[i] in done
      ensures done == all
    {
      forall n | n in all
        ensures n in done
      {
        assert n in rest;
      }
    }

    method SkipOne(n: string, ghost lines: seq<Line>, ghost names: set<string>) returns (ghost lines': seq<Line>)
      requires n in jobs && n !in names && Accounted(lines, jobs, names)
      modifies this
      ensures jobs == old(jobs)[n := old(jobs)[n].(error := Some(SkippedForCycle))]
      ensures lines' == lines + [Line(n, jobs[n])] && printed == old(printed) + [Line(n, jobs[n])]
      ensures Accounted(lines', jobs, names + {n})
    {
      ghost var mid := jobs;
      jobs := jobs[n := jobs[n].(error := Some(SkippedForCycle))];
      printed := printed + [Line(n, jobs[n])];
      LineAdded(lines, mid, jobs, n);
      lines' := lines + [Line(n, jobs[n])];
    }

    method MarkPair(cycle: DependencyCycle)
      requires cycle.a in jobs && cycle.b in jobs && cycle.a != cycle.b
      modifies this
      ensures jobs.Keys == old(jobs).Keys
      ensures forall n | n in jobs ::
        jobs[n] == if n == cycle.a || n == cycle.b then CycleEntry(old(jobs)[n], n, cycle) else old(jobs)[n]
      ensures var lines := [Line(cycle.a, jobs[cycle.a]), Line(cycle.b, jobs[cycle.b])];
              printed == old(printed) + lines && Accounted(lines, jobs, {cycle.a, cycle.b})
    {
      var message := Some(InCycle(cycle.a, cycle.b));
      jobs := jobs[cycle.a := jobs[cycle.a].(error := message)];
      jobs := jobs[cycle.b := jobs[cycle.b].(error := message)];
      printed := printed + [Line(cycle.a, jobs[cycle.a]), Line(cycle.b, jobs[cycle.b])];
    }
  }

  // ---- An aggregate of itself ----------------------------------------------------

  const OWN_CONSTITUENT := Entry(Some("old"), map[], ["all"], false, [], None)

  lemma SelfOnly(jobs: JobMap, fnmatch: (string, string) -> bool, items: Aggregates)
    requires jobs == map["all" := OWN_CONSTITUENT] && ResolvesAll(jobs, fnmatch, items)
    ensures items.Keys == {"all"} && items["all"] == AggregateJob("all", {"all"}, map[])
    ensures Acyclic(items)
  {
    var children := OWN_CONSTITUENT.named;
    assert Resolves(jobs, fnmatch, "all", children, items["all"]);
    assert "all" in children && SelectsGood(jobs, fnmatch, "all", "all", "all");
    assert forall n :: Constituent(jobs, fnmatch, "all", children, n) <==> n == "all";
    assert forall n :: !Breaks(jobs, fnmatch, "all", children, n);
    assert items["all"].dependencies == {"all"} && items["all"].brokenJobs == map[];
    forall p
      ensures !IsCycle(items, p)
    {
      assert IsCycle(items, p) ==> Edge(items, p[0], p[1]);
    }
  }

  /** A table with one aggregate, stored at "old", that names itself and moves to
      "new" when it is rewritten: the path recorded for its constituent is not
      the one the constituent ends up with. */
  method RecordedPathStale(enumerate: set<string> -> seq<string>)
      returns (recorded: seq<string>, drvPath: Option<string>)
    requires forall s :: IsEnumeration(enumerate(s), s)
    ensures recorded == ["old"] && drvPath == Some("new")
  {
    hide Acyclic, Sorts, ResolvesAll, RealCycle, Accounted, NoRepeats, UpToDate;
    var table := new Table((pattern, name) => false, enumerate, (path, inputs) => "new", path => "out", path => map[]);
    table.Emit("all", OWN_CONSTITUENT);
    var r, items := ResolveNamedConstituents(table.jobs, table.fnmatch);
    SelfOnly(table.jobs, table.fnmatch, items);
    ghost var before := table.jobs;
    table.RewriteAggregates(r.jobs, items);
    SelfRewritten(table, before, table.jobs, items["all"]);
    return table.jobs["all"].constituents, table.jobs["all"].drvPath;
  }

  lemma SelfRewritten(table: Table, before: JobMap, after: JobMap, agg: AggregateJob)
    requires table.Valid() && table.rewrite == ((path, inputs) => "new")
    requires agg == AggregateJob("all", {"all"}, map[]) && before == map["all" := OWN_CONSTITUENT]
    requires Resolvable(before, agg) && Resolvable(after, agg) && table.Rewritten(before, after, agg)
    ensures after["all"].constituents == ["old"] && after["all"].drvPath == Some("new")
  {
    var order := table.enumerate({"all"});
    OneElement(order, "all");
    assert PathsSeen(before, after, "all", order) == ["old"];
  }

  lemma OneElement(order: seq<string>, x: string)
    requires IsEnumeration(order, {x})
    ensures order == [x]
  {
    assert x in order;
    assert |order| > 1 ==> order[0] != order[1];
    forall i | 0 <= i < |order|
      ensures order[i] == x
    {
      assert order[i] in order;
    }
  }

  predicate PairAndRest(cycle: DependencyCycle, names: set<string>) {
    cycle.a in names && cycle.b in names && cycle.a != cycle.b && cycle.remaining == names - {cycle.a, cycle.b}
  }

  /** Every aggregate has the error that the cycle gives it. */
  ghost predicate Marked(before: JobMap, after: JobMap, items: Aggregates, cycle: DependencyCycle) {
    forall n | n in items :: n in before && n in after && after[n] == CycleEntry(before[n], n, cycle)
  }

  /** An aggregate as it is printed when the sort found a cycle. */
  function CycleEntry(entry: Entry, name: string, cycle: DependencyCycle): Entry {
    entry.(error := Some(if name == cycle.a || name == cycle.b then InCycle(cycle.a, cycle.b) else SkippedForCycle))
  }

  lemma LineAdded(lines: seq<Line>, before: JobMap, after: JobMap, name: string)
    requires NoRepeats(lines) && UpToDate(lines, before) && name !in Printed(lines)
    requires name in after && forall n | n in before && n != name :: n in after && after[n] == before[n]
    ensures Accounted(lines + [Line(name, after[name])], after, Printed(lines) + {name})
  {
    PrintedAppend(lines, Line(name, after[name]));
    assert forall l | l in lines :: l.name in Printed(lines);
  }

  lemma PrintedAppend(lines: seq<Line>, line: Line)
    ensures Printed(lines + [line]) == Printed(lines) + {line.name}
    ensures NoRepeats(lines) && line.name !in Printed(lines) ==> NoRepeats(lines + [line])
  {
    assert forall l :: l in lines + [line] <==> l in lines || l == line;
    assert forall i | 0 <= i < |lines| :: lines[i] in lines;
  }

  lemma PrintedJoin(early: seq<Line>, late: seq<Line>, start: JobMap, jobs: JobMap)
    requires start.Keys == jobs.Keys
    requires NoRepeats(early) && UpToDate(early, start) && NoRepeats(late) && UpToDate(late, jobs)
    requires forall n | n in start && start[n].named == [] :: jobs[n] == start[n]
    requires forall n :: n in Printed(early) <==> n in start && start[n].named == []
    requires forall n :: n in Printed(late) <==> n in start && start[n].named != []
    ensures NoRepeats(early + late) && UpToDate(early + late, jobs) && Printed(early + late) == jobs.Keys
  {
    var all := early + late;
    assert forall l :: l in all <==> l in early || l in late;
    assert forall l | l in early :: l.name in Printed(early);
    assert forall l | l in late :: l.name in Printed(late);
    NoRepeatsJoin(early, late);
  }

  lemma NoRepeatsJoin(early: seq<Line>, late: seq<Line>)
    requires NoRepeats(early) && NoRepeats(late) && forall l, m | l in early && m in late :: l.name != m.name
    ensures NoRepeats(early + late)
  {
    var all := early + late;
    forall i, j | 0 <= i < j < |all|
      ensures all[i].name != all[j].name
    {
      if i < |early| <= j {
        assert all[i] in early && all[j] in late;
      }
    }
  }
}
