/** The cache status resolver (src/cache-status-resolver.cc): jobs are resolved
    from two caches of the store's answers.  An attempt that meets a path with
    no answer yet fails, but notes every such path it comes by; the next round
    asks the store about all of them at once and the job is tried again. */
module Resolver {
  import opened Wrappers
  import opened Walk
  import Ledger

  /** What the scheduler hands over, a record of its log; only jobs need resolving. */
  datatype Response = JobResponse(record: Ledger.Record, job: Job) | OtherResponse(record: Ledger.Record)

  /** A response on its way out, with the status of a job filled in. */
  datatype Emission = Emission(response: Response, resolution: Option<Resolution>)

  function Responses(emitted: seq<Emission>): seq<Response> {
    seq(|emitted|, i requires 0 <= i < |emitted| => emitted[i].response)
  }

  function Flatten(batches: seq<seq<Response>>): seq<Response> {
    if batches == [] then [] else Flatten(batches[..|batches| - 1]) + batches[|batches| - 1]
  }

  ghost predicate InReach(g: Graph, r: Response) {
    r.JobResponse? ==> r.job.drvPath in g.drvs && PathsWithin(r.job.outputs, g.paths)
  }

  ghost predicate AllInReach(g: Graph, rs: seq<Response>) {
    forall r | r in rs :: InReach(g, r)
  }

  /** Responses that were emitted say what the store's answers imply. */
  ghost predicate Correct(a: Answers, g: Graph, emitted: seq<Emission>)
    requires WellFormed(g)
  {
    forall e | e in emitted && e.response.JobResponse? ::
      && e.response.job.drvPath in g.drvs
      && e.resolution.Some? && Resolves(a, g, e.response.job, e.resolution.value)
  }

  /** Every job came out with the status that its outputs have in the store. */
  ghost predicate StatusesRight(a: Answers, emitted: seq<Emission>) {
    forall e | e in emitted && e.response.JobResponse? ::
      && e.resolution.Some? && StatusRight(a, e.response.job.outputs, e.resolution.value.status)
      && NeedsRight(a, e.response.job.outputs, e.resolution.value)
  }

  lemma CorrectSays(a: Answers, g: Graph, emitted: seq<Emission>)
    requires WellFormed(g) && Correct(a, g, emitted)
    ensures StatusesRight(a, emitted)
  {
    hide StatusRight, NeedsRight, Resolves;
    forall e | e in emitted && e.response.JobResponse?
      ensures StatusRight(a, e.response.job.outputs, e.resolution.value.status)
      ensures NeedsRight(a, e.response.job.outputs, e.resolution.value)
    {
      ResolutionSays(a, g, e.response.job, e.resolution.value);
    }
  }

  class CacheStatusResolver {
    ghost const graph: Graph
    /** The stores: derivations by path, and the answers of the build store.  A
        substituter that cannot be reached answers no. */
    const read: StorePath -> Derivation
    const store: Answers

    var probeCache: map<StorePath, bool>
    var wanted: set<StorePath>
    var validCache: map<StorePath, bool>
    var wantedValid: set<StorePath>
    var drvCache: map<StorePath, Derivation>
    var attemptComplete: bool

    var inbox: seq<Response>
    var closed: bool
    /** The thread was ended by an exception of the store or by the destructor. */
    var failed: bool
    var emitted: seq<Emission>

    /** Everything ever accepted by `push`. */
    ghost var pushed: seq<Response>
    /** The paths the store was asked about so far, by kind of question. */
    ghost var askedValid: set<StorePath>
    ghost var askedSubstitutable: set<StorePath>
    /** Rounds in which at least one job could not be resolved yet. */
    ghost var failedRounds: nat

    /** The caches agree with the store, and nothing with an answer waits. */
    ghost predicate Valid()
      reads `probeCache, `wanted, `validCache, `wantedValid
    {
      && (forall p | p in validCache :: validCache[p] == store.valid(p) && p !in wantedValid)
      && (forall p | p in probeCache :: probeCache[p] == store.substitutable(p) && p !in wanted)
      && wantedValid <= graph.paths && wanted <= graph.paths
    }

    ghost predicate DerivationsRead()
      reads `drvCache
    {
      WellFormed(graph) && graph.read == read && forall d | d in drvCache :: drvCache[d] == read(d)
    }

    /** The caches hold an answer for exactly the paths the store was asked about. */
    ghost predicate AskedOnce()
      reads `probeCache, `validCache, `askedValid, `askedSubstitutable
    {
      && askedValid == validCache.Keys <= graph.paths
      && askedSubstitutable == probeCache.Keys <= graph.paths
    }

    /** Some path waits for the next round. */
    ghost predicate Waiting()
      reads `wanted, `wantedValid
    {
      wanted != {} || wantedValid != {}
    }

    constructor (g: Graph, store: Answers)
      requires WellFormed(g)
      ensures Valid() && DerivationsRead() && AskedOnce() && graph == g && this.store == store
      ensures inbox == [] && emitted == [] && pushed == [] && !closed && !failed && !Waiting()
      ensures validCache == map[] && probeCache == map[] && failedRounds == 0
    {
      graph, read, this.store := g, g.read, store;
      probeCache, wanted, validCache, wantedValid, drvCache := map[], {}, map[], {}, map[];
      attemptComplete, inbox, closed, failed, emitted := true, [], false, false, [];
      pushed, askedValid, askedSubstitutable, failedRounds := [], {}, {}, 0;
    }

    // ---- Probes -----------------------------------------------------------

    method ProbeValidity(path: StorePath) returns (valid: Option<bool>)
      requires Valid() && path in graph.paths
      modifies `wantedValid, `attemptComplete
      ensures Valid() && old(wantedValid) <= wantedValid
      ensures valid.Some? ==> valid.value == store.valid(path) && attemptComplete == old(attemptComplete)
      ensures valid.None? ==> !attemptComplete && Waiting()
      ensures valid.Some? <==> path in validCache
      ensures valid.None? ==> path in wantedValid
    {
      if path in validCache {
        return Some(validCache[path]);
      }
      wantedValid := wantedValid + {path};
      attemptComplete := false;
      assert Waiting() by {
        assert path in wantedValid;
      }
      valid := None;
    }

    method AllSubstitutableCached(paths: seq<StorePath>) returns (result: Option<bool>)
      requires Valid() && forall p | p in paths :: p in graph.paths
      modifies `wanted, `attemptComplete
      ensures Valid() && old(wanted) <= wanted
      ensures result.Some? ==> result.value == AllSubstitutable(store, paths) && attemptComplete == old(attemptComplete)
      ensures result.None? ==> !attemptComplete && Waiting()
      ensures result.Some? <==> forall p | p in paths :: p in probeCache
      ensures forall p | p in paths && p !in probeCache :: p in wanted
    {
      var all, complete := true, true;
      for k := 0 to |paths|
        invariant Valid() && old(wanted) <= wanted
        invariant complete ==> all == AllSubstitutable(store, paths[..k]) && attemptComplete == old(attemptComplete)
        invariant !complete ==> !attemptComplete && Waiting()
        invariant complete <==> forall i | 0 <= i < k :: paths[i] in probeCache
        invariant forall i | 0 <= i < k && paths[i] !in probeCache :: paths[i] in wanted
      {
        var path := paths[k];
        assert path in paths;
        assert paths[..k + 1] == paths[..k] + [path];
        if path in probeCache {
          all := all && probeCache[path];
        } else {
          wanted := wanted + {path};
          assert path in wanted;
          attemptComplete := false;
          complete := false;
        }
      }
      assert paths[..|paths|] == paths;
      result := if complete then Some(all) else None;
    }

    method ReadDerivation(drvPath: StorePath) returns (d: Derivation)
      requires DerivationsRead()
      modifies `drvCache
      ensures DerivationsRead() && d == read(drvPath)
    {
      if drvPath !in drvCache {
        drvCache := drvCache[drvPath := read(drvPath)];
      }
      d := drvCache[drvPath];
    }

    /** Asks about all wanted outputs even when the answer for one is missing.
        `m` is exact when nothing was missing. */
    method MissingOutputs(outputs: seq<Output>, wantedOutputs: set<string>)
      returns (known: bool, complete: bool, missing: seq<StorePath>)
      requires Valid() && PathsWithin(outputs, graph.paths)
      modifies `wantedValid, `attemptComplete
      ensures Valid() && old(wantedValid) <= wantedValid
      ensures known == MissingOf(store, outputs, wantedOutputs).known
      ensures known && complete ==>
        missing == MissingOf(store, outputs, wantedOutputs).missing && attemptComplete == old(attemptComplete)
      ensures known && !complete ==> !attemptComplete && Waiting()
      ensures !attemptComplete ==> !old(attemptComplete) || Waiting()
      ensures attemptComplete ==> old(attemptComplete)
      ensures forall p | p in missing :: p in graph.paths
      ensures known ==> Among(outputs, wantedOutputs, validCache.Keys + wantedValid)
      ensures known ==> (complete <==> Among(outputs, wantedOutputs, validCache.Keys))
    {
      known, complete, missing := true, true, [];
      for k := 0 to |outputs|
        invariant Valid() && old(wantedValid) <= wantedValid
        invariant known && MissingOf(store, outputs[..k], wantedOutputs).known
        invariant complete ==>
          missing == MissingOf(store, outputs[..k], wantedOutputs).missing && attemptComplete == old(attemptComplete)
        invariant !complete ==> !attemptComplete && Waiting()
        invariant forall p | p in missing :: p in graph.paths
        invariant Among(outputs[..k], wantedOutputs, validCache.Keys + wantedValid)
        invariant complete <==> Among(outputs[..k], wantedOutputs, validCache.Keys)
      {
        AmongOneMore(outputs, k, wantedOutputs, validCache.Keys);
        assert outputs[..k + 1] == outputs[..k] + [outputs[k]];
        MissingAppend(store, outputs[..k], outputs[k], wantedOutputs);
        if wantedOutputs != {} && outputs[k].name !in wantedOutputs {
          continue;
        }
        if outputs[k].path.None? {
          known := false;
          MissingUnknown(store, outputs, k, wantedOutputs);
          return;
        }
        var valid := ProbeValidity(outputs[k].path.value);
        if valid.None? {
          complete := false;
          continue;
        }
        if !valid.value {
          missing := missing + [outputs[k].path.value];
        }
      }
      assert outputs[..|outputs|] == outputs;
    }

    // ---- The walk ----------------------------------------------------------

    /** What is known and asked at present. */
    ghost function Probes(): Probing
      reads `validCache, `wantedValid, `probeCache, `wanted
    {
      Probing(validCache.Keys, validCache.Keys + wantedValid, probeCache.Keys, probeCache.Keys + wanted)
    }

    /** One visit.  As long as no answer is missing it does what the direct walk
        does; when one is, a path is waiting for the next round.  In any case
        the next batches are as wide as what is known allows. */
    method VisitDrv(t: Traversal, drvPath: StorePath, wantedOutputs: set<string>) returns (t': Traversal)
      requires Valid() && DerivationsRead() && drvPath in graph.drvs
      modifies `wanted, `wantedValid, `attemptComplete, `drvCache
      ensures Valid() && DerivationsRead() && old(wanted) <= wanted && old(wantedValid) <= wantedValid
      ensures attemptComplete ==> old(attemptComplete) && t' == Visit(store, graph, t, drvPath, wantedOutputs)
      ensures !attemptComplete ==> !old(attemptComplete) || Waiting()
      ensures Widens(store, graph, Probes(), t.visited, t'.visited) && drvPath in t'.visited
      decreases graph.rank(drvPath), 3
    {
      t' := t;
      if drvPath in t'.visited {
        return;
      }
      t' := t'.(visited := t'.visited[drvPath := wantedOutputs]);
      var derivation := ReadDerivation(drvPath);
      var known, complete, missing := MissingOutputs(derivation.outputs, wantedOutputs);
      if !known {
        t' := t'.(unknownPaths := t'.unknownPaths + [drvPath]);
        LeafWidens(store, graph, Probes(), t.visited, drvPath, wantedOutputs);
        return;
      }
      if !complete {
        ghost var probes := Probes();
        t' := VisitAll(t', derivation.inputs, graph.rank(drvPath));
        BranchWidens(store, graph, probes, Probes(), t.visited, t'.visited, drvPath, wantedOutputs);
        return;
      }
      if missing == [] {
        LeafWidens(store, graph, Probes(), t.visited, drvPath, wantedOutputs);
        return;
      }
      t' := VisitMissing(t', drvPath, derivation, missing, t, wantedOutputs);
    }

    /** The second half of a visit: outputs are missing. */
    method VisitMissing(t1: Traversal, drvPath: StorePath, derivation: Derivation, missing: seq<StorePath>,
        ghost t: Traversal, ghost wantedOutputs: set<string>) returns (t': Traversal)
      requires Valid() && DerivationsRead() && drvPath in graph.drvs && derivation == read(drvPath)
      requires drvPath !in t.visited && t1 == t.(visited := t.visited[drvPath := wantedOutputs])
      requires MissingOf(store, derivation.outputs, wantedOutputs) == Missing(true, missing) && missing != []
      requires Among(derivation.outputs, wantedOutputs, validCache.Keys) && forall p | p in missing :: p in graph.paths
      modifies `wanted, `wantedValid, `attemptComplete, `drvCache
      ensures Valid() && DerivationsRead() && old(wanted) <= wanted && old(wantedValid) <= wantedValid
      ensures attemptComplete ==> old(attemptComplete) && t' == Visit(store, graph, t, drvPath, wantedOutputs)
      ensures !attemptComplete ==> !old(attemptComplete) || Waiting()
      ensures Widens(store, graph, Probes(), t.visited, t'.visited) && drvPath in t'.visited
      decreases graph.rank(drvPath), 2
    {
      t' := t1;
      var substitutable := AllSubstitutableCached(missing);
      if substitutable.None? {
        LeafWidens(store, graph, Probes(), t.visited, drvPath, wantedOutputs);
        return;
      }
      if substitutable.value {
        t' := t'.(substitutePaths := t'.substitutePaths + set p | p in missing);
        LeafWidens(store, graph, Probes(), t.visited, drvPath, wantedOutputs);
        return;
      }
      ghost var probes := Probes();
      t' := VisitAll(t', derivation.inputs, graph.rank(drvPath));
      BranchWidens(store, graph, probes, Probes(), t.visited, t'.visited, drvPath, wantedOutputs);
      t' := t'.(neededBuilds := t'.neededBuilds + [drvPath]);
    }

    lemma VisitInputsMore(inputs: seq<Input>, k: nat, t: Traversal, r: nat)
      requires DerivationsRead() && InputsBelow(graph, inputs, r) && k < |inputs|
      ensures inputs[k].drv in graph.drvs && graph.rank(inputs[k].drv) < r
      ensures VisitInputs(store, graph, t, inputs[..k + 1], r) ==
        Visit(store, graph, VisitInputs(store, graph, t, inputs[..k], r), inputs[k].drv, inputs[k].wanted)
    {
      assert inputs[..k + 1][..k] == inputs[..k];
    }

    /** What the loop over the inputs of a derivation has done when the first `k` of them
        are visited; `complete` tells whether nothing was missing before it. */
    ghost predicate VisitedSome(t: Traversal, t': Traversal, inputs: seq<Input>, k: nat, r: nat, complete: bool)
      requires WellFormed(graph) && InputsBelow(graph, inputs, r) && k <= |inputs|
      reads `validCache, `wantedValid, `probeCache, `wanted, `attemptComplete
    {
      && (attemptComplete ==> complete && t' == VisitInputs(store, graph, t, inputs[..k], r))
      && (!attemptComplete ==> !complete || Waiting())
      && Widens(store, graph, Probes(), t.visited, t'.visited) && forall i | 0 <= i < k :: inputs[i].drv in t'.visited
    }

    /** The loop over the inputs of a derivation. */
    method VisitAll(t: Traversal, inputs: seq<Input>, ghost r: nat) returns (t': Traversal)
      requires Valid() && DerivationsRead() && InputsBelow(graph, inputs, r)
      modifies `wanted, `wantedValid, `attemptComplete, `drvCache
      ensures Valid() && DerivationsRead() && old(wanted) <= wanted && old(wantedValid) <= wantedValid
      ensures attemptComplete ==> old(attemptComplete) && t' == VisitInputs(store, graph, t, inputs, r)
      ensures !attemptComplete ==> !old(attemptComplete) || Waiting()
      ensures Widens(store, graph, Probes(), t.visited, t'.visited)
      ensures forall i | 0 <= i < |inputs| :: inputs[i].drv in t'.visited
      decreases r, 1
    {
      t' := t;
      assert VisitedSome(t, t', inputs, 0, r, attemptComplete);
      hide VisitedSome, Valid;
      for k := 0 to |inputs|
        invariant Valid() && DerivationsRead() && old(wanted) <= wanted && old(wantedValid) <= wantedValid
        invariant VisitedSome(t, t', inputs, k, r, old(attemptComplete))
      {
        t' := VisitNext(t, t', inputs, k, r, old(attemptComplete));
      }
      AllVisited(t, t', inputs, r, old(attemptComplete));
    }

    lemma AllVisited(t: Traversal, t': Traversal, inputs: seq<Input>, r: nat, complete: bool)
      requires WellFormed(graph) && InputsBelow(graph, inputs, r)
      requires VisitedSome(t, t', inputs, |inputs|, r, complete)
      ensures attemptComplete ==> complete && t' == VisitInputs(store, graph, t, inputs, r)
      ensures !attemptComplete ==> !complete || Waiting()
      ensures Widens(store, graph, Probes(), t.visited, t'.visited)
      ensures forall i | 0 <= i < |inputs| :: inputs[i].drv in t'.visited
    {
      assert inputs[..|inputs|] == inputs;
    }

    method VisitNext(ghost t: Traversal, t1: Traversal, inputs: seq<Input>, k: nat, ghost r: nat, ghost complete: bool)
      returns (t': Traversal)
      requires Valid() && DerivationsRead() && InputsBelow(graph, inputs, r) && k < |inputs|
      requires VisitedSome(t, t1, inputs, k, r, complete)
      modifies `wanted, `wantedValid, `attemptComplete, `drvCache
      ensures Valid() && DerivationsRead() && old(wanted) <= wanted && old(wantedValid) <= wantedValid
      ensures VisitedSome(t, t', inputs, k + 1, r, complete)
      decreases r, 0
    {
      hide OutputsAsked, EndsHere, Valid;
      ghost var probes := Probes();
      t' := VisitDrv(t1, inputs[k].drv, inputs[k].wanted);
      assert inputs[..k + 1][..k] == inputs[..k];
      WidensMore(store, graph, probes, Probes(), t.visited, t1.visited, t'.visited);
    }

    /** Whatever the caches hold, an attempt that succeeds gives the resolution
        that asking the store directly about every path would give; one that
        fails leaves a path waiting for the next round. */
    method TryResolve(job: Job) returns (result: Option<Resolution>, ghost walked: Visited)
      requires Valid() && DerivationsRead() && job.drvPath in graph.drvs && PathsWithin(job.outputs, graph.paths)
      modifies `wanted, `wantedValid, `attemptComplete, `drvCache
      ensures Valid() && DerivationsRead() && old(wanted) <= wanted && old(wantedValid) <= wantedValid
      ensures result.Some? ==> Resolves(store, graph, job, result.value)
      ensures result.Some? ==>
        StatusRight(store, job.outputs, result.value.status) && NeedsRight(store, job.outputs, result.value)
      ensures result.None? ==> Waiting() && JobAsked(store, graph, Probes(), job, walked)
    {
      attemptComplete := true;
      walked := map[];
      var outputsKnown, outputsComplete, missing := MissingOutputs(job.outputs, {});
      if outputsKnown {
        if !outputsComplete {
          return None, walked;
        }
        var all := AllSubstitutableCached(missing);
        if all.None? {
          return None, walked;
        }
        if all.value {
          var sorted := SortPaths(missing);
          result := Some(Resolution(if missing == [] then Local else Cached, [], sorted, []));
          ResolutionSays(store, graph, job, result.value);
          return;
        }
      }
      var t := VisitDrv(NOTHING_VISITED, job.drvPath, {});
      walked := t.visited;
      if !attemptComplete {
        return None, walked;
      }
      var substitutes := SetToSorted(t.substitutePaths);
      result := Some(Resolution(NotBuilt, t.neededBuilds, substitutes, t.unknownPaths));
      ResolutionSays(store, graph, job, result.value);
    }

    // ---- Rounds -------------------------------------------------------------

    /** One batch of each kind: every waiting path gets its answer, and no path
        is asked about that was asked about before. */
    method ResolveWanted()
      requires Valid() && AskedOnce()
      modifies `wanted, `wantedValid, `probeCache, `validCache, `askedValid, `askedSubstitutable
      ensures Valid() && AskedOnce() && !Waiting()
      ensures validCache.Keys == old(validCache.Keys + wantedValid)
      ensures probeCache.Keys == old(probeCache.Keys + wanted)
    {
      QueryValidPaths();
      QuerySubstitutablePathInfos();
    }

    /** The batch holds no path the store was asked about before. */
    method QueryValidPaths()
      requires Valid() && AskedOnce()
      modifies `wantedValid, `validCache, `askedValid
      ensures Valid() && AskedOnce() && wantedValid == {}
      ensures validCache.Keys == old(validCache.Keys + wantedValid)
      ensures old(wantedValid !! askedValid) && askedValid == old(askedValid + wantedValid)
    {
      var batch := wantedValid;
      if batch != {} {
        wantedValid := {};
        var valid := set p | p in batch && store.valid(p);
        validCache := FileAnswers(validCache, batch, valid);
        askedValid := askedValid + batch;
      }
    }

    method QuerySubstitutablePathInfos()
      requires Valid() && AskedOnce()
      modifies `wanted, `probeCache, `askedSubstitutable
      ensures Valid() && AskedOnce() && wanted == {}
      ensures probeCache.Keys == old(probeCache.Keys + wanted)
      ensures old(wanted !! askedSubstitutable) && askedSubstitutable == old(askedSubstitutable + wanted)
    {
      var batch := wanted;
      if batch != {} {
        wanted := {};
        var infos := set p | p in batch && store.substitutable(p);
        probeCache := FileAnswers(probeCache, batch, infos);
        askedSubstitutable := askedSubstitutable + batch;
      }
    }

    /** Paths that either kind of question could still be about. */
    ghost function Unanswered(): nat
      reads `validCache, `probeCache
    {
      |graph.paths - validCache.Keys| + |graph.paths - probeCache.Keys|
    }

    method ResolveRound()
      requires Valid() && AskedOnce()
      modifies `wanted, `wantedValid, `probeCache, `validCache, `askedValid, `askedSubstitutable
      ensures Valid() && AskedOnce() && !Waiting()
      ensures Unanswered() <= old(Unanswered())
      ensures old(Waiting()) ==> Unanswered() < old(Unanswered())
    {
      ghost var v, w, p, q := validCache.Keys, wantedValid, probeCache.Keys, wanted;
      Shrinks(graph.paths, v, w);
      Shrinks(graph.paths, p, q);
      ResolveWanted();
    }

    // ---- The worker thread and the scheduler's side of it ----------------------

    /** Every response handed over is in one place: still in the inbox, among
        the `jobs` in hand, or emitted. */
    ghost predicate Balance(jobs: seq<Response>)
      reads `inbox, `emitted, `pushed
    {
      multiset(Responses(emitted)) + multiset(jobs) + multiset(inbox) == multiset(pushed)
    }

    ghost predicate GoodOutput()
      reads `inbox, `emitted
    {
      WellFormed(graph) && AllInReach(graph, inbox) && Correct(store, graph, emitted)
    }

    /** Called by the scheduler; after `finish` or an exception of the thread it does
        nothing. */
    method Push(response: Response)
      modifies `inbox, `pushed
      ensures inbox == if closed || failed then old(inbox) else old(inbox) + [response]
      ensures pushed == if closed || failed then old(pushed) else old(pushed) + [response]
    {
      if closed || failed {
        return;
      }
      inbox, pushed := inbox + [response], pushed + [response];
    }

    method Sink(response: Response, resolution: Option<Resolution>, ghost jobs: seq<Response>)
      requires GoodOutput() && Balance([response] + jobs) && InReach(graph, response)
      requires response.JobResponse? ==>
        resolution.Some? && Resolves(store, graph, response.job, resolution.value)
      modifies `emitted
      ensures GoodOutput() && Balance(jobs)
    {
      ghost var e := Emission(response, resolution);
      assert Responses(emitted + [e]) == Responses(emitted) + [response];
      assert forall x :: x in emitted + [e] <==> x in emitted || x == e;
      emitted := emitted + [Emission(response, resolution)];
    }

    /** The jobs the thread holds. */
    ghost predicate InHand(jobs: seq<Response>) {
      forall r | r in jobs :: r.JobResponse? && InReach(graph, r)
    }

    lemma HoldNone()
      ensures InHand([])
    {}

    lemma HeldMember(jobs: seq<Response>, k: nat)
      requires InHand(jobs) && k < |jobs|
      ensures jobs[k].JobResponse? && InReach(graph, jobs[k])
    {
      assert jobs[k] in jobs;
    }

    lemma HoldOne(jobs: seq<Response>, r: Response)
      requires InHand(jobs) && r.JobResponse? && InReach(graph, r)
      ensures InHand(jobs + [r])
    {}

    method TakeOne(r: Response, jobs: seq<Response>, ghost rest: seq<Response>) returns (jobs': seq<Response>)
      requires GoodOutput() && Balance(jobs + ([r] + rest)) && InHand(jobs) && InReach(graph, r)
      modifies `emitted
      ensures GoodOutput() && Balance(jobs' + rest) && InHand(jobs')
    {
      jobs' := jobs;
      if r.JobResponse? {
        HoldOne(jobs, r);
        jobs' := jobs' + [r];
        assert jobs' + rest == jobs + ([r] + rest);
      } else {
        BalanceSplit(jobs, r, rest);
        Sink(r, None, jobs + rest);
      }
    }

    lemma BalanceSplit(jobs: seq<Response>, r: Response, rest: seq<Response>)
      requires Balance(jobs + ([r] + rest))
      ensures Balance([r] + (jobs + rest))
    {
      assert multiset(jobs + ([r] + rest)) == multiset([r] + (jobs + rest));
    }

    method EmptyInbox(ghost jobs: seq<Response>) returns (taken: seq<Response>)
      requires GoodOutput() && Balance(jobs)
      modifies `inbox
      ensures inbox == [] && taken == old(inbox)
      ensures GoodOutput() && AllInReach(graph, taken) && Balance(jobs + taken)
    {
      taken := inbox;
      inbox := [];
      assert multiset(jobs + taken) == multiset(jobs) + multiset(taken);
    }

    method TakeInbox(jobs: seq<Response>) returns (jobs': seq<Response>)
      requires GoodOutput() && Balance(jobs) && InHand(jobs)
      modifies `inbox, `emitted
      ensures GoodOutput() && Balance(jobs') && InHand(jobs')
      ensures inbox == [] && (old(inbox) == [] ==> jobs' == jobs)
    {
      hide GoodOutput, Balance, InHand, InReach, AllInReach;
      var taken := EmptyInbox(jobs);
      jobs' := jobs;
      assert taken[0..] == taken;
      for k := 0 to |taken|
        invariant inbox == [] && GoodOutput() && Balance(jobs' + taken[k..]) && InHand(jobs')
        invariant taken == [] ==> jobs' == jobs
      {
        assert taken[k..] == [taken[k]] + taken[k + 1..];
        ReachMember(taken, k);
        jobs' := TakeOne(taken[k], jobs', taken[k + 1..]);
      }
      assert jobs' + taken[|taken|..] == jobs';
    }

    method TryOne(r: Response, left: seq<Response>, ghost rest: seq<Response>) returns (left': seq<Response>)
      requires Valid() && DerivationsRead() && GoodOutput() && Balance(left + ([r] + rest))
      requires InHand(left) && r.JobResponse? && InReach(graph, r)
      modifies `wanted, `wantedValid, `attemptComplete, `drvCache, `emitted
      ensures Valid() && DerivationsRead() && GoodOutput() && Balance(left' + rest) && InHand(left')
      ensures left' != left ==> Waiting()
      ensures old(Waiting()) ==> Waiting()
    {
      hide GoodOutput, Balance, InHand, DerivationsRead, Valid, Correct, StatusRight, NeedsRight;
      left' := left;
      var resolution, _ := TryResolve(r.job);
      if resolution.Some? {
        BalanceSplit(left, r, rest);
        Sink(r, resolution, left + rest);
      } else {
        HoldOne(left, r);
        left' := left' + [r];
        assert left' + rest == left + ([r] + rest);
      }
    }

    /** Tries the first `n` jobs in hand once. */
    method TryFirst(jobs: seq<Response>, n: nat) returns (left: seq<Response>)
      requires Valid() && DerivationsRead() && GoodOutput() && Balance(jobs) && InHand(jobs) && n <= |jobs|
      modifies `wanted, `wantedValid, `attemptComplete, `drvCache, `emitted
      ensures Valid() && DerivationsRead() && GoodOutput() && Balance(left + jobs[n..]) && InHand(left + jobs[n..])
      ensures left != [] ==> Waiting()
    {
      hide Valid, DerivationsRead, GoodOutput, Balance, InHand, Waiting, InReach;
      left := [];
      assert left + jobs[0..] == jobs;
      HoldNone();
      for k := 0 to n
        invariant Valid() && DerivationsRead() && GoodOutput() && Balance(left + jobs[k..]) && InHand(left)
        invariant left != [] ==> Waiting()
      {
        assert jobs[k..] == [jobs[k]] + jobs[k + 1..];
        HeldMember(jobs, k);
        left := TryOne(jobs[k], left, jobs[k + 1..]);
      }
      HoldRest(left, jobs, n);
    }

    lemma HoldRest(left: seq<Response>, jobs: seq<Response>, n: nat)
      requires InHand(left) && InHand(jobs) && n <= |jobs|
      ensures InHand(left + jobs[n..])
    {
      assert forall r :: r in left + jobs[n..] ==> r in left || r in jobs;
    }

    /** Tries every job in hand once; those that stay behind left a path
        waiting. */
    method EraseResolved(jobs: seq<Response>) returns (left: seq<Response>)
      requires Valid() && DerivationsRead() && GoodOutput() && Balance(jobs) && InHand(jobs)
      modifies `wanted, `wantedValid, `attemptComplete, `drvCache, `emitted
      ensures Valid() && DerivationsRead() && GoodOutput() && Balance(left) && InHand(left)
      ensures left != [] ==> Waiting()
    {
      left := TryFirst(jobs, |jobs|);
      assert left + jobs[|jobs|..] == left;
    }

    method PushAll(responses: seq<Response>, ghost jobs: seq<Response>)
      requires GoodOutput() && Balance(jobs) && !closed && !failed && AllInReach(graph, responses)
      modifies `inbox, `pushed
      ensures GoodOutput() && Balance(jobs) && pushed == old(pushed) + responses
    {
      hide GoodOutput, Balance, AllInReach, InReach;
      for n := 0 to |responses|
        invariant GoodOutput() && Balance(jobs) && !closed && !failed && pushed == old(pushed) + responses[..n]
      {
        assert responses[..n + 1] == responses[..n] + [responses[n]];
        ReachMember(responses, n);
        PushOne(responses[n], jobs);
      }
      assert responses[..|responses|] == responses;
    }

    lemma ReachMember(responses: seq<Response>, n: nat)
      requires AllInReach(graph, responses) && n < |responses|
      ensures InReach(graph, responses[n])
    {
      assert responses[n] in responses;
    }

    method PushOne(response: Response, ghost jobs: seq<Response>)
      requires GoodOutput() && Balance(jobs) && !closed && !failed && InReach(graph, response)
      modifies `inbox, `pushed
      ensures GoodOutput() && Balance(jobs) && pushed == old(pushed) + [response]
    {
      assert multiset(inbox + [response]) == multiset(inbox) + multiset{response};
      assert forall r :: r in inbox + [response] <==> r in inbox || r == response;
      Push(response);
    }

    /** What the scheduler does between two looks of the worker at the inbox: it
        pushes some more responses or, when there are no more, calls `finish`. */
    method SchedulerTurn(arrivals: seq<seq<Response>>, k: nat, ghost jobs: seq<Response>) returns (k': nat)
      requires k <= |arrivals| && GoodOutput() && Balance(jobs) && (closed ==> k == |arrivals|) && !failed
      requires forall i | 0 <= i < |arrivals| :: AllInReach(graph, arrivals[i])
      requires pushed == Flatten(arrivals[..k])
      modifies `inbox, `pushed, `closed
      ensures k <= k' <= |arrivals| && GoodOutput() && Balance(jobs) && (closed ==> k' == |arrivals|)
      ensures pushed == Flatten(arrivals[..k'])
      ensures if k < |arrivals| then k' == k + 1 && closed == old(closed) else closed && inbox == old(inbox)
    {
      hide GoodOutput, Balance, AllInReach;
      if k == |arrivals| {
        closed := true;
        return k;
      }
      PushAll(arrivals[k], jobs);
      assert arrivals[..k + 1][..k] == arrivals[..k];
      k' := k + 1;
    }

    /** What holds between two rounds, with `jobs` in hand and the first `k`
        portions of `arrivals` pushed. */
    ghost predicate Running(arrivals: seq<seq<Response>>, k: nat, jobs: seq<Response>)
      reads this
    {
      RunningSlack(arrivals, k, jobs, 0)
    }

    /** As `Running`, with `slack` failed rounds that no answer made up for yet. */
    ghost predicate RunningSlack(arrivals: seq<seq<Response>>, k: nat, jobs: seq<Response>, slack: nat)
      reads this
    {
      && Valid() && DerivationsRead() && AskedOnce()
      && GoodOutput() && Balance(jobs) && InHand(jobs) && inbox == []
      && k <= |arrivals| && pushed == Flatten(arrivals[..k]) && (closed ==> k == |arrivals|) && !failed
      && failedRounds + Unanswered() <= 2 * |graph.paths| + slack
    }

    /** The first half of a round: every job is tried, and it is noted when one
        must wait. */
    method Attempt(arrivals: seq<seq<Response>>, k: nat, jobs: seq<Response>) returns (left: seq<Response>)
      requires Running(arrivals, k, jobs)
      modifies `wanted, `wantedValid, `attemptComplete, `drvCache, `emitted, `failedRounds
      ensures RunningSlack(arrivals, k, left, if left == [] then 0 else 1)
      ensures left != [] ==> Waiting()
    {
      hide Valid, DerivationsRead, AskedOnce, GoodOutput, Balance, InHand, Unanswered, Waiting;
      left := EraseResolved(jobs);
      if left != [] {
        failedRounds := failedRounds + 1;
      }
    }

    /** One round of the inner loop; either more was pushed meanwhile, or the
        store answered about a path, or all jobs are done. */
    method Round(arrivals: seq<seq<Response>>, k: nat, jobs: seq<Response>) returns (k': nat, jobs': seq<Response>)
      requires Running(arrivals, k, jobs)
      requires forall i | 0 <= i < |arrivals| :: AllInReach(graph, arrivals[i])
      modifies this
      ensures Running(arrivals, k', jobs') && k' >= k && Unanswered() <= old(Unanswered())
      ensures k' == k ==> Unanswered() < old(Unanswered()) || (Unanswered() == old(Unanswered()) && jobs' == [])
    {
      hide Valid, DerivationsRead, AskedOnce, GoodOutput, Balance, InHand, Unanswered, Waiting;
      var left := Attempt(arrivals, k, jobs);
      k' := SchedulerTurn(arrivals, k, left);
      jobs' := TakeInbox(left);
      ResolveRound();
    }

    /** The worker thread, from start to the end of `finish`.  `arrivals` cuts
        what the scheduler pushes into the portions the thread finds at its
        successive looks at the inbox, so it stands for any interleaving.
        Unless the store throws, every response comes out once, jobs with the
        resolution that asking the store directly gives; the thread ends; and
        the rounds in which a job had to wait are at most two for each path in
        reach.  If it comes to more than `healthyRounds` rounds, the store throws
        in the next, after so many jobs were `tried`, or the destructor ends the
        thread; then what came out is still right, and nothing came out twice. */
    method Run(arrivals: seq<seq<Response>>, healthyRounds: nat, tried: nat, aborted: bool)
      requires Valid() && DerivationsRead() && AskedOnce() && !Waiting()
      requires inbox == pushed == [] && emitted == [] && !closed && !failed
      requires validCache == map[] && probeCache == map[] && failedRounds == 0
      requires forall i | 0 <= i < |arrivals| :: AllInReach(graph, arrivals[i])
      modifies this
      ensures closed && inbox == []
      ensures !failed ==> multiset(Responses(emitted)) == multiset(Flatten(arrivals))
      ensures failed ==> multiset(Responses(emitted)) <= multiset(Flatten(arrivals))
      ensures failed ==> healthyRounds <= 2 * |graph.paths| + 2 * |arrivals|
      ensures Correct(store, graph, emitted) && StatusesRight(store, emitted)
      ensures failedRounds <= 2 * |graph.paths|
    {
      hide StatusesRight, Correct;
      hide Valid, DerivationsRead, AskedOnce, GoodOutput, Balance, InHand, Unanswered, Waiting;
      var k, rounds := 0, 0;
      RunningAtStart(arrivals);
      while true
        invariant Running(arrivals, k, [])
        invariant rounds + Unanswered() <= 2 * |graph.paths| + 2 * k
        decreases |arrivals| - k
      {
        if aborted && rounds == healthyRounds {
          NotBeyond(arrivals, k, []);
          ThreadDies(arrivals, k, []);
          CorrectSays(store, graph, emitted);
          return;
        }
        ghost var before := k;
        k := SchedulerTurn(arrivals, k, []);
        if closed && inbox == [] {
          assert arrivals[..|arrivals|] == arrivals;
          AllOut();
          CorrectSays(store, graph, emitted);
          return;
        }
        var jobs := TakeInbox([]);
        while jobs != []
          invariant Running(arrivals, k, jobs) && before < k
          invariant rounds + Unanswered() + (if jobs == [] then 0 else 1) <= 2 * |graph.paths| + 2 * k
          decreases |arrivals| - k, Unanswered(), |jobs|
        {
          if rounds == healthyRounds {
            NotBeyond(arrivals, k, jobs);
            DieTrying(arrivals, k, jobs, if aborted then 0 else tried);
            CorrectSays(store, graph, emitted);
            return;
          }
          rounds := rounds + 1;
          k, jobs := Round(arrivals, k, jobs);
        }
      }
    }

    lemma NotBeyond(arrivals: seq<seq<Response>>, k: nat, jobs: seq<Response>)
      requires Running(arrivals, k, jobs)
      ensures k <= |arrivals|
    {}

    /** The jobs in hand are lost and what is still pushed is dropped. */
    method ThreadDies(arrivals: seq<seq<Response>>, k: nat, ghost jobs: seq<Response>)
      requires Running(arrivals, k, jobs)
      modifies `failed, `closed, `inbox, `pushed
      ensures failed && closed && inbox == [] && WellFormed(graph) && Correct(store, graph, emitted)
      ensures multiset(Responses(emitted)) <= multiset(Flatten(arrivals))
      ensures failedRounds <= 2 * |graph.paths|
    {
      WhatIsLeft(arrivals, k, jobs);
      hide Running, Correct, Flatten;
      failed := true;
      DropRest(arrivals, k);
      closed := true;
    }

    /** The exception comes in the middle of a round. */
    method DieTrying(arrivals: seq<seq<Response>>, k: nat, jobs: seq<Response>, tried: nat)
      requires Running(arrivals, k, jobs)
      modifies this
      ensures failed && closed && inbox == [] && WellFormed(graph) && Correct(store, graph, emitted)
      ensures multiset(Responses(emitted)) <= multiset(Flatten(arrivals))
      ensures failedRounds <= 2 * |graph.paths|
    {
      hide Valid, DerivationsRead, AskedOnce, GoodOutput, Balance, InHand, Unanswered, Waiting;
      var n := if tried <= |jobs| then tried else |jobs|;
      var left := TryFirst(jobs, n);
      ThreadDies(arrivals, k, left + jobs[n..]);
    }

    method DropRest(arrivals: seq<seq<Response>>, k: nat)
      requires failed && k <= |arrivals|
      modifies `inbox, `pushed
      ensures inbox == old(inbox) && pushed == old(pushed)
    {
      for i := k to |arrivals|
        invariant inbox == old(inbox) && pushed == old(pushed)
      {
        for n := 0 to |arrivals[i]|
          invariant inbox == old(inbox) && pushed == old(pushed)
        {
          Push(arrivals[i][n]);
        }
      }
    }

    lemma WhatIsLeft(arrivals: seq<seq<Response>>, k: nat, jobs: seq<Response>)
      requires Running(arrivals, k, jobs)
      ensures k <= |arrivals| && inbox == [] && WellFormed(graph) && Correct(store, graph, emitted)
      ensures multiset(Responses(emitted)) <= multiset(Flatten(arrivals)) && failedRounds <= 2 * |graph.paths|
    {
      FlattenPrefix(arrivals, k);
    }

    lemma {:induction false} FlattenPrefix(batches: seq<seq<Response>>, k: nat)
      requires k <= |batches|
      ensures multiset(Flatten(batches[..k])) <= multiset(Flatten(batches))
      decreases |batches|
    {
      if k < |batches| {
        FlattenPrefix(batches[..|batches| - 1], k);
        assert batches[..|batches| - 1][..k] == batches[..k];
      } else {
        assert batches[..k] == batches;
      }
    }

    /** When the thread holds nothing and the inbox is empty, all is emitted. */
    lemma AllOut()
      requires GoodOutput() && Balance([]) && inbox == []
      ensures WellFormed(graph) && Correct(store, graph, emitted)
      ensures multiset(Responses(emitted)) == multiset(pushed)
    {}

    lemma RunningAtStart(arrivals: seq<seq<Response>>)
      requires Valid() && DerivationsRead() && AskedOnce() && !Waiting()
      requires inbox == pushed == [] && emitted == [] && !closed && !failed
      requires validCache == map[] && probeCache == map[] && failedRounds == 0
      ensures Running(arrivals, 0, []) && Unanswered() == 2 * |graph.paths|
    {
      assert graph.paths - validCache.Keys == graph.paths;
      assert graph.paths - probeCache.Keys == graph.paths;
      assert arrivals[..0] == [];
      assert Responses(emitted) == [];
    }
  }

  // ---- The width of the batches ---------------------------------------------

  /** The paths whose validity is known, or known or asked, and the same for
      substitutes. */
  datatype Probing = Probing(
    valid: set<StorePath>, validAsked: set<StorePath>,
    probed: set<StorePath>, probeAsked: set<StorePath>)

  /** The paths of the wanted outputs are in `paths`. */
  ghost predicate Among(outputs: seq<Output>, wanted: set<string>, paths: set<StorePath>) {
    forall i | 0 <= i < |outputs| && Wanted(outputs[i], wanted) && outputs[i].path.Some? ::
      outputs[i].path.value in paths
  }

  lemma AmongOneMore(outputs: seq<Output>, k: nat, wanted: set<string>, paths: set<StorePath>)
    requires k < |outputs|
    ensures var o := outputs[k];
            Among(outputs[..k + 1], wanted, paths) <==>
              Among(outputs[..k], wanted, paths) && (Wanted(o, wanted) && o.path.Some? ==> o.path.value in paths)
  {
    assert forall i | 0 <= i < k :: outputs[..k + 1][i] == outputs[..k][i] == outputs[i];
    assert outputs[..k + 1][k] == outputs[k];
  }

  type Visited = map<StorePath, set<string>>

  ghost predicate InputsVisited(g: Graph, v: Visited, e: StorePath) {
    forall i | 0 <= i < |g.read(e).inputs| :: g.read(e).inputs[i].drv in v
  }

  /** There is a path whose substitutes are not known yet, or all can be fetched. */
  ghost predicate Fetchable(a: Answers, p: Probing, missing: seq<StorePath>) {
    (exists x :: x in missing && x !in p.probed) || AllSubstitutable(a, missing)
  }

  /** The wanted outputs of `e` and the substitutes of those that are missing have
      been asked about, as far as that can be told. */
  ghost predicate OutputsAsked(a: Answers, g: Graph, p: Probing, e: StorePath, wanted: set<string>) {
    var outputs := g.read(e).outputs;
    var m := MissingOf(a, outputs, wanted);
    m.known ==>
      && Among(outputs, wanted, p.validAsked)
      && (Among(outputs, wanted, p.valid) ==> forall x | x in m.missing :: x in p.probeAsked)
  }

  /** Nothing below `e` can be needed any more, by what is known. */
  ghost predicate EndsHere(a: Answers, g: Graph, p: Probing, e: StorePath, wanted: set<string>) {
    var outputs := g.read(e).outputs;
    var m := MissingOf(a, outputs, wanted);
    m.known ==> Among(outputs, wanted, p.valid) && Fetchable(a, p, m.missing)
  }

  /** All that is newly visited has been asked about; and whatever can be needed
      below it was visited too, even while its own validity is pending. */
  ghost predicate Widens(a: Answers, g: Graph, p: Probing, v: Visited, v': Visited) {
    && (forall e | e in v :: e in v' && v'[e] == v[e])
    && (forall e | e in v' && e !in v :: OutputsAsked(a, g, p, e, v'[e]))
    && (forall e | e in v' && e !in v && !EndsHere(a, g, p, e, v'[e]) :: InputsVisited(g, v', e))
  }

  /** A failed attempt has asked about the outputs of the job and the substitutes of
      those that are missing; when these do not settle the job, it has walked. */
  ghost predicate JobAsked(a: Answers, g: Graph, p: Probing, job: Job, walked: Visited) {
    var m := MissingOf(a, job.outputs, {});
    if m.known && !Among(job.outputs, {}, p.valid) then Among(job.outputs, {}, p.validAsked)
    else if m.known && Fetchable(a, p, m.missing) then forall x | x in m.missing :: x in p.probeAsked
    else Widens(a, g, p, map[], walked) && job.drvPath in walked
  }

  /** A visit that goes no further. */
  lemma LeafWidens(a: Answers, g: Graph, p: Probing, v: Visited, d: StorePath, w: set<string>)
    requires d !in v && OutputsAsked(a, g, p, d, w) && EndsHere(a, g, p, d, w)
    ensures Widens(a, g, p, v, v[d := w])
  {}

  lemma StaysAsked(a: Answers, g: Graph, p: Probing, p': Probing, d: StorePath, w: set<string>)
    requires p.validAsked <= p'.validAsked && p.probeAsked <= p'.probeAsked && p'.valid == p.valid
    requires p'.probed == p.probed
    ensures OutputsAsked(a, g, p, d, w) ==> OutputsAsked(a, g, p', d, w)
    ensures EndsHere(a, g, p', d, w) <==> EndsHere(a, g, p, d, w)
  {}

  /** A visit that goes on to the inputs. */
  lemma BranchWidens(a: Answers, g: Graph, p: Probing, p': Probing, v: Visited, v': Visited, d: StorePath,
      w: set<string>)
    requires d !in v && Widens(a, g, p', v[d := w], v') && InputsVisited(g, v', d) && OutputsAsked(a, g, p, d, w)
    requires p.validAsked <= p'.validAsked && p.probeAsked <= p'.probeAsked && p'.valid == p.valid
    requires p'.probed == p.probed
    ensures Widens(a, g, p', v, v')
  {
    StaysAsked(a, g, p, p', d, w);
  }

  lemma WidensMore(a: Answers, g: Graph, p: Probing, p': Probing, v: Visited, v1: Visited, v2: Visited)
    requires Widens(a, g, p, v, v1) && Widens(a, g, p', v1, v2)
    requires p.validAsked <= p'.validAsked && p.probeAsked <= p'.probeAsked && p'.valid == p.valid
    requires p'.probed == p.probed
    ensures Widens(a, g, p', v, v2)
  {
    hide OutputsAsked, EndsHere;
    forall e, w
      ensures OutputsAsked(a, g, p, e, w) ==> OutputsAsked(a, g, p', e, w)
      ensures EndsHere(a, g, p', e, w) <==> EndsHere(a, g, p, e, w)
    {
      StaysAsked(a, g, p, p', e, w);
    }
  }

  // ---- Helpers -----------------------------------------------------------

  /** Files the answer yes for the members of `yes`, no for the rest of `batch`;
      what is there already stays. */
  function FileAnswers(cache: map<StorePath, bool>, batch: set<StorePath>,
      yes: set<StorePath>): (r: map<StorePath, bool>)
    ensures r.Keys == cache.Keys + batch
    ensures forall p | p in cache :: r[p] == cache[p]
    ensures forall p | p in batch - cache.Keys :: r[p] == (p in yes)
  {
    (map p | p in batch :: p in yes) + cache
  }

  lemma Shrinks(all: set<StorePath>, known: set<StorePath>, more: set<StorePath>)
    ensures |all - (known + more)| <= |all - known|
    ensures more != {} && more <= all && more !! known ==> |all - (known + more)| < |all - known|
  {
    var rest := all - (known + more);
    var gone := (all - known) * more;
    assert all - known == rest + gone && rest !! gone;
    if more != {} && more <= all && more !! known {
      assert gone == more;
    }
  }

  lemma {:induction false} MissingAppend(a: Answers, outputs: seq<Output>, o: Output, wanted: set<string>)
    ensures var m, m' := MissingOf(a, outputs, wanted), MissingOf(a, outputs + [o], wanted);
            && m'.known == (m.known && (Wanted(o, wanted) ==> o.path.Some?))
            && (m'.known ==>
                  m'.missing == m.missing + if Wanted(o, wanted) && !a.valid(o.path.value) then [o.path.value] else [])
  {
    if outputs == [] {
      assert outputs + [o] == [o];
      assert MissingOf(a, [o][1..], wanted) == Missing(true, []);
    } else {
      assert (outputs + [o])[1..] == outputs[1..] + [o];
      MissingAppend(a, outputs[1..], o, wanted);
    }
  }

  lemma {:induction false} MissingUnknown(a: Answers, outputs: seq<Output>, k: nat, wanted: set<string>)
    requires k < |outputs| && Wanted(outputs[k], wanted) && outputs[k].path.None?
    ensures !MissingOf(a, outputs, wanted).known
  {
    if k > 0 {
      MissingUnknown(a, outputs[1..], k - 1, wanted);
    }
  }

  lemma InsertKeeps(s: seq<StorePath>, at: nat, p: StorePath)
    requires Ascending(s) && at <= |s|
    requires forall i | 0 <= i < at :: s[i] <= p
    requires at < |s| ==> p < s[at]
    ensures Ascending(s[..at] + [p] + s[at..])
    ensures multiset(s[..at] + [p] + s[at..]) == multiset(s) + multiset{p}
  {
    assert s == s[..at] + s[at..];
  }

  method SortPaths(paths: seq<StorePath>) returns (sorted: seq<StorePath>)
    ensures Ascending(sorted) && multiset(sorted) == multiset(paths)
    ensures forall i, j | 0 <= i < j < |sorted| :: sorted[i] <= sorted[j]
  {
    sorted := [];
    for k := 0 to |paths|
      invariant Ascending(sorted) && multiset(sorted) == multiset(paths[..k])
    {
      var at := 0;
      while at < |sorted| && sorted[at] <= paths[k]
        invariant at <= |sorted| && forall i | 0 <= i < at :: sorted[i] <= paths[k]
      {
        at := at + 1;
      }
      InsertKeeps(sorted, at, paths[k]);
      assert paths[..k + 1] == paths[..k] + [paths[k]];
      sorted := sorted[..at] + [paths[k]] + sorted[at..];
    }
    assert paths[..|paths|] == paths;
  }

  method SetToSorted(paths: set<StorePath>) returns (sorted: seq<StorePath>)
    ensures Ascending(sorted) && multiset(sorted) == multiset(paths)
  {
    var rest, listed := paths, [];
    while rest != {}
      invariant rest <= paths && multiset(listed) + multiset(rest) == multiset(paths)
      decreases rest
    {
      var p :| p in rest;
      rest := rest - {p};
      listed := listed + [p];
    }
    sorted := SortPaths(listed);
  }
}
