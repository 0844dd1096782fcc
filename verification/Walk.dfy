/** The walk over a derivation's inputs that decides what a job still needs, as
    it would be done by asking the store about every path directly
    (src/cache-status-resolver.cc).  The resolver, which asks in batches and
    starts over, is proved against these functions in `Resolver`. */
module Walk {
  import opened Wrappers

  /** Store paths, numbered in the order `sortPaths` puts them. */
  type StorePath = nat

  datatype Output = Output(name: string, path: Option<StorePath>)
  datatype Input = Input(drv: StorePath, wanted: set<string>)
  datatype Derivation = Derivation(outputs: seq<Output>, inputs: seq<Input>)

  /** What the build store answers about each path. */
  datatype Answers = Answers(valid: StorePath -> bool, substitutable: StorePath -> bool)

  /** The derivations in reach, the paths of their outputs, and a rank that
      shows there is no cycle. */
  datatype Graph = Graph(read: StorePath -> Derivation, rank: StorePath -> nat,
    drvs: set<StorePath>, paths: set<StorePath>)

  predicate InputsBelow(g: Graph, inputs: seq<Input>, r: nat) {
    forall i | 0 <= i < |inputs| :: inputs[i].drv in g.drvs && g.rank(inputs[i].drv) < r
  }

  predicate PathsWithin(outputs: seq<Output>, paths: set<StorePath>) {
    forall i | 0 <= i < |outputs| && outputs[i].path.Some? :: outputs[i].path.value in paths
  }

  ghost predicate WellFormed(g: Graph) {
    forall d | d in g.drvs :: InputsBelow(g, g.read(d).inputs, g.rank(d)) && PathsWithin(g.read(d).outputs, g.paths)
  }

  // ---- The walk ---------------------------------------------------------

  /** Wanted outputs that are not valid; `known` is false when the path of one of
      them cannot be told without building. */
  datatype Missing = Missing(known: bool, missing: seq<StorePath>)

  predicate Wanted(o: Output, wanted: set<string>) { wanted == {} || o.name in wanted }

  function MissingOf(a: Answers, outputs: seq<Output>, wanted: set<string>): Missing {
    if outputs == [] then Missing(true, [])
    else
      var rest := MissingOf(a, outputs[1..], wanted);
      if !Wanted(outputs[0], wanted) then rest
      else if outputs[0].path.None? || !rest.known then Missing(false, [])
      else if a.valid(outputs[0].path.value) then rest
      else Missing(true, [outputs[0].path.value] + rest.missing)
  }

  predicate AllSubstitutable(a: Answers, paths: seq<StorePath>) {
    forall p | p in paths :: a.substitutable(p)
  }

  /** `visited` keeps with each derivation the outputs wanted at its first visit,
      which the program does not need to remember. */
  datatype Traversal = Traversal(
    visited: map<StorePath, set<string>>,
    neededBuilds: seq<StorePath>,
    unknownPaths: seq<StorePath>,
    substitutePaths: set<StorePath>)

  const NOTHING_VISITED := Traversal(map[], [], [], {})

  ghost function Visit(a: Answers, g: Graph, t: Traversal, d: StorePath, wanted: set<string>): Traversal
    requires WellFormed(g) && d in g.drvs
    decreases g.rank(d), 1, 0
  {
    if d in t.visited then t
    else
      var t1 := t.(visited := t.visited[d := wanted]);
      var m := MissingOf(a, g.read(d).outputs, wanted);
      if !m.known then t1.(unknownPaths := t1.unknownPaths + [d])
      else if m.missing == [] then t1
      else if AllSubstitutable(a, m.missing) then
        t1.(substitutePaths := t1.substitutePaths + set p | p in m.missing)
      else
        var t2 := VisitInputs(a, g, t1, g.read(d).inputs, g.rank(d));
        t2.(neededBuilds := t2.neededBuilds + [d])
  }

  ghost function VisitInputs(a: Answers, g: Graph, t: Traversal, inputs: seq<Input>, r: nat): Traversal
    requires WellFormed(g) && InputsBelow(g, inputs, r)
    decreases r, 0, |inputs|
  {
    if inputs == [] then t
    else
      var last := inputs[|inputs| - 1];
      Visit(a, g, VisitInputs(a, g, t, inputs[..|inputs| - 1], r), last.drv, last.wanted)
  }

  // ---- What a job is told --------------------------------------------------

  datatype CacheStatus = Local | Cached | NotBuilt

  datatype Job = Job(drvPath: StorePath, outputs: seq<Output>)

  datatype Resolution = Resolution(
    status: CacheStatus,
    neededBuilds: seq<StorePath>,
    neededSubstitutes: seq<StorePath>,
    unknownPaths: seq<StorePath>)

  predicate Ascending(paths: seq<StorePath>) {
    forall i, j | 0 <= i < j < |paths| :: paths[i] <= paths[j]
  }

  /** All outputs of the job are present or can be fetched. */
  predicate FastPath(a: Answers, job: Job) {
    var m := MissingOf(a, job.outputs, {});
    m.known && AllSubstitutable(a, m.missing)
  }

  /** `r` is what the store's answers say about `job`. */
  ghost predicate Resolves(a: Answers, g: Graph, job: Job, r: Resolution)
    requires WellFormed(g) && job.drvPath in g.drvs
  {
    && Ascending(r.neededSubstitutes)
    && if FastPath(a, job) then
         var missing := MissingOf(a, job.outputs, {}).missing;
         && r.status == (if missing == [] then Local else Cached)
         && r.neededBuilds == [] && r.unknownPaths == []
         && multiset(r.neededSubstitutes) == multiset(missing)
       else
         var t := Visit(a, g, NOTHING_VISITED, job.drvPath, {});
         && r.status == NotBuilt
         && r.neededBuilds == t.neededBuilds && r.unknownPaths == t.unknownPaths
         && multiset(r.neededSubstitutes) == multiset(t.substitutePaths)
  }

  // ---- What the answers mean for a job, path by path ------------------------------

  /** `missing` has the paths of those outputs that are wanted and not valid, in order;
      one of unknown path makes it unknown. */
  lemma {:induction false} MissingExactly(a: Answers, outputs: seq<Output>, wanted: set<string>)
    ensures var m := MissingOf(a, outputs, wanted);
            && (m.known <==> forall o | o in outputs && (wanted == {} || o.name in wanted) :: o.path.Some?)
            && (m.known ==> forall p :: p in m.missing <==>
                  exists o :: o in outputs && (wanted == {} || o.name in wanted) && o.path == Some(p) && !a.valid(p))
  {
    if outputs != [] {
      MissingExactly(a, outputs[1..], wanted);
      assert forall o :: o in outputs <==> o == outputs[0] || o in outputs[1..];
    }
  }

  /** `Local` says that every output is there; `Cached` that those that are not can
      be fetched; and `NotBuilt` that one of them cannot, or that a path is unknown. */
  ghost predicate StatusRight(a: Answers, outputs: seq<Output>, status: CacheStatus) {
    var known := forall o | o in outputs :: o.path.Some?;
    var valid := known && forall o | o in outputs :: a.valid(o.path.value);
    var fetched := known && forall o | o in outputs :: a.valid(o.path.value) || a.substitutable(o.path.value);
    && (status == Local <==> valid)
    && (status == Cached <==> fetched && !valid)
    && (status == NotBuilt <==> !fetched)
  }

  /** A job that is there or can be fetched needs nothing to be built, and exactly the
      paths of its outputs that are not there are to be fetched. */
  ghost predicate NeedsRight(a: Answers, outputs: seq<Output>, r: Resolution) {
    r.status != NotBuilt ==>
      && r.neededBuilds == [] && r.unknownPaths == []
      && forall p :: p in r.neededSubstitutes <==> exists o :: o in outputs && o.path == Some(p) && !a.valid(p)
  }

  lemma ResolutionSays(a: Answers, g: Graph, job: Job, r: Resolution)
    requires WellFormed(g) && job.drvPath in g.drvs && Resolves(a, g, job, r)
    ensures StatusRight(a, job.outputs, r.status) && NeedsRight(a, job.outputs, r)
  {
    hide Visit, StatusRight, NeedsRight, AllSubstitutable;
    StatusSays(a, g, job, r);
    NeedsSay(a, g, job, r);
  }

  lemma StatusSays(a: Answers, g: Graph, job: Job, r: Resolution)
    requires WellFormed(g) && job.drvPath in g.drvs && Resolves(a, g, job, r)
    ensures StatusRight(a, job.outputs, r.status)
  {
    hide Visit, AllSubstitutable, Ascending;
    MissingExactly(a, job.outputs, {});
    var m := MissingOf(a, job.outputs, {});
    if m.known {
      FetchableExactly(a, job.outputs, {});
      if m.missing != [] {
        assert m.missing[0] in m.missing;
      }
    }
  }

  lemma NeedsSay(a: Answers, g: Graph, job: Job, r: Resolution)
    requires WellFormed(g) && job.drvPath in g.drvs && Resolves(a, g, job, r)
    ensures NeedsRight(a, job.outputs, r)
  {
    hide Visit, AllSubstitutable, Ascending;
    MissingExactly(a, job.outputs, {});
    if FastPath(a, job) {
      assert forall p :: p in r.neededSubstitutes <==> p in multiset(MissingOf(a, job.outputs, {}).missing);
    }
  }

  lemma FetchableExactly(a: Answers, outputs: seq<Output>, wanted: set<string>)
    requires forall o | o in outputs && (wanted == {} || o.name in wanted) :: o.path.Some?
    ensures AllSubstitutable(a, MissingOf(a, outputs, wanted).missing) <==>
      forall o | o in outputs && (wanted == {} || o.name in wanted) ::
        a.valid(o.path.value) || a.substitutable(o.path.value)
  {
    MissingExactly(a, outputs, wanted);
    var missing := MissingOf(a, outputs, wanted).missing;
    forall o | o in outputs && (wanted == {} || o.name in wanted)
      ensures o.path.value in missing <==> !a.valid(o.path.value)
    {
    }
  }

  lemma SameHead(p: seq<StorePath>, q: seq<StorePath>)
    requires Ascending(p) && Ascending(q) && multiset(p) == multiset(q) && p != [] && q != []
    ensures p[0] == q[0]
  {
    assert p[0] in multiset(q) && q[0] in multiset(p);
    assert p[0] in q && q[0] in p;
  }

  lemma {:induction false} AscendingUnique(p: seq<StorePath>, q: seq<StorePath>)
    requires Ascending(p) && Ascending(q) && multiset(p) == multiset(q)
    ensures p == q
  {
    assert |p| == |multiset(p)| && |q| == |multiset(q)|;
    if p != [] {
      SameHead(p, q);
      var p', q' := p[1..], q[1..];
      assert p == [p[0]] + p' && q == [q[0]] + q';
      assert multiset(p') == multiset(p) - multiset{p[0]};
      assert multiset(q') == multiset(q) - multiset{q[0]};
      AscendingUnique(p', q');
    }
  }

  /** The store's answers leave nothing open. */
  lemma ResolutionUnique(a: Answers, g: Graph, job: Job, r: Resolution, r': Resolution)
    requires WellFormed(g) && job.drvPath in g.drvs
    requires Resolves(a, g, job, r) && Resolves(a, g, job, r')
    ensures r == r'
  {
    AscendingUnique(r.neededSubstitutes, r'.neededSubstitutes);
  }

  ghost predicate NoDuplicates(s: seq<StorePath>) {
    forall i, j | 0 <= i < j < |s| :: s[i] != s[j]
  }

  lemma {:induction false} CountedOnce(s: seq<StorePath>, p: StorePath)
    requires NoDuplicates(s)
    ensures multiset(s)[p] <= 1
  {
    if s != [] {
      assert s == [s[0]] + s[1..];
      CountedOnce(s[1..], p);
      assert s[0] !in s[1..];
    }
  }

  lemma CountedTwice(s: seq<StorePath>, i: nat, j: nat)
    requires i < j < |s| && s[i] == s[j]
    ensures multiset(s)[s[i]] >= 2
  {
    assert s == s[..j] + s[j..];
    assert s[..j][i] in s[..j] && s[j..][0] in s[j..];
  }

  lemma DuplicateCounted(s: seq<StorePath>)
    ensures multiset(s) == multiset(set p | p in s) <==> NoDuplicates(s)
  {
    var all := set p | p in s;
    if NoDuplicates(s) {
      forall p ensures multiset(s)[p] == multiset(all)[p] {
        CountedOnce(s, p);
        assert p in multiset(s) <==> p in s;
      }
    } else {
      var i, j :| 0 <= i < j < |s| && s[i] == s[j];
      CountedTwice(s, i, j);
      assert multiset(all)[s[i]] <= 1;
    }
  }

  /** The short cut for jobs whose outputs can all be fetched finds what the full
      walk would find, nothing to build and the same paths to fetch; the lists
      of paths are equal as well unless two outputs share a path, which the
      short cut would list twice. */
  lemma FastPathAgrees(a: Answers, g: Graph, job: Job)
    requires WellFormed(g) && job.drvPath in g.drvs
    requires job.outputs == g.read(job.drvPath).outputs && FastPath(a, job)
    ensures var t := Visit(a, g, NOTHING_VISITED, job.drvPath, {});
            var missing := MissingOf(a, job.outputs, {}).missing;
            && t.neededBuilds == [] && t.unknownPaths == []
            && t.substitutePaths == (set p | p in missing)
            && (multiset(missing) == multiset(t.substitutePaths) <==> NoDuplicates(missing))
  {
    DuplicateCounted(MissingOf(a, job.outputs, {}).missing);
  }

  // ---- Build order -------------------------------------------------------

  /** `e` was dealt with as the outputs `w` call for. */
  ghost predicate SettledFor(a: Answers, g: Graph, t: Traversal, e: StorePath, w: set<string>) {
    var m := MissingOf(a, g.read(e).outputs, w);
    if !m.known then e in t.unknownPaths
    else if AllSubstitutable(a, m.missing) then forall p | p in m.missing :: p in t.substitutePaths
    else e in t.neededBuilds
  }

  /** `w` is what the job itself, or some visited derivation, wants of `e`. */
  ghost predicate Asked(g: Graph, t: Traversal, root: StorePath, e: StorePath, w: set<string>) {
    (e == root && w == {}) || exists f :: f in t.visited && Input(e, w) in g.read(f).inputs
  }

  /** `e` was dealt with as its first visit called for. */
  ghost predicate Settled(a: Answers, g: Graph, t: Traversal, root: StorePath, e: StorePath)
    requires e in t.visited
  {
    Asked(g, t, root, e, t.visited[e]) && SettledFor(a, g, t, e, t.visited[e])
  }

  /** Everything visited is dealt with, except the derivations in `open` whose
      inputs are being visited. */
  ghost predicate Closed(a: Answers, g: Graph, t: Traversal, root: StorePath, open: set<StorePath>) {
    && open <= t.visited.Keys <= g.drvs
    && NoDuplicates(t.neededBuilds)
    && (forall e | e in t.neededBuilds :: e in t.visited.Keys - open)
    && (forall e | e in t.visited.Keys - open :: Settled(a, g, t, root, e))
    && (forall k, i | 0 <= k < |t.neededBuilds| && 0 <= i < |g.read(t.neededBuilds[k]).inputs| ::
          var e := g.read(t.neededBuilds[k]).inputs[i].drv;
          e in t.visited.Keys - open && (e in t.neededBuilds ==> e in t.neededBuilds[..k]))
  }

  ghost predicate Extends(t: Traversal, t': Traversal) {
    && (forall d | d in t.visited :: d in t'.visited && t'.visited[d] == t.visited[d])
    && t.neededBuilds <= t'.neededBuilds
    && t.unknownPaths <= t'.unknownPaths && t.substitutePaths <= t'.substitutePaths
  }

  lemma SettledStays(a: Answers, g: Graph, t: Traversal, t': Traversal, root: StorePath, e: StorePath)
    requires e in t.visited && Settled(a, g, t, root, e) && Extends(t, t')
    ensures Settled(a, g, t', root, e)
  {
    var w := t.visited[e];
    assert forall f | f in t.neededBuilds :: f in t'.neededBuilds;
    assert forall f | f in t.unknownPaths :: f in t'.unknownPaths;
    assert Asked(g, t', root, e, w) && SettledFor(a, g, t', e, w);
  }

  /** A visited leaf: nothing is added to the builds. */
  lemma LeafCloses(a: Answers, g: Graph, t: Traversal, t': Traversal, root: StorePath, open: set<StorePath>,
      d: StorePath, w: set<string>)
    requires Closed(a, g, t, root, open) && d !in t.visited && d in g.drvs
    requires Extends(t, t') && t'.visited == t.visited[d := w] && t'.neededBuilds == t.neededBuilds
    requires Asked(g, t', root, d, w) && SettledFor(a, g, t', d, w)
    ensures Closed(a, g, t', root, open)
  {
    forall e | e in t'.visited.Keys - open
      ensures Settled(a, g, t', root, e)
    {
      if e != d {
        SettledStays(a, g, t, t', root, e);
      }
    }
  }

  /** `d` joins the builds after its inputs were visited. */
  lemma BuildCloses(a: Answers, g: Graph, t: Traversal, root: StorePath, open: set<StorePath>, d: StorePath,
      w: set<string>)
    requires WellFormed(g) && d in g.drvs && d !in open
    requires Closed(a, g, t, root, open + {d})
    requires forall i | 0 <= i < |g.read(d).inputs| :: g.read(d).inputs[i].drv in t.visited.Keys - (open + {d})
    requires d in t.visited && t.visited[d] == w
    requires Asked(g, t, root, d, w) && SettledFor(a, g, t.(neededBuilds := t.neededBuilds + [d]), d, w)
    ensures Closed(a, g, t.(neededBuilds := t.neededBuilds + [d]), root, open)
  {
    var t' := t.(neededBuilds := t.neededBuilds + [d]);
    assert forall k | 0 <= k < |t.neededBuilds| :: t.neededBuilds[k] in t.neededBuilds;
    forall e | e in t'.visited.Keys - open
      ensures Settled(a, g, t', root, e)
    {
      if e == d {
        assert Asked(g, t', root, d, w);
      } else {
        SettledStays(a, g, t, t', root, e);
      }
    }
    forall k, i | 0 <= k < |t'.neededBuilds| && 0 <= i < |g.read(t'.neededBuilds[k]).inputs|
      ensures var e := g.read(t'.neededBuilds[k]).inputs[i].drv;
              e in t'.visited.Keys - open && (e in t'.neededBuilds ==> e in t'.neededBuilds[..k])
    {
      var e := g.read(t'.neededBuilds[k]).inputs[i].drv;
      if k < |t.neededBuilds| {
        assert t'.neededBuilds[..k] == t.neededBuilds[..k];
        assert e in t.visited.Keys - (open + {d}) && e != d;
      } else {
        assert t'.neededBuilds[..k] == t.neededBuilds;
        assert e != d;
      }
    }
  }

  /** A derivation whose inputs are to be visited. */
  lemma OpeningCloses(a: Answers, g: Graph, t: Traversal, root: StorePath, open: set<StorePath>, d: StorePath,
      w: set<string>)
    requires Closed(a, g, t, root, open) && d !in t.visited && d in g.drvs
    ensures Closed(a, g, t.(visited := t.visited[d := w]), root, open + {d})
  {
    var t1 := t.(visited := t.visited[d := w]);
    forall e | e in t1.visited.Keys - (open + {d})
      ensures Settled(a, g, t1, root, e)
    {
      SettledStays(a, g, t, t1, root, e);
    }
  }

  lemma {:induction false} VisitCloses(a: Answers, g: Graph, t: Traversal, root: StorePath, open: set<StorePath>,
      d: StorePath, w: set<string>)
    requires WellFormed(g) && d in g.drvs
    requires Closed(a, g, t, root, open) && Asked(g, t, root, d, w)
    requires forall o | o in open :: g.rank(o) > g.rank(d)
    ensures var t' := Visit(a, g, t, d, w);
            Closed(a, g, t', root, open) && Extends(t, t') && d in t'.visited.Keys - open
    decreases g.rank(d), 1, 0
  {
    if d !in t.visited {
      var t' := Visit(a, g, t, d, w);
      var t1 := t.(visited := t.visited[d := w]);
      var m := MissingOf(a, g.read(d).outputs, w);
      assert Asked(g, t1, root, d, w);
      if !m.known || AllSubstitutable(a, m.missing) {
        assert Asked(g, t', root, d, w);
        LeafCloses(a, g, t, t', root, open, d, w);
      } else {
        OpeningCloses(a, g, t, root, open, d, w);
        VisitInputsCloses(a, g, t1, root, open + {d}, d, |g.read(d).inputs|);
        assert g.read(d).inputs[..|g.read(d).inputs|] == g.read(d).inputs;
        var t2 := VisitInputs(a, g, t1, g.read(d).inputs, g.rank(d));
        assert Asked(g, t2, root, d, w);
        BuildCloses(a, g, t2, root, open, d, w);
      }
    }
  }

  lemma {:induction false} VisitInputsCloses(a: Answers, g: Graph, t: Traversal, root: StorePath,
      open: set<StorePath>, d: StorePath, n: nat)
    requires WellFormed(g) && d in g.drvs && d in t.visited && n <= |g.read(d).inputs|
    requires Closed(a, g, t, root, open)
    requires forall o | o in open :: g.rank(o) >= g.rank(d)
    ensures var t' := VisitInputs(a, g, t, g.read(d).inputs[..n], g.rank(d));
            && Closed(a, g, t', root, open) && Extends(t, t')
            && forall i | 0 <= i < n :: g.read(d).inputs[i].drv in t'.visited.Keys - open
    decreases g.rank(d), 0, n
  {
    if n > 0 {
      var inputs := g.read(d).inputs;
      VisitInputsCloses(a, g, t, root, open, d, n - 1);
      assert inputs[..n][..n - 1] == inputs[..n - 1];
      var t1 := VisitInputs(a, g, t, inputs[..n - 1], g.rank(d));
      var input := inputs[n - 1];
      assert Input(input.drv, input.wanted) in inputs;
      assert Asked(g, t1, root, input.drv, input.wanted);
      VisitCloses(a, g, t1, root, open, input.drv, input.wanted);
    }
  }

  /** The builds of a job come in an order in which they can be done: each once,
      after all its inputs that must be built.  And nothing is forgotten:
      every input of a build was dealt with as its first visit called for: as
      unknown, to be built, or with all that is missing to be fetched. */
  lemma BuildOrder(a: Answers, g: Graph, root: StorePath)
    requires WellFormed(g) && root in g.drvs
    ensures var t := Visit(a, g, NOTHING_VISITED, root, {});
            && NoDuplicates(t.neededBuilds)
            && (forall k, i | 0 <= k < |t.neededBuilds| && 0 <= i < |g.read(t.neededBuilds[k]).inputs| ::
                  var e := g.read(t.neededBuilds[k]).inputs[i].drv;
                  && e in t.visited && Settled(a, g, t, root, e)
                  && (e in t.neededBuilds ==> e in t.neededBuilds[..k]))
  {
    assert Closed(a, g, NOTHING_VISITED, root, {});
    VisitCloses(a, g, NOTHING_VISITED, root, {}, root, {});
  }

  // ---- Nothing is visited for nothing ---------------------------------------------

  /** `f` is being or needs to be built and wants `w` of `e`. */
  ghost predicate LeadsTo(g: Graph, t: Traversal, open: set<StorePath>, f: StorePath, e: StorePath, w: set<string>) {
    (f in t.neededBuilds || f in open) && Input(e, w) in g.read(f).inputs
  }

  ghost predicate Led(g: Graph, t: Traversal, root: StorePath, open: set<StorePath>, e: StorePath, w: set<string>) {
    (e == root && w == {}) || exists f :: LeadsTo(g, t, open, f, e, w)
  }

  ghost predicate AllLed(g: Graph, t: Traversal, root: StorePath, open: set<StorePath>) {
    forall e | e in t.visited :: Led(g, t, root, open, e, t.visited[e])
  }

  lemma {:induction false} VisitLed(a: Answers, g: Graph, t: Traversal, root: StorePath, open: set<StorePath>,
      d: StorePath, w: set<string>)
    requires WellFormed(g) && d in g.drvs && AllLed(g, t, root, open) && Led(g, t, root, open, d, w)
    ensures var t' := Visit(a, g, t, d, w);
            AllLed(g, t', root, open) && t.neededBuilds <= t'.neededBuilds
    decreases g.rank(d), 1, 0
  {
    hide AllSubstitutable, MissingOf;
    if d !in t.visited {
      var t1 := t.(visited := t.visited[d := w]);
      AddLed(g, t, t1, root, open, open, d, w);
      var m := MissingOf(a, g.read(d).outputs, w);
      if m.known && m.missing != [] && !AllSubstitutable(a, m.missing) {
        AddLed(g, t, t1, root, open, open + {d}, d, w);
        assert g.read(d).inputs[..|g.read(d).inputs|] == g.read(d).inputs;
        VisitInputsLed(a, g, t1, root, open + {d}, d, |g.read(d).inputs|);
        BuiltLed(g, VisitInputs(a, g, t1, g.read(d).inputs, g.rank(d)), root, open, d);
      } else {
        SameLed(g, t1, Visit(a, g, t, d, w), root, open);
      }
    }
  }

  lemma AddLed(g: Graph, t: Traversal, t': Traversal, root: StorePath, open: set<StorePath>, open': set<StorePath>,
      d: StorePath, w: set<string>)
    requires AllLed(g, t, root, open) && Led(g, t, root, open, d, w) && open <= open'
    requires t'.visited == t.visited[d := w] && t'.neededBuilds == t.neededBuilds
    ensures AllLed(g, t', root, open')
  {
    forall e | e in t'.visited
      ensures Led(g, t', root, open', e, t'.visited[e])
    {
      LedStays(g, t, t', root, open, open', e, t'.visited[e]);
    }
  }

  lemma LedStays(g: Graph, t: Traversal, t': Traversal, root: StorePath, open: set<StorePath>, open': set<StorePath>,
      e: StorePath, w: set<string>)
    requires Led(g, t, root, open, e, w)
    requires forall f | f in t.neededBuilds || f in open :: f in t'.neededBuilds || f in open'
    ensures Led(g, t', root, open', e, w)
  {
    if e != root || w != {} {
      var f :| LeadsTo(g, t, open, f, e, w);
      assert LeadsTo(g, t', open', f, e, w);
    }
  }

  lemma SameLed(g: Graph, t: Traversal, t': Traversal, root: StorePath, open: set<StorePath>)
    requires AllLed(g, t, root, open) && t'.visited == t.visited && t'.neededBuilds == t.neededBuilds
    ensures AllLed(g, t', root, open)
  {
    forall e | e in t'.visited
      ensures Led(g, t', root, open, e, t'.visited[e])
    {
      LedStays(g, t, t', root, open, open, e, t.visited[e]);
    }
  }

  lemma BuiltLed(g: Graph, t: Traversal, root: StorePath, open: set<StorePath>, d: StorePath)
    requires AllLed(g, t, root, open + {d})
    ensures AllLed(g, t.(neededBuilds := t.neededBuilds + [d]), root, open)
  {
    var t' := t.(neededBuilds := t.neededBuilds + [d]);
    forall e | e in t'.visited
      ensures Led(g, t', root, open, e, t'.visited[e])
    {
      LedStays(g, t, t', root, open + {d}, open, e, t.visited[e]);
    }
  }

  lemma {:induction false} VisitInputsLed(a: Answers, g: Graph, t: Traversal, root: StorePath, open: set<StorePath>,
      d: StorePath, n: nat)
    requires WellFormed(g) && d in g.drvs && d in open && n <= |g.read(d).inputs| && AllLed(g, t, root, open)
    ensures var t' := VisitInputs(a, g, t, g.read(d).inputs[..n], g.rank(d));
            AllLed(g, t', root, open) && t.neededBuilds <= t'.neededBuilds
    decreases g.rank(d), 0, n
  {
    hide AllLed;
    var inputs := g.read(d).inputs;
    if n > 0 {
      assert inputs[..n][..n - 1] == inputs[..n - 1];
      VisitInputsLed(a, g, t, root, open, d, n - 1);
      var input := inputs[n - 1];
      var t1 := VisitInputs(a, g, t, inputs[..n - 1], g.rank(d));
      assert Input(input.drv, input.wanted) in inputs;
      assert LeadsTo(g, t1, open, d, input.drv, input.wanted);
      VisitLed(a, g, t1, root, open, input.drv, input.wanted);
    }
  }

  /** The walk goes no further than it must: besides the job itself it visits only
      what a derivation that needs to be built wants. */
  lemma OnlyBuildsLeadOn(a: Answers, g: Graph, root: StorePath)
    requires WellFormed(g) && root in g.drvs
    ensures var t := Visit(a, g, NOTHING_VISITED, root, {});
            forall e | e in t.visited :: (e == root && t.visited[e] == {})
              || exists f :: f in t.neededBuilds && Input(e, t.visited[e]) in g.read(f).inputs
  {
    hide Visit;
    assert AllLed(g, NOTHING_VISITED, root, {});
    VisitLed(a, g, NOTHING_VISITED, root, {}, root, {});
    var t := Visit(a, g, NOTHING_VISITED, root, {});
    forall e | e in t.visited && (e != root || t.visited[e] != {})
      ensures exists f :: f in t.neededBuilds && Input(e, t.visited[e]) in g.read(f).inputs
    {
      assert Led(g, t, root, {}, e, t.visited[e]);
      var f :| LeadsTo(g, t, {}, f, e, t.visited[e]);
    }
  }
}
