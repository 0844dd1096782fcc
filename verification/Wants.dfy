/** Only the first visit of a derivation counts (`visited` in
    src/cache-status-resolver.cc): what becomes of a later user that wants other
    outputs of it. */
module Wants {
  import opened Wrappers
  import opened Walk

  /** What a visit makes of a derivation.  One that is all there is fetched, with
      nothing to fetch. */
  datatype Fate = Unknown | Fetched | Built

  function FateOf(a: Answers, outputs: seq<Output>, w: set<string>): Fate {
    var m := MissingOf(a, outputs, w);
    if !m.known then Unknown else if AllSubstitutable(a, m.missing) then Fetched else Built
  }

  ghost predicate UnknownIn(outputs: seq<Output>, w: set<string>) {
    exists o :: o in outputs && Wanted(o, w) && o.path.None?
  }

  ghost function PathsIn(outputs: seq<Output>, w: set<string>): set<StorePath> {
    set o | o in outputs && Wanted(o, w) && o.path.Some? :: o.path.value
  }

  lemma MissingIs(a: Answers, outputs: seq<Output>, w: set<string>)
    ensures var m := MissingOf(a, outputs, w);
            && (m.known <==> !UnknownIn(outputs, w))
            && (m.known ==> forall p :: p in m.missing <==> p in PathsIn(outputs, w) && !a.valid(p))
  {
    MissingExactly(a, outputs, w);
  }

  // ---- Where the results of a walk come from -----------------------------------------

  ghost predicate FetchedFrom(a: Answers, g: Graph, visited: map<StorePath, set<string>>, e: StorePath, p: StorePath) {
    && e in visited && FateOf(a, g.read(e).outputs, visited[e]) == Fetched
    && p in MissingOf(a, g.read(e).outputs, visited[e]).missing
  }

  /** `p` is fetched for some derivation. */
  ghost predicate Supplied(a: Answers, g: Graph, visited: map<StorePath, set<string>>, p: StorePath) {
    exists e :: FetchedFrom(a, g, visited, e, p)
  }

  /** Everything found was found at the first visit of some derivation. */
  ghost predicate Justified(a: Answers, g: Graph, t: Traversal) {
    && (forall e | e in t.unknownPaths :: e in t.visited && FateOf(a, g.read(e).outputs, t.visited[e]) == Unknown)
    && (forall e | e in t.neededBuilds :: e in t.visited && FateOf(a, g.read(e).outputs, t.visited[e]) == Built)
    && (forall p | p in t.substitutePaths :: Supplied(a, g, t.visited, p))
  }

  ghost predicate Remembers(t: Traversal, t': Traversal) {
    forall e | e in t.visited :: e in t'.visited && t'.visited[e] == t.visited[e]
  }

  ghost predicate NewBelow(g: Graph, t: Traversal, t': Traversal, r: nat) {
    forall e | e in t'.visited && e !in t.visited :: g.rank(e) < r
  }

  lemma StillJustified(a: Answers, g: Graph, t: Traversal, t': Traversal)
    requires Justified(a, g, t) && Remembers(t, t')
    requires t'.unknownPaths == t.unknownPaths && t'.neededBuilds == t.neededBuilds
    requires t'.substitutePaths == t.substitutePaths
    ensures Justified(a, g, t')
  {
    forall p | p in t'.substitutePaths
      ensures Supplied(a, g, t'.visited, p)
    {
      var e :| FetchedFrom(a, g, t.visited, e, p);
      assert FetchedFrom(a, g, t'.visited, e, p);
    }
  }

  lemma {:induction false} VisitJustified(a: Answers, g: Graph, t: Traversal, d: StorePath, w: set<string>)
    requires WellFormed(g) && d in g.drvs && Justified(a, g, t)
    ensures var t' := Visit(a, g, t, d, w);
            Justified(a, g, t') && Remembers(t, t') && NewBelow(g, t, t', g.rank(d) + 1)
    decreases g.rank(d), 1, 0
  {
    hide Supplied, AllSubstitutable, MissingOf;
    if d !in t.visited {
      var t1 := t.(visited := t.visited[d := w]);
      StillJustified(a, g, t, t1);
      match FateOf(a, g.read(d).outputs, w)
      case Unknown =>
      case Fetched => FetchJustified(a, g, t1, d);
      case Built => VisitInputsJustified(a, g, t1, g.read(d).inputs, g.rank(d));
    }
  }

  lemma FetchJustified(a: Answers, g: Graph, t: Traversal, d: StorePath)
    requires Justified(a, g, t) && d in t.visited && FateOf(a, g.read(d).outputs, t.visited[d]) == Fetched
    ensures var missing := MissingOf(a, g.read(d).outputs, t.visited[d]).missing;
            Justified(a, g, t.(substitutePaths := t.substitutePaths + set p | p in missing))
  {
    var missing := MissingOf(a, g.read(d).outputs, t.visited[d]).missing;
    var t' := t.(substitutePaths := t.substitutePaths + set p | p in missing);
    forall p | p in t'.substitutePaths
      ensures Supplied(a, g, t'.visited, p)
    {
      if p in missing {
        assert FetchedFrom(a, g, t'.visited, d, p);
      } else {
        var e :| FetchedFrom(a, g, t.visited, e, p);
        assert FetchedFrom(a, g, t'.visited, e, p);
      }
    }
  }

  lemma {:induction false} VisitInputsJustified(a: Answers, g: Graph, t: Traversal, inputs: seq<Input>, r: nat)
    requires WellFormed(g) && InputsBelow(g, inputs, r) && Justified(a, g, t)
    ensures var t' := VisitInputs(a, g, t, inputs, r);
            Justified(a, g, t') && Remembers(t, t') && NewBelow(g, t, t', r)
    decreases r, 0, |inputs|
  {
    hide Justified;
    if inputs != [] {
      var last := inputs[|inputs| - 1];
      VisitInputsJustified(a, g, t, inputs[..|inputs| - 1], r);
      VisitJustified(a, g, VisitInputs(a, g, t, inputs[..|inputs| - 1], r), last.drv, last.wanted);
    }
  }

  /** All that is known of a finished walk. */
  lemma WalkDone(a: Answers, g: Graph, root: StorePath)
    requires WellFormed(g) && root in g.drvs
    ensures var t := Visit(a, g, NOTHING_VISITED, root, {});
            && Closed(a, g, t, root, {}) && Justified(a, g, t) && root in t.visited
            && forall e | e in t.visited :: g.rank(e) <= g.rank(root)
  {
    assert Closed(a, g, NOTHING_VISITED, root, {});
    VisitCloses(a, g, NOTHING_VISITED, root, {}, root, {});
    VisitJustified(a, g, NOTHING_VISITED, root, {});
  }

  /** The outputs of `e` that are wanted at its first visit. */
  ghost predicate FirstWanted(g: Graph, t: Traversal, e: StorePath, o: Output) {
    e in t.visited && o in g.read(e).outputs && (t.visited[e] == {} || o.name in t.visited[e])
  }

  ghost predicate AllKnown(g: Graph, t: Traversal, e: StorePath) {
    forall o | FirstWanted(g, t, e, o) :: o.path.Some?
  }

  /** A wanted output of `e` is neither there nor can be fetched. */
  ghost predicate Unobtainable(a: Answers, g: Graph, t: Traversal, e: StorePath)
    requires AllKnown(g, t, e)
  {
    exists o :: FirstWanted(g, t, e, o) && !a.valid(o.path.value) && !a.substitutable(o.path.value)
  }

  /** `p` is a wanted output of `e` that is not there, and `e` need not be built. */
  ghost predicate ToFetch(a: Answers, g: Graph, t: Traversal, e: StorePath, p: StorePath) {
    && AllKnown(g, t, e) && !Unobtainable(a, g, t, e)
    && exists o :: FirstWanted(g, t, e, o) && o.path == Some(p) && !a.valid(p)
  }

  /** What the lists of a finished walk hold, output by output: the derivations with
      a wanted output of unknown path; those with one that is neither there nor
      can be fetched; and of all others what is not there. */
  lemma WalkFinds(a: Answers, g: Graph, root: StorePath)
    requires WellFormed(g) && root in g.drvs
    ensures var t := Visit(a, g, NOTHING_VISITED, root, {});
            && root in t.visited
            && (forall e :: e in t.unknownPaths <==> e in t.visited && !AllKnown(g, t, e))
            && (forall e :: e in t.neededBuilds <==> e in t.visited && AllKnown(g, t, e) && Unobtainable(a, g, t, e))
            && (forall p :: p in t.substitutePaths <==> exists e :: ToFetch(a, g, t, e, p))
  {
    hide Visit, Closed, Justified, FetchedFrom, MissingOf, AllSubstitutable;
    WalkDone(a, g, root);
    var t := Visit(a, g, NOTHING_VISITED, root, {});
    forall e
      ensures e in t.unknownPaths <==> e in t.visited && !AllKnown(g, t, e)
      ensures e in t.neededBuilds <==> e in t.visited && AllKnown(g, t, e) && Unobtainable(a, g, t, e)
    {
      ListedVisited(a, g, t, e);
      if e in t.visited {
        FateExactly(a, g, t, root, e);
        FateIs(a, g, t, e);
      }
    }
    forall p
      ensures p in t.substitutePaths <==> exists e :: ToFetch(a, g, t, e, p)
    {
      FetchedExactly(a, g, t, root, p);
      SuppliedIs(a, g, t, root, p);
    }
  }

  lemma ListedVisited(a: Answers, g: Graph, t: Traversal, e: StorePath)
    requires Justified(a, g, t)
    ensures e in t.unknownPaths || e in t.neededBuilds ==> e in t.visited
  {}

  lemma FateIs(a: Answers, g: Graph, t: Traversal, e: StorePath)
    requires e in t.visited
    ensures var fate := FateOf(a, g.read(e).outputs, t.visited[e]);
            && (fate == Unknown <==> !AllKnown(g, t, e))
            && (fate == Built <==> AllKnown(g, t, e) && Unobtainable(a, g, t, e))
  {
    hide AllSubstitutable, MissingOf;
    MissingExactly(a, g.read(e).outputs, t.visited[e]);
    assert forall o | FirstWanted(g, t, e, o) :: o in g.read(e).outputs;
    if AllKnown(g, t, e) {
      FetchableExactly(a, g.read(e).outputs, t.visited[e]);
    }
  }

  lemma SuppliedIs(a: Answers, g: Graph, t: Traversal, root: StorePath, p: StorePath)
    requires Closed(a, g, t, root, {}) && Justified(a, g, t)
    ensures Supplied(a, g, t.visited, p) <==> exists e :: ToFetch(a, g, t, e, p)
  {
    hide AllSubstitutable, MissingOf, Closed, Justified;
    forall e | e in t.visited
      ensures FetchedFrom(a, g, t.visited, e, p) <==> ToFetch(a, g, t, e, p)
    {
      FateExactly(a, g, t, root, e);
      FateIs(a, g, t, e);
      MissingExactly(a, g.read(e).outputs, t.visited[e]);
    }
  }

  // ---- When a later want is met ----------------------------------------------------

  /** After the walk, a visited derivation is dealt with as the outputs `w` call for
      if and only if its first visit had the same fate, or `w` needs only paths
      that are fetched, here or for another derivation. */
  lemma LaterWantMet(a: Answers, g: Graph, root: StorePath, e: StorePath, w: set<string>)
    requires WellFormed(g) && root in g.drvs
    ensures var t := Visit(a, g, NOTHING_VISITED, root, {});
            e in t.visited ==> (
              SettledFor(a, g, t, e, w) <==>
                match FateOf(a, g.read(e).outputs, w)
                case Unknown => FateOf(a, g.read(e).outputs, t.visited[e]) == Unknown
                case Built => FateOf(a, g.read(e).outputs, t.visited[e]) == Built
                case Fetched => forall p | p in MissingOf(a, g.read(e).outputs, w).missing ::
                  Supplied(a, g, t.visited, p))
  {
    hide Visit, Closed, Justified, FetchedFrom, MissingOf;
    WalkDone(a, g, root);
    var t := Visit(a, g, NOTHING_VISITED, root, {});
    if e in t.visited {
      FateExactly(a, g, t, root, e);
      forall p
        ensures p in t.substitutePaths <==> Supplied(a, g, t.visited, p)
      {
        FetchedExactly(a, g, t, root, p);
      }
    }
  }

  lemma FateExactly(a: Answers, g: Graph, t: Traversal, root: StorePath, e: StorePath)
    requires Closed(a, g, t, root, {}) && Justified(a, g, t) && e in t.visited
    ensures e in t.unknownPaths <==> FateOf(a, g.read(e).outputs, t.visited[e]) == Unknown
    ensures e in t.neededBuilds <==> FateOf(a, g.read(e).outputs, t.visited[e]) == Built
  {
    assert Settled(a, g, t, root, e);
  }

  lemma FetchedExactly(a: Answers, g: Graph, t: Traversal, root: StorePath, p: StorePath)
    requires Closed(a, g, t, root, {}) && Justified(a, g, t)
    ensures p in t.substitutePaths <==> Supplied(a, g, t.visited, p)
  {
    if f :| FetchedFrom(a, g, t.visited, f, p) {
      assert Settled(a, g, t, root, f);
    }
  }

  /** The same fate, or all that `w` needs is fetched for `w0`. */
  predicate Covered(a: Answers, outputs: seq<Output>, w0: set<string>, w: set<string>) {
    match FateOf(a, outputs, w)
    case Unknown => FateOf(a, outputs, w0) == Unknown
    case Built => FateOf(a, outputs, w0) == Built
    case Fetched => forall p | p in MissingOf(a, outputs, w).missing ::
      FateOf(a, outputs, w0) == Fetched && p in MissingOf(a, outputs, w0).missing
  }

  /** No path is an output of two derivations. */
  ghost predicate PrivateOutputs(g: Graph) {
    forall d, e | d in g.drvs && e in g.drvs && d != e ::
      PathsIn(g.read(d).outputs, {}) !! PathsIn(g.read(e).outputs, {})
  }

  /** When derivations do not share outputs, the answers about this derivation alone
      decide, by its first wants and the later ones. */
  lemma LaterWantMetIffCovered(a: Answers, g: Graph, root: StorePath, e: StorePath, w: set<string>)
    requires WellFormed(g) && root in g.drvs && PrivateOutputs(g)
    ensures var t := Visit(a, g, NOTHING_VISITED, root, {});
            e in t.visited ==> (SettledFor(a, g, t, e, w) <==> Covered(a, g.read(e).outputs, t.visited[e], w))
  {
    LaterWantMet(a, g, root, e, w);
    WalkDone(a, g, root);
    var t := Visit(a, g, NOTHING_VISITED, root, {});
    if e in t.visited && FateOf(a, g.read(e).outputs, w) == Fetched {
      forall p, f | p in MissingOf(a, g.read(e).outputs, w).missing && FetchedFrom(a, g, t.visited, f, p)
        ensures f == e
      {
        MissingIs(a, g.read(e).outputs, w);
        MissingIs(a, g.read(f).outputs, t.visited[f]);
        assert p in PathsIn(g.read(e).outputs, {}) && p in PathsIn(g.read(f).outputs, {});
      }
      if FateOf(a, g.read(e).outputs, t.visited[e]) == Fetched {
        assert forall p | p in MissingOf(a, g.read(e).outputs, t.visited[e]).missing ::
          FetchedFrom(a, g, t.visited, e, p);
      }
    }
  }

  /** `w` picks the same paths as `w0`, or nothing at all. */
  ghost predicate Interchangeable(outputs: seq<Output>, w0: set<string>, w: set<string>) {
    if UnknownIn(outputs, w) then UnknownIn(outputs, w0)
    else PathsIn(outputs, w) == {} || (!UnknownIn(outputs, w0) && PathsIn(outputs, w) == PathsIn(outputs, w0))
  }

  /** Whatever the store answers, later wants are covered: exactly when they pick the
      same paths as the first, or nothing. */
  lemma AlwaysCovered(outputs: seq<Output>, w0: set<string>, w: set<string>)
    ensures (forall a: Answers :: Covered(a, outputs, w0, w)) <==> Interchangeable(outputs, w0, w)
  {
    if Interchangeable(outputs, w0, w) {
      forall a: Answers
        ensures Covered(a, outputs, w0, w)
      {
        MissingIs(a, outputs, w);
        MissingIs(a, outputs, w0);
      }
    } else {
      var a := SomeUncovered(outputs, w0, w);
      assert !Covered(a, outputs, w0, w);
    }
  }

  /** Store answers under which a later want is not met. */
  lemma SomeUncovered(outputs: seq<Output>, w0: set<string>, w: set<string>) returns (a: Answers)
    requires !Interchangeable(outputs, w0, w)
    ensures !Covered(a, outputs, w0, w)
    ensures forall p | a.valid(p) || a.substitutable(p) :: p in PathsIn(outputs, {})
  {
    var first, later := PathsIn(outputs, w0), PathsIn(outputs, w);
    if later <= first || UnknownIn(outputs, w0) {
      a := Answers(p => false, p => p in later);
    } else {
      a := Answers(p => p in first, p => false);
    }
    MissingIs(a, outputs, w);
    MissingIs(a, outputs, w0);
  }

  /** All users of a derivation pick the same outputs of it, or nothing. */
  ghost predicate MatchingWants(g: Graph) {
    forall f, f', i, j | f in g.drvs && f' in g.drvs && 0 <= i < |g.read(f).inputs| && 0 <= j < |g.read(f').inputs| ::
      g.read(f).inputs[i].drv == g.read(f').inputs[j].drv ==>
        Interchangeable(g.read(g.read(f).inputs[i].drv).outputs, g.read(f').inputs[j].wanted,
          g.read(f).inputs[i].wanted)
  }

  lemma CoveredIsMet(a: Answers, g: Graph, root: StorePath, e: StorePath, w: set<string>)
    requires WellFormed(g) && root in g.drvs
    ensures var t := Visit(a, g, NOTHING_VISITED, root, {});
            e in t.visited && Covered(a, g.read(e).outputs, t.visited[e], w) ==> SettledFor(a, g, t, e, w)
  {
    LaterWantMet(a, g, root, e, w);
    var t := Visit(a, g, NOTHING_VISITED, root, {});
    if e in t.visited && Covered(a, g.read(e).outputs, t.visited[e], w) && FateOf(a, g.read(e).outputs, w) == Fetched {
      assert forall p | p in MissingOf(a, g.read(e).outputs, w).missing :: FetchedFrom(a, g, t.visited, e, p);
    }
  }

  /** Then every input of a build was dealt with as that build wants. */
  lemma MatchingWantsMet(a: Answers, g: Graph, root: StorePath, k: nat, i: nat)
    requires WellFormed(g) && root in g.drvs && MatchingWants(g)
    ensures var t := Visit(a, g, NOTHING_VISITED, root, {});
            k < |t.neededBuilds| && i < |g.read(t.neededBuilds[k]).inputs| ==>
              var input := g.read(t.neededBuilds[k]).inputs[i];
              SettledFor(a, g, t, input.drv, input.wanted)
  {
    var t := Visit(a, g, NOTHING_VISITED, root, {});
    WalkDone(a, g, root);
    if k < |t.neededBuilds| && i < |g.read(t.neededBuilds[k]).inputs| {
      var b := t.neededBuilds[k];
      var input := g.read(b).inputs[i];
      assert b in t.neededBuilds && b in g.drvs && input.drv in t.visited;
      assert g.rank(input.drv) < g.rank(b) <= g.rank(root);
      assert Settled(a, g, t, root, input.drv);
      var f :| f in t.visited && Input(input.drv, t.visited[input.drv]) in g.read(f).inputs;
      var j :| 0 <= j < |g.read(f).inputs| && g.read(f).inputs[j] == Input(input.drv, t.visited[input.drv]);
      AlwaysCovered(g.read(input.drv).outputs, g.read(f).inputs[j].wanted, input.wanted);
      assert Covered(a, g.read(input.drv).outputs, t.visited[input.drv], input.wanted);
      CoveredIsMet(a, g, root, input.drv, input.wanted);
    }
  }

  // ---- Wants that are met whatever the store answers -----------------------------------

  /** Nothing is there and nothing can be fetched: then all that can be reached is
      built. */
  const NOTHING_THERE := Answers(p => false, p => false)

  /** All output paths are known, and every want picks some. */
  ghost predicate Definite(g: Graph, root: StorePath) {
    && (forall d, o | d in g.drvs && o in g.read(d).outputs :: o.path.Some?)
    && PathsIn(g.read(root).outputs, {}) != {}
    && forall d, k | d in g.drvs && 0 <= k < |g.read(d).inputs| :: Picks(g, g.read(d).inputs[k])
  }

  ghost predicate Picks(g: Graph, input: Input) {
    PathsIn(g.read(input.drv).outputs, input.wanted) != {}
  }

  /** Every input of every build was dealt with as that build wants. */
  ghost predicate AllMet(a: Answers, g: Graph, root: StorePath)
    requires WellFormed(g) && root in g.drvs
  {
    var t := Visit(a, g, NOTHING_VISITED, root, {});
    forall b, k | b in t.neededBuilds && 0 <= k < |g.read(b).inputs| ::
      SettledFor(a, g, t, g.read(b).inputs[k].drv, g.read(b).inputs[k].wanted)
  }

  /** All users of a derivation that can be reached pick the same paths of it. */
  ghost predicate UsersAgree(g: Graph, root: StorePath)
    requires WellFormed(g) && root in g.drvs
  {
    var builds := Visit(NOTHING_THERE, g, NOTHING_VISITED, root, {}).neededBuilds;
    forall f, f', i, j | f in builds && f' in builds && 0 <= i < |g.read(f).inputs| && 0 <= j < |g.read(f').inputs| ::
      g.read(f).inputs[i].drv == g.read(f').inputs[j].drv ==>
        PathsIn(g.read(g.read(f).inputs[i].drv).outputs, g.read(f).inputs[i].wanted)
          == PathsIn(g.read(g.read(f).inputs[i].drv).outputs, g.read(f').inputs[j].wanted)
  }

  /** Nothing is there or can be fetched but outputs of `e`. */
  ghost predicate BareBut(a: Answers, g: Graph, e: StorePath) {
    forall d, p | d in g.drvs && d != e && p in PathsIn(g.read(d).outputs, {}) :: !a.valid(p) && !a.substitutable(p)
  }

  lemma BareIsBuilt(a: Answers, g: Graph, root: StorePath, e: StorePath, d: StorePath, w: set<string>)
    requires Definite(g, root) && BareBut(a, g, e) && d in g.drvs && d != e && PathsIn(g.read(d).outputs, w) != {}
    ensures FateOf(a, g.read(d).outputs, w) == Built
  {
    MissingIs(a, g.read(d).outputs, w);
    var p :| p in PathsIn(g.read(d).outputs, w);
    assert p in PathsIn(g.read(d).outputs, {});
    assert p in MissingOf(a, g.read(d).outputs, w).missing;
  }

  /** What is visited for the root or an input picks some paths. */
  lemma FirstWantPicks(a: Answers, g: Graph, root: StorePath, e: StorePath)
    requires WellFormed(g) && root in g.drvs && Definite(g, root)
    ensures var t := Visit(a, g, NOTHING_VISITED, root, {});
            e in t.visited ==> PathsIn(g.read(e).outputs, t.visited[e]) != {}
  {
    WalkDone(a, g, root);
    var t := Visit(a, g, NOTHING_VISITED, root, {});
    if e in t.visited {
      assert Settled(a, g, t, root, e);
      if !(e == root && t.visited[e] == {}) {
        var f, k := UserOf(a, g, t, root, e);
        assert Picks(g, g.read(f).inputs[k]);
      }
    }
  }

  /** The user for which `e` was first visited. */
  lemma UserOf(a: Answers, g: Graph, t: Traversal, root: StorePath, e: StorePath) returns (f: StorePath, k: nat)
    requires WellFormed(g) && Closed(a, g, t, root, {}) && e in t.visited && !(e == root && t.visited[e] == {})
    ensures f in t.visited && f in g.drvs && g.rank(e) < g.rank(f)
    ensures k < |g.read(f).inputs| && g.read(f).inputs[k] == Input(e, t.visited[e])
  {
    assert Settled(a, g, t, root, e);
    f :| f in t.visited && Input(e, t.visited[e]) in g.read(f).inputs;
    k :| 0 <= k < |g.read(f).inputs| && g.read(f).inputs[k] == Input(e, t.visited[e]);
  }

  lemma InputVisited(a: Answers, g: Graph, t: Traversal, root: StorePath, b: StorePath, k: nat)
    requires Closed(a, g, t, root, {}) && b in t.neededBuilds && k < |g.read(b).inputs|
    ensures g.read(b).inputs[k].drv in t.visited
  {
    var n :| 0 <= n < |t.neededBuilds| && t.neededBuilds[n] == b;
    assert g.read(t.neededBuilds[n]).inputs[k].drv in t.visited.Keys - {};
  }

  lemma AllBareBuilt(g: Graph, root: StorePath, e: StorePath)
    requires WellFormed(g) && root in g.drvs && Definite(g, root)
    ensures var t := Visit(NOTHING_THERE, g, NOTHING_VISITED, root, {});
            e in t.visited ==> e in t.neededBuilds && e in g.drvs
  {
    WalkDone(NOTHING_THERE, g, root);
    FirstWantPicks(NOTHING_THERE, g, root, e);
    var t := Visit(NOTHING_THERE, g, NOTHING_VISITED, root, {});
    if e in t.visited {
      FateExactly(NOTHING_THERE, g, t, root, e);
      MissingIs(NOTHING_THERE, g.read(e).outputs, t.visited[e]);
      var p :| p in PathsIn(g.read(e).outputs, t.visited[e]);
      assert p in MissingOf(NOTHING_THERE, g.read(e).outputs, t.visited[e]).missing;
    }
  }

  /** Whatever a walk visits, the walk with nothing there visits. */
  lemma {:induction false} VisitedWhenBare(a: Answers, g: Graph, root: StorePath, e: StorePath)
    requires WellFormed(g) && root in g.drvs && Definite(g, root)
    requires e in Visit(a, g, NOTHING_VISITED, root, {}).visited
    ensures e in Visit(NOTHING_THERE, g, NOTHING_VISITED, root, {}).visited
    decreases g.rank(root) - g.rank(e)
  {
    hide Visit, Closed, Justified, Definite;
    WalkDone(a, g, root);
    WalkDone(NOTHING_THERE, g, root);
    var t, t0 := Visit(a, g, NOTHING_VISITED, root, {}), Visit(NOTHING_THERE, g, NOTHING_VISITED, root, {});
    if e != root {
      var f, k := UserOf(a, g, t, root, e);
      VisitedWhenBare(a, g, root, f);
      AllBareBuilt(g, root, f);
      InputVisited(NOTHING_THERE, g, t0, root, f, k);
    }
  }

  /** What is above `e` is built as long as only outputs of `e` are there. */
  lemma {:induction false} BuiltAbove(a: Answers, g: Graph, root: StorePath, e: StorePath, b: StorePath)
    requires WellFormed(g) && root in g.drvs && Definite(g, root) && BareBut(a, g, e)
    requires b in Visit(NOTHING_THERE, g, NOTHING_VISITED, root, {}).visited && b in g.drvs && g.rank(b) > g.rank(e)
    ensures b in Visit(a, g, NOTHING_VISITED, root, {}).neededBuilds
    decreases g.rank(root) - g.rank(b)
  {
    hide Visit, Closed, Justified, Definite, BareBut;
    WalkDone(a, g, root);
    WalkDone(NOTHING_THERE, g, root);
    var t, t0 := Visit(a, g, NOTHING_VISITED, root, {}), Visit(NOTHING_THERE, g, NOTHING_VISITED, root, {});
    if b != root {
      var f, k := UserOf(NOTHING_THERE, g, t0, root, b);
      BuiltAbove(a, g, root, e, f);
      InputVisited(a, g, t, root, f, k);
    }
    FirstWantPicks(a, g, root, b);
    BareIsBuilt(a, g, root, e, b, t.visited[b]);
    FateExactly(a, g, t, root, b);
  }

  // ---- The first visit is the same ------------------------------------------------

  lemma {:induction false} VisitRemembers(a: Answers, g: Graph, t: Traversal, d: StorePath, w: set<string>)
    requires WellFormed(g) && d in g.drvs
    ensures Remembers(t, Visit(a, g, t, d, w))
    ensures d !in t.visited ==> d in Visit(a, g, t, d, w).visited && Visit(a, g, t, d, w).visited[d] == w
    decreases g.rank(d), 1, 0
  {
    if d !in t.visited {
      VisitInputsRemember(a, g, t.(visited := t.visited[d := w]), g.read(d).inputs, g.rank(d));
    }
  }

  lemma {:induction false} VisitInputsRemember(a: Answers, g: Graph, t: Traversal, inputs: seq<Input>, r: nat)
    requires WellFormed(g) && InputsBelow(g, inputs, r)
    ensures Remembers(t, VisitInputs(a, g, t, inputs, r))
    decreases r, 0, |inputs|
  {
    if inputs != [] {
      var last := inputs[|inputs| - 1];
      VisitInputsRemember(a, g, t, inputs[..|inputs| - 1], r);
      VisitRemembers(a, g, VisitInputs(a, g, t, inputs[..|inputs| - 1], r), last.drv, last.wanted);
    }
  }

  /** Two walks go together until they come to `e`, and come to it for the same wants. */
  ghost predicate Together(t: Traversal, t': Traversal, e: StorePath) {
    && (e in t.visited <==> e in t'.visited)
    && (e in t.visited ==> t.visited[e] == t'.visited[e])
    && (e !in t.visited ==> t == t')
  }

  lemma {:induction false} SameFirstVisit(a: Answers, g: Graph, root: StorePath, e: StorePath,
      t: Traversal, d: StorePath, w: set<string>)
    requires WellFormed(g) && Definite(g, root) && BareBut(a, g, e) && BareBut(NOTHING_THERE, g, e)
    requires d in g.drvs && PathsIn(g.read(d).outputs, w) != {} && e !in t.visited
    ensures Together(Visit(a, g, t, d, w), Visit(NOTHING_THERE, g, t, d, w), e)
    decreases g.rank(d), 1, 0
  {
    hide Definite, BareBut;
    if d == e {
      VisitRemembers(a, g, t, d, w);
      VisitRemembers(NOTHING_THERE, g, t, d, w);
    } else if d !in t.visited {
      BareIsBuilt(a, g, root, e, d, w);
      BareIsBuilt(NOTHING_THERE, g, root, e, d, w);
      var t1 := t.(visited := t.visited[d := w]);
      InputsPick(g, root, d);
      SameFirstInputs(a, g, root, e, t1, g.read(d).inputs, g.rank(d));
      FirstIsMissing(a, g.read(d).outputs, w);
      FirstIsMissing(NOTHING_THERE, g.read(d).outputs, w);
    }
  }

  lemma InputsPick(g: Graph, root: StorePath, d: StorePath)
    requires Definite(g, root) && d in g.drvs
    ensures forall k | 0 <= k < |g.read(d).inputs| :: Picks(g, g.read(d).inputs[k])
  {}

  lemma FirstIsMissing(a: Answers, outputs: seq<Output>, w: set<string>)
    requires FateOf(a, outputs, w) == Built
    ensures var m := MissingOf(a, outputs, w); m.known && m.missing != [] && !AllSubstitutable(a, m.missing)
  {}

  lemma {:induction false} SameFirstInputs(a: Answers, g: Graph, root: StorePath, e: StorePath,
      t: Traversal, inputs: seq<Input>, r: nat)
    requires WellFormed(g) && Definite(g, root) && BareBut(a, g, e) && BareBut(NOTHING_THERE, g, e)
    requires InputsBelow(g, inputs, r) && e !in t.visited
    requires forall k | 0 <= k < |inputs| :: Picks(g, inputs[k])
    ensures Together(VisitInputs(a, g, t, inputs, r), VisitInputs(NOTHING_THERE, g, t, inputs, r), e)
    decreases r, 0, |inputs|
  {
    hide Definite, BareBut, Visit;
    if inputs != [] {
      var last := inputs[|inputs| - 1];
      SameFirstInputs(a, g, root, e, t, inputs[..|inputs| - 1], r);
      var u := VisitInputs(a, g, t, inputs[..|inputs| - 1], r);
      var u0 := VisitInputs(NOTHING_THERE, g, t, inputs[..|inputs| - 1], r);
      if e in u.visited {
        VisitRemembers(a, g, u, last.drv, last.wanted);
        VisitRemembers(NOTHING_THERE, g, u0, last.drv, last.wanted);
      } else {
        assert Picks(g, last);
        SameFirstVisit(a, g, root, e, u, last.drv, last.wanted);
      }
    }
  }

  // ---- The condition on the graph -----------------------------------------------------

  /** A build that picks other paths of `e` than its first visit can be left without. */
  lemma OtherWantFails(g: Graph, root: StorePath, b: StorePath, k: nat) returns (a: Answers)
    requires WellFormed(g) && root in g.drvs && Definite(g, root) && PrivateOutputs(g)
    requires var t0 := Visit(NOTHING_THERE, g, NOTHING_VISITED, root, {});
             && b in t0.neededBuilds && b in g.drvs && k < |g.read(b).inputs| && g.read(b).inputs[k].drv in t0.visited
             && var input := g.read(b).inputs[k];
                var outputs := g.read(input.drv).outputs;
                PathsIn(outputs, input.wanted) != PathsIn(outputs, t0.visited[input.drv])
    ensures !AllMet(a, g, root)
  {
    hide Visit, Closed, Justified, Covered;
    var t0 := Visit(NOTHING_THERE, g, NOTHING_VISITED, root, {});
    var input := g.read(b).inputs[k];
    var e, outputs := input.drv, g.read(input.drv).outputs;
    WalkDone(NOTHING_THERE, g, root);
    FateExactly(NOTHING_THERE, g, t0, root, b);
    InputsPick(g, root, b);
    NotInterchangeable(g, root, e, t0.visited[e], input.wanted);
    a := SomeUncovered(outputs, t0.visited[e], input.wanted);
    assert BareBut(a, g, e);
    assert BareBut(NOTHING_THERE, g, e);
    SameFirstVisit(a, g, root, e, NOTHING_VISITED, root, {});
    BuiltAbove(a, g, root, e, b);
    LaterWantMetIffCovered(a, g, root, e, input.wanted);
  }

  lemma NotInterchangeable(g: Graph, root: StorePath, e: StorePath, w0: set<string>, w: set<string>)
    requires Definite(g, root) && e in g.drvs && PathsIn(g.read(e).outputs, w) != {}
    requires PathsIn(g.read(e).outputs, w) != PathsIn(g.read(e).outputs, w0)
    ensures !Interchangeable(g.read(e).outputs, w0, w)
  {}

  /** When users agree, the want of every build is met. */
  lemma AgreementMeets(a: Answers, g: Graph, root: StorePath, b: StorePath, k: nat)
    requires WellFormed(g) && root in g.drvs && Definite(g, root) && UsersAgree(g, root)
    requires b in Visit(a, g, NOTHING_VISITED, root, {}).neededBuilds && k < |g.read(b).inputs|
    ensures SettledFor(a, g, Visit(a, g, NOTHING_VISITED, root, {}), g.read(b).inputs[k].drv,
      g.read(b).inputs[k].wanted)
  {
    var t := Visit(a, g, NOTHING_VISITED, root, {});
    var input := g.read(b).inputs[k];
    WalkDone(a, g, root);
    assert b in t.visited && b in g.drvs;
    InputVisited(a, g, t, root, b, k);
    assert g.rank(input.drv) < g.rank(b) <= g.rank(root);
    var f, j := UserOf(a, g, t, root, input.drv);
    hide Visit, Closed, Justified, Covered;
    VisitedWhenBare(a, g, root, b);
    VisitedWhenBare(a, g, root, f);
    AllBareBuilt(g, root, b);
    AllBareBuilt(g, root, f);
    var outputs := g.read(input.drv).outputs;
    assert PathsIn(outputs, input.wanted) == PathsIn(outputs, t.visited[input.drv]);
    assert Interchangeable(outputs, t.visited[input.drv], input.wanted);
    AlwaysCovered(outputs, t.visited[input.drv], input.wanted);
    assert Covered(a, outputs, t.visited[input.drv], input.wanted);
    CoveredIsMet(a, g, root, input.drv, input.wanted);
  }

  /** Every want of every build is met whatever the store answers if and only if all
      users of a derivation that can be reached pick the same paths of it. */
  lemma AlwaysMetIffUsersAgree(g: Graph, root: StorePath)
    requires WellFormed(g) && root in g.drvs && Definite(g, root) && PrivateOutputs(g)
    ensures (forall a: Answers :: AllMet(a, g, root)) <==> UsersAgree(g, root)
  {
    hide Visit, Definite, PrivateOutputs, SettledFor;
    if UsersAgree(g, root) {
      forall a: Answers
        ensures AllMet(a, g, root)
      {
        var t := Visit(a, g, NOTHING_VISITED, root, {});
        forall b, k | b in t.neededBuilds && 0 <= k < |g.read(b).inputs|
          ensures SettledFor(a, g, t, g.read(b).inputs[k].drv, g.read(b).inputs[k].wanted)
        {
          AgreementMeets(a, g, root, b, k);
        }
      }
    } else {
      var a := DisagreementFails(g, root);
      assert !AllMet(a, g, root);
    }
  }

  lemma DisagreementFails(g: Graph, root: StorePath) returns (a: Answers)
    requires WellFormed(g) && root in g.drvs && Definite(g, root) && PrivateOutputs(g) && !UsersAgree(g, root)
    ensures !AllMet(a, g, root)
  {
    hide Visit, Definite, PrivateOutputs, Justified, AllMet;
    WalkDone(NOTHING_THERE, g, root);
    var t0 := Visit(NOTHING_THERE, g, NOTHING_VISITED, root, {});
    var f, f', i, j :| f in t0.neededBuilds && f' in t0.neededBuilds
      && 0 <= i < |g.read(f).inputs| && 0 <= j < |g.read(f').inputs|
      && g.read(f).inputs[i].drv == g.read(f').inputs[j].drv
      && PathsIn(g.read(g.read(f).inputs[i].drv).outputs, g.read(f).inputs[i].wanted)
        != PathsIn(g.read(g.read(f).inputs[i].drv).outputs, g.read(f').inputs[j].wanted);
    InputVisited(NOTHING_THERE, g, t0, root, f, i);
    var e := g.read(f).inputs[i].drv;
    if PathsIn(g.read(e).outputs, g.read(f).inputs[i].wanted) != PathsIn(g.read(e).outputs, t0.visited[e]) {
      a := OtherWantFails(g, root, f, i);
    } else {
      a := OtherWantFails(g, root, f', j);
    }
  }

  // ---- An example --------------------------------------------------------------------

  /** Otherwise a build can be told too little: `0` wants `a` of `1`, which is there,
      and then `2` wants `b` of it, which is not; the walk passes over `1`. */
  function Uneven(d: StorePath): Derivation {
    if d == 0 then Derivation([Output("out", Some(10))], [Input(1, {"a"}), Input(2, {})])
    else if d == 2 then Derivation([Output("out", Some(20))], [Input(1, {"b"})])
    else Derivation([Output("a", Some(11)), Output("b", Some(12))], [])
  }

  const UNEVEN_GRAPH := Graph(Uneven, d => if d == 0 then 2 else if d == 2 then 1 else 0, {0, 1, 2}, {10, 11, 12, 20})

  const ONLY_A := Answers(p => p == 11, p => false)

  lemma VisitOfOne(t: Traversal)
    requires WellFormed(UNEVEN_GRAPH) && 1 !in t.visited
    ensures Visit(ONLY_A, UNEVEN_GRAPH, t, 1, {"a"}) == t.(visited := t.visited[1 := {"a"}])
  {
    MissingThere();
  }

  lemma VisitOfTwo(t: Traversal)
    requires WellFormed(UNEVEN_GRAPH) && 2 !in t.visited && 1 in t.visited
    ensures Visit(ONLY_A, UNEVEN_GRAPH, t, 2, {}) ==
      t.(visited := t.visited[2 := {}], neededBuilds := t.neededBuilds + [2])
  {
    MissingThere();
    var t1 := t.(visited := t.visited[2 := {}]);
    assert 20 in [20];
    assert Uneven(2).inputs == [] + [Input(1, {"b"})];
    LastInput(ONLY_A, UNEVEN_GRAPH, t1, [], Input(1, {"b"}), 1);
    assert VisitInputs(ONLY_A, UNEVEN_GRAPH, t1, Uneven(2).inputs, 1) == t1;
  }

  lemma InputsOfZero(t: Traversal)
    requires WellFormed(UNEVEN_GRAPH) && 1 !in t.visited && 2 !in t.visited
    ensures VisitInputs(ONLY_A, UNEVEN_GRAPH, t, Uneven(0).inputs, 2) ==
      t.(visited := t.visited[1 := {"a"}][2 := {}], neededBuilds := t.neededBuilds + [2])
  {
    hide Visit, MissingOf;
    VisitOfOne(t);
    VisitOfTwo(t.(visited := t.visited[1 := {"a"}]));
    assert Uneven(0).inputs == [] + [Input(1, {"a"})] + [Input(2, {})];
    LastInput(ONLY_A, UNEVEN_GRAPH, t, [], Input(1, {"a"}), 2);
    LastInput(ONLY_A, UNEVEN_GRAPH, t, [] + [Input(1, {"a"})], Input(2, {}), 2);
  }

  lemma LaterWantsIgnored()
    ensures WellFormed(UNEVEN_GRAPH)
    ensures var t := Visit(ONLY_A, UNEVEN_GRAPH, NOTHING_VISITED, 0, {});
            t.neededBuilds == [2, 0] && t.visited.Keys == {0, 1, 2} && !SettledFor(ONLY_A, UNEVEN_GRAPH, t, 1, {"b"})
  {
    hide VisitInputs;
    InputsOfZero(NOTHING_VISITED.(visited := NOTHING_VISITED.visited[0 := {}]));
    MissingThere();
    assert 10 in [10] && 12 in [12];
  }

  lemma LastInput(a: Answers, g: Graph, t: Traversal, inputs: seq<Input>, input: Input, r: nat)
    requires WellFormed(g) && InputsBelow(g, inputs + [input], r)
    ensures InputsBelow(g, inputs, r) && input.drv in g.drvs
    ensures VisitInputs(a, g, t, inputs + [input], r) ==
      Visit(a, g, VisitInputs(a, g, t, inputs, r), input.drv, input.wanted)
  {
    var all := inputs + [input];
    assert all[..|all| - 1] == inputs && all[|all| - 1] == input;
    assert forall i | 0 <= i < |inputs| :: all[i] == inputs[i];
  }

  lemma MissingThere()
    ensures MissingOf(ONLY_A, Uneven(1).outputs, {"a"}) == Missing(true, [])
    ensures MissingOf(ONLY_A, Uneven(1).outputs, {"b"}) == Missing(true, [12])
    ensures MissingOf(ONLY_A, Uneven(2).outputs, {}) == Missing(true, [20])
    ensures MissingOf(ONLY_A, Uneven(0).outputs, {}) == Missing(true, [10])
  {
    assert Uneven(1).outputs[1..] == [Output("b", Some(12))];
    assert Uneven(1).outputs[1..][1..] == [];
    assert Uneven(2).outputs[1..] == [] && Uneven(0).outputs[1..] == [];
  }
}
