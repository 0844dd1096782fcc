/** How a worker evaluates an attribute path (`Evaluator` of src/worker.cc) in a
    fixed graph of attribute sets, and why evaluation reaches no end of paths
    even when sets contain each other. */
module Evaluation {
  import opened Wrappers
  import opened Ledger
  import opened Verdicts
  import opened System
  import opened EveryRun
  import opened Termination

  /** An evaluation error, a stack overflow, or any other exception. */
  datatype Kind = EvalError | StackOverflow | Other

  /** What forcing an expression gives; sets are told apart by identity. */
  datatype Value = Throws(message: string, kind: Kind) | Plain | Bool(truth: bool) | AttrSet(id: nat)

  datatype Attr = Attr(name: string, value: Value)

  /** What `getDerivation` and what follows make of a set that is a derivation. */
  datatype Package =
    | Package(drvPath: string, outputs: map<string, string>, constituents: seq<string>, named: seq<string>, glob: bool)
    | Broken(why: EvalFailure)

  datatype EvalFailure = Thrown(message: string, kind: Kind) | NotASet | Missing(name: string) | NotABool | Cycle

  datatype Result<T> = Ok(value: T) | Err(failure: EvalFailure)

  /** `sets` gives the attributes of each set in lexicographic order.  `packages`
      tells which sets are derivations and `show` renders an error. */
  datatype Graph = Graph(
    sets: map<nat, seq<Attr>>, root: Value,
    packages: map<nat, Package>, show: EvalFailure -> string, forceRecurse: bool)

  predicate Known(g: Graph, v: Value) { v.AttrSet? ==> v.id in g.sets }

  ghost predicate Closed(g: Graph) {
    Known(g, g.root) && forall id, k | id in g.sets && 0 <= k < |g.sets[id]| :: Known(g, g.sets[id][k].value)
  }

  function Lookup(attrs: seq<Attr>, name: string): (r: Option<Value>)
    ensures r.Some? <==> exists k :: 0 <= k < |attrs| && attrs[k].name == name
    ensures r.Some? ==> exists k :: 0 <= k < |attrs| && attrs[k] == Attr(name, r.value)
  {
    if attrs == [] then None
    else if attrs[0].name == name then
      assert attrs[0] == Attr(name, attrs[0].value);
      Some(attrs[0].value)
    else
      var r := Lookup(attrs[1..], name);
      assert forall k | 0 < k < |attrs| :: attrs[k] == attrs[1..][k - 1];
      r
  }

  // ---- Selecting ---------------------------------------------------------------

  function Force(v: Value): Result<Value> {
    if v.Throws? then Err(Thrown(v.message, v.kind)) else Ok(v)
  }

  /** The attributes of a value that must be a set. */
  function AttrsOf(g: Graph, v: Value): Result<seq<Attr>> {
    match v
    case Throws(message, kind) => Err(Thrown(message, kind))
    case AttrSet(id) => if id in g.sets then Ok(g.sets[id]) else Ok([])
    case _ => Err(NotASet)
  }

  /** The value at a path, by the value at its parent. */
  function Target(g: Graph, path: Path): Result<Value>
    decreases |path|
  {
    if path == [] then Force(g.root)
    else
      var parent := Target(g, path[..|path| - 1]);
      if parent.Err? then parent
      else
        var attrs := AttrsOf(g, parent.value);
        if attrs.Err? then Err(attrs.failure)
        else
          var name := path[|path| - 1];
          match Lookup(attrs.value, name)
          case None => Err(Missing(name))
          case Some(v) => Force(v)
  }

  /** The sets passed on the way to a path. */
  function Ancestors(g: Graph, path: Path): seq<nat>
    decreases |path|
  {
    if path == [] then []
    else
      var parent := path[..|path| - 1];
      Ancestors(g, parent) + match Target(g, parent) case Ok(AttrSet(id)) => [id] case _ => []
  }

  /** A value that is one of its own ancestors is refused. */
  function Selected(g: Graph, path: Path): Result<Value> {
    var r := Target(g, path);
    if r.Ok? && r.value.AttrSet? && r.value.id in Ancestors(g, path) then Err(Cycle) else r
  }

  lemma {:induction false} TargetFails(g: Graph, path: Path, k: nat)
    requires k <= |path| && Target(g, path[..k]).Err?
    ensures Target(g, path) == Target(g, path[..k])
    decreases |path|
  {
    if k < |path| {
      assert path[..|path| - 1][..k] == path[..k];
      TargetFails(g, path[..|path| - 1], k);
    } else {
      assert path[..k] == path;
    }
  }

  method Select(g: Graph, path: Path) returns (r: Result<Value>)
    ensures r == Selected(g, path)
  {
    var ancestors: seq<nat> := [];
    var v := g.root;
    if v.Throws? {
      TargetFails(g, path, 0);
      return Err(Thrown(v.message, v.kind));
    }
    for k := 0 to |path|
      invariant Target(g, path[..k]) == Ok(v)
      invariant ancestors == Ancestors(g, path[..k])
    {
      ghost var here := path[..k + 1];
      assert here[..|here| - 1] == path[..k] && here[|here| - 1] == path[k];
      var attrs := AttrsOf(g, v);
      if attrs.Err? {
        TargetFails(g, path, k + 1);
        return Err(attrs.failure);
      }
      ancestors := ancestors + [v.id];
      var attr := Lookup(attrs.value, path[k]);
      if attr.None? {
        TargetFails(g, path, k + 1);
        return Err(Missing(path[k]));
      }
      if attr.value.Throws? {
        TargetFails(g, path, k + 1);
        return Err(Thrown(attr.value.message, attr.value.kind));
      }
      v := attr.value;
    }
    assert path[..|path|] == path;
    if v.AttrSet? && v.id in ancestors {
      return Err(Cycle);
    }
    return Ok(v);
  }

  // ---- Answering --------------------------------------------------------------------

  const RECURSE := "recurseForDerivations"

  function Names(attrs: seq<Attr>): seq<string> {
    seq(|attrs|, k requires 0 <= k < |attrs| => attrs[k].name)
  }

  /** Whether to go into a set: always if that is forced; else as the set itself
      says; else only at the root. */
  function Recurses(g: Graph, attrs: seq<Attr>, path: Path): Result<bool> {
    if g.forceRecurse then Ok(true)
    else
      match Lookup(attrs, RECURSE)
      case None => Ok(path == [])
      case Some(Bool(b)) => Ok(b)
      case Some(Throws(message, kind)) => Err(Thrown(message, kind))
      case Some(_) => Err(NotABool)
  }

  /** The names that `Recurses` leads to. */
  function Listed(g: Graph, attrs: seq<Attr>, path: Path): Result<seq<string>> {
    match Recurses(g, attrs, path)
    case Err(failure) => Err(failure)
    case Ok(b) => Ok(if b then Names(attrs) else [])
  }

  ghost predicate UniqueNames(attrs: seq<Attr>) {
    forall i, j | 0 <= i < j < |attrs| :: attrs[i].name != attrs[j].name
  }

  lemma {:induction false} LookupAt(attrs: seq<Attr>, k: nat)
    requires UniqueNames(attrs) && k < |attrs|
    ensures Lookup(attrs, attrs[k].name) == Some(attrs[k].value)
  {
    if k > 0 {
      LookupAt(attrs[1..], k - 1);
    }
  }

  method CollectAttrsForRecursion(g: Graph, attrs: seq<Attr>, path: Path) returns (r: Result<seq<string>>)
    requires UniqueNames(attrs)
    ensures r == Listed(g, attrs, path)
    ensures Lists(g.forceRecurse, path == [], attrs, r)
  {
    hide Lists;
    ListedExactly(g, attrs, path);
    var names: seq<string> := [];
    var recurse := g.forceRecurse || path == [];
    for k := 0 to |attrs|
      invariant names == Names(attrs[..k])
      invariant g.forceRecurse ==> recurse
      invariant !g.forceRecurse && (forall j | 0 <= j < k :: attrs[j].name != RECURSE) ==> recurse == (path == [])
      invariant forall j | 0 <= j < k && attrs[j].name == RECURSE && !g.forceRecurse :: attrs[j].value == Bool(recurse)
    {
      names := names + [attrs[k].name];
      if !g.forceRecurse && attrs[k].name == RECURSE {
        LookupAt(attrs, k);
        match attrs[k].value {
          case Bool(b) => recurse := b;
          case Throws(message, kind) => return Err(Thrown(message, kind));
          case _ => return Err(NotABool);
        }
      }
    }
    assert attrs[..|attrs|] == attrs;
    if !g.forceRecurse && Lookup(attrs, RECURSE).Some? {
      ghost var k :| 0 <= k < |attrs| && attrs[k] == Attr(RECURSE, Lookup(attrs, RECURSE).value);
      assert attrs[k].value == Bool(recurse);
    }
    return Ok(if recurse then names else []);
  }

  function Refused(g: Graph, failure: EvalFailure): Payload {
    Error(g.show(failure), failure.Thrown? && failure.kind.StackOverflow?)
  }

  /** The answer for a path. */
  function Reply(g: Graph, path: Path): Payload {
    match Selected(g, path)
    case Err(failure) => Refused(g, failure)
    case Ok(AttrSet(id)) => (
      if id in g.packages then
        match g.packages[id]
        case Package(drvPath, outputs, constituents, named, glob) => Job(drvPath, outputs, constituents, named, glob)
        case Broken(why) => Refused(g, why)
      else
        var attrs := if id in g.sets then g.sets[id] else [];
        match Listed(g, attrs, path)
        case Err(failure) => Refused(g, failure)
        case Ok(names) => Attrs(names))
    case Ok(_) => Attrs([])
  }

  method Evaluate(g: Graph, path: Path) returns (r: Payload)
    requires WellNamed(g)
    ensures r == Reply(g, path)
    ensures forall vs: seq<Value> | Way(g, path, vs) && !Loops(vs) :: AnswersValue(g, path == [], vs[|path|], r)
    ensures forall vs: seq<Value> | Way(g, path, vs) && Loops(vs) :: r == Error(g.show(Cycle), false)
    ensures forall k, vs, failure | Stuck(g, path, k, vs, failure) :: AnswersFailure(g, failure, r)
    ensures (exists vs: seq<Value> :: Way(g, path, vs)) || (exists k, vs, failure :: Stuck(g, path, k, vs, failure))
  {
    ReplyExactly(g, path);
    var value := Select(g, path);
    match value {
      case Err(failure) => return Refused(g, failure);
      case Ok(AttrSet(id)) =>
        if id in g.packages {
          match g.packages[id] {
            case Package(drvPath, outputs, constituents, named, glob) =>
              return Job(drvPath, outputs, constituents, named, glob);
            case Broken(why) => return Refused(g, why);
          }
        }
        var attrs := if id in g.sets then g.sets[id] else [];
        var names := CollectAttrsForRecursion(g, attrs, path);
        match names {
          case Err(failure) => return Refused(g, failure);
          case Ok(ns) => return Attrs(ns);
        }
      case Ok(_) => return Attrs([]);
    }
  }

  // ---- What the answer is, by the graph ------------------------------------------------

  ghost predicate WellNamed(g: Graph) {
    forall id | id in g.sets :: UniqueNames(g.sets[id])
  }

  /** `v` is a set with an attribute `name` of value `w`, which can be forced. */
  ghost predicate Holds(g: Graph, v: Value, name: string, w: Value) {
    v.AttrSet? && v.id in g.sets && !w.Throws? && Attr(name, w) in g.sets[v.id]
  }

  /** `vs` are the values passed from the root along `path`. */
  ghost predicate Way(g: Graph, path: Path, vs: seq<Value>) {
    && |vs| == |path| + 1 && vs[0] == g.root && !g.root.Throws?
    && forall k | 0 <= k < |path| :: Holds(g, vs[k], path[k], vs[k + 1])
  }

  /** The last value is a set that was passed before. */
  ghost predicate Loops(vs: seq<Value>)
    requires vs != []
  {
    vs[|vs| - 1].AttrSet? && vs[|vs| - 1] in vs[..|vs| - 1]
  }

  ghost predicate NoAttribute(g: Graph, v: Value, name: string) {
    v.AttrSet? && (v.id in g.sets ==> forall a | a in g.sets[v.id] :: a.name != name)
  }

  /** `vs` leads along the first `k` names of `path`, and then `failure` happens. */
  ghost predicate Stuck(g: Graph, path: Path, k: nat, vs: seq<Value>, failure: EvalFailure) {
    || (g.root.Throws? && failure == Thrown(g.root.message, g.root.kind))
    || (k < |path| && Way(g, path[..k], vs) && (
          || (!vs[k].AttrSet? && failure == NotASet)
          || (NoAttribute(g, vs[k], path[k]) && failure == Missing(path[k]))
          || (vs[k].AttrSet? && vs[k].id in g.sets && exists w: Value ::
                w.Throws? && Attr(path[k], w) in g.sets[vs[k].id] && failure == Thrown(w.message, w.kind))))
  }

  /** The answer to a failure is its text; only stack overflows are fatal. */
  ghost predicate AnswersFailure(g: Graph, failure: EvalFailure, r: Payload) {
    r == Error(g.show(failure), match failure case Thrown(_, StackOverflow) => true case _ => false)
  }

  ghost predicate AllNamesOf(attrs: seq<Attr>, r: Result<seq<string>>) {
    r.Ok? && |r.value| == |attrs| && forall k | 0 <= k < |attrs| :: r.value[k] == attrs[k].name
  }

  /** The names listed for a set that is no derivation, all or none: by its flag, or
      without one by whether it is the root; and all if that is forced. */
  ghost predicate Lists(forceRecurse: bool, isRoot: bool, attrs: seq<Attr>, r: Result<seq<string>>) {
    var unflagged := forall a | a in attrs :: a.name != "recurseForDerivations";
    && (forceRecurse || (isRoot && unflagged) ==> AllNamesOf(attrs, r))
    && (!forceRecurse && !isRoot && unflagged ==> r == Ok([]))
    && (forall a | a in attrs && a.name == "recurseForDerivations" && !forceRecurse ::
          match a.value
          case Bool(b) => if b then AllNamesOf(attrs, r) else r == Ok([])
          case Throws(message, kind) => r == Err(Thrown(message, kind))
          case _ => r == Err(NotABool))
  }

  ghost predicate AnswersSet(g: Graph, isRoot: bool, attrs: seq<Attr>, r: Payload) {
    exists names ::
      && Lists(g.forceRecurse, isRoot, attrs, names)
      && match names
         case Ok(ns) => r == Attrs(ns)
         case Err(failure) => AnswersFailure(g, failure, r)
  }

  /** The answer to the value found at a path. */
  ghost predicate AnswersValue(g: Graph, isRoot: bool, v: Value, r: Payload) {
    match v
    case AttrSet(id) =>
      if id !in g.packages then AnswersSet(g, isRoot, if id in g.sets then g.sets[id] else [], r)
      else (
        match g.packages[id]
        case Package(drvPath, outputs, constituents, named, glob) =>
          r == Job(drvPath, outputs, constituents, named, glob)
        case Broken(why) => AnswersFailure(g, why, r))
    case _ => r == Attrs([])
  }

  lemma HoldsIsFound(g: Graph, v: Value, name: string)
    requires WellNamed(g) && v.AttrSet? && v.id in g.sets
    ensures forall w | Attr(name, w) in g.sets[v.id] :: Lookup(g.sets[v.id], name) == Some(w)
    ensures Lookup(g.sets[v.id], name).None? <==> forall a | a in g.sets[v.id] :: a.name != name
  {
    var attrs := g.sets[v.id];
    forall w | Attr(name, w) in attrs
      ensures Lookup(attrs, name) == Some(w)
    {
      var k :| 0 <= k < |attrs| && attrs[k] == Attr(name, w);
      LookupAt(attrs, k);
    }
  }

  /** The value at the end of a way is what selecting finds, and the sets passed
      before are its ancestors. */
  lemma {:induction false} WayIsTaken(g: Graph, path: Path, vs: seq<Value>)
    requires WellNamed(g) && Way(g, path, vs)
    ensures Target(g, path) == Ok(vs[|path|])
    ensures |Ancestors(g, path)| == |path|
    ensures forall k | 0 <= k < |path| :: vs[k] == AttrSet(Ancestors(g, path)[k])
  {
    if path != [] {
      var parent, last := path[..|path| - 1], |path| - 1;
      assert Way(g, parent, vs[..|path|]);
      WayIsTaken(g, parent, vs[..|path|]);
      assert Holds(g, vs[last], path[last], vs[|path|]);
      HoldsIsFound(g, vs[last], path[last]);
    }
  }

  /** What goes wrong on the way is the failure that selecting ends with. */
  lemma StuckFails(g: Graph, path: Path, k: nat, vs: seq<Value>, failure: EvalFailure)
    requires WellNamed(g) && Stuck(g, path, k, vs, failure)
    ensures Target(g, path) == Err(failure) && Selected(g, path) == Err(failure)
  {
    if g.root.Throws? {
      TargetFails(g, path, 0);
    } else {
      WayIsTaken(g, path[..k], vs);
      var here := path[..k + 1];
      assert here[..|here| - 1] == path[..k] && here[|here| - 1] == path[k];
      if vs[k].AttrSet? && vs[k].id in g.sets {
        HoldsIsFound(g, vs[k], path[k]);
      }
      assert Target(g, here) == Err(failure);
      TargetFails(g, path, k + 1);
    }
  }

  lemma WayGrows(g: Graph, path: Path, vs: seq<Value>, w: Value)
    requires path != [] && Way(g, path[..|path| - 1], vs) && Holds(g, vs[|path| - 1], path[|path| - 1], w)
    ensures Way(g, path, vs + [w])
  {
    var vs' := vs + [w];
    forall k | 0 <= k < |path|
      ensures Holds(g, vs'[k], path[k], vs'[k + 1])
    {
      if k < |path| - 1 {
        assert Holds(g, vs[k], path[..|path| - 1][k], vs[k + 1]);
      }
    }
  }

  /** A path leads to a value, or something goes wrong on the way. */
  lemma {:induction false} WayOrStuck(g: Graph, path: Path) returns (k: nat, vs: seq<Value>, failure: EvalFailure)
    requires WellNamed(g)
    ensures Way(g, path, vs) || Stuck(g, path, k, vs, failure)
  {
    k, failure := 0, NotASet;
    if g.root.Throws? {
      return 0, [], Thrown(g.root.message, g.root.kind);
    } else if path == [] {
      return 0, [g.root], failure;
    }
    var parent, last := path[..|path| - 1], |path| - 1;
    k, vs, failure := WayOrStuck(g, parent);
    if !Way(g, parent, vs) {
      assert parent[..k] == path[..k];
      return;
    }
    k := last;
    var v := vs[last];
    if !v.AttrSet? {
      failure := NotASet;
    } else if NoAttribute(g, v, path[last]) {
      failure := Missing(path[last]);
    } else {
      var a :| a in g.sets[v.id] && a.name == path[last];
      assert a == Attr(path[last], a.value);
      if a.value.Throws? {
        failure := Thrown(a.value.message, a.value.kind);
      } else {
        WayGrows(g, path, vs, a.value);
        vs := vs + [a.value];
      }
    }
  }

  lemma ListedExactly(g: Graph, attrs: seq<Attr>, path: Path)
    requires UniqueNames(attrs)
    ensures Lists(g.forceRecurse, path == [], attrs, Listed(g, attrs, path))
  {
    if a :| a in attrs && a.name == RECURSE {
      var k :| 0 <= k < |attrs| && attrs[k] == a;
      LookupAt(attrs, k);
      assert forall j | 0 <= j < |attrs| && attrs[j].name == RECURSE :: j == k;
    } else {
      assert forall k | 0 <= k < |attrs| :: attrs[k] in attrs;
      assert Lookup(attrs, RECURSE).None?;
    }
  }

  lemma SetAnswered(g: Graph, id: nat, path: Path)
    requires WellNamed(g) && id !in g.packages && Selected(g, path) == Ok(AttrSet(id))
    ensures AnswersSet(g, path == [], if id in g.sets then g.sets[id] else [], Reply(g, path))
  {
    hide Selected, Lists, Listed;
    var attrs := if id in g.sets then g.sets[id] else [];
    ListedExactly(g, attrs, path);
    assert Lists(g.forceRecurse, path == [], attrs, Listed(g, attrs, path));
  }

  /** The answer for a path in terms of the graph: the value that the path leads to
      decides, unless it is one of the sets passed before; and if the path leads
      nowhere, the first thing that goes wrong. */
  lemma ReplyExactly(g: Graph, path: Path)
    requires WellNamed(g)
    ensures forall vs: seq<Value> | Way(g, path, vs) && !Loops(vs) ::
      AnswersValue(g, path == [], vs[|path|], Reply(g, path))
    ensures forall vs: seq<Value> | Way(g, path, vs) && Loops(vs) :: Reply(g, path) == Error(g.show(Cycle), false)
    ensures forall k, vs, failure | Stuck(g, path, k, vs, failure) :: AnswersFailure(g, failure, Reply(g, path))
    ensures (exists vs: seq<Value> :: Way(g, path, vs)) || (exists k, vs, failure :: Stuck(g, path, k, vs, failure))
  {
    hide Way, Stuck, AnswersSet, Recurses;
    forall vs: seq<Value> | Way(g, path, vs)
      ensures |vs| == |path| + 1
      ensures if Loops(vs) then Reply(g, path) == Error(g.show(Cycle), false)
              else AnswersValue(g, path == [], vs[|path|], Reply(g, path))
    {
      WaySelects(g, path, vs);
      if !Loops(vs) && vs[|path|].AttrSet? && vs[|path|].id !in g.packages {
        var id := vs[|path|].id;
        SetAnswered(g, id, path);
      }
    }
    forall k, vs, failure | Stuck(g, path, k, vs, failure)
      ensures AnswersFailure(g, failure, Reply(g, path))
    {
      StuckFails(g, path, k, vs, failure);
    }
    var k, vs, failure := WayOrStuck(g, path);
  }

  lemma WaySelects(g: Graph, path: Path, vs: seq<Value>)
    requires WellNamed(g) && Way(g, path, vs)
    ensures |vs| == |path| + 1
    ensures Selected(g, path) == if Loops(vs) then Err(Cycle) else Ok(vs[|path|])
  {
    WayIsTaken(g, path, vs);
    var last := vs[|path|];
    if last.AttrSet? {
      assert last in vs[..|path|] <==> last.id in Ancestors(g, path) by {
        if last in vs[..|path|] {
          var k :| 0 <= k < |path| && vs[k] == last;
          assert Ancestors(g, path)[k] == last.id;
        }
        if last.id in Ancestors(g, path) {
          var k :| 0 <= k < |path| && Ancestors(g, path)[k] == last.id;
          assert vs[..|path|][k] == last;
        }
      }
    }
  }

  /** Without the flag a descent goes into the root, and so to every attribute of
      it, whatever the workers and the memory do. */
  lemma RootIsEntered(g: Graph, lost: set<Path>, id: nat, k: nat)
    requires WellNamed(g) && g.root == AttrSet(id) && id in g.sets && id !in g.packages && k < |g.sets[id]|
    requires forall a | a in g.sets[id] :: a.name != "recurseForDerivations"
    requires [] !in lost
    ensures Reached(AnswerOf(g), lost, [g.sets[id][k].name])
  {
    hide Reply;
    ReplyExactly(g, []);
    assert Way(g, [], [g.root]) && !Loops([g.root]);
    var p := [g.sets[id][k].name];
    assert p[..|p| - 1] == [];
  }

  // ---- No path is longer than there are sets -------------------------------------------

  function AnswerOf(g: Graph): Path -> Payload { path => Reply(g, path) }

  ghost predicate Distinct<T(!new)>(s: seq<T>) {
    forall i, j | 0 <= i < j < |s| :: s[i] != s[j]
  }

  lemma {:induction false} DistinctBounded(s: seq<nat>, keys: set<nat>)
    requires Distinct(s) && forall x | x in s :: x in keys
    ensures |s| <= |keys|
  {
    if s != [] {
      var last := s[|s| - 1];
      assert last in s;
      forall x | x in s[..|s| - 1]
        ensures x in keys - {last}
      {
        assert x in s;
      }
      DistinctBounded(s[..|s| - 1], keys - {last});
    }
  }

  lemma {:induction false} TargetKnown(g: Graph, path: Path)
    requires Closed(g) && Target(g, path).Ok?
    ensures Known(g, Target(g, path).value)
    decreases |path|
  {
    if path != [] {
      TargetKnown(g, path[..|path| - 1]);
    }
  }

  /** All names of attributes in the graph. */
  ghost function AllNames(g: Graph): set<string> {
    set id, k | id in g.sets && 0 <= k < |g.sets[id]| :: g.sets[id][k].name
  }

  lemma ParentIsSet(g: Graph, path: Path, name: string)
    requires Closed(g) && Reply(g, path).Attrs? && name in Reply(g, path).names
    ensures var t := Target(g, path);
            && t.Ok? && t.value.AttrSet? && t.value.id in g.sets && t.value.id !in Ancestors(g, path)
            && name in AllNames(g)
  {
    TargetKnown(g, path);
    var id := Target(g, path).value.id;
    var k :| 0 <= k < |Names(g.sets[id])| && Names(g.sets[id])[k] == name;
    assert g.sets[id][k].name == name;
  }

  /** A path that the scheduler has seen passed as many different sets as it is
      long. */
  lemma {:induction false} SeenPaths(g: Graph, b: Board, p: Path)
    requires Closed(g) && Explored(AnswerOf(g), b) && p in b.place
    ensures |Ancestors(g, p)| == |p| && Distinct(Ancestors(g, p))
    ensures forall id | id in Ancestors(g, p) :: id in g.sets
    ensures forall name | name in p :: name in AllNames(g)
    decreases |p|
  {
    hide Explored, Closed, Reply;
    if p != [] {
      var parent, name := p[..|p| - 1], p[|p| - 1];
      SeenByParent(g, b, p);
      SeenPaths(g, b, parent);
      ParentIsSet(g, parent, name);
      ExtendDistinct(Ancestors(g, parent), Target(g, parent).value.id);
      assert p == parent + [name];
    }
  }

  lemma ExtendDistinct<T(!new)>(s: seq<T>, x: T)
    requires Distinct(s) && x !in s
    ensures Distinct(s + [x]) && forall y | y in s + [x] :: y in s || y == x
  {}

  lemma SeenByParent(g: Graph, b: Board, p: Path)
    requires Explored(AnswerOf(g), b) && p in b.place && p != []
    ensures p[..|p| - 1] in b.place && Reply(g, p[..|p| - 1]).Attrs? && p[|p| - 1] in Reply(g, p[..|p| - 1]).names
  {
    assert Found(AnswerOf(g), b, p);
  }

  lemma DepthBounded(g: Graph, b: Board, p: Path)
    requires Closed(g) && Explored(AnswerOf(g), b) && p in b.place
    ensures |p| <= |g.sets|
  {
    SeenPaths(g, b, p);
    DistinctBounded(Ancestors(g, p), g.sets.Keys);
  }

  /** No longer path is ever handed to a worker. */
  lemma HandedPathsAreShort(g: Graph, n: nat, budget: nat, oom: nat, es: seq<Event>, y: Sys, p: Path)
    requires Closed(g) && Reachable(AnswerOf(g), n, budget, oom, es, y) && y.s.abort.None?
    requires y.s.board.handed[p] > 0
    ensures |p| <= |g.sets|
  {
    hide Closed, Explored, Conserved, Reply;
    ReachableInv(AnswerOf(g), n, budget, oom, es, y);
    assert Tally(y.s.board, p);
    DepthBounded(g, y.s.board, p);
  }

  // ---- So there are finitely many ------------------------------------------------------

  ghost function Words(names: set<string>, n: nat): set<Path> {
    if n == 0 then {[]}
    else
      var shorter := Words(names, n - 1);
      shorter + set w, name | w in shorter && name in names :: w + [name]
  }

  lemma {:induction false} IsWord(names: set<string>, n: nat, p: Path)
    requires |p| <= n && forall name | name in p :: name in names
    ensures p in Words(names, n)
    decreases n
  {
    if p == [] {
      if n > 0 {
        IsWord(names, n - 1, p);
      }
    } else {
      var parent, name := p[..|p| - 1], p[|p| - 1];
      IsWord(names, n - 1, parent);
      assert p == parent + [name];
    }
  }

  lemma GraphStaysIn(g: Graph)
    requires Closed(g)
    ensures StaysIn(AnswerOf(g), Words(AllNames(g), |g.sets|))
  {
    forall b: Board | Explored(AnswerOf(g), b)
      ensures b.place.Keys <= Words(AllNames(g), |g.sets|)
    {
      forall p | p in b.place
        ensures p in Words(AllNames(g), |g.sets|)
      {
        SeenPaths(g, b, p);
        DepthBounded(g, b, p);
        IsWord(AllNames(g), |g.sets|, p);
      }
    }
  }

  /** A run over a finite graph, cyclic or not, makes a bounded number of moves. */
  lemma GraphRunsAreBounded(g: Graph, n: nat, budget: nat, oom: nat, es: seq<Event>)
    requires Closed(g) && Runs(AnswerOf(g), Init(n, budget, oom), es)
    ensures Moves(AnswerOf(g), Init(n, budget, oom), es) <=
      1 + Digits(n, oom + 2 * |Words(AllNames(g), |g.sets|)|, 1, 8 * n)
  {
    hide Closed, StaysIn, Runs, Moves, Step, Can, Digits, Init, Words, AllNames, Reply;
    GraphStaysIn(g);
    RunsAreBounded(AnswerOf(g), Words(AllNames(g), |g.sets|), n, budget, oom, es);
  }
}
