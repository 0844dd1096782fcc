/** Where every attribute path is: the account that the scheduler keeps of its
    work (src/nix-eval-jobs.cc), without the processes that do it.  The
    scheduler's steps are shown in `System` to be moves on this account. */
module Ledger {
  import opened Wrappers

  type Path = seq<string>

  /** A worker's answer for a path. */
  datatype Payload =
    | Attrs(names: seq<string>)
    | Job(drvPath: string, outputs: map<string, string>, constituents: seq<string>, named: seq<string>, glob: bool)
    | Error(message: string, fatal: bool)

  /** How a path was dealt with: by its answer, or because evaluating it went
      over the memory budget even alone. */
  datatype Verdict = Answered(payload: Payload) | OverBudget
  datatype Record = Record(path: Path, verdict: Verdict)

  datatype Mode = Parallel | Solo

  /** Where a path is: waiting in `todo` or in `solo`, being evaluated in a worker
      slot, or dealt with by an entry of the log. */
  datatype Place = Todo | Shelved | At(slot: nat) | Done(entry: nat)

  /** `held` tells for each worker slot the path whose evaluation is running
      there.  The last three fields are history: for every path ever put in
      `todo` where it is now, and how often each path was handed to a worker
      and its evaluation killed. */
  datatype Board = Board(
    todo: set<Path>,
    solo: seq<Path>,
    mode: Mode,
    held: seq<Option<Path>>,
    log: seq<Record>,
    place: map<Path, Place>,
    handed: multiset<Path>,
    killed: multiset<Path>)

  function Children(path: Path, names: seq<string>): set<Path> {
    set n | n in names :: path + [n]
  }

  ghost predicate NoneHeld(b: Board) {
    forall i | 0 <= i < |b.held| :: b.held[i].None?
  }

  // ---- The moves -----------------------------------------------------------

  ghost function Start(n: nat): Board {
    Board({[]}, [], Parallel, seq(n, _ => None), [], map[[] := Todo], multiset{}, multiset{})
  }

  ghost function TakeTodo(b: Board, i: nat, p: Path): Board
    requires i < |b.held|
  {
    b.(todo := b.todo - {p}, held := b.held[i := Some(p)], handed := b.handed + multiset{p},
       place := b.place[p := At(i)])
  }

  ghost function TakeSolo(b: Board, i: nat): Board
    requires i < |b.held| && b.solo != []
  {
    var p := b.solo[|b.solo| - 1];
    b.(solo := b.solo[..|b.solo| - 1], held := b.held[i := Some(p)], handed := b.handed + multiset{p},
       place := b.place[p := At(i)])
  }

  /** The attributes to go on with after an answer. */
  function More(p: Path, payload: Payload): set<Path> {
    if payload.Attrs? then Children(p, payload.names) else {}
  }

  ghost function Respond(b: Board, i: nat, p: Path, payload: Payload): Board
    requires i < |b.held|
  {
    b.(todo := b.todo + More(p, payload), mode := Parallel,
       held := b.held[i := None], log := b.log + [Record(p, Answered(payload))],
       place := b.place[p := Done(|b.log|)] + map c | c in More(p, payload) :: Todo)
  }

  /** The evaluation of `p` was killed: the first time the path is kept for a run
      alone, the second time it is given up. */
  ghost function Strike(b: Board, i: nat, p: Path): Board
    requires i < |b.held|
  {
    var b' := b.(mode := Parallel, held := b.held[i := None], killed := b.killed + multiset{p});
    if b.mode == Solo then
      b'.(log := b.log + [Record(p, OverBudget)], place := b.place[p := Done(|b.log|)])
    else
      b'.(solo := b.solo + [p], place := b.place[p := Shelved])
  }

  // ---- Conservation ----------------------------------------------------------

  ghost predicate IsAt(b: Board, p: Path, place: Place) { p in b.place && b.place[p] == place }

  /** The path is really there where `place` has it. */
  ghost predicate Located(b: Board, p: Path)
    requires p in b.place
  {
    match b.place[p]
    case Todo => p in b.todo
    case Shelved => p in b.solo
    case At(i) => i < |b.held| && b.held[i] == Some(p)
    case Done(k) => k < |b.log| && b.log[k].path == p
  }

  /** The four structures hold exactly the paths that are there by `place`; as
      a path has one place, it is in one of them only, and there once. */
  ghost predicate Conserved(b: Board) {
    && (forall p | p in b.place :: Located(b, p))
    && (forall p | p in b.todo :: IsAt(b, p, Todo))
    && (forall k | 0 <= k < |b.solo| :: IsAt(b, b.solo[k], Shelved))
    && (forall i, j | 0 <= i < j < |b.solo| :: b.solo[i] != b.solo[j])
    && (forall i | 0 <= i < |b.held| && b.held[i].Some? :: IsAt(b, b.held[i].value, At(i)))
    && (forall k | 0 <= k < |b.log| :: IsAt(b, b.log[k].path, Done(k)))
  }

  /** How often a path was handed out and killed, by the place where it is. */
  ghost predicate Tally(b: Board, p: Path) {
    var handed, killed := b.handed[p], b.killed[p];
    if p !in b.place || b.place[p].Todo? then handed == killed == 0
    else if b.place[p].Shelved? then handed == killed == 1
    else if b.place[p].At? then handed == killed + 1 && killed == (if b.mode == Solo then 1 else 0)
    else
      var k := b.place[p].entry;
      k < |b.log| && if b.log[k].verdict.OverBudget? then handed == killed == 2 else handed == killed + 1 <= 2
  }

  ghost predicate Counted(b: Board) {
    forall p :: Tally(b, p)
  }

  /** In solo mode one job runs at most. */
  ghost predicate Alone(b: Board) {
    b.mode == Solo ==> forall i, j | 0 <= i < j < |b.held| :: b.held[i].None? || b.held[j].None?
  }

  ghost predicate Answers(answer: Path -> Payload, b: Board, p: Path) {
    p in b.place && b.place[p].Done? && b.place[p].entry < |b.log| &&
    b.log[b.place[p].entry].verdict == Answered(answer(p))
  }

  /** `p` is the root or an attribute of the answer for its parent. */
  ghost predicate Found(answer: Path -> Payload, b: Board, p: Path) {
    p == [] || (
      var parent := p[..|p| - 1];
      Answers(answer, b, parent) && answer(parent).Attrs? && p[|p| - 1] in answer(parent).names)
  }

  ghost predicate LoggedRight(answer: Path -> Payload, b: Board, k: nat)
    requires k < |b.log| && b.log[k].verdict.Answered?
  {
    var r := b.log[k];
    r.verdict.payload == answer(r.path) && More(r.path, answer(r.path)) <= b.place.Keys
  }

  /** The paths seen are the root and the attributes of the answers so far. */
  ghost predicate Explored(answer: Path -> Payload, b: Board) {
    && [] in b.place
    && (forall p :: p in b.place ==> Found(answer, b, p))
    && (forall k | 0 <= k < |b.log| && b.log[k].verdict.Answered? :: LoggedRight(answer, b, k))
  }

  ghost predicate Sound(answer: Path -> Payload, b: Board) {
    Conserved(b) && Counted(b) && Alone(b) && Explored(answer, b)
  }

  // ---- Every move keeps the account ------------------------------------------

  lemma StartSound(answer: Path -> Payload, n: nat)
    ensures Sound(answer, Start(n))
  {}

  /** Nothing done is undone. */
  ghost predicate Keeps(b: Board, b': Board) {
    && b.log <= b'.log && b.place.Keys <= b'.place.Keys
    && (forall p | p in b.place && b.place[p].Done? :: b'.place[p] == b.place[p])
  }

  /** Steps that log no answer explore nothing. */
  lemma ExploredStays(answer: Path -> Payload, b: Board, b': Board)
    requires Explored(answer, b) && Keeps(b, b') && b'.place.Keys == b.place.Keys
    requires forall k | |b.log| <= k < |b'.log| :: b'.log[k].verdict.OverBudget?
    ensures Explored(answer, b')
  {
    forall p | p in b'.place
      ensures Found(answer, b', p)
    {
      assert Found(answer, b, p);
    }
    forall k | 0 <= k < |b'.log| && b'.log[k].verdict.Answered?
      ensures LoggedRight(answer, b', k)
    {
      assert LoggedRight(answer, b, k);
    }
  }

  lemma TakeTodoConserved(b: Board, i: nat, p: Path)
    requires Conserved(b) && i < |b.held| && b.held[i].None? && p in b.todo
    ensures Conserved(TakeTodo(b, i, p))
  {
    var b' := TakeTodo(b, i, p);
    assert IsAt(b, p, Todo);
    forall q | q in b'.place ensures Located(b', q) {
      assert Located(b, q);
    }
  }

  lemma TakeTodoSound(answer: Path -> Payload, b: Board, i: nat, p: Path)
    requires Sound(answer, b) && i < |b.held| && b.held[i].None? && p in b.todo && b.mode == Parallel
    ensures Sound(answer, TakeTodo(b, i, p))
  {
    var b' := TakeTodo(b, i, p);
    assert IsAt(b, p, Todo);
    TakeTodoConserved(b, i, p);
    ExploredStays(answer, b, b');
    forall q ensures Tally(b', q) {
      assert Tally(b, q);
    }
  }

  lemma LastOfDistinct(s: seq<Path>)
    requires s != [] && forall i, j | 0 <= i < j < |s| :: s[i] != s[j]
    ensures forall p :: p in s[..|s| - 1] <==> p in s && p != s[|s| - 1]
  {
    assert s == s[..|s| - 1] + [s[|s| - 1]];
    assert forall p :: p in s <==> p in s[..|s| - 1] || p == s[|s| - 1];
  }

  lemma TakeSoloConserved(b: Board, i: nat)
    requires Conserved(b) && i < |b.held| && b.held[i].None? && b.solo != []
    ensures Conserved(TakeSolo(b, i))
  {
    var b' := TakeSolo(b, i);
    LastOfDistinct(b.solo);
    assert IsAt(b, b.solo[|b.solo| - 1], Shelved);
    forall q | q in b'.place ensures Located(b', q) {
      assert Located(b, q);
    }
  }

  lemma TakeSoloSound(answer: Path -> Payload, b: Board, i: nat)
    requires Sound(answer, b) && i < |b.held| && NoneHeld(b) && b.solo != [] && b.mode == Solo
    ensures Sound(answer, TakeSolo(b, i))
  {
    var b' := TakeSolo(b, i);
    assert IsAt(b, b.solo[|b.solo| - 1], Shelved);
    TakeSoloConserved(b, i);
    ExploredStays(answer, b, b');
    forall q ensures Tally(b', q) {
      assert Tally(b, q);
      assert q in b.place ==> Located(b, q);
    }
  }

  lemma MoreUnseen(answer: Path -> Payload, b: Board, p: Path, payload: Payload)
    requires Explored(answer, b) && p in b.place && !b.place[p].Done?
    ensures More(p, payload) !! b.place.Keys
  {
    forall c | c in More(p, payload)
      ensures c !in b.place
    {
      assert c[..|c| - 1] == p;
      assert c in b.place ==> Found(answer, b, c);
    }
  }

  /** Only one job can be running in solo mode. */
  lemma OnlyHeld(b: Board, i: nat, q: Path)
    requires Conserved(b) && Alone(b) && b.mode == Solo && i < |b.held| && b.held[i].Some?
    requires q in b.place && b.place[q].At?
    ensures b.held[i] == Some(q)
  {
    assert Located(b, q);
  }

  lemma RespondConserved(b: Board, i: nat, p: Path, payload: Payload)
    requires Conserved(b) && i < |b.held| && b.held[i] == Some(p) && More(p, payload) !! b.place.Keys
    ensures Conserved(Respond(b, i, p, payload))
  {
    var b' := Respond(b, i, p, payload);
    forall q | q in b'.place ensures Located(b', q) {
      assert q in b.place ==> Located(b, q);
    }
  }

  lemma RespondCounted(b: Board, i: nat, p: Path, payload: Payload)
    requires Conserved(b) && Counted(b) && Alone(b)
    requires i < |b.held| && b.held[i] == Some(p) && More(p, payload) !! b.place.Keys
    ensures Counted(Respond(b, i, p, payload))
  {
    var b' := Respond(b, i, p, payload);
    assert IsAt(b, p, At(i));
    forall q ensures Tally(b', q) {
      assert Tally(b, q);
      if b.mode == Solo && q in b.place && b.place[q].At? {
        OnlyHeld(b, i, q);
      }
    }
  }

  lemma MoreFound(answer: Path -> Payload, b': Board, p: Path, q: Path)
    requires Answers(answer, b', p) && q in More(p, answer(p))
    ensures Found(answer, b', q)
  {
    var n :| n in answer(p).names && q == p + [n];
    assert q[..|q| - 1] == p;
  }

  lemma RespondFound(answer: Path -> Payload, b: Board, i: nat, p: Path, q: Path)
    requires Explored(answer, b) && i < |b.held| && IsAt(b, p, At(i)) && More(p, answer(p)) !! b.place.Keys
    requires q in Respond(b, i, p, answer(p)).place
    ensures Found(answer, Respond(b, i, p, answer(p)), q)
  {
    hide More, LoggedRight, Found;
    var b' := Respond(b, i, p, answer(p));
    assert Answers(answer, b', p);
    if q in b.place {
      assert Found(answer, b, q) && Keeps(b, b');
      FoundStays(answer, b, b', q);
    } else {
      MoreFound(answer, b', p, q);
    }
  }

  lemma RespondLogged(answer: Path -> Payload, b: Board, i: nat, p: Path, k: nat)
    requires Explored(answer, b) && i < |b.held|
    requires k <= |b.log| && (k < |b.log| ==> b.log[k].verdict.Answered?)
    ensures LoggedRight(answer, Respond(b, i, p, answer(p)), k)
  {
    hide More;
    assert k < |b.log| ==> LoggedRight(answer, b, k);
  }

  lemma RespondExplored(answer: Path -> Payload, b: Board, i: nat, p: Path)
    requires Explored(answer, b) && i < |b.held| && IsAt(b, p, At(i)) && More(p, answer(p)) !! b.place.Keys
    ensures Explored(answer, Respond(b, i, p, answer(p)))
  {
    hide Found, LoggedRight, More;
    var b' := Respond(b, i, p, answer(p));
    forall q | q in b'.place ensures Found(answer, b', q) {
      RespondFound(answer, b, i, p, q);
    }
    forall k | 0 <= k < |b'.log| && b'.log[k].verdict.Answered? ensures LoggedRight(answer, b', k) {
      RespondLogged(answer, b, i, p, k);
    }
  }

  lemma FoundStays(answer: Path -> Payload, b: Board, b': Board, p: Path)
    requires Found(answer, b, p) && Keeps(b, b')
    ensures Found(answer, b', p)
  {}

  lemma RespondSound(answer: Path -> Payload, b: Board, i: nat, p: Path)
    requires Sound(answer, b) && i < |b.held| && b.held[i] == Some(p)
    ensures Sound(answer, Respond(b, i, p, answer(p)))
  {
    assert IsAt(b, p, At(i));
    MoreUnseen(answer, b, p, answer(p));
    RespondConserved(b, i, p, answer(p));
    RespondCounted(b, i, p, answer(p));
    RespondExplored(answer, b, i, p);
  }

  lemma StrikeLocated(b: Board, i: nat, p: Path, q: Path)
    requires Conserved(b) && i < |b.held| && b.held[i] == Some(p) && q in Strike(b, i, p).place
    ensures Located(Strike(b, i, p), q)
  {
    assert IsAt(b, p, At(i));
    assert q in b.place ==> Located(b, q);
    assert q in b.solo ==> q in b.solo + [p];
  }

  lemma StrikeConserved(b: Board, i: nat, p: Path)
    requires Conserved(b) && i < |b.held| && b.held[i] == Some(p)
    ensures Conserved(Strike(b, i, p))
  {
    hide Located;
    var b' := Strike(b, i, p);
    assert IsAt(b, p, At(i));
    forall q | q in b'.place ensures Located(b', q) {
      StrikeLocated(b, i, p, q);
    }
  }

  lemma StrikeSound(answer: Path -> Payload, b: Board, i: nat, p: Path)
    requires Sound(answer, b) && i < |b.held| && b.held[i] == Some(p)
    ensures Sound(answer, Strike(b, i, p))
  {
    assert IsAt(b, p, At(i));
    var b' := Strike(b, i, p);
    StrikeConserved(b, i, p);
    ExploredStays(answer, b, b');
    forall q ensures Tally(b', q) {
      assert Tally(b, q);
      if b.mode == Solo && q in b.place && b.place[q].At? {
        OnlyHeld(b, i, q);
      }
    }
  }

  /** The mode may change when nothing runs. */
  lemma ModeSound(answer: Path -> Payload, b: Board, mode: Mode)
    requires Sound(answer, b) && (mode == b.mode || NoneHeld(b))
    ensures Sound(answer, b.(mode := mode))
  {
    var b' := b.(mode := mode);
    ExploredStays(answer, b, b');
    assert forall p | p in b'.place :: Located(b, p);
    forall q ensures Tally(b', q) {
      assert Tally(b, q);
    }
  }
}
