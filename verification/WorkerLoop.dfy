/** The loop at the end of `worker` and `processJobRequest` (src/worker.cc), and
    that it does what the automaton of `Workers` allows. */
module WorkerLoop {
  import opened Ledger
  import opened Workers
  import opened Evaluation

  /** How a round of request and answer ends. */
  datatype Continuation = MoreJobs | Quit | ToBeReplaced

  /** What a worker writes from saying "next" on, when it is sent `commands` and has
      grown too large after those jobs that `tooLarge` tells.  Behind the last
      command the pipe is closed. */
  function Transcript(g: Graph, commands: seq<Command>, tooLarge: seq<bool>): seq<Line>
    requires |tooLarge| == |commands|
  {
    [Next] +
    if commands == [] || commands[0].Exit? then []
    else
      [Answer(commands[0].path, Reply(g, commands[0].path))] +
      if tooLarge[0] then [Restart] else Transcript(g, commands[1..], tooLarge[1..])
  }

  lemma Regroup(a: seq<Line>, b: seq<Line>, c: seq<Line>, d: seq<Line>)
    ensures a + (b + (c + d)) == a + b + c + d
  {}

  /** The first `k` commands are jobs after which the worker has not grown too large. */
  predicate Uneventful(commands: seq<Command>, tooLarge: seq<bool>, k: nat)
    requires |tooLarge| == |commands|
  {
    k <= |commands| && forall j | 0 <= j < k :: commands[j].Do? && !tooLarge[j]
  }

  /** `lines` begins with "next" and the answer for each of the first `k` commands. */
  ghost predicate Dialogue(g: Graph, commands: seq<Command>, k: nat, lines: seq<Line>) {
    && k <= |commands| && 2 * k <= |lines|
    && forall j | 0 <= j < k :: commands[j].Do? && lines[2 * j] == Next
                                && lines[2 * j + 1] == Answer(commands[j].path, Reply(g, commands[j].path))
  }

  lemma DialogueGrows(g: Graph, commands: seq<Command>, k: nat, lines: seq<Line>)
    requires commands != [] && commands[0].Do? && Dialogue(g, commands[1..], k, lines)
    ensures Dialogue(g, commands, k + 1, [Next] + ([Answer(commands[0].path, Reply(g, commands[0].path))] + lines))
  {
    hide Reply;
    var all := [Next] + ([Answer(commands[0].path, Reply(g, commands[0].path))] + lines);
    forall j | 0 <= j < k + 1
      ensures commands[j].Do? && all[2 * j] == Next
      ensures all[2 * j + 1] == Answer(commands[j].path, Reply(g, commands[j].path))
    {
      if j > 0 {
        assert all[2 * j] == lines[2 * (j - 1)] && all[2 * j + 1] == lines[2 * (j - 1) + 1];
        assert commands[j] == commands[1..][j - 1];
      }
    }
  }

  /** The transcript of the first `k` rounds and the last "next". */
  ghost predicate QuitsAfter(g: Graph, commands: seq<Command>, k: nat, lines: seq<Line>) {
    |lines| == 2 * k + 1 && Dialogue(g, commands, k, lines) && lines[2 * k] == Next
  }

  /** The transcript of the first `k` rounds and "restart". */
  ghost predicate RestartsAfter(g: Graph, commands: seq<Command>, k: nat, lines: seq<Line>) {
    |lines| == 2 * k + 1 && Dialogue(g, commands, k, lines) && lines[2 * k] == Restart
  }

  lemma RoundBefore(g: Graph, commands: seq<Command>, k: nat, rest: seq<Line>)
    requires commands != [] && commands[0].Do?
    ensures var lines := [Next] + ([Answer(commands[0].path, Reply(g, commands[0].path))] + rest);
            && (QuitsAfter(g, commands[1..], k, rest) ==> QuitsAfter(g, commands, k + 1, lines))
            && (RestartsAfter(g, commands[1..], k, rest) ==> RestartsAfter(g, commands, k + 1, lines))
  {
    hide Reply, Dialogue;
    if Dialogue(g, commands[1..], k, rest) {
      DialogueGrows(g, commands, k, rest);
    }
  }

  /** A worker goes on until it is told to exit or its pipe is closed, which it
      notices after another "next", or until it has grown too large after a job,
      when it ends with "restart". */
  lemma {:induction false} TranscriptExactly(g: Graph, commands: seq<Command>, tooLarge: seq<bool>, k: nat)
    requires |tooLarge| == |commands| && Uneventful(commands, tooLarge, k)
    ensures k == |commands| || commands[k].Exit? ==> QuitsAfter(g, commands, k, Transcript(g, commands, tooLarge))
    ensures k < |commands| && commands[k].Do? && tooLarge[k] ==>
      RestartsAfter(g, commands, k + 1, Transcript(g, commands, tooLarge))
  {
    hide Reply, Dialogue;
    if k > 0 {
      TranscriptExactly(g, commands[1..], tooLarge[1..], k - 1);
      var rest := Transcript(g, commands[1..], tooLarge[1..]);
      assert Transcript(g, commands, tooLarge) ==
        [Next] + ([Answer(commands[0].path, Reply(g, commands[0].path))] + rest);
      hide Transcript, QuitsAfter, RestartsAfter;
      RoundBefore(g, commands, k - 1, rest);
      RoundBefore(g, commands, k, rest);
    } else {
      NoDialogue(g, commands, Transcript(g, commands, tooLarge));
      if commands != [] && commands[0].Do? && tooLarge[0] {
        NoDialogue(g, commands[1..], [Restart]);
        RoundBefore(g, commands, 0, [Restart]);
      }
    }
  }

  lemma NoDialogue(g: Graph, commands: seq<Command>, lines: seq<Line>)
    ensures Dialogue(g, commands, 0, lines)
  {}

  class Connection {
    const commands: seq<Command>
    const tooLarge: seq<bool>
    var read: nat
    var written: seq<Line>

    ghost predicate Valid()
      reads this
    {
      |tooLarge| == |commands| && read <= |commands|
    }

    constructor (commands: seq<Command>, tooLarge: seq<bool>)
      requires |tooLarge| == |commands|
      ensures Valid() && read == 0 && written == [] && this.commands == commands && this.tooLarge == tooLarge
    {
      this.commands, this.tooLarge, read, written := commands, tooLarge, 0, [];
    }

    /** What is written from here on is the transcript of the commands left. */
    method ProcessJobRequest(g: Graph) returns (next: Continuation)
      requires Valid() && WellNamed(g)
      modifies this
      ensures Valid() && (next.MoreJobs? ==> read > old(read))
      ensures old(written) + Transcript(g, commands[old(read)..], tooLarge[old(read)..]) ==
        written + match next
                  case MoreJobs => Transcript(g, commands[read..], tooLarge[read..])
                  case Quit => []
                  case ToBeReplaced => [Restart]
    {
      hide Reply;
      ghost var start := written;
      written := written + [Next];
      if read == |commands| {
        assert start + ([Next] + []) == written + [];
        return Quit;
      }
      var command := commands[read];
      ghost var left, grown := commands[read..], tooLarge[read..];
      assert left[0] == command && left[1..] == commands[read + 1..];
      assert grown[0] == tooLarge[read] && grown[1..] == tooLarge[read + 1..];
      read := read + 1;
      if command.Exit? {
        assert start + ([Next] + []) == written + [];
        return Quit;
      }
      var payload := Evaluate(g, command.path);
      written := written + [Answer(command.path, payload)];
      next := if tooLarge[read - 1] then ToBeReplaced else MoreJobs;
      Regroup(start, [Next], [Answer(command.path, payload)],
              if tooLarge[read - 1] then [Restart] else Transcript(g, commands[read..], tooLarge[read..]));
    }

    method Worker(g: Graph)
      requires Valid() && WellNamed(g)
      modifies this
      ensures Valid() && written == old(written) + Transcript(g, commands[old(read)..], tooLarge[old(read)..])
    {
      ghost var all := written + Transcript(g, commands[read..], tooLarge[read..]);
      var next := MoreJobs;
      while next.MoreJobs?
        invariant Valid()
        invariant all == written + match next
                                   case MoreJobs => Transcript(g, commands[read..], tooLarge[read..])
                                   case Quit => []
                                   case ToBeReplaced => [Restart]
        decreases next.MoreJobs?, |commands| - read
      {
        next := ProcessJobRequest(g);
      }
      if next.ToBeReplaced? {
        written := written + [Restart];
      }
    }
  }

  // ---- The automaton --------------------------------------------------------------

  ghost predicate CanActAll(answer: Path -> Payload, p: Process, acts: seq<Act>)
    decreases |acts|
  {
    acts == [] || (CanAct(p, acts[0]) && CanActAll(answer, ActOf(answer, p, acts[0]), acts[1..]))
  }

  ghost function ActAll(answer: Path -> Payload, p: Process, acts: seq<Act>): Process
    requires CanActAll(answer, p, acts)
    decreases |acts|
  {
    if acts == [] then p else ActAll(answer, ActOf(answer, p, acts[0]), acts[1..])
  }

  /** The acts that lead through the same commands. */
  function ActsFor(commands: seq<Command>, tooLarge: seq<bool>): seq<Act>
    requires |tooLarge| == |commands|
  {
    if commands == [] then [SayNext]
    else if commands[0].Exit? then [SayNext, Take]
    else [SayNext, Take, Say(tooLarge[0])] + if tooLarge[0] then [SayRestart] else ActsFor(commands[1..], tooLarge[1..])
  }

  lemma {:induction false} ActsJoin(answer: Path -> Payload, p: Process, acts: seq<Act>, acts': seq<Act>)
    requires CanActAll(answer, p, acts) && CanActAll(answer, ActAll(answer, p, acts), acts')
    ensures CanActAll(answer, p, acts + acts')
    ensures ActAll(answer, p, acts + acts') == ActAll(answer, ActAll(answer, p, acts), acts')
    decreases |acts|
  {
    hide CanAct, ActOf;
    if acts == [] {
      assert acts + acts' == acts';
    } else {
      ActsJoin(answer, ActOf(answer, p, acts[0]), acts[1..], acts');
      assert (acts + acts')[1..] == acts[1..] + acts';
    }
  }

  lemma OneAct(answer: Path -> Payload, p: Process, act: Act)
    requires CanAct(p, act)
    ensures CanActAll(answer, p, [act]) && ActAll(answer, p, [act]) == ActOf(answer, p, act)
  {
    hide CanAct, ActOf;
    assert [act][1..] == [];
    assert ActAll(answer, ActOf(answer, p, act), [act][1..]) == ActOf(answer, p, act);
  }

  lemma TwoActs(answer: Path -> Payload, p: Process, act: Act, act': Act)
    requires CanAct(p, act) && CanAct(ActOf(answer, p, act), act')
    ensures CanActAll(answer, p, [act, act'])
    ensures ActAll(answer, p, [act, act']) == ActOf(answer, ActOf(answer, p, act), act')
  {
    hide CanAct, ActOf, ActAll, CanActAll;
    OneAct(answer, p, act);
    OneAct(answer, ActOf(answer, p, act), act');
    ActsJoin(answer, p, [act], [act']);
    assert [act] + [act'] == [act, act'];
  }

  /** From one request to the next. */
  lemma OneRound(answer: Path -> Payload, p: Process, tooLarge: bool)
    requires p.control.Ready? && p.inbox != [] && p.inbox[0].Do?
    ensures var acts := [SayNext, Take, Say(tooLarge)];
            && CanActAll(answer, p, acts)
            && ActAll(answer, p, acts) == p.(control := if tooLarge then Leaving else Ready, inbox := p.inbox[1..],
                 outbox := p.outbox + [Next] + [Answer(p.inbox[0].path, answer(p.inbox[0].path))])
  {
    hide ActAll, CanActAll;
    TwoActs(answer, p, SayNext, Take);
    var p2 := ActOf(answer, ActOf(answer, p, SayNext), Take);
    OneAct(answer, p2, Say(tooLarge));
    ActsJoin(answer, p, [SayNext, Take], [Say(tooLarge)]);
    assert [SayNext, Take] + [Say(tooLarge)] == [SayNext, Take, Say(tooLarge)];
  }

  /** What the automaton has written and where it stands when it went through all
      commands. */
  ghost predicate Followed(g: Graph, p: Process, tooLarge: seq<bool>, p': Process)
    requires |tooLarge| == |p.inbox|
  {
    p'.outbox == p.outbox + Transcript(g, p.inbox, tooLarge) &&
    (p'.control.Closing? || (p'.control.Waiting? && p'.inbox == []))
  }

  lemma RoundFollowed(g: Graph, p: Process, tooLarge: seq<bool>, p3: Process, p': Process)
    requires |tooLarge| == |p.inbox| && p.inbox != [] && p.inbox[0].Do? && p3.inbox == p.inbox[1..]
    requires p3.outbox == p.outbox + [Next] + [Answer(p.inbox[0].path, Reply(g, p.inbox[0].path))]
    requires if tooLarge[0] then p'.outbox == p3.outbox + [Restart] && p'.control.Closing?
      else Followed(g, p3, tooLarge[1..], p')
    ensures Followed(g, p, tooLarge, p')
  {
    hide Reply;
    var line := Answer(p.inbox[0].path, Reply(g, p.inbox[0].path));
    Regroup(p.outbox, [Next], [line], if tooLarge[0] then [Restart] else Transcript(g, p.inbox[1..], tooLarge[1..]));
  }

  /** The automaton, sent the same commands, can write what the loop writes, and
      then is done or waits for a command. */
  lemma {:induction false} AutomatonFollows(g: Graph, p: Process, tooLarge: seq<bool>)
    requires p.control.Ready? && |tooLarge| == |p.inbox|
    ensures var acts, answer := ActsFor(p.inbox, tooLarge), AnswerOf(g);
            CanActAll(answer, p, acts) && Followed(g, p, tooLarge, ActAll(answer, p, acts))
    decreases |p.inbox|
  {
    hide Reply, ActAll, CanActAll, Followed, Transcript;
    var answer := AnswerOf(g);
    if p.inbox == [] {
      OneAct(answer, p, SayNext);
      LastFollowed(g, p, tooLarge, ActOf(answer, p, SayNext));
    } else if p.inbox[0].Exit? {
      TwoActs(answer, p, SayNext, Take);
      LastFollowed(g, p, tooLarge, ActOf(answer, ActOf(answer, p, SayNext), Take));
    } else {
      OneRound(answer, p, tooLarge[0]);
      var round := [SayNext, Take, Say(tooLarge[0])];
      var p3 := ActAll(answer, p, round);
      if tooLarge[0] {
        OneAct(answer, p3, SayRestart);
        ActsJoin(answer, p, round, [SayRestart]);
        RoundFollowed(g, p, tooLarge, p3, ActOf(answer, p3, SayRestart));
      } else {
        AutomatonFollows(g, p3, tooLarge[1..]);
        var rest := ActsFor(p3.inbox, tooLarge[1..]);
        ActsJoin(answer, p, round, rest);
        RoundFollowed(g, p, tooLarge, p3, ActAll(answer, p3, rest));
      }
    }
  }

  lemma LastFollowed(g: Graph, p: Process, tooLarge: seq<bool>, p': Process)
    requires |tooLarge| == |p.inbox| && (p.inbox == [] || p.inbox[0].Exit?) && p'.outbox == p.outbox + [Next]
    requires p'.control.Closing? || (p'.control.Waiting? && p'.inbox == [])
    ensures Followed(g, p, tooLarge, p')
  {
    assert Transcript(g, p.inbox, tooLarge) == [Next];
  }
}
