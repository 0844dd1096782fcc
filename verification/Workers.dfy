/** A worker process and its two pipes (the loop at the end of src/worker.cc).
    The pipes carry whole lines in order, which `Framing` justifies. */
module Workers {
  import opened Ledger

  datatype Command = Do(path: Path) | Exit
  datatype Line = Next | Restart | Answer(path: Path, payload: Payload) | BootError

  /** Where the process is in its loop: setting up; about to say "next"; waiting
      for a command; evaluating; about to say "restart" and end; with its pipes
      closed but not ended yet; ended by itself with exit status 0; or ended
      by SIGKILL. */
  datatype Control = Booting | Ready | Waiting | Working(path: Path) | Leaving | Closing | Exited | Shot

  /** `inbox` and `outbox` hold what is written and not yet read.  `given` counts
      the jobs sent to the process. */
  datatype Process = Process(control: Control, inbox: seq<Command>, outbox: seq<Line>, given: nat)

  const SPAWNED := Process(Booting, [], [], 0)

  predicate Ended(p: Process) { p.control.Exited? || p.control.Shot? }

  /** The pipes are closed at the end of the process. */
  predicate Gone(p: Process) { p.control.Closing? || Ended(p) }

  /** What a process can do next by itself.  `GiveUp` is an error while setting
      up; after a response the process restarts if it has grown too large. */
  datatype Act = SayNext | GiveUp | Take | Say(restart: bool) | SayRestart | End

  predicate CanAct(p: Process, act: Act) {
    match act
    case SayNext => p.control.Booting? || p.control.Ready?
    case GiveUp => p.control.Booting?
    case Take => p.control.Waiting? && p.inbox != []
    case Say(_) => p.control.Working?
    case SayRestart => p.control.Leaving?
    case End => p.control.Closing?
  }

  function ActOf(answer: Path -> Payload, p: Process, act: Act): Process
    requires CanAct(p, act)
  {
    match act
    case SayNext => p.(control := Waiting, outbox := p.outbox + [Next])
    case GiveUp => p.(control := Leaving, outbox := p.outbox + [BootError])
    case Take => p.(control := if p.inbox[0].Do? then Working(p.inbox[0].path) else Closing, inbox := p.inbox[1..])
    case Say(restart) =>
      p.(control := if restart then Leaving else Ready,
         outbox := p.outbox + [Answer(p.control.path, answer(p.control.path))])
    case SayRestart => p.(control := Closing, outbox := p.outbox + [Restart])
    case End => p.(control := Exited)
  }

  function Kill(p: Process): Process {
    if Ended(p) then p else p.(control := Shot)
  }
}
