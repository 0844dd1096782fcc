# A verified model of nix-eval-jobs

nix-eval-jobs walks a tree of Nix attribute sets with several worker processes
and prints one JSON line for every job or error it finds. This project models
its concurrent and stateful parts in Dafny and proves what they promise. It
verifies with `dafny verify dfyconfig.toml` (Dafny 4.11).

## What is modelled

**The scheduler and its workers** (`src/nix-eval-jobs.cc`, `src/worker.cc`,
`src/proc.cc`).
- `Ledger` is the account of all attribute paths: `todo`, `solo`, the slots and
  the log, with the history of every path. Its moves keep conservation.
- `Workers` is the worker process as an automaton with two FIFO pipes;
  `WorkerLoop` is its loop as code, and `Evaluation` how it evaluates a path in
  a fixed graph of attribute sets that may contain each other.
- `Collector` says as functions what each method of `Scheduler` does to the
  state, `Scheduler` is the class with those methods updating fields and the
  worker array in place, and `Discipline` has the invariants of its own state.
  `Capacity` says by numbers when a job is handed out.
- `System` closes the loop: an event is one slot of a dispatch pass, one read,
  a memory sample, one act of a process, or a kill by the kernel. `EveryRun`,
  `Progress`, `Liveness`, `Termination`, `Memory` and `Races` are about all
  runs, for any number of slots, any budget, any tree and any interleaving, and
  so is `Overruns`, about runs in which the kernel kills nobody;
  `Refinement` ties the class to the events, and `EventLoop` is the loop of the
  class with the surroundings acting between its calls. `Verdicts` compares a
  finished run with a sequential descent.

**The cache status resolver** (`src/cache-status-resolver.cc`). `Walk` is the
walk that asks the store directly; `Resolver` is the class with its caches,
batches, retries and inbox, proved to give the same answers. `Wants` is about
derivations that several users want different outputs of.

**Aggregates** (`src/constituents.cc`): `TopoSort`, `Constituents`, and
`JobTable` for the rewriting and printing.

**Names and lines**: `AttrPath` (`src/response.cc`) and `Framing`
(`src/proc.cc`, `src/buffered-io.cc`). `Report` joins everything: from the
verdicts of a run to the lines that are printed.

## Three findings

- A run in which every worker does as it should can end by an exception. If a
  worker answers, asks to be replaced and ends while the collector, which has
  not read this yet, chooses it as the victim of a memory sample, the end of
  its pipe is read in phase `Killed`, and `waitpid` reports a normal exit
  (`src/nix-eval-jobs.cc:328-329`, `src/proc.cc:133-164`).
  `Races.ExitedExactlyWhenTooLate` gives the exact condition,
  `Races.TooLateOrigin` exactly how to get there, and
  `Races.HealthyRunCanAbort` a run of one worker that ends so.
- The walk of the resolver remembers a derivation, not the outputs it was
  visited for (`src/cache-status-resolver.cc:239-244`). A later user that wants
  other outputs of it can be ignored: `Wants.LaterWantsIgnored` has an example.
  `Wants.LaterWantMet` says exactly when a later want is met;
  `Wants.LaterWantMetIffCovered` says it by the store's answers about that
  derivation alone, for derivations that share no outputs; and
  `Wants.AlwaysMetIffUsersAgree` is about a whole graph in which moreover all
  output paths are known and every want picks some: every want of every build
  is met whatever the store answers if and only if all builds that can be
  reached pick the same paths of a common input.
- An aggregate that names itself as a constituent is sorted as if it did not
  (`src/constituents.cc:68`), and records its path from before its own
  rewriting (`src/constituents.cc:240-262`). `JobTable.Table.RecordedPathsFinal`
  has the exact condition under which the recorded paths are the final ones, and
  `JobTable.RecordedPathStale` an aggregate for which they are not.

`spec/scheduler.qnt` differs from the code in places, for instance in which
workers count against the budget (`src/nix-eval-jobs.cc:247` counts the busy
ones only). The model follows the code.

## Model

| member | source | states |
|---|---|---|
| EveryRun.ProtocolAgreement | src/nix-eval-jobs.cc:406-448 | in every run the collector never meets a line that does not fit the phase of the worker; phase, control point of the process and contents of both pipes always agree |
| System.ActAgrees | src/worker.cc:377-419 | every act of a worker keeps the agreement of phase, control point and pipes |
| System.OnLineOk | src/nix-eval-jobs.cc:421-448 | treating one line of a read keeps the agreement with the lines read and not yet treated, also for an answer and the following "next" or "restart" in one read |
| System.StepInv | src/nix-eval-jobs.cc:184-190 | every event of collector, worker or kernel keeps protocol, conservation, solo discipline and slot invariants together |
| EveryRun.Conservation | src/nix-eval-jobs.cc:263-298 | in every run each path ever put in `todo` is once in exactly one of `todo`, `solo`, a busy or killed worker or the log, others are nowhere; no path is handed out more than twice |
| Ledger.RespondSound | src/nix-eval-jobs.cc:450-472 | an answer keeps conservation, counts and exploration while inserting the children |
| Ledger.StrikeSound | src/nix-eval-jobs.cc:490-512 | a kill moves the job to `solo` the first time and to the log the second, keeping the account |
| EveryRun.SoloDiscipline | src/nix-eval-jobs.cc:263-289 | in solo mode one process at most is alive and was given no job before the retry; with nothing running `solo` is not empty; a running job was killed once before exactly in solo mode; a path given up was killed and handed out exactly twice |
| EveryRun.EndedRunIsComplete | src/nix-eval-jobs.cc:184-190 | a run that ends has nothing left to do and no process left, and its log is exactly the verdicts of a sequential descent that stops at the paths killed twice, each once |
| EveryRun.InterleavingIndependence | src/nix-eval-jobs.cc:450-512 | two runs that end, with any numbers of workers, budgets and interleavings, recorded the same if they gave up the same paths |
| Verdicts.Complete | src/nix-eval-jobs.cc:450-472 | an account with nothing waiting or running holds exactly the records of the sequential descent |
| EveryRun.FinishedForGood | src/nix-eval-jobs.cc:234-236 | once `finished` holds no step undoes it, starts a worker or changes the account |
| EveryRun.CleanExit | src/nix-eval-jobs.cc:347-350 | a worker is told to exit only when all is done; afterwards nothing is started or recorded in any continuation |
| Progress.NoDeadlock | src/nix-eval-jobs.cc:332-368 | when the loop goes on, after a dispatch pass some worker is starting, busy, killed or exiting and can act or has something to be read, or a job was struck off in the pass |
| Progress.SlotKeepsPromise | src/nix-eval-jobs.cc:346-367 | no slot of a pass loses what makes the pass lead to an active worker or a struck job |
| Termination.EveryStepAdvances | src/nix-eval-jobs.cc:184-190 | every event leaves all but memory readings as it was, or lowers an explicit lexicographic measure, or raises an exception |
| Termination.RunsAreBounded | src/nix-eval-jobs.cc:184-190 | over a finite set of paths, a closed formula bounds the steps of any run that change anything but memory readings |
| Evaluation.Select | src/worker.cc:314-337 | the loop finds the value at a path, the first failure on the way, or the cycle failure exactly when the value is one of its own ancestors |
| Evaluation.CollectAttrsForRecursion | src/worker.cc:229-250 | yields all names when that is forced, else as a `recurseForDerivations` attribute says, at the root as well, else at the root only; or the failure of forcing the flag |
| Evaluation.Evaluate | src/worker.cc:339-360 | the answer for a path by the values on the way in the graph: the derivation, the names or the failure found at its end; the cycle failure when it is a set passed before; or the first thing that goes wrong; only stack overflows are fatal |
| Evaluation.ReplyExactly | src/worker.cc:312-360 | the same for the answer as a function, and a path either leads to a value or gets stuck |
| Evaluation.RootIsEntered | src/worker.cc:229-250 | a descent meets every attribute of a root set without the flag |
| Evaluation.SeenPaths | src/worker.cc:331-335 | a path that the scheduler has seen passed as many different attribute sets as it is long |
| Evaluation.HandedPathsAreShort | src/worker.cc:312-337 | in every run over a finite, possibly cyclic graph no path handed to a worker is longer than the number of sets |
| Evaluation.GraphRunsAreBounded | src/worker.cc:312-337 | so every run over such a graph makes a bounded number of moves |
| Liveness.EveryRunCanFinish | src/nix-eval-jobs.cc:184-190 | from every state that a run over a finite graph reaches without an exception, with at least one slot, some continuation ends the loop normally, provided that no answer is fatal for a path that is there, no report of a failed start is on the way and no worker was killed too late |
| Liveness.EveryRunCanEnd | src/nix-eval-jobs.cc:184-190 | without that proviso some continuation ends the loop or raises an exception |
| Liveness.Around | src/nix-eval-jobs.cc:184-190 | from the top of the loop, unless it is over, one time around can lower the bound on the steps left |
| Memory.EstimateIsDecayedMaximum | src/nix-eval-jobs.cc:293-306 | in every run the estimate is the maximum of 512 and all growths observed, as differences of readings, each decayed by 98/100 once per completion since |
| Memory.DecayedMaximum | src/nix-eval-jobs.cc:208-215 | the running update equals the maximum of the separately decayed observations |
| Memory.ReadingsKept | src/nix-eval-jobs.cc:200-211 | after each step the reading of a worker is the last one taken, and what its growth is counted from is the reading it had when its job was handed out |
| Memory.SampleKills | src/nix-eval-jobs.cc:301-330 | a sample kills a worker exactly when the sum of all readings exceeds the budget and it is the first of the busy ones that use most |
| Memory.VictimIsLargest | src/nix-eval-jobs.cc:312-322 | a victim is found exactly when a worker is busy, and is the first of maximal use |
| Overruns.OnlyHugeErrors | spec/scheduler.qnt:231-234 | when the kernel kills nobody, a path is recorded as over budget only after a sample in solo mode found the collector and the one worker that ran it over the budget |
| Memory.AdmissionIsSafe | src/nix-eval-jobs.cc:238-279 | after a job was handed out in parallel mode with another busy, as long as busy workers grow by the estimate at most, nothing else grows and nothing is started or handed out, memory stays within the budget and no sample kills |
| Races.ExitedExactlyWhenTooLate | src/nix-eval-jobs.cc:474-488 | a run ends because a worker exited if and only if the end of the pipe is read from one that was killed after it had ended by itself |
| Races.ExceptionsHaveCauses | src/nix-eval-jobs.cc:421-448 | a run ends by an exception only when a read finds a worker's report that it cannot start, a fatal answer for a path that a descent from the root meets, or a kill that came too late |
| Races.ExceptionsExactly | src/nix-eval-jobs.cc:421-488 | a step raises an exception exactly when a read finds a report that a worker cannot start or a fatal answer from one that the collector has not killed, or the end of the pipe of one that it killed too late; which exception follows |
| Races.HarmlessStepWell | src/nix-eval-jobs.cc:421-512 | where no answer is fatal, no report of a failed start is on the way and no worker was killed too late, every step but a memory sample, a failed start or a kill by the kernel keeps it so and raises no exception |
| Races.TooLateOrigin | src/nix-eval-jobs.cc:301-330 | the collector comes to kill a worker too late if and only if the victim of a memory sample has ended by itself, and such a worker has answered and asked to be replaced with both lines unread |
| Races.HealthyRunCanAbort | src/proc.cc:133-164 | there is such a run of one worker that makes no error, starts as it should and is not killed by the kernel |
| Scheduler.Scheduler.constructor | src/nix-eval-jobs.cc:177-182 | the start state: the root in `todo`, no worker, a budget of slots times memory size |
| Scheduler.Scheduler.TakeJob | src/nix-eval-jobs.cc:263-279 | yields a job exactly when one may be handed out by the numbers of busy workers and the readings, the last of `solo` or the first of `todo`; `solo` is never empty where its last element is taken |
| Capacity.CanTakeExactly | src/nix-eval-jobs.cc:246-279 | a job may be handed out in solo mode if none runs, and otherwise if none is kept for solo mode, there is one, and either none is busy or the sum of all readings and one estimate for each busy worker and one more are within the budget; and only then |
| Capacity.JobGiven | src/nix-eval-jobs.cc:346-362 | in a pass an idle worker with an open pipe is given a job if and only if one may be handed out, the last one kept for solo mode or the first of `todo`, with its present reading as the base of its growth; otherwise it is told to exit exactly when nothing is left, or stays as it is |
| Scheduler.Scheduler.EnterSolo | src/nix-eval-jobs.cc:284-289 | every slot is emptied and the mode becomes solo |
| Scheduler.Scheduler.OnKilled | src/nix-eval-jobs.cc:490-512 | the job goes to `solo` or is reported as over budget, the slot is emptied, the mode is parallel again |
| Scheduler.Scheduler.OnEof | src/nix-eval-jobs.cc:474-488 | tells an exit that was ordered, one that was not, and a kill apart |
| Scheduler.Scheduler.JobFinished | src/nix-eval-jobs.cc:293-299 | updates estimate, slot and mode |
| Scheduler.Scheduler.InsertChildren | src/nix-eval-jobs.cc:453-458 | the loop adds exactly the children to `todo` |
| Scheduler.Scheduler.OnResponse | src/nix-eval-jobs.cc:450-472 | the whole new state after an answer, a fatal one included |
| Scheduler.Scheduler.OnLine | src/nix-eval-jobs.cc:421-448 | the whole new state after a line, by phase |
| Scheduler.Scheduler.ReadWorker | src/nix-eval-jobs.cc:406-419 | the loop treats the lines of one read in order until the worker is dropped, then the end of the pipe |
| Scheduler.Scheduler.SampleMemory | src/nix-eval-jobs.cc:301-330 | the loops over the slots sample, learn and choose the victim as specified |
| Scheduler.Scheduler.Dispatch | src/nix-eval-jobs.cc:332-368 | the loop with its fixed number of workers to start, and the end of a pipe in the middle of the pass, gives the state of the specified pass; without an exception it has started as many workers as `WorkersStarted` says |
| Scheduler.NoMoreWorkersThanJobs | src/nix-eval-jobs.cc:332-345 | a pass starts no more workers than there are jobs beyond those starting or idle; in solo mode one, and only when none is alive |
| Scheduler.WorkersStarted | src/nix-eval-jobs.cc:332-368 | without an exception a pass starts as many workers as there are empty slots, but no more than there are jobs beyond the workers that are starting or idle; none while jobs are kept for solo mode; and in solo mode one if and only if none is alive and there is a slot |
| Scheduler.Scheduler.PollWorkers | src/nix-eval-jobs.cc:370-404 | samples if due and reads the slots that were ready |
| Discipline.DispatchSlotSane | src/nix-eval-jobs.cc:346-367 | a slot of a pass keeps phases, solo discipline and exit discipline, and never starts more than the one worker solo mode has room for |
| Refinement.DispatchIsRun | src/nix-eval-jobs.cc:332-368 | a call of `Dispatch` leads to the state that a run of single events leads to |
| Refinement.PollIsRun | src/nix-eval-jobs.cc:370-404 | a call of `PollWorkers` without a sample leads to the state of such a run as well, back at the top of the loop unless an exception was raised |
| Refinement.PollAndSampleIsRun | src/nix-eval-jobs.cc:393-397 | and so does one with a sample |
| EventLoop.Run | src/nix-eval-jobs.cc:184-190 | the whole loop of the class, with processes acting and being killed between its calls and with any inputs, is a run of the system, and it ends by itself exactly when no exception was raised, nothing is left to do and no process is left |
| EventLoop.Evaluation | src/nix-eval-jobs.cc:177-190 | from the constructor on, what the class has handed on is what a reachable state of the system has in its log, and the loop ended exactly when that state is an ended one |
| WorkerLoop.Connection.ProcessJobRequest | src/worker.cc:377-419 | one round writes "next", reads a command or the end, and writes the answer |
| WorkerLoop.Connection.Worker | src/worker.cc:478-484 | the loop writes exactly the transcript of its commands, with "restart" after the first job that makes it too large |
| WorkerLoop.TranscriptExactly | src/worker.cc:377-484 | "next" and an answer for each job until the first exit command or the end of the pipe, which follow one more "next", or the first job after which the worker is too large, which "restart" follows |
| WorkerLoop.AutomatonFollows | src/worker.cc:377-419 | the automaton, sent the same commands, can write the same and is then done or waiting |
| Resolver.CacheStatusResolver.ProbeValidity | src/cache-status-resolver.cc:186-194 | the answer comes from the cache exactly when the path is cached and is the store's; otherwise this path is queued for the next batch and the attempt fails |
| Resolver.CacheStatusResolver.AllSubstitutableCached | src/cache-status-resolver.cc:167-184 | exact when all answers are cached, and only then given; every path that is not cached is queued, also those after the first |
| Resolver.CacheStatusResolver.MissingOutputs | src/cache-status-resolver.cc:208-232 | the missing wanted outputs are exact when all are cached; every wanted output is cached or queued; an unknown output is always noticed |
| Resolver.CacheStatusResolver.VisitDrv | src/cache-status-resolver.cc:234-282 | while the attempt is complete the traversal equals that of the walk that asks the store directly; in any case every derivation newly visited has all its wanted outputs cached or queued, has the missing ones, once all are cached, asked for at the substituters, and has its inputs visited unless these may all be substituted, so also while validity is pending |
| Resolver.CacheStatusResolver.VisitMissing | src/cache-status-resolver.cc:264-282 | the same for the second half of a visit, when outputs are known to be missing |
| Resolver.CacheStatusResolver.TryResolve | src/cache-status-resolver.cc:284-347 | whatever the caches hold, success gives the resolution of the direct walk: `Local` if and only if all outputs are known and valid, `Cached` if and only if all are known, each valid or substitutable and one not valid, with just the missing paths to fetch; a failure leaves a path waiting and has asked about all outputs of the job, or about substitutes of all that are missing, or has walked the graph as `VisitDrv` does |
| Resolver.CacheStatusResolver.QueryValidPaths | src/cache-status-resolver.cc:141-149 | one batch answers every path that waits, none of which was asked about before |
| Resolver.CacheStatusResolver.QuerySubstitutablePathInfos | src/cache-status-resolver.cc:150-165 | the same for substitutes |
| Resolver.CacheStatusResolver.ResolveRound | src/cache-status-resolver.cc:141-165 | a round with a path waiting lowers the number of unanswered paths |
| Resolver.CacheStatusResolver.TakeInbox | src/cache-status-resolver.cc:85-98 | every response taken is emitted or in hand, none is lost or doubled |
| Resolver.CacheStatusResolver.Push | src/cache-status-resolver.cc:59-68 | appends to the inbox until `finish` or an exception of the thread |
| Resolver.CacheStatusResolver.Run | src/cache-status-resolver.cc:100-139 | for every interleaving of pushes with the thread: it ends, emits every response once, jobs with the resolution of the direct walk and the status that their outputs have in the store, and the failed rounds are at most two per path in reach; if the store throws in a round, after any number of its jobs, or the destructor ends the thread, what came out is right and came out once, and a closed formula bounds the rounds before |
| Resolver.CacheStatusResolver.DieTrying | src/cache-status-resolver.cc:100-139 | an exception in the middle of a round: what this round had emitted before is right and came out once |
| Resolver.CacheStatusResolver.ThreadDies | src/cache-status-resolver.cc:130-138 | after an exception the jobs in hand are lost, later pushes dropped, and nothing came out that was not pushed |
| Walk.ResolutionUnique | src/cache-status-resolver.cc:284-347 | the store's answers determine the resolution, the order of its lists included |
| Walk.ResolutionSays | src/cache-status-resolver.cc:284-347 | the status follows from validity and substitutability of the outputs of the job, path by path; unless it is `NotBuilt` nothing is to be built and exactly the outputs that are not valid are to be fetched |
| Walk.MissingExactly | src/cache-status-resolver.cc:208-232 | the wanted outputs are unknown if one has no path, and otherwise those that are not valid are missing; all are wanted if none is named |
| Walk.FastPathAgrees | src/cache-status-resolver.cc:293-324 | when the outputs of job and derivation match, the fast path finds the builds and substitutes of the slow walk; the lists have the same length if and only if no output path occurs twice |
| Walk.BuildOrder | src/cache-status-resolver.cc:234-282 | needed builds come once each, after their needed inputs; every input of a needed build was dealt with as its first visit called for |
| Walk.OnlyBuildsLeadOn | src/cache-status-resolver.cc:234-282 | the walk visits only the job and what derivations that must be built want |
| Wants.WalkFinds | src/cache-status-resolver.cc:234-282 | of what was visited, the unknown are those with a wanted output of unknown path, the builds those with one neither valid nor substitutable, and the rest gives the paths to fetch |
| Wants.LaterWantMet | src/cache-status-resolver.cc:239-278 | after the walk a visited derivation is dealt with as other wants call for if and only if its first visit had the same fate, or they need only paths that are fetched, here or for another derivation |
| Wants.LaterWantMetIffCovered | src/cache-status-resolver.cc:239-278 | when derivations share no outputs, if and only if the answers about its own outputs, under the first wants and the others, say so |
| Wants.AlwaysCovered | src/cache-status-resolver.cc:208-232 | for fixed first wants, other wants are covered whatever the store answers if and only if they pick the same paths as the first, or none |
| Wants.MatchingWantsMet | src/cache-status-resolver.cc:239-244 | when all users of a derivation pick the same paths of it, or none, every input of a build was dealt with as that build wants |
| Wants.AlwaysMetIffUsersAgree | src/cache-status-resolver.cc:234-282 | when outputs are private and known and every want picks some, every input of every build is dealt with as that build wants, whatever the store answers, if and only if all builds that can be reached pick the same paths of a common input |
| Wants.LaterWantsIgnored | src/cache-status-resolver.cc:239-244 | an example where a second user of a derivation is ignored |
| Resolver.SortPaths | src/cache-status-resolver.cc:27-34 | sorted, and a permutation |
| TopoSort.TopoSort | src/constituents.cc:32-82 | succeeds if and only if no two or more aggregates form a cycle, then with every aggregate once and dependencies first; otherwise the pair is an edge on a real cycle, and with the rest it is every aggregate |
| TopoSort.Sorter.DfsVisit | src/constituents.cc:46-75 | a visit keeps the sorted part sorted and appends the job after what it waits for, or reports a real cycle |
| TopoSort.Sorter.ReportCycle | src/constituents.cc:47-59 | the parent that is dereferenced exists and lies on the cycle |
| Constituents.InsertMatchingConstituents | src/constituents.cc:84-106 | selects exactly the other healthy jobs that match, notes the broken ones, and tells whether a healthy one matched |
| Constituents.ResolveChild | src/constituents.cc:204-226 | what one constituent stands for: a job by exact name, itself included, a pattern, or nothing, with the reason |
| Constituents.ResolvesExactly | src/constituents.cc:178-238 | the constituents and the broken jobs of an aggregate by the names, the jobs and the patterns of the table |
| Constituents.ResolveNamedConstituents | src/constituents.cc:178-238 | exactly the jobs with named constituents, each with exactly the healthy jobs that its names are or, as patterns, match besides itself, and with what breaks it and why; sorted or with a cycle |
| JobTable.Table.Emit | src/nix-eval-jobs.cc:117-135 | records under the name and prints unless constituents are still to come |
| JobTable.Table.AddConstituents | src/constituents.cc:110-122 | the loop records the path of every dependency and makes it an input with its first output |
| JobTable.Table.RewriteDrv | src/constituents.cc:124-165 | the job gets the new path and the new output paths, or stays as it is when the derivation did not move |
| JobTable.Table.RewriteAggregates | src/constituents.cc:240-262 | every aggregate is rewritten from the paths its dependencies end up with, with its new output paths, and printed once; it gets an error if and only if it has broken jobs, which lists them; other jobs are untouched |
| JobTable.Table.RecordedPathsFinal | src/constituents.cc:240-262 | the recorded paths are the final ones of the dependencies if and only if the aggregate does not list itself or storing it with its constituents leaves it where it is |
| JobTable.RecordedPathStale | src/constituents.cc:178-262 | an aggregate that names itself, resolved and rewritten, records a path that is not its own any more |
| JobTable.Table.PrintCycle | src/nix-eval-jobs.cc:96-112 | in the cycle branch the pair and then the rest get their error and one line each |
| JobTable.Table.HandleConstituents | src/nix-eval-jobs.cc:85-115 | without a cycle an aggregate gets an error if and only if one of its names breaks it, which then lists exactly those with the reasons and leaves the rest of the entry; otherwise it is stored with its constituents as inputs and has their paths and its new outputs; with a cycle every aggregate gets the error text for it; exactly the deferred jobs are printed, so every job has one line that shows the table's entry |
| AttrPath.JoinAttrPath | src/response.cc:34-57 | the loops print the specified text, a single name as it is or in quotes as `OneName` says |
| AttrPath.OneName | src/response.cc:19-57 | a name is printed as it is if and only if it has only letters, digits, `_`, apostrophes and dashes and starts with a letter or `_`; otherwise in quotes with a backslash added before exactly the quotes, backslashes and dollars |
| AttrPath.JoinedByDots | src/response.cc:34-42 | names are separated by single dots and nothing else |
| AttrPath.DecodeJoin | src/response.cc:19-57 | a decoder recovers every list of names from its text |
| AttrPath.JoinInjective | src/response.cc:34-57 | two paths have the same text if and only if they are equal |
| Framing.TryWriteLine | src/buffered-io.cc:22-38 | whatever the sizes of the writes, what reached the pipe is a prefix of the line, and the result is 0 exactly when all of it did, otherwise the negated number of the first error |
| Framing.Proc.Fill | src/proc.cc:98-119 | whatever the sizes of the reads, also when the writer writes and closes meanwhile, no byte between pipe and buffer is lost, doubled or reordered and the buffer only grows; unless read(2) fails the pipe is empty when it returns, and the end is reported exactly when the writer is done |
| Framing.Proc.PopLine | src/proc.cc:121-131 | cuts at the first newline of the whole buffer although the search starts at `scanned` |
| Framing.Proc.LinesInOrder | src/proc.cc:98-131 | the lines popped are always a prefix of the lines sent, and all of them when all is read |
| Report.PrintAll | src/nix-eval-jobs.cc:117-135 | records with distinct paths, entered in any order and followed by the aggregates, give one line each and no other lines; entries without named constituents are unchanged, aggregates are rewritten or marked as `HandleConstituents` says |
| Report.PrintRun | src/nix-eval-jobs.cc:85-135 | the records of a run that ended, in any order, give one line for exactly the paths of the sequential descent that are no attribute sets, and no other line; unchanged, or for aggregates rewritten from final paths, marked broken or marked with a real cycle |
| Report.LinesSay | src/nix-eval-jobs.cc:117-152 | a path has a line if and only if the descent meets it and it is no attribute set, with the error or the derivation of its answer, or the text for a path over budget; aggregates as `HandleConstituents` leaves them |
| Report.ReportWithoutResolver | src/nix-eval-jobs.cc:137-141 | so does a run that prints as it goes |
| Report.EvaluateAndPrint | src/nix-eval-jobs.cc:637-660 | a whole evaluation by the class, from the root to the aggregates, whatever the surroundings do: if the loop ends, so does it |
| Report.ReportRun | src/nix-eval-jobs.cc:516-526 | so does a run whose jobs go through the resolver, for every cut of the pushes and every interleaving of the sink with the scheduler, and every job came out of it with the status that its outputs have in the store; only an exception of the store, at any point, prevents it |

## Left out

- Nix evaluation, flakes, `--apply`, `--select`, GC roots, and store access: library calls; a worker's answer is a fixed function of the path, and storing a rewritten derivation a function of the old path and the constituents' paths.
- Functions called automatically while selecting (src/worker.cc:327): they create fresh attribute sets, which the check for cycles by identity does not bound; the graph of sets is fixed.
- Process creation, file descriptors and signals: a process ends by SIGKILL or with status 0 after closing its pipes. Other exit statuses, crashes, interrupts and a closed standard output end a run by an exception that is not modelled.
- Memory readings are chosen by the surroundings, as natural numbers: no wrap-around of `size_t`.
- `fnmatch` and the order of `std::set` are uninterpreted; the theorems hold for every choice.
- JSON conversion, logging, argument parsing and packaging: no deep property.
- The minimality of probing is not claimed: walking past a path whose validity is pending can queue probes that turn out unneeded (src/cache-status-resolver.cc:249-256).
- Resolver.CacheStatusResolver.Run: the thread and `push` are interleaved at the points where the inbox is taken; the mutex is not modelled. An exception of the store leaves what the caches and batches hold as before the job that raised it, which nothing reads any more.
- Wants.AlwaysMetIffUsersAgree: where output paths are unknown or wants pick nothing, only `MatchingWantsMet` and `LaterWantMet` apply.
- JobTable.Table.RewriteAggregates: the order of the broken jobs in the error text is that of a hash table and is not modelled; the text is kept as the map of broken jobs.
- Report.EvaluateAndPrint: the table is filled when the loop has ended, from what was handed on in order; the lines printed by a run that never ends are not modelled.
- EventLoop.Run: processes act and are killed before a dispatch and before a poll, not in the middle of one; `System` has them act between any two steps.
- Report.ReportRun: of an entry it keeps the derivation path, the outputs, the constituents and the error; the cache status that the resolver adds, warnings and statistics are copied fields and not modelled. The text for a path over budget is a constant without the number of MiB.
- Liveness.EveryRunCanFinish: fairness of the operating system is not modelled, so the statement is that a run can always be carried on to its end and that only boundedly many steps are not mere waiting.
