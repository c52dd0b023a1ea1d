# A verified model of the workflow engine

The engine derives the state of a workflow run from an append-only log of events. This project models that engine in
Dafny and proves what its logs obey: over every run of its operations, with crashes anywhere and failures of every load
and of every append but one (see "Left out"), and, where it holds, over every interleaving of concurrent operations.
Where a promise does not hold, the exact condition under which it does is proved.

## How it is built

`Model` holds definitions, events and run states. `Replay` is the fold from a log to a run state, and the in-place
replay proved to compute it. `Derived` says of each field of a step which event of the log gave it its value.

`Machine` is the engine as a machine of frames: a frame is one activation of an engine function stopped before its
next append, load or choice, with the snapshot it was given, stale or not. Two machines run the same frames:

- *atomic operations* (`Config`): one stack; any operation may begin when the stack is empty; an append or a load may
  fail (the activation returns, but a task whose handler failed goes on with its old snapshot), and a crash may drop
  the stack and the task queue, at any point;
- *interleavings* (`Sys`): any number of stacks that share the log and the queue; every append and every snapshot of
  any thread is a step of its own.

Map iteration is an arbitrary choice at each turn, the clock is arbitrary at each action, a handler may be missing,
succeed with any output or fail with any error, and the queue is a multiset in which a step may appear repeatedly.

On the interleavings: `Provenance`, `Approvals`, `ApprovalRace`, `Trails` and `RoundRace`, `Retries`, `RetryRace`,
`RetryCount` and `Timers`. `Trails` says which steps the runs of a definition can come to, and `Walks` shows that they do. On
atomic operations: `Ending`, `Token`, `Rounds` and `RoundLimits`, `Escalation` with `InitialStep`, `Idempotence` and
`Abandoned`. The runs that `RoundRace`, `RoundLimits`, `RetryRace`, `RetryCount`, `Idempotence` and `Abandoned` build
are on a clock that never goes back (`Threads` for interleavings, `Reaching` for atomic operations). `Atomic` embeds
the machine of atomic operations in that of interleavings, so that what holds of interleavings holds of atomic
operations.

`Engine` is the engine as the source writes it: an object whose methods update logs and queues in place, with the same
recursion between `dispatch`, `CheckSLA`, `jumpTo`, `fireTimer`, `advanceApproval` and `advance`. Each method is
proved to terminate, to do only what its frame of the machine may do at the engine's clock (`Moves`), and to leave the
run at rest (`Settling`, `Resting`). So every theorem about atomic operations holds of its logs (`Guarantees`).
`Backoff` says in terms of the events of a log which tasks are queued and when, `Authority` letter by letter who may
decide an approval. The methods `VisitSteps`, `VisitStep`, `VisitApprovals`, `VisitApproval`, `FlagSla`,
`ScheduleAndDispatch`, `FinishStep`, `RunTask`, `RunHandler`, `Retry`, `OpenRun`, `StartRun`, `AfterGrant`,
`VisitAfter`, `SweepRun` and `DispatchRun` are loop bodies and tails of the source's functions. Termination holds for
definitions without a loop of delays that do not wait; `Divergence` shows that every other definition has a log on
which a dispatch does not return, and that creating a ticket does not return when the workflow begins on such a loop.

`EventLog` is the in-memory log and the transaction protocol of the Postgres log, `Dsl` the compiler, `Versions` and
`Numerals` the choice of a version, `Registry` the cache over the store of definitions. `Engine` keeps its definitions
in one table by name and version, which is what a `Registry` shows for names without an '@', and a log for each run,
which is what `History` of either event log returns.

## Where the code differs from its comments

The model follows the code. Each difference is proved, and where a comment or a name promises something that does not
always hold, so is the exact condition under which it does.

- engine/sla.go:8-10 calls CheckSLA idempotent. It is, exactly under the condition of `Idempotence.FlaggedOnceIff`.
- engine/worker.go:18-21 says that a step whose worker crashed is enqueued again by Recover. After a restart Recover
  queues exactly the task steps that are PENDING and due: `Engines.Engine.Recover`. A step left RUNNING is not; an
  instance for a whole family of workflows is `Abandoned.InterruptedTaskIsLost`.
- engine/engine.go:746-750 means to skip runs whose definition is missing. GetRun has failed before, and Recover
  returns: `Engines.Engine.Recover`, `Engines.Engine.LoadRun`.
- engine/eventlog.go:21-23 says that the Postgres log mirrors the in-memory one exactly. It does exactly when every
  committed event carried a time: `EventLogs.RefinesIff`. The engine's events do: `EventLogs.Refines`.
- engine/engine.go:147-148 calls CreateTicket fully atomic for its caller. When the first step cannot be scheduled it
  returns an error and leaves a run of two events: `Engines.Engine.CreateTicket`.
- engine/dsl/loader.go:13-18 speaks of the highest semantic version. The comparison is an order exactly on versions
  whose components have no cycle of two numbers and a text: `Versions.VersionsTransitiveIff`. On those `Latest`
  returns a highest one: `Versions.Latest`. Its result is the same in every order of the map exactly when one
  definition is above all others of the name: `Versions.LatestIff`. Among 2, 10 and 1a there is no highest:
  `Versions.NoHighest`. On dotted numbers the order is the numeric core of section 11 of Semantic Versioning 2.0.0.
- engine/engine.go:643-670: Approve checks and appends in two steps, so that concurrent approvals can bypass a link.
  That cannot happen exactly for steps with at most one link, steps whose first link names nobody, and steps that no
  run ever asks an approval of: `ApprovalRace.RespectedIff`; said of the definition, `RoundRace.RespectedOnTrailsIff`.
- engine/engine.go:597-617: advanceApproval goes by the snapshot it is given, so that with concurrent operations a
  step that is asked for approval again can complete on the grants of the time before. Each round takes its own
  grants, in every interleaving, exactly for steps whose first link names nobody, steps that no run comes to, and
  steps of one link that a run can only begin with: `RoundRace.EachRoundIff`; said of what the runs ask,
  `RoundRace.EachRoundIffAsked`; an instance is `RoundRace.StaleRound`. The chain theorems of `Approvals` and
  `ApprovalRace` count grants of any earlier round. With atomic operations each round takes its own when there is no
  escalation and queued tasks are executed only while PENDING: `Rounds.RoundsRespected`. Neither atomicity alone nor
  the lack of escalations is enough: `RoundLimits.EscalationBreaks`, `RoundLimits.SecondExecutionBreaks`.
- engine/engine.go:479-484 reloads the run so that the retry decision sees the up-to-date attempt count, and goes on
  with the old one when the reload fails. While no reload fails the retries are bounded: `Retries.RetriesBounded`.
  When reloads fail there is no bound, for any workflow that begins with a task: `RetryRace.RetriedWithoutBound`.
- engine/engine.go:513 calls the backoff of a retry durable. Dispatches, sweeps and recoveries queue a pending task
  exactly when it is due: `Engines.Engine.Dispatch`, `Engines.Engine.Sweep`, `Engines.Engine.Recover`,
  `Backoff.ReadyIff`. The loop that runs after an approval queues every pending task at once:
  `Engines.Engine.DispatchAfter`.
- engine/dsl/dsl.go:78-133 accepts an initial step that is not declared, and delays that make a dispatch endless:
  `Dsl.CompiledWellFormed`, `Dsl.ZeroDelayCompiles`.

## Model

| member | source | states |
|---|---|---|
| `Model.FindStepIsFirst` | engine/model.go:133-140 | the lookup finds a step exactly when one of that name is declared, and then the first one |
| `Model.DeclaredWellFormed` | engine/model.go:114-140 | every step found in a well-formed definition has declared successors, and its delay or its chain |
| `Model.RegistrableIff` | engine/engine.go:68-79 | a definition is accepted exactly when it has a name, a version and steps, and its initial step, if it names one, is among them; what is registered differs from it at most in the initial step, which is then the first declared one |
| `Replaying.WorkflowRun.constructor` | engine/engine.go:259-263 | a new run object is the empty run |
| `Replaying.WorkflowRun.EnsureStep` | engine/engine.go:408-422 | the step's state is the old one, or a fresh one of the declared kind (a task if undeclared); no other step changes |
| `Replaying.WorkflowRun.ApplyToStep` | engine/engine.go:305-346 | in place, the task and timer cases change the touched step as the fold does, and no other |
| `Replaying.WorkflowRun.ApplyToApproval` | engine/engine.go:351-380 | in place, the approval cases change the touched step as the fold does, and no other |
| `Replaying.WorkflowRun.ApplyOne` | engine/engine.go:288-398 | applying one event in place is one step of the fold, in every field of the run |
| `Replaying.WorkflowRun.ApplyEvents` | engine/engine.go:280-284 | the replay loop leaves the run that the fold over the whole log yields |
| `Replaying.ReplayAppend` | engine/engine.go:280-284 | replay after one more event is one more step of the fold |
| `Replaying.ReplaySplit` | engine/engine.go:280-284 | replaying a prefix and then the rest is replaying the whole |
| `Replaying.AttemptIsStarts` | engine/engine.go:321-326 | a step's attempt is the number of its STEP_STARTED events |
| `Replaying.FailedIff` | engine/engine.go:387-393 | the failed flag is set exactly when some RUN_FAILING or RUN_FAILED occurred |
| `Replaying.UpdatedAtIsMax` | engine/engine.go:395-397 | the update time is the latest event time |
| `Replaying.OutputIsLastWrite` | engine/engine.go:327-340 | the run's output at a key is that of the last completion that wrote the key, and no other key is there |
| `Replaying.StepLocality` | engine/engine.go:288-398 | the state of a step is that of replaying only the events that touch it |
| `Replaying.SwapAdjacent` | engine/engine.go:288-398 | swapping adjacent events that do not touch the same step leaves every step state unchanged |
| `Replaying.StepsGrow` | engine/engine.go:408-422 | a replay of a longer log knows every step a shorter one knows |
| `Replaying.KindIsDeclared` | engine/engine.go:351-364 | a replayed step keeps the kind of its declaration, a task if there is none, and, if an approval, the declared chain, link by link |
| `Derived.StatusIsLast` | engine/engine.go:310-378 | a step's status is the one that the last event to set it stands for |
| `Derived.StatusAtFirst` | engine/engine.go:305-309 | until then, the step is pending exactly if its first event is RUN_STARTED |
| `Derived.DueIsLast` | engine/engine.go:310-320 | a step's due time is that of its last STEP_SCHEDULED with one; a later one without keeps it |
| `Derived.StepOutputIsLast` | engine/engine.go:327-334 | a step's output is that of its last completion with an output |
| `Derived.ErrorIsLast` | engine/engine.go:341-378 | a step's error is that of its last failure or rejection |
| `Derived.LinkIndexIsLast` | engine/engine.go:351-364 | the link in question is that of the last request |
| `Derived.LinkStatusIsLast` | engine/engine.go:351-378 | once requested, a link stands as the last request or decision says |
| `Derived.DeciderIsLast` | engine/engine.go:365-378 | the last decision after a request names who decided, later requests notwithstanding |
| `Machine.BreachedAppend` | engine/sla.go:22-29 | the flagged names of a log grow exactly by the name of an SLA_BREACHED |
| `Authority.EqualFoldIff` | engine/engine.go:631-639 | two names match exactly when they have one length and agree in every letter or its other case |
| `Authority.AuthorizedIff` | engine/engine.go:623-641 | a caller is authorised for a link exactly when the index is in the chain, the caller has a name, and it matches the user of the link or, if there is none, its role |
| `Authority.RoleDoesNotDecide` | engine/engine.go:631-635 | a link that names a user is decided by nobody whose name does not match that user's, its role included |
| `Authority.PlainNames` | engine/engine.go:631-639 | names without capitals match only if they are equal |
| `Authority.SameNames` | engine/engine.go:631-639 | matching is an equivalence |
| `Machine.ReachableStep` | engine/engine.go:149-788 | whatever an operation, a failure or a crash makes of a reachable state is reachable |
| `Machine.CannotFail` | engine/engine.go:149-788 | failures are complete: an activation that cannot fail, other than the loop over the SLAs, appends nothing and reads nothing of the log |
| `Provenance.ScheduledHasCause` | engine/engine.go:180-244 | in every interleaving a scheduled step is declared, and is the initial one, or the Next of an earlier completion, the OnError of an earlier failure of the run, the OnBreach of an earlier breach, or its own retry |
| `Provenance.EndingHasCause` | engine/engine.go:551-574 | in every interleaving a run is completed only after a completed step without Next, and failed only after a finished step without the successor it needed, or a rejection |
| `Provenance.ReplayedStepIsReachable` | engine/engine.go:214-244 | every replayed step is reachable in the next/on_error graph from the initial step or an OnBreach target, and declared |
| `Provenance.NothingGoesWrong` | engine/engine.go:501-617 | with a well-formed definition no activation of any thread, in any interleaving, misses a step, a delay, a chain or a step state |
| `Provenance.KnownIsReplayed` | engine/engine.go:288-398 | a replay has a state for exactly the steps its log mentions |
| `Approvals.FitRespected` | engine/engine.go:597-675 | when every grant of a step is appended while the link it was checked against is the current one, each completion of the step comes after grants of its links 0, 1, ..., n - 1 in that order, each by a caller authorised for that link, in every interleaving |
| `Approvals.ChainRespected` | engine/engine.go:597-675 | so the chain of every approval step is respected in every interleaving in which Approve's check and append are atomic; grants of an earlier visit of the step count (see `Rounds`) |
| `Approvals.IndexInChain` | engine/engine.go:351-370 | under the same hypothesis the replayed link index stays inside the declared chain |
| `ApprovalRace.RespectedIff` | engine/engine.go:644-675 | without that hypothesis, the chain of an approval step is respected in every interleaving if and only if it has at most one link, or its first link names nobody, or no run ever asks for that approval |
| `ApprovalRace.Bypass` | engine/engine.go:597-675 | from any state in which link i of any step is pending, and for any caller authorised for it, new threads that all check link i can go on to complete the step without a grant of any other link |
| `ApprovalRace.ChainBypassed` | engine/engine.go:644-675 | every other approval step has an interleaving that completes it though no link but the first was ever granted |
| `Trails.AlwaysInside` | engine/engine.go:551-617 | in every interleaving every step with a state lies on a trail: from the initial step or an OnBreach target along the Next and OnError of steps that a worker, a timer or a first approver can end |
| `Walks.Arrives` | engine/engine.go:180-244 | conversely, some run comes to schedule the last step of every trail, on a clock that never goes back |
| `Trails.AskedOnce` | engine/engine.go:180-234 | a step that no trail comes back to, and that is no OnBreach target, is asked for approval at most once in every interleaving |
| `RoundRace.AsksIff` | engine/engine.go:214-234 | some run asks for an approval if and only if the step has a chain and lies on a trail |
| `RoundRace.AsksTwiceIff` | engine/engine.go:214-234 | some run asks twice for an approval whose first link names somebody if and only if a run can come to the step other than by beginning there |
| `RoundRace.EachRoundIff` | engine/engine.go:597-675 | every completion of an approval step comes after grants of its whole chain since the step was last asked, in every interleaving, if and only if its first link names nobody, or it lies on no trail, or it has one link and runs can only begin there; the same condition on clocks that never go back |
| `RoundRace.EachRoundIffAsked` | engine/engine.go:597-675 | ... that is, if and only if its first link names nobody, or no run asks for it, or it has one link and no run asks for it twice |
| `RoundRace.InitialEachRoundIff` | engine/engine.go:597-675 | for a first step with a chain: if and only if its first link names nobody, or the chain has one link, no trail comes back to the step and it is no OnBreach target |
| `RoundRace.RespectedOnTrailsIff` | engine/engine.go:644-675 | the exact condition for respected chains on the definition: at most one link, or a first link that names nobody, or a step on no trail |
| `RoundRace.InitialRespectedIff` | engine/engine.go:644-675 | for a first step with a chain: its chain is respected in every interleaving if and only if it has one link or its first link names nobody |
| `RoundRace.StaleRound` | engine/engine.go:597-617 | an instance: in every workflow that starts with an approval of one link that names somebody and comes back to it, the chain is always respected, and some run completes a round without a grant of its own |
| `Atomic.Embeds` | engine/engine.go:149-788 | every run of atomic operations, crashes and failures included, is an interleaving in which each grant is checked against the link still pending |
| `Atomic.ChainRespected` | engine/engine.go:597-675 | so under atomic operations approval chains are respected without a hypothesis; grants of an earlier visit of the step count |
| `Atomic.QueueHoldsTasks` | engine/engine.go:431-436 | only steps declared as tasks are ever queued |
| `Atomic.QueueIsKnown` | engine/engine.go:431-436 | a queued step has a state in the replay of its run |
| `Atomic.ReplayNamesDefinition` | engine/engine.go:294-301 | a replayed run names the definition it was created with |
| `Atomic.ReplayedStepIsDeclared` | engine/engine.go:214-244 | under atomic operations every replayed step is declared, if the initial one is |
| `Atomic.NothingGoesWrong` | engine/engine.go:501-617 | under atomic operations no activation gets stuck, with a well-formed definition |
| `Retries.RetryBound` | engine/engine.go:476-533 | in every interleaving, duplicates and crashes included, no start is retried twice, and at most max(1, MaxAttempts) - 1 starts of a step are retried other than by a decision on the snapshot from before the start, which a failed reload leaves |
| `Retries.RetriesBounded` | engine/engine.go:501-533 | so, when no such reload fails, a step is retried at most max(1, MaxAttempts) - 1 times |
| `RetryCount.RetriedAsAllowed` | engine/engine.go:476-547 | the bound is met: for every workflow whose first step is a declared task, some run without a failed reload, in which the task fails every time, starts it max(1, MaxAttempts) times, retries it max(1, MaxAttempts) - 1 times, and then is failing |
| `RetryRace.RetriedWithoutBound` | engine/engine.go:479-484 | when reloads can fail there is no bound: for every workflow whose first step is a declared task, and every number, some run retries that step so many times |
| `RetryRace.ReloadsMatter` | engine/engine.go:479-533 | so the hypothesis is needed: some run with a failed reload retries the step more often than allowed, whatever its MaxAttempts |
| `Timers.TimersOnTime` | engine/engine.go:431-442 | in every interleaving on a clock that never goes back, stale snapshots, crashes and failures included, a TIMER_FIRED comes at or after the due time of an earlier STEP_SCHEDULED of its step |
| `Ending.FailureIsSticky` | engine/engine.go:535-574 | once a run is failing or failed no RUN_COMPLETED is appended, whatever the operations and however stale their snapshots |
| `Ending.EndedForGood` | engine/engine.go:426-429 | a run that was COMPLETED, FAILED or CANCELLED is never live again, whatever operations follow |
| `Ending.EndedIsInert` | engine/engine.go:704-788 | sweeps, recoveries and cancellations of an ended run leave its log unchanged, in any number and order |
| `Token.SingleToken` | engine/engine.go:426-617 | without escalation steps, if queued tasks are executed only while PENDING, at most one step is PENDING, RUNNING or WAITING, and it is the one visited last |
| `Token.VisitsWalk` | engine/engine.go:551-580 | under the same hypotheses each visit repeats the one before or goes to its Next or OnError |
| `Token.FirstVisit` | engine/engine.go:180-186 | ... and the first visit is the initial step |
| `Rounds.RoundsRespected` | engine/engine.go:597-675 | under atomic operations and the same hypotheses each completion of an approval step comes after grants of its whole chain, in order and by authorised callers, since the step was last asked for approval |
| `RoundLimits.BreachBreaks` | engine/sla.go:34-60 | with escalations it fails: from every started run at rest in which an approval of one link that leads to itself is granted but not advanced, the breach of an SLA that escalates to another, inactive step leads to a completion without a grant of its round |
| `RoundLimits.EscalationBreaks` | engine/engine.go:431-448 | so every workflow that starts with such an approval, and escalates to another step, has a run of atomic operations that breaks a round |
| `RoundLimits.DelayBreaks` | engine/engine.go:431-448 | ... and so does a sweep of any run at rest in which an approval of one link is granted and a delay that leads to it is due |
| `RoundLimits.SecondExecutionBreaks` | engine/engine.go:453-490 | which every workflow of a task, a delay and an approval of one link in this order comes to, escalations or not, when the task is executed twice |
| `InitialStep.InitialStays` | engine/engine.go:426-449 | an initial step that no worker, timer or approver can end stays active in every started run |
| `Escalation.SlaFlaggedOnce` | engine/sla.go:11-60 | with distinct SLA names and a jump only from the last SLA, each SLA is flagged at most once in every run of atomic operations |
| `Idempotence.FlaggedOnceIff` | engine/sla.go:8-60 | no run flags an SLA twice if and only if the names are distinct and only the last SLA escalates to a step that can be jumped to; the same condition for runs on a clock that never goes back |
| `Idempotence.JumpFlagsTwice` | engine/sla.go:22-43 | from any started run at rest, a breach that jumps to an inactive step leads to a run that flags the next SLA twice: the outer loop's set of flags is stale |
| `Idempotence.SameNameFlagsTwice` | engine/sla.go:22-43 | two SLAs of one name are both flagged by a single check |
| `Abandoned.SweepsChangeNothing` | engine/engine.go:426-449 | a run without pending tasks, waiting delays, granted approvals and SLAs keeps its log and an empty queue under any sweeps and recoveries, at any times |
| `Abandoned.InterruptedTaskIsLost` | engine/worker.go:18-21 | an instance of what `Recover` leaves alone: a run stopped while its first task was running is reachable, live, and never taken up again by sweeps and recoveries |
| `Settling.PositiveDelaysSettle` | engine/engine.go:583-594 | workflows whose delays are positive have no loop of instant delays |
| `Settling.WeightIsGain` | engine/engine.go:551-580 | firing a due step pays for scheduling its Next: the measure of a step is one more than what its Next adds |
| `Settling.LevelFalls` | engine/sla.go:11-46 | the count of SLAs still to flag never rises while a run goes on, and drops when it ends |
| `Settling.FlagLowers` | engine/sla.go:30-38 | flagging an SLA the log did not flag lowers that count |
| `Settling.StepRests` | engine/engine.go:318-361 | after its completion, its failure or a further approval request a step is not due, and nothing becomes ready |
| `Settling.StepScheduledNow` | engine/engine.go:214-244 | scheduling a step makes nothing due but the step itself, and only if it is a delay that does not wait |
| `Divergence.SettlesIsNeeded` | engine/engine.go:426-595 | every definition with a loop of instant delays has a log of its own, begun by its TICKET_CREATED, whose dispatch nests its calls without bound at a standing clock |
| `Divergence.CreationDiverges` | engine/engine.go:149-200 | a workflow that begins on such a loop, with no SLA overdue at once: CreateTicket comes to a dispatch that nests without bound |
| `Divergence.InstantLoopDiverges` | engine/engine.go:426-595 | any live run with a due delay on such a loop, and its SLAs flagged, diverges at its next dispatch |
| `Engines.Engine.constructor` | engine/engine.go:40-54 | a new engine has no run and no workflow, and is valid |
| `Engines.Engine.Append` | engine/engine.go:205-210 | the run's log grows by the event; no other run changes |
| `Engines.Engine.Submit` | engine/worker.go:69-74 | the run's queue grows by the step; no other run changes |
| `Engines.Engine.GetRun` | engine/engine.go:247-277 | the replay of the run's history, or nothing when it has none or its definition does not load |
| `Engines.Engine.ScheduleStep` | engine/engine.go:214-244 | succeeds exactly when the step is declared with what its kind needs; then appends exactly the first approval request, if any, and STEP_SCHEDULED; else nothing |
| `Engines.Engine.Dispatch` | engine/engine.go:426-449 | terminates, acts as the machine may at this clock, and leaves a live run with nothing due, nothing ready that is not queued and every overdue SLA flagged; a run at rest or ended keeps its log; the queue gains no pending task whose last due time lies ahead, and while the run lives holds every pending task whose due time, if any, has come |
| `Engines.Engine.CheckSla` | engine/sla.go:11-43 | terminates, acts as the machine, flags every overdue SLA of a started run, and appends nothing when all were flagged |
| `Engines.Engine.FlagSla` | engine/sla.go:34-41 | flags the SLA, jumps if told to, and leaves the run at rest or with no more due than before |
| `Engines.Engine.BreachedNames` | engine/sla.go:22-29 | the names the history flags |
| `Engines.Engine.JumpTo` | engine/sla.go:48-60 | terminates, acts as the machine, and leaves the run at rest or with no more due and ready than before |
| `Engines.Engine.ScheduleAndDispatch` | engine/engine.go:572-580 | schedules and dispatches afresh: acts as the machine, and leaves the run at rest, or as it was when the step cannot be scheduled |
| `Engines.Engine.VisitSteps` | engine/engine.go:431-442 | for any order of the steps, the first loop queues every ready task and fires every due delay, nested dispatches included |
| `Engines.Engine.VisitStep` | engine/engine.go:431-442 | one turn of that loop: acts as the machine, and the visited step is neither due nor unqueued afterwards |
| `Engines.Engine.VisitApprovals` | engine/engine.go:444-448 | for any order, after the second loop a live run is at rest |
| `Engines.Engine.VisitApproval` | engine/engine.go:444-448 | one turn of that loop: acts as the machine, and the visited approval is not granted afterwards |
| `Engines.Engine.FireTimer` | engine/engine.go:583-594 | terminates, acts as the machine, and the delay is no longer due unless the run came to rest |
| `Engines.Engine.FinishStep` | engine/engine.go:589-594 | after the completion, advances: the step is no longer due unless the run came to rest |
| `Engines.Engine.Advance` | engine/engine.go:551-580 | terminates, acts as the machine, and leaves the run ended, at rest, or with no more due and ready |
| `Engines.Engine.AdvanceApproval` | engine/engine.go:597-617 | does nothing without a grant; with one requests the next link or completes the step, which is then no longer due |
| `Engines.Engine.FailStep` | engine/engine.go:535-547 | acts as the machine; the log goes on with STEP_FAILED and RUN_FAILING |
| `Engines.Engine.HandleTaskFailure` | engine/engine.go:501-533 | acts as the machine; at an attempt below retry.maxAttempts, or none, the log goes on with STEP_FAILED and STEP_SCHEDULED, due after retry.delay if that is positive, and the run comes to rest; with a backoff the queue does not gain the task; at any other attempt the log goes on with STEP_FAILED and RUN_FAILING |
| `Engines.Engine.Retry` | engine/engine.go:513-530 | the end of the retry branch: schedules the step after its backoff, and brings the run to rest without queueing it before |
| `Engines.Engine.RunTask` | engine/engine.go:462-475 | acts as the machine; the log goes on as the handler's outcome requires, or stays when the step is not declared |
| `Engines.Engine.RunHandler` | engine/engine.go:476-490 | acts as the machine; the log goes on with the completion, or with what the failure requires at the attempt now counted |
| `Engines.Engine.DispatchAfter` | engine/engine.go:719-731 | acts as the machine; every pending task of the snapshot is queued, whatever its due time |
| `Engines.Engine.VisitAfter` | engine/engine.go:723-729 | one turn of that loop: acts as the machine, and a pending task is queued |
| `Engines.Engine.SetClock` | engine/engine.go:59-63 | only the clock changes |
| `Engines.Engine.RegisterWorkflow` | engine/engine.go:68-82 | accepts exactly named, versioned definitions whose initial step is declared, and files them under their name and version, beginning with the first declared step if they name none; the engine stays valid unless that replaces the definition of a run by another |
| `Engines.Engine.Restart` | engine/worker.go:18-21 | the queues are lost, the logs are not; every run is where a crash may leave it |
| `Engines.Engine.CreateTicket` | engine/engine.go:149-200 | an unknown workflow changes nothing; otherwise exactly one run is added, by the events the operation promises, dispatched and at rest, or left with its two opening events when its first step cannot be scheduled |
| `Engines.Engine.OpenRun` | engine/engine.go:175-200 | the log of the new run is one the machine creates at this clock |
| `Engines.Engine.StartRun` | engine/engine.go:182-200 | schedules the first step, notes the assignment and dispatches; the result is the run before that dispatch |
| `Engines.Engine.LoadRun` | engine/engine.go:453-461 | replaying a run and then loading its definition by the names in it fails exactly when the run has no events or its definition does not load: the second load never fails |
| `Engines.Engine.RunFacts` | engine/engine.go:270-277 | in a valid engine a run names the definition it was created with, and loads no other |
| `Engines.Engine.OneRun` | engine/engine.go:149-731 | an operation that changes one run, and that as the machine may, keeps the engine valid |
| `Engines.Engine.ExecuteTask` | engine/engine.go:453-490 | takes the task off the queue and acts as the machine; the log goes on as the handler's outcome requires: an error at the n-th start retries the step if n < retry.maxAttempts and fails it otherwise, and a retry with a backoff is not queued; a run that does not load only loses the queued task |
| `Engines.Engine.Approve` | engine/engine.go:644-675 | succeeds exactly when a link is pending and the caller's name matches, letter by letter up to case, the user of that link or, if it has none, its role; the log goes on with the grant of that link; else nothing changes |
| `Engines.Engine.AfterGrant` | engine/engine.go:667-674 | advances the chain and queues what is pending, both from one snapshot |
| `Engines.Engine.Reject` | engine/engine.go:679-701 | succeeds exactly for the callers that may approve; then appends exactly the rejection and RUN_FAILED, and the run is FAILED; else nothing |
| `Engines.Engine.Cancel` | engine/engine.go:704-715 | appends exactly RUN_CANCELLED to a live run, nothing to an ended one; afterwards the run is not live |
| `Engines.Engine.DispatchRun` | engine/engine.go:748-749 | the run ends as a lone dispatch at this clock may leave it, at rest |
| `Engines.Engine.Sweep` | engine/engine.go:772-788 | for any order of the runs, each run that loads ends as a dispatch of it alone at this clock may leave it, at rest, its pending tasks queued exactly if due; a run that was at rest or ended keeps its log; one that does not load is untouched |
| `Engines.Engine.SweepRun` | engine/engine.go:777-787 | one turn: only that run changes, as a lone dispatch may change it |
| `Engines.Engine.Recover` | engine/engine.go:736-754 | succeeds exactly when every run loads, and then has swept all, so that after a restart the queue of every live run holds a step if and only if it is a task whose last event schedules it and whose last due time, if any, has come; otherwise it stopped early and the runs left are untouched |
| `Resting.SchedulingRests` | engine/engine.go:214-244 | what scheduleStep appends makes nothing due but an instant delay, and keeps every flag and step |
| `Resting.FiredRests` | engine/engine.go:583-594 | after TIMER_FIRED and STEP_COMPLETED the delay is not due and nothing became due or ready |
| `Resting.NarrowsQuiet` | engine/engine.go:426-449 | a run at rest stays at rest while nothing becomes due or ready |
| `Resting.RunLoaded` | engine/engine.go:746 | the names in a replayed run are those of its definition |
| `Resting.SweptQueue` | engine/engine.go:431-436 | a sweep of a live run with an empty queue queues exactly the tasks that are then pending and due |
| `Backoff.ReadyIff` | engine/engine.go:433-436 | in every log the tasks that a dispatch takes for ready are those whose last event, or start of the run, makes them pending and whose last due time, if any, has come |
| `Backoff.KeptTimely` | engine/engine.go:426-449 | a dispatch leaves pending tasks pending and their due times alone, queues none that is not due, and while the run lives all that are |
| `Backoff.Armed` | engine/engine.go:513-523 | right after its retry is scheduled a task is pending, and due from its backoff on |
| `Guarantees.RunIsInterleaved` | engine/engine.go:149-788 | every log of a valid engine is the log of an interleaving with atomic grants |
| `Guarantees.RunObeys` | engine/engine.go:149-788 | in every log of a valid engine failure is sticky, approval chains are respected, and scheduled steps are declared |
| `EventLogs.InMemoryEventLog.constructor` | engine/eventlog.go:32-38 | a new log is empty |
| `EventLogs.InMemoryEventLog.Append` | engine/eventlog.go:40-55 | the run's history grows by the event with the next number, stamped if it has no time or identifier; no other run changes |
| `EventLogs.InMemoryEventLog.History` | engine/eventlog.go:57-64 | the run's events in order, none for an unknown run |
| `EventLogs.InMemoryEventLog.Runs` | engine/eventlog.go:66-74 | exactly the runs with events, each once |
| `EventLogs.AppendedNumbered` | engine/eventlog.go:40-55 | numbering stays 1, 2, ... without gaps, and histories only grow |
| `EventLogs.AlwaysOk` | engine/eventlog_pg.go:26-71 | in every interleaving of transactions the counter is one past the rows, and a lock is held by one transaction, with the next number |
| `EventLogs.HistoryNumbered` | engine/eventlog_pg.go:73-78 | in every interleaving what the query selects is unique, numbered 1 to next_seq - 1 without gaps |
| `EventLogs.ViewsGrow` | engine/eventlog_pg.go:26-71 | a committed view is a prefix of every later one |
| `EventLogs.LockIsReleased` | engine/eventlog_pg.go:26-71 | a lock is never lost: in every state of any interleaving, once the holder of a run's lock rolls back, the next transaction of the run appends its event as the next row |
| `EventLogs.CommitIsAppend` | engine/eventlog_pg.go:38-62 | a commit is one Append of the in-memory log, up to identifiers and missing times; every other step leaves the view |
| `EventLogs.RefinesIff` | engine/eventlog_pg.go:26-71 | for every interleaving and any clock, the committed rows are those of the in-memory log after the same Appends in commit order, up to identifiers, if and only if every committed event carried a time |
| `EventLogs.Refines` | engine/eventlog_pg.go:26-71 | so they are whenever only stamped events are appended, as the engine does |
| `EventLogs.ZeroTimeDiffers` | engine/eventlog.go:46-48 | one lone event without a time is stored with different times by the two logs |
| `EventLogs.PostgresEventLog.Append` | engine/eventlog_pg.go:26-71 | a lone Append leaves the tables as its four steps do, keeps their invariant, and returns the event with the number it was given |
| `Dsl.StepByName` | engine/dsl/dsl.go:193-200 | the first step of the name |
| `Dsl.Compile` | engine/dsl/dsl.go:78-133 | succeeds exactly on the workflows that compile, with the definition they mean, stated field by field; an error names a fault the workflow has |
| `Dsl.CompileStep` | engine/dsl/dsl.go:135-191 | succeeds exactly when the kind is known and the step has its task, its chain or a delay that parses; the result has the name, references and assignee, the task, every link of the chain and the attempts of the source, and the retry delay if it parses; a delay step has its delay only |
| `Dsl.OneMeaning` | engine/dsl/dsl.go:78-133 | what a workflow means is one definition |
| `Dsl.CompileSteps` | engine/dsl/dsl.go:94-108 | succeeds exactly when every step is named, uniquely, and compiles |
| `Dsl.CheckReferences` | engine/dsl/dsl.go:109-118 | finds a fault exactly when some next or on_error names no step |
| `Dsl.CheckStep` | engine/dsl/dsl.go:109-118 | one turn of that loop: a fault exactly when the next or the on_error of that step names no step, and one the workflow has |
| `Dsl.CompileSlas` | engine/dsl/dsl.go:119-128 | succeeds exactly when every duration parses and every on_breach names a step |
| `Dsl.CompiledLookup` | engine/dsl/dsl.go:94-108 | under the name of each source step a definition is found that means that step, field by field |
| `Dsl.CompiledWellFormed` | engine/dsl/dsl.go:78-133 | what compiles is well-formed exactly when its initial step is declared, which RegisterWorkflow checks |
| `Dsl.CompiledNeverStuck` | engine/engine.go:68-82 | a workflow that compiles and registers never gets an activation stuck, in any interleaving |
| `Dsl.CompiledSettles` | engine/dsl/dsl.go:148-157 | compiled workflows with positive delays settle |
| `Dsl.ZeroDelayCompiles` | engine/dsl/dsl.go:148-157 | a delay of no length that leads to itself compiles, is well-formed and does not settle, and some run of it comes to a dispatch that diverges |
| `Versions.SplitJoins` | engine/dsl/loader.go:112-113 | splitting cuts at every dot and only there |
| `Versions.CompareVersions` | engine/dsl/loader.go:111-145 | the loop computes the sign of the first difference between components, a missing one counting as 0 |
| `Numerals.AtoiIff` | engine/dsl/loader.go:126-128 | a component is read as the number v exactly when it is a decimal numeral of v, with leading zeros or a sign or without, and v fits 64 bits |
| `Numerals.NoNumber` | engine/dsl/loader.go:126-141 | every other text is compared as text: one that is not a sign and digits, or whose number does not fit |
| `Numerals.NumbersCompare` | engine/dsl/loader.go:108-145 | versions of numbers below 2^63 compare as the first numbers that differ, a missing one counting as 0 |
| `Numerals.HighestOfNumbers` | engine/dsl/loader.go:87-106 | when all versions of a name are made of such numbers, a definition is highest exactly when no other exceeds it at the first number that differs |
| `Versions.BeforeIff` | engine/dsl/loader.go:136-141 | texts are ordered by the first character that differs, a prefix before what it begins |
| `Versions.Antisymmetric` | engine/dsl/loader.go:111-145 | exchanging the arguments turns the sign, for all strings |
| `Versions.CompareByValue` | engine/dsl/loader.go:118-135 | on numeric versions the sign is that of the first component whose values differ |
| `Versions.TransitiveIff` | engine/dsl/loader.go:124-141 | the comparison of components is transitive on a set of them if and only if it has no numbers x <= y and text z with y before z and z before x as text |
| `Versions.Transitive` | engine/dsl/loader.go:111-145 | on versions over such components the order is transitive, strictly so if one step is strict |
| `Versions.VersionsTransitiveIff` | engine/dsl/loader.go:111-145 | ... and only on those: the order of the versions over a set of components is transitive if and only if the set has no such cycle |
| `Versions.TiesAreTrailingZeros` | engine/dsl/loader.go:111-145 | numeric versions tie exactly when they are equal up to trailing zero components |
| `Versions.NotTransitive` | engine/dsl/loader.go:108-110 | an instance: 2 < 10 < 1a < 2 |
| `Versions.Latest` | engine/dsl/loader.go:88-106 | returns the best definition in some order of the map: finds one exactly when there is one of the name, and a highest one when the components of the versions have no cycle |
| `Versions.BestIsHighest` | engine/dsl/loader.go:88-106 | without a cycle every order of the map gives a highest definition |
| `Versions.NumericParts` | engine/dsl/loader.go:118-135 | numeric versions have no cycle |
| `Versions.LatestIff` | engine/dsl/loader.go:88-106 | a definition is the result in every order of the map if and only if it is above every other definition of the name, for all versions |
| `Versions.HighestIsUnique` | engine/dsl/loader.go:88-106 | without ties there is at most one highest definition |
| `Versions.NoHighest` | engine/dsl/loader.go:88-106 | among 2, 10 and 1a there is no highest, and each of them is the result in some order of the map |
| `Versions.Resolve` | engine/dsl/loader.go:77-85 | no version or "latest" in any case is the latest; any other is an exact lookup |
| `Registries.Registry.RegisterWorkflow` | engine/engine.go:68-82 | accepts exactly the registrable definitions and files them in the cache and the store |
| `Registries.Registry.LoadWorkflow` | engine/engine.go:91-114 | returns the cached definition or else the stored one, which it caches |
| `Registries.Registry.Restart` | engine/engine.go:40-54 | a new process starts with an empty cache over the same store: every lookup returns what the store returns |
| `Registries.KeyInjective` | engine/engine.go:65 | names without '@' make the key injective |
| `Registries.KeyShared` | engine/engine.go:65 | any '@' in a name or version makes the key that of another pair, too |
| `Registries.CacheAgrees` | engine/engine.go:91-114 | for every sequence of registrations of names without '@', loads and restarts, a lookup of such a name returns what the store returns |
| `Registries.AgreesIffClean` | engine/engine.go:91-114 | for every sequence, all lookups agree with the store if and only if no cached name or version contains '@' |
| `Registries.PutGets` | engine/store.go:44-68 | a stored definition is returned for its name and version, every other lookup is unchanged |

## Left out

- Machine.EqualFold: folds the letters A to Z only, not the whole of Unicode.
- Engines.Engine.RegisterWorkflow: when it replaces the definition of existing runs by a different one, which the source allows, nothing is promised of those runs afterwards; every other theorem has one definition for each run.
- Engines.Engine.Dispatch: is stated for a clock that stands still during one operation, and for definitions without a loop of instant delays; the machine itself lets the clock change at every action.
- Engines.Engine.ExecuteTask: the handler's outcome is a parameter; its effects outside the engine are not modelled.
- EventLogs.Refines: does not model the rounding of times to microseconds by the database, nor a commit that succeeds while its caller sees an error.
- The row loops of the Postgres `History` and `Runs` (engine/eventlog_pg.go:73-119): `EventLogs.Selects` says what the first query returns.
- Rounds.RoundsRespected: is stated for atomic operations without escalation steps in which queued tasks are executed only while PENDING; the exact condition, `RoundRace.EachRoundIff`, is that for all interleavings, and for atomic operations with escalations or repeated executions failing families are shown.
- A failed append of SLA_BREACHED, whose error the source ignores (engine/sla.go:36-37).
- Due times equal to the zero time, which the source takes for no due time (engine/engine.go:317-320).
- The encoding of payloads as JSON; an empty task output counts as none. Error texts are constructors without their wording.
- Step states as shared pointers: a replayed state is a value in the run's map.
- Several runs of one ticket, and the ticket store: a run's ticket is what its definition is loaded by.
- The worker pool's channel, its capacity, its workers and its shutdown (engine/worker.go): the queue is an unbounded multiset.
- The ticker behind the sweep: a sweep may begin at any time.
- Random identifiers: the identifier of a new run is one not in use.
- Routing rules (engine/routing.go), which only fill the assignment event.
- Deletion or listing of tickets and workflows, the Postgres tables for them (engine/eventlog_pg.go:121-271).
- YAML, JSON and duration syntax, and walking a directory (engine/dsl/loader.go:26-72).
- The servers, their interfaces and the web client.
