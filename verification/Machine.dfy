/** The engine's operations as a frame machine (engine/engine.go, engine/sla.go).

    A frame is one activation of an engine function, stopped before its next
    append, snapshot or choice; it keeps the snapshot the activation was given,
    which may be stale. `Act` says what the frame on top of a stack does next, and
    two machines run it:

      - `Config` has one stack: operations are atomic, and a crash drops the stack
        and the task queue at any point;
      - `Sys` has any number of stacks sharing the log and the queue: every append
        and every snapshot of any thread may interleave with those of the others. */
module Machine {
  import opened Model
  import opened Replaying

  /** What follows once a step has been scheduled. */
  datatype After = ThenDispatch | ThenAssign

  datatype Frame =
    // CreateTicket
    | CreateEvent
    | CreateStart
    | CreateAssign
    // dispatch and its snapshot
    | Refresh
    | Dispatch(run: RunState)
    | ScanSteps(run: RunState, todo: set<StepName>)
    | ScanApprovals(run: RunState, todo: set<StepName>)
    // CheckSLA, jumpTo
    | CheckSla(run: RunState)
    | SlaLoop(run: RunState, breached: set<string>, k: nat, at: Time)
    | JumpTo(run: RunState, step: StepName)
    // scheduleStep
    | ScheduleStep(step: StepName, then_: After)
    | RequestFirst(step: StepName, at: Time, then_: After)
    | EmitScheduled(step: StepName, at: Time, then_: After)
    // advance, fireTimer, advanceApproval
    | FireTimer(run: RunState, step: StepName)
    | CompleteStep(run: RunState, step: StepName, output: Output)
    | AdvanceApproval(run: RunState, step: StepName)
    | Advance(run: RunState, step: StepName, ok: bool)
    // executeTask, handleTaskFailure, failStep; `start` is the log position of the
    // STEP_STARTED this activation appended
    | ExecuteTask(step: StepName)
    | StartTask(run: RunState, step: StepName)
    | RunHandler(run: RunState, step: StepName, start: nat)
    | TaskFailed(run: RunState, step: StepName, reason: Reason, start: nat)
    | HandleFailure(run: RunState, step: StepName, reason: Reason, start: nat)
    | Reschedule(step: StepName, start: nat)
    | FailStep(run: RunState, step: StepName, reason: Reason)
    | MarkFailing(run: RunState, step: StepName, reason: Reason)
    // Approve, dispatchAfter
    | Approve(step: StepName, who: string)
    | Grant(step: StepName, index: nat, who: string)
    | AfterGrant(step: StepName)
    | DispatchAfter(run: RunState)
    | ScanAfter(run: RunState, todo: set<StepName>)
    // Reject, Cancel
    | Reject(step: StepName, who: string, text: string)
    | AppendRejected(step: StepName, index: nat, who: string, text: string)
    | FailRejected(step: StepName, text: string)
    | Cancel(text: string)
    | AppendCancelled(text: string)

  /** The snapshot a frame holds. */
  function RunOf(f: Frame): Option<RunState> {
    match f
    case Dispatch(r) => Some(r)
    case ScanSteps(r, _) => Some(r)
    case ScanApprovals(r, _) => Some(r)
    case CheckSla(r) => Some(r)
    case SlaLoop(r, _, _, _) => Some(r)
    case JumpTo(r, _) => Some(r)
    case FireTimer(r, _) => Some(r)
    case CompleteStep(r, _, _) => Some(r)
    case AdvanceApproval(r, _) => Some(r)
    case Advance(r, _, _) => Some(r)
    case StartTask(r, _) => Some(r)
    case RunHandler(r, _, _) => Some(r)
    case TaskFailed(r, _, _, _) => Some(r)
    case HandleFailure(r, _, _, _) => Some(r)
    case FailStep(r, _, _) => Some(r)
    case MarkFailing(r, _, _) => Some(r)
    case DispatchAfter(r) => Some(r)
    case ScanAfter(r, _) => Some(r)
    case _ => None
  }

  /** What a task handler does: there is none, it returns an output, or an error. */
  datatype Outcome = NoHandler | Succeeds(output: Output) | Fails(reason: string)

  /** The environment's part of a step: the clock, the map key iterated next, the handler. */
  datatype Input = Input(now: Time, pick: StepName, outcome: Outcome)

  datatype Action = Action(emit: Log, submit: multiset<StepName>, push: seq<Frame>)

  function Go(push: seq<Frame>): Action {
    Action([], multiset{}, push)
  }

  function Emit(at: Time, b: Body, push: seq<Frame>): Action {
    Action([Event(at, b)], multiset{}, push)
  }

  // ---- helpers of the engine functions -----------------------------------

  /** The names the log flags as breached. */
  function Breached(log: Log): set<string> {
    set k | 0 <= k < |log| && log[k].body.SlaBreached? :: log[k].body.sla
  }

  lemma BreachedAppend(log: Log, e: Event)
    ensures Breached(log + [e]) == Breached(log) + if e.body.SlaBreached? then {e.body.sla} else {}
  {
    var l := log + [e];
    assert l[|log|] == e;
    forall x | x in Breached(log) ensures x in Breached(l) {
      var k :| 0 <= k < |log| && log[k].body.SlaBreached? && log[k].body.sla == x;
      assert l[k] == log[k];
    }
    assert forall k :: 0 <= k < |log| ==> l[k] == log[k];
  }

  /** A task step that a sweep at `now` submits. */
  predicate TaskReady(st: StepState, now: Time) {
    st.kind == Task && st.status == SPending && (st.due.None? || st.due.value <= now)
  }

  /** A delay step that a sweep at `now` fires. */
  predicate TimerDue(st: StepState, now: Time) {
    st.kind == Delay && st.status == SWaiting && st.due.Some? && st.due.value <= now
  }

  predicate Granted(st: StepState) {
    st.kind == Approval && st.status == SWaiting && st.approval.Some? && st.approval.value.status == LinkGranted
  }

  function MaxAttempts(sd: StepDef): int {
    if sd.retry.maxAttempts <= 0 then 1 else sd.retry.maxAttempts
  }

  function Lower(c: char): char {
    if 'A' <= c <= 'Z' then c - 'A' + 'a' else c
  }

  /** `strings.EqualFold`, on the letters A to Z. */
  predicate EqualFold(a: string, b: string) {
    |a| == |b| && forall k :: 0 <= k < |a| ==> Lower(a[k]) == Lower(b[k])
  }

  /** `authorizeApprover`. */
  predicate Authorized(chain: seq<Approver>, index: int, who: string) {
    0 <= index < |chain| && who != ""
    && EqualFold(who, if chain[index].user != "" then chain[index].user else chain[index].role)
  }

  /** Some link of the step awaits a decision, and `who` may decide it. */
  predicate MayDecide(run: RunState, step: StepName, who: string) {
    step in run.steps && run.steps[step].approval.Some?
    && run.steps[step].approval.value.status == LinkPending
    && Authorized(run.steps[step].approval.value.chain, run.steps[step].approval.value.index, who)
  }

  /** b is the Next or the OnError of a. */
  predicate Edge(def: WorkflowDef, a: StepName, b: StepName) {
    b != "" && (SuccessorOf(def, a, true) == b || SuccessorOf(def, a, false) == b)
  }

  // ---- one action --------------------------------------------------------

  function ActSla(def: WorkflowDef, i: Input, f: Frame): Action
    requires f.SlaLoop?
  {
    if f.k >= |def.slas| then Go([])
    else
      var sla := def.slas[f.k];
      var next := f.(k := f.k + 1);
      if sla.name in f.breached || f.at <= f.run.createdAt + sla.duration then Go([next])
      else Emit(i.now, SlaBreached(sla.name, f.run.current),
                (if sla.onBreach != "" then [JumpTo(f.run, sla.onBreach)] else []) + [next])
  }

  function ActSchedule(def: WorkflowDef, i: Input, f: Frame): Action
    requires ScheduleFrame(f)
  {
    match f
    case ScheduleStep(s, then_) =>
      (match Lookup(def, s)
       case None => Go([])
       case Some(sd) =>
         if sd.kind == Delay then
           if sd.delay.None? then Go([]) else Go([EmitScheduled(s, i.now, then_)])
         else if sd.kind == Approval then
           if ChainOf(def, s) == [] then Go([]) else Go([RequestFirst(s, i.now, then_)])
         else Go([EmitScheduled(s, i.now, then_)]))
    case RequestFirst(s, at, then_) =>
      var chain := ChainOf(def, s);
      if chain == [] then Go([])
      else Emit(i.now, ApprovalRequested(s, 0, chain[0].role, chain[0].user, |chain|), [EmitScheduled(s, at, then_)])
    case EmitScheduled(s, at, then_) =>
      Emit(at, ScheduledBody(def, s, at), [if then_ == ThenAssign then CreateAssign else Refresh])
  }

  /** The STEP_SCHEDULED payload `scheduleStep` writes at time `at`. */
  function ScheduledBody(def: WorkflowDef, s: StepName, at: Time): Body {
    match Lookup(def, s)
    case Some(sd) =>
      StepScheduled(s, sd.kind, if sd.kind == Delay && sd.delay.Some? then Some(at + sd.delay.value) else None)
    case None => StepScheduled(s, Task, None)
  }

  function ActScan(i: Input, f: Frame): Action
    requires ScanFrame(f)
  {
    if f.todo == {} then Go([])
    else if i.pick !in f.todo then Go([f])
    else
      var rest := f.(todo := f.todo - {i.pick});
      if i.pick !in f.run.steps then Go([rest])
      else
        var st := f.run.steps[i.pick];
        if f.ScanApprovals? then
          Go(if st.kind == Approval && st.status == SWaiting && st.approval.Some?
             then [AdvanceApproval(f.run, i.pick), rest] else [rest])
        else if TaskReady(st, i.now) || (f.ScanAfter? && st.kind == Task && st.status == SPending) then
          Action([], multiset{i.pick}, [rest])
        else Go(if TimerDue(st, i.now) then [FireTimer(f.run, i.pick), rest] else [rest])
  }

  function ActAdvance(def: WorkflowDef, i: Input, f: Frame): Action
    requires AdvanceFrame(f)
  {
    match f
    case FireTimer(run, s) => Emit(i.now, TimerFired(s), [CompleteStep(run, s, map[])])
    case CompleteStep(run, s, out) => Emit(i.now, StepCompleted(s, out), [Advance(run, s, true)])
    case AdvanceApproval(run, s) =>
      if s !in run.steps || run.steps[s].approval.None? then Go([])
      else
        var a := run.steps[s].approval.value;
        if a.status != LinkGranted then Go([])
        else if a.index + 1 < |a.chain| then
          var link := a.chain[a.index + 1];
          Emit(i.now, ApprovalRequested(s, a.index + 1, link.role, link.user, |a.chain|), [])
        else Go([CompleteStep(run, s, map[])])
    case Advance(run, s, ok) =>
      var next := SuccessorOf(def, s, ok);
      if next != "" then Go([ScheduleStep(next, ThenDispatch)])
      else if ok && !run.failed then Emit(i.now, RunCompleted(s), [])
      else Emit(i.now, RunFailed(s, if s in run.steps then run.steps[s].error else NoReason), [])
  }

  function ActTask(def: WorkflowDef, i: Input, log: Log, cur: RunState, f: Frame): Action
    requires TaskFrame(f)
  {
    match f
    case ExecuteTask(s) => if log == [] then Go([]) else Go([StartTask(cur, s)])
    case StartTask(run, s) =>
      if Lookup(def, s).None? then Go([])
      else if i.outcome.NoHandler? then Go([FailStep(run, s, NoHandlerFor(Lookup(def, s).value.task))])
      else Emit(i.now, StepStarted(s), [RunHandler(run, s, |log|)])
    case RunHandler(run, s, start) =>
      (match i.outcome
       case NoHandler => Go([f])
       case Succeeds(out) => Go([CompleteStep(run, s, out)])
       case Fails(reason) => Go([TaskFailed(run, s, Said(reason), start)]))
    case TaskFailed(_, s, reason, start) => Go([HandleFailure(cur, s, reason, start)])
    case HandleFailure(run, s, reason, start) =>
      if s !in run.steps || Lookup(def, s).None? then Go([])
      else if run.steps[s].attempt < MaxAttempts(Lookup(def, s).value) then
        Emit(i.now, StepFailed(s, reason, run.steps[s].attempt), [Reschedule(s, start)])
      else Go([FailStep(run, s, reason)])
    case Reschedule(s, start) =>
      var backoff := if Lookup(def, s).Some? then Lookup(def, s).value.retry.delay else 0;
      Emit(i.now, StepScheduled(s, Task, if backoff > 0 then Some(i.now + backoff) else None), [Refresh])
    case FailStep(run, s, reason) =>
      if s !in run.steps then Go([])
      else Emit(i.now, StepFailed(s, reason, run.steps[s].attempt), [MarkFailing(run, s, reason)])
    case MarkFailing(run, s, reason) => Emit(i.now, RunFailing(s, reason), [Advance(run, s, false)])
  }

  predicate HumanFrame(f: Frame) {
    f.Approve? || f.Grant? || f.AfterGrant? || f.DispatchAfter? || f.Reject? || f.AppendRejected? || f.FailRejected?
    || f.Cancel? || f.AppendCancelled?
  }

  function ActHuman(def: WorkflowDef, i: Input, log: Log, cur: RunState, f: Frame): Action
    requires HumanFrame(f)
  {
    match f
    case Approve(s, who) =>
      if log == [] || !MayDecide(cur, s, who) then Go([]) else Go([Grant(s, cur.steps[s].approval.value.index, who)])
    case Grant(s, index, who) => Emit(i.now, ApprovalGranted(s, index, who), [AfterGrant(s)])
    case AfterGrant(s) => Go([AdvanceApproval(cur, s), DispatchAfter(cur)])
    case DispatchAfter(r) => if Terminal(r.status) then Go([]) else Go([ScanAfter(r, r.steps.Keys)])
    case Reject(s, who, reason) =>
      if log == [] || !MayDecide(cur, s, who) then Go([])
      else Go([AppendRejected(s, cur.steps[s].approval.value.index, who, reason)])
    case AppendRejected(s, index, who, reason) =>
      Emit(i.now, ApprovalRejected(s, index, who, reason), [FailRejected(s, reason)])
    case FailRejected(s, reason) => Emit(i.now, RunFailed(s, ApprovalRejection(reason)), [])
    case Cancel(reason) => if log == [] || Terminal(cur.status) then Go([]) else Go([AppendCancelled(reason)])
    case AppendCancelled(reason) => Emit(i.now, RunCancelled(reason), [])
  }

  predicate EntryFrame(f: Frame) {
    f.CreateEvent? || f.CreateStart? || f.CreateAssign? || f.Refresh? || f.Dispatch? || f.CheckSla? || f.JumpTo?
  }

  function ActEntry(def: WorkflowDef, i: Input, log: Log, cur: RunState, f: Frame): Action
    requires EntryFrame(f)
  {
    match f
    case CreateEvent => Emit(i.now, TicketCreated(def.name, def.version), [CreateStart])
    case CreateStart => Emit(i.now, RunStarted(def.initial), [ScheduleStep(def.initial, ThenAssign)])
    case CreateAssign => Emit(i.now, TicketAssigned, [Refresh])
    case Refresh => if log == [] then Go([]) else Go([Dispatch(cur)])
    case Dispatch(run) =>
      if Terminal(run.status) then Go([])
      else Go([CheckSla(run), ScanSteps(run, run.steps.Keys), ScanApprovals(run, run.steps.Keys)])
    case CheckSla(run) =>
      if def.slas == [] || (run.status != RActive && run.status != RWaiting) then Go([])
      else Go([SlaLoop(run, Breached(log), 0, i.now)])
    case JumpTo(run, s) =>
      if s in run.steps && Active(run.steps[s].status) then Go([]) else Go([ScheduleStep(s, ThenDispatch)])
  }

  predicate ScheduleFrame(f: Frame) { f.ScheduleStep? || f.RequestFirst? || f.EmitScheduled? }

  predicate ScanFrame(f: Frame) { f.ScanSteps? || f.ScanApprovals? || f.ScanAfter? }

  predicate AdvanceFrame(f: Frame) { f.FireTimer? || f.CompleteStep? || f.AdvanceApproval? || f.Advance? }

  predicate TaskFrame(f: Frame) {
    f.ExecuteTask? || f.StartTask? || f.RunHandler? || f.TaskFailed? || f.HandleFailure? || f.Reschedule?
    || f.FailStep? || f.MarkFailing?
  }

  /** What the activation on top of a stack does next; `cur` is the replay of the log. */
  function Act(def: WorkflowDef, i: Input, log: Log, cur: RunState, f: Frame): Action {
    if EntryFrame(f) then ActEntry(def, i, log, cur, f)
    else if f.SlaLoop? then ActSla(def, i, f)
    else if ScheduleFrame(f) then ActSchedule(def, i, f)
    else if ScanFrame(f) then ActScan(i, f)
    else if AdvanceFrame(f) then ActAdvance(def, i, f)
    else if TaskFrame(f) then ActTask(def, i, log, cur, f)
    else ActHuman(def, i, log, cur, f)
  }

  /** The activation begins by reading the log, the ticket or the definition. */
  predicate Loads(f: Frame) {
    f.Refresh? || f.CheckSla? || f.ExecuteTask? || f.TaskFailed? || f.Approve? || f.AfterGrant? || f.Reject?
    || f.Cancel?
  }

  /** The activation's next action is an append or a load, which may fail. (What an SLA loop does when its append
      fails is not modelled.) */
  predicate MayFail(def: WorkflowDef, i: Input, log: Log, f: Frame) {
    !f.SlaLoop? && (Loads(f) || Act(def, i, log, Replay(def, log), f).emit != [])
  }

  /** An activation that cannot fail appends nothing, and what it does does not depend on the log: it reads nothing. */
  lemma CannotFail(def: WorkflowDef, i: Input, log: Log, f: Frame, log': Log, cur': RunState)
    requires !f.SlaLoop? && !MayFail(def, i, log, f)
    ensures var a := Act(def, i, log, Replay(def, log), f);
            a.emit == [] && Act(def, i, log', cur', f) == a
  {
    hide Replay, Breached, MayDecide;
  }

  /** After such a failure the activation returns; only a task whose handler failed goes on, with the snapshot from
      before it was started. */
  function Failover(f: Frame): seq<Frame> {
    if f.TaskFailed? then [HandleFailure(f.run, f.step, f.reason, f.start)] else []
  }

  // ---- atomic operations: one stack --------------------------------------

  datatype Config = Config(log: Log, queue: multiset<StepName>, stack: seq<Frame>)

  const IDLE := Config([], multiset{}, [])

  function Next(def: WorkflowDef, i: Input, c: Config): Config {
    if c.stack == [] then c
    else
      var a := Act(def, i, c.log, Replay(def, c.log), c.stack[0]);
      Config(c.log + a.emit, c.queue + a.submit, a.push + c.stack[1..])
  }

  /** An operation may begin: a new ticket, a sweep or a recovery of the run, a queued task,
      a decision, a cancellation. */
  predicate MayBegin(log: Log, queue: multiset<StepName>, op: Frame) {
    || (op.CreateEvent? && log == [])
    || op.Refresh?
    || (op.ExecuteTask? && op.step in queue)
    || op.Approve? || op.Reject? || op.Cancel?
  }

  function TakeTask(queue: multiset<StepName>, op: Frame): multiset<StepName> {
    if op.ExecuteTask? then queue - multiset{op.step} else queue
  }

  datatype Deed =
    | Begin(op: Frame)
    | Work(input: Input)
    | StoreError(input: Input)
    | Crash

  /** One step of a run under atomic operations; a deed that is not enabled changes nothing. */
  function Do(def: WorkflowDef, c: Config, d: Deed): Config {
    match d
    case Begin(op) =>
      if c.stack == [] && MayBegin(c.log, c.queue, op)
      then Config(c.log, TakeTask(c.queue, op), [op]) else c
    case Work(i) => Next(def, i, c)
    case StoreError(i) =>
      if c.stack != [] && MayFail(def, i, c.log, c.stack[0])
      then c.(stack := Failover(c.stack[0]) + c.stack[1..]) else c
    case Crash => Config(c.log, multiset{}, [])
  }

  function DoAll(def: WorkflowDef, c: Config, ds: seq<Deed>): Config
    decreases |ds|
  {
    if ds == [] then c else Do(def, DoAll(def, c, ds[..|ds| - 1]), ds[|ds| - 1])
  }

  /** The states that atomic operations, cut short anywhere by crashes, can reach. */
  ghost predicate Reachable(def: WorkflowDef, c: Config) {
    exists ds: seq<Deed> :: DoAll(def, IDLE, ds) == c
  }

  lemma ReachableStep(def: WorkflowDef, c: Config, d: Deed)
    requires Reachable(def, c)
    ensures Reachable(def, Do(def, c, d))
  {
    var ds: seq<Deed> :| DoAll(def, IDLE, ds) == c;
    assert (ds + [d])[..|ds|] == ds;
    assert DoAll(def, IDLE, ds + [d]) == Do(def, c, d);
  }

  // ---- interleaved appends: many stacks ----------------------------------

  /** `retried` records, for every retry that was rescheduled, the STEP_STARTED it retries; `blind` those whose failure
      is decided on a snapshot from before them. */
  datatype Sys = Sys(
    log: Log, queue: multiset<StepName>, threads: map<nat, seq<Frame>>, retried: seq<nat>, blind: set<nat>)

  datatype Move =
    | Spawn(tid: nat, op: Frame)
    | Run(tid: nat, input: Input)
    | Abort(tid: nat, input: Input)
    | CrashAll

  /** The thread of CreateTicket, about to write the first event of a new run. */
  const NEW_RUN := Sys([], multiset{}, map[0 := [CreateEvent]], [], {})

  function Top(s: Sys, tid: nat): Frame
    requires tid in s.threads && s.threads[tid] != []
  {
    s.threads[tid][0]
  }

  predicate Busy(s: Sys, tid: nat) {
    tid in s.threads && s.threads[tid] != []
  }

  function RunThread(def: WorkflowDef, s: Sys, tid: nat, i: Input): Sys
    requires Busy(s, tid)
  {
    var f := Top(s, tid);
    var a := Act(def, i, s.log, Replay(def, s.log), f);
    Sys(s.log + a.emit, s.queue + a.submit, s.threads[tid := a.push + s.threads[tid][1..]],
        if f.Reschedule? then s.retried + [f.start] else s.retried, s.blind)
  }

  function FailThread(s: Sys, tid: nat): Sys
    requires Busy(s, tid)
  {
    var f := Top(s, tid);
    s.(threads := s.threads[tid := Failover(f) + s.threads[tid][1..]],
       blind := if f.TaskFailed? then s.blind + {f.start} else s.blind)
  }

  function Step(def: WorkflowDef, s: Sys, m: Move): Sys {
    match m
    case Spawn(tid, op) =>
      if !Busy(s, tid) && s.log != [] && MayBegin(s.log, s.queue, op)
      then s.(queue := TakeTask(s.queue, op), threads := s.threads[tid := [op]]) else s
    case Run(tid, i) => if Busy(s, tid) then RunThread(def, s, tid, i) else s
    case Abort(tid, i) =>
      if Busy(s, tid) && MayFail(def, i, s.log, Top(s, tid)) then FailThread(s, tid) else s
    case CrashAll => s.(queue := multiset{}, threads := map[])
  }

  function StepAll(def: WorkflowDef, s: Sys, ms: seq<Move>): Sys
    decreases |ms|
  {
    if ms == [] then s else Step(def, StepAll(def, s, ms[..|ms| - 1]), ms[|ms| - 1])
  }
}
