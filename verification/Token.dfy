/** A run without escalation steps has a single token: under atomic operations that execute a queued task
    only while its step is PENDING, at most one step is PENDING, RUNNING or WAITING, and the steps visited
    form a walk of the next/on_error graph (engine/engine.go:214-244, 426-449, 501-617). */
module Token {
  import opened Model
  import opened Replaying
  import opened Machine
  import Atomic

  // ---- visits ------------------------------------------------------------

  /** The step an event gives its turn to: STEP_SCHEDULED, the first approval request of a step, RUN_STARTED. */
  function Entered(b: Body): Option<StepName> {
    match b
    case RunStarted(first) => Some(first)
    case StepScheduled(s, _, _) => Some(s)
    case ApprovalRequested(s, index, _, _, _) => if index == 0 then Some(s) else None
    case _ => None
  }

  function TokenAfter(tok: Option<StepName>, b: Body): Option<StepName> {
    if Entered(b).Some? then Entered(b) else tok
  }

  /** The step the log entered last. */
  function TokenOf(log: Log): Option<StepName> {
    if log == [] then None else TokenAfter(TokenOf(log[..|log| - 1]), log[|log| - 1].body)
  }

  /** A visit follows the visit before: the run's start, the same step again, or a successor. */
  predicate Follows(def: WorkflowDef, tok: Option<StepName>, s: StepName) {
    if tok.None? then s == def.initial else s == tok.value || Edge(def, tok.value, s)
  }

  ghost predicate Walked(def: WorkflowDef, log: Log) {
    forall k :: 0 <= k < |log| && Entered(log[k].body).Some? ==>
      Follows(def, TokenOf(log[..k]), Entered(log[k].body).value)
  }

  predicate NoEscalation(def: WorkflowDef) {
    forall k :: 0 <= k < |def.slas| ==> def.slas[k].onBreach == ""
  }

  // ---- the state of the steps --------------------------------------------

  type Steps = map<StepName, StepState>

  predicate Only(steps: Steps, tok: Option<StepName>) {
    forall s :: s in steps && Active(steps[s].status) ==> tok == Some(s)
  }

  predicate NoneActive(steps: Steps) {
    forall s :: s in steps ==> !Active(steps[s].status)
  }

  /** Steps keep their declared kind; only approval steps have an approval, and a pending one is waiting. */
  predicate Sound(def: WorkflowDef, steps: Steps) {
    forall s :: s in steps ==> StepSound(def, s, steps[s])
  }

  predicate StepSound(def: WorkflowDef, s: StepName, st: StepState) {
    && st.kind == KindOf(def, s)
    && (st.approval.Some? ==> st.kind == Approval)
    && (st.approval.Some? && st.approval.value.status == LinkPending ==> st.status == SWaiting)
  }

  // ---- frames ------------------------------------------------------------

  /** A delay that has not been fired. */
  predicate WaitsOut(st: StepState) {
    st.kind == Delay && st.status == SWaiting
  }

  /** The frame can append nothing any more, whatever its snapshot. */
  predicate Inert(f: Frame) {
    match f
    case ScanSteps(r, todo) => forall s :: s in todo && s in r.steps ==> !WaitsOut(r.steps[s])
    case ScanAfter(r, todo) => forall s :: s in todo && s in r.steps ==> !WaitsOut(r.steps[s])
    case DispatchAfter(r) => forall s :: s in r.steps ==> !WaitsOut(r.steps[s])
    case ScanApprovals(r, todo) => forall s :: s in todo && s in r.steps ==> !Granted(r.steps[s])
    case _ => false
  }

  predicate Fresh(steps: Steps, f: Frame) {
    (f.ScanSteps? || f.ScanAfter? || f.DispatchAfter? || f.ScanApprovals?) && f.run.steps == steps
  }

  predicate LinkGrantedIn(r: RunState, s: StepName) {
    s in r.steps && r.steps[s].approval.Some? && r.steps[s].approval.value.status == LinkGranted
  }

  predicate Undecided(steps: Steps, s: StepName) {
    s in steps && steps[s].approval.Some? && steps[s].approval.value.status == LinkPending
  }

  /** What the frame on top may rely on. */
  predicate Holds(def: WorkflowDef, tok: Option<StepName>, steps: Steps, f: Frame) {
    match f
    case CreateEvent => tok == None && steps == map[]
    case CreateStart => tok == None && steps == map[]
    case CreateAssign => true
    case Refresh => true
    case Dispatch(r) => r.steps == steps
    case CheckSla(r) => true
    case SlaLoop(r, _, _, _) => true
    case JumpTo(r, s) => false
    case ScanSteps(_, _) => Inert(f) || Fresh(steps, f)
    case ScanAfter(_, _) => Inert(f) || Fresh(steps, f)
    case ScanApprovals(_, _) => Inert(f) || Fresh(steps, f)
    case DispatchAfter(_) => Inert(f) || Fresh(steps, f)
    case ScheduleStep(s, _) => Follows(def, tok, s) && (tok == Some(s) || NoneActive(steps))
    case RequestFirst(s, _, _) =>
      KindOf(def, s) == Approval && Follows(def, tok, s) && (tok == Some(s) || NoneActive(steps))
    case EmitScheduled(s, _, _) => Follows(def, tok, s) && (tok == Some(s) || NoneActive(steps))
    case FireTimer(_, s) => tok == Some(s) && KindOf(def, s) == Delay
    case CompleteStep(_, s, _) => tok == Some(s) && (KindOf(def, s) == Approval ==> !Undecided(steps, s))
    case AdvanceApproval(r, s) =>
      LinkGrantedIn(r, s) ==> tok == Some(s) && r.steps == steps && KindOf(def, s) == Approval
    case Advance(_, s, _) => tok == Some(s) && NoneActive(steps)
    case ExecuteTask(s) => tok == Some(s) && KindOf(def, s) == Task
    case StartTask(_, s) => tok == Some(s) && KindOf(def, s) == Task
    case RunHandler(_, s, _) => tok == Some(s) && KindOf(def, s) == Task
    case TaskFailed(_, s, _, _) => tok == Some(s) && KindOf(def, s) == Task
    case HandleFailure(_, s, _, _) => tok == Some(s) && KindOf(def, s) == Task
    case Reschedule(s, _) => tok == Some(s) && KindOf(def, s) == Task
    case FailStep(_, s, _) => tok == Some(s) && KindOf(def, s) == Task
    case MarkFailing(_, s, _) => tok == Some(s) && NoneActive(steps)
    case Approve(_, _) => true
    case Grant(s, _, _) => tok == Some(s) && s in steps && steps[s].approval.Some?
    case AfterGrant(s) => tok == Some(s) && KindOf(def, s) == Approval
    case Reject(_, _, _) => true
    case AppendRejected(s, _, _, _) => tok == Some(s) && KindOf(def, s) == Approval
    case FailRejected(_, _) => true
    case Cancel(_) => true
    case AppendCancelled(_) => true
  }

  predicate InSla(f: Frame) {
    f.CheckSla? || f.SlaLoop?
  }

  /** An approval to advance that is not granted: nothing will be appended. */
  predicate Idle(f: Frame) {
    f.AdvanceApproval? && !LinkGrantedIn(f.run, f.step)
  }

  /** Frames below the top are inert, but for the scans of a dispatch that has appended to no step yet. */
  predicate BelowOk(steps: Steps, stack: seq<Frame>, k: nat)
    requires 1 <= k < |stack|
  {
    || Inert(stack[k])
    || (Fresh(steps, stack[k])
        && ((InSla(stack[0]) && k == 1 && stack[1].ScanSteps?)
            || (InSla(stack[0]) && k == 2 && stack[1].ScanSteps? && stack[2].ScanApprovals?)
            || ((stack[0].ScanSteps? || Idle(stack[0])) && k == 1 && stack[1].ScanApprovals?)))
  }

  predicate StackOk(def: WorkflowDef, tok: Option<StepName>, steps: Steps, stack: seq<Frame>) {
    && (stack != [] ==> Holds(def, tok, steps, stack[0]))
    && (forall k :: 1 <= k < |stack| ==> BelowOk(steps, stack, k))
  }

  // ---- one action --------------------------------------------------------

  /** What an append by the top frame may be. */
  predicate Fits(def: WorkflowDef, tok: Option<StepName>, steps: Steps, b: Body) {
    && (Entered(b).Some? ==>
          Follows(def, tok, Entered(b).value) && (tok == Entered(b) || NoneActive(steps)))
    && (StepOf(b).Some? && Entered(b).None? ==> tok == StepOf(b))
    && (b.StepScheduled? ==> b.kind == KindOf(def, b.step))
    && (b.StepStarted? ==> KindOf(def, b.step) == Task)
    && (b.StepFailed? ==> KindOf(def, b.step) == Task)
    && (b.ApprovalRequested? ==> KindOf(def, b.step) == Approval)
    && (b.ApprovalGranted? ==> b.step in steps && steps[b.step].approval.Some?)
    && (b.StepCompleted? && KindOf(def, b.step) == Approval ==>
          !Undecided(steps, b.step))
  }

  lemma StepStaysSound(def: WorkflowDef, tok: Option<StepName>, steps: Steps, s: StepName, b: Body)
    requires Sound(def, steps) && Fits(def, tok, steps, b) && StepOf(b) == Some(s)
    ensures StepSound(def, s, ApplyStep(def, s, Get(steps, s), b))
  {
    if s in steps { assert StepSound(def, s, steps[s]); }
  }

  lemma StepsAfterFit(def: WorkflowDef, tok: Option<StepName>, steps: Steps, b: Body)
    requires Sound(def, steps) && Only(steps, tok) && Fits(def, tok, steps, b)
    ensures Sound(def, StepsAfter(def, steps, b)) && Only(StepsAfter(def, steps, b), TokenAfter(tok, b))
  {
    if StepOf(b).Some? { StepStaysSound(def, tok, steps, StepOf(b).value, b); }
  }

  function TokLater(tok: Option<StepName>, a: Action): Option<StepName> {
    if a.emit == [] then tok else TokenAfter(tok, a.emit[0].body)
  }

  function StepsLater(def: WorkflowDef, steps: Steps, a: Action): Steps {
    if a.emit == [] then steps else StepsAfter(def, steps, a.emit[0].body)
  }

  /** Frames that may be above scans that are still to act. */
  predicate Light(f: Frame) {
    InSla(f) || f.ScanSteps? || Idle(f)
  }

  /** The action fits, hands on what the next top frame relies on, and a light frame stays light. */
  predicate Good(def: WorkflowDef, tok: Option<StepName>, steps: Steps, f: Frame, a: Action) {
    && |a.emit| <= 1
    && (a.emit != [] ==> Fits(def, tok, steps, a.emit[0].body))
    && (a.push != [] ==> Holds(def, TokLater(tok, a), StepsLater(def, steps, a), a.push[0]))
    && (forall k :: 1 <= k < |a.push| ==> BelowOk(StepsLater(def, steps, a), a.push, k))
    && (Light(f) ==> StepsLater(def, steps, a) == steps && LightPush(def, steps, f, a.push))
  }

  /** A light frame leaves, goes on as it is, or finds the delay step that holds the token due. */
  predicate LightPush(def: WorkflowDef, steps: Steps, f: Frame, push: seq<Frame>) {
    || push == []
    || (|push| == 1 && InSla(f) && InSla(push[0]))
    || (|push| == 1 && f.ScanSteps? && push[0].ScanSteps?)
    || (|push| == 2 && f.ScanSteps? && Inert(push[1])
        && push[0].FireTimer? && push[0].step in steps && WaitsOut(steps[push[0].step]))
  }

  ghost predicate Before(def: WorkflowDef, tok: Option<StepName>, steps: Steps, f: Frame) {
    NoEscalation(def) && Sound(def, steps) && Only(steps, tok) && Holds(def, tok, steps, f)
  }

  lemma CreateGood(def: WorkflowDef, i: Input, log: Log, cur: RunState, tok: Option<StepName>, f: Frame)
    requires Before(def, tok, cur.steps, f) && (f.CreateEvent? || f.CreateStart? || f.CreateAssign? || f.Refresh?)
    ensures Good(def, tok, cur.steps, f, ActEntry(def, i, log, cur, f))
  {
  }

  lemma DispatchGood(def: WorkflowDef, i: Input, log: Log, cur: RunState, tok: Option<StepName>, f: Frame)
    requires Before(def, tok, cur.steps, f) && f.Dispatch?
    ensures Good(def, tok, cur.steps, f, ActEntry(def, i, log, cur, f))
  {
  }

  lemma SlaGood(def: WorkflowDef, i: Input, log: Log, cur: RunState, tok: Option<StepName>, f: Frame)
    requires Before(def, tok, cur.steps, f) && InSla(f)
    ensures Good(def, tok, cur.steps, f, if f.CheckSla? then ActEntry(def, i, log, cur, f) else ActSla(def, i, f))
  {
  }

  lemma PlanGood(def: WorkflowDef, i: Input, steps: Steps, tok: Option<StepName>, f: Frame)
    requires Before(def, tok, steps, f) && (f.ScheduleStep? || f.RequestFirst?)
    ensures Good(def, tok, steps, f, ActSchedule(def, i, f))
  {
  }

  lemma EmitGood(def: WorkflowDef, i: Input, steps: Steps, tok: Option<StepName>, f: Frame)
    requires Before(def, tok, steps, f) && f.EmitScheduled?
    ensures Good(def, tok, steps, f, ActSchedule(def, i, f))
  {
  }

  /** A scan that finds a delay due has found the token: nothing else it scans is waiting. */
  lemma DueHasToken(steps: Steps, tok: Option<StepName>, f: Frame, pick: StepName)
    requires Only(steps, tok) && (f.ScanSteps? || f.ScanAfter?) && (Inert(f) || Fresh(steps, f))
    requires pick in f.todo && pick in f.run.steps && WaitsOut(f.run.steps[pick])
    ensures f.run.steps == steps && tok == Some(pick) && Inert(f.(todo := f.todo - {pick}))
  {
  }

  lemma ScanStepsGood(def: WorkflowDef, i: Input, steps: Steps, tok: Option<StepName>, f: Frame)
    requires Before(def, tok, steps, f) && f.ScanSteps?
    ensures Good(def, tok, steps, f, ActScan(i, f))
  {
    if i.pick in f.todo && i.pick in f.run.steps && TimerDue(f.run.steps[i.pick], i.now) {
      DueHasToken(steps, tok, f, i.pick);
    }
  }

  lemma ScanAfterGood(def: WorkflowDef, i: Input, steps: Steps, tok: Option<StepName>, f: Frame)
    requires Before(def, tok, steps, f) && f.ScanAfter?
    ensures Good(def, tok, steps, f, ActScan(i, f))
  {
    if i.pick in f.todo && i.pick in f.run.steps && TimerDue(f.run.steps[i.pick], i.now) {
      DueHasToken(steps, tok, f, i.pick);
    }
  }

  lemma ScanApprovalsGood(def: WorkflowDef, i: Input, steps: Steps, tok: Option<StepName>, f: Frame)
    requires Before(def, tok, steps, f) && f.ScanApprovals?
    ensures Good(def, tok, steps, f, ActScan(i, f))
  {
  }

  lemma FireGood(def: WorkflowDef, i: Input, steps: Steps, tok: Option<StepName>, f: Frame)
    requires Before(def, tok, steps, f) && (f.FireTimer? || f.CompleteStep?)
    ensures Good(def, tok, steps, f, ActAdvance(def, i, f))
  {
  }

  lemma AdvanceGood(def: WorkflowDef, i: Input, steps: Steps, tok: Option<StepName>, f: Frame)
    requires Before(def, tok, steps, f) && (f.AdvanceApproval? || f.Advance?)
    ensures Good(def, tok, steps, f, ActAdvance(def, i, f))
  {
  }

  lemma StartGood(def: WorkflowDef, i: Input, log: Log, cur: RunState, tok: Option<StepName>, f: Frame)
    requires Before(def, tok, cur.steps, f) && (f.ExecuteTask? || f.StartTask?)
    ensures Good(def, tok, cur.steps, f, ActTask(def, i, log, cur, f))
  {
  }

  lemma HandlerGood(def: WorkflowDef, i: Input, log: Log, cur: RunState, tok: Option<StepName>, f: Frame)
    requires Before(def, tok, cur.steps, f) && (f.RunHandler? || f.TaskFailed?)
    ensures Good(def, tok, cur.steps, f, ActTask(def, i, log, cur, f))
  {
  }

  lemma HandleGood(def: WorkflowDef, i: Input, log: Log, cur: RunState, tok: Option<StepName>, f: Frame)
    requires Before(def, tok, cur.steps, f) && f.HandleFailure?
    ensures Good(def, tok, cur.steps, f, ActTask(def, i, log, cur, f))
  {
  }

  lemma RescheduleGood(def: WorkflowDef, i: Input, log: Log, cur: RunState, tok: Option<StepName>, f: Frame)
    requires Before(def, tok, cur.steps, f) && f.Reschedule?
    ensures Good(def, tok, cur.steps, f, ActTask(def, i, log, cur, f))
  {
  }

  lemma FailGood(def: WorkflowDef, i: Input, log: Log, cur: RunState, tok: Option<StepName>, f: Frame)
    requires Before(def, tok, cur.steps, f) && f.FailStep?
    ensures Good(def, tok, cur.steps, f, ActTask(def, i, log, cur, f))
  {
  }

  lemma MarkGood(def: WorkflowDef, i: Input, log: Log, cur: RunState, tok: Option<StepName>, f: Frame)
    requires Before(def, tok, cur.steps, f) && f.MarkFailing?
    ensures Good(def, tok, cur.steps, f, ActTask(def, i, log, cur, f))
  {
  }

  lemma ApproveGood(def: WorkflowDef, i: Input, log: Log, cur: RunState, tok: Option<StepName>, f: Frame)
    requires Before(def, tok, cur.steps, f) && f.Approve?
    ensures Good(def, tok, cur.steps, f, ActHuman(def, i, log, cur, f))
  {
    if f.step in cur.steps { assert StepSound(def, f.step, cur.steps[f.step]); }
  }

  lemma GrantGood(def: WorkflowDef, i: Input, log: Log, cur: RunState, tok: Option<StepName>, f: Frame)
    requires Before(def, tok, cur.steps, f) && f.Grant?
    ensures Good(def, tok, cur.steps, f, ActHuman(def, i, log, cur, f))
  {
  }

  lemma AfterGood(def: WorkflowDef, i: Input, log: Log, cur: RunState, tok: Option<StepName>, f: Frame)
    requires Before(def, tok, cur.steps, f) && (f.AfterGrant?)
    ensures Good(def, tok, cur.steps, f, ActHuman(def, i, log, cur, f))
  {
  }

  lemma DispatchAfterGood(def: WorkflowDef, i: Input, log: Log, cur: RunState, tok: Option<StepName>, f: Frame)
    requires Before(def, tok, cur.steps, f) && (f.DispatchAfter?)
    ensures Good(def, tok, cur.steps, f, ActHuman(def, i, log, cur, f))
  {
  }

  lemma RejectGood(def: WorkflowDef, i: Input, log: Log, cur: RunState, tok: Option<StepName>, f: Frame)
    requires Before(def, tok, cur.steps, f) && f.Reject?
    ensures Good(def, tok, cur.steps, f, ActHuman(def, i, log, cur, f))
  {
    if f.Reject? && f.step in cur.steps { assert StepSound(def, f.step, cur.steps[f.step]); }
  }

  lemma RejectedGood(def: WorkflowDef, i: Input, log: Log, cur: RunState, tok: Option<StepName>, f: Frame)
    requires Before(def, tok, cur.steps, f) && (f.AppendRejected? || f.FailRejected?)
    ensures Good(def, tok, cur.steps, f, ActHuman(def, i, log, cur, f))
  {
  }

  lemma CancelGood(def: WorkflowDef, i: Input, log: Log, cur: RunState, tok: Option<StepName>, f: Frame)
    requires f.Cancel? || f.AppendCancelled?
    ensures Good(def, tok, cur.steps, f, ActHuman(def, i, log, cur, f))
  {
  }

  lemma ActGood(def: WorkflowDef, i: Input, log: Log, cur: RunState, tok: Option<StepName>, f: Frame)
    requires Before(def, tok, cur.steps, f)
    ensures Good(def, tok, cur.steps, f, Act(def, i, log, cur, f))
  {
    hide Good, ActEntry, ActSla, ActSchedule, ActScan, ActAdvance, ActTask, ActHuman;
    if InSla(f) { SlaGood(def, i, log, cur, tok, f); }
    else if f.Dispatch? { DispatchGood(def, i, log, cur, tok, f); }
    else if EntryFrame(f) { CreateGood(def, i, log, cur, tok, f); }
    else if f.EmitScheduled? { EmitGood(def, i, cur.steps, tok, f); }
    else if ScheduleFrame(f) { PlanGood(def, i, cur.steps, tok, f); }
    else if f.ScanSteps? { ScanStepsGood(def, i, cur.steps, tok, f); }
    else if f.ScanAfter? { ScanAfterGood(def, i, cur.steps, tok, f); }
    else if f.ScanApprovals? { ScanApprovalsGood(def, i, cur.steps, tok, f); }
    else if f.FireTimer? || f.CompleteStep? { FireGood(def, i, cur.steps, tok, f); }
    else if AdvanceFrame(f) { AdvanceGood(def, i, cur.steps, tok, f); }
    else { ActGoodToo(def, i, log, cur, tok, f); }
  }

  lemma ActGoodToo(def: WorkflowDef, i: Input, log: Log, cur: RunState, tok: Option<StepName>, f: Frame)
    requires Before(def, tok, cur.steps, f) && (TaskFrame(f) || HumanFrame(f))
    ensures Good(def, tok, cur.steps, f, Act(def, i, log, cur, f))
  {
    hide Good, Before, ActTask, ActHuman;
    if f.ExecuteTask? || f.StartTask? { StartGood(def, i, log, cur, tok, f); }
    else if f.RunHandler? || f.TaskFailed? { HandlerGood(def, i, log, cur, tok, f); }
    else if f.HandleFailure? { HandleGood(def, i, log, cur, tok, f); }
    else if f.Reschedule? { RescheduleGood(def, i, log, cur, tok, f); }
    else if f.FailStep? { FailGood(def, i, log, cur, tok, f); }
    else if TaskFrame(f) { MarkGood(def, i, log, cur, tok, f); }
    else if f.Approve? { ApproveGood(def, i, log, cur, tok, f); }
    else if f.Grant? { GrantGood(def, i, log, cur, tok, f); }
    else if f.AfterGrant? { AfterGood(def, i, log, cur, tok, f); }
    else if f.DispatchAfter? { DispatchAfterGood(def, i, log, cur, tok, f); }
    else if f.Cancel? || f.AppendCancelled? { CancelGood(def, i, log, cur, tok, f); }
    else if f.Reject? { RejectGood(def, i, log, cur, tok, f); }
    else { RejectedGood(def, i, log, cur, tok, f); }
  }

  // ---- the stack ---------------------------------------------------------

  /** A due delay holds the token, so no approval waits: scans of approvals below have nothing to do. */
  lemma NoGrantBeside(def: WorkflowDef, tok: Option<StepName>, steps: Steps, due: StepName, f: Frame)
    requires Sound(def, steps) && Only(steps, tok) && f.ScanApprovals? && Fresh(steps, f)
    requires due in steps && WaitsOut(steps[due])
    ensures Inert(f)
  {
    forall s | s in f.todo && s in f.run.steps ensures !Granted(f.run.steps[s]) {
      assert StepSound(def, s, steps[s]) && StepSound(def, due, steps[due]);
    }
  }

  lemma StackAfter(def: WorkflowDef, tok: Option<StepName>, steps: Steps, stack: seq<Frame>, a: Action)
    requires stack != [] && StackOk(def, tok, steps, stack) && Sound(def, steps) && Only(steps, tok)
    requires Good(def, tok, steps, stack[0], a)
    ensures StackOk(def, TokLater(tok, a), StepsLater(def, steps, a), a.push + stack[1..])
  {
    var s', steps' := a.push + stack[1..], StepsLater(def, steps, a);
    if a.push == [] && |stack| > 1 {
      assert BelowOk(steps, stack, 1);
      assert Light(stack[0]) || Inert(stack[1]);
    }
    forall k | 1 <= k < |s'| ensures BelowOk(steps', s', k) {
      if k < |a.push| {
        assert BelowOk(steps', a.push, k);
      } else {
        var j := k - |a.push| + 1;
        assert s'[k] == stack[j] && BelowOk(steps, stack, j);
        if !Inert(stack[j]) {
          assert Light(stack[0]) && steps' == steps;
          if |a.push| == 2 { NoGrantBeside(def, tok, steps, a.push[0].step, stack[j]); }
        }
      }
    }
  }

  // ---- every run ---------------------------------------------------------

  /** A queued task is only executed while its step is PENDING. */
  predicate Orderly(def: WorkflowDef, c: Config, d: Deed) {
    d.Begin? && d.op.ExecuteTask? ==>
      var steps := Replay(def, c.log).steps;
      d.op.step in steps && steps[d.op.step].status == SPending
  }

  predicate AllOrderly(def: WorkflowDef, ds: seq<Deed>) {
    forall k :: 0 <= k < |ds| ==> Orderly(def, DoAll(def, IDLE, ds[..k]), ds[k])
  }

  ghost predicate RunOk(def: WorkflowDef, c: Config) {
    var steps := Replay(def, c.log).steps;
    && Sound(def, steps) && Only(steps, TokenOf(c.log)) && Walked(def, c.log)
    && StackOk(def, TokenOf(c.log), steps, c.stack)
  }

  lemma LogAfter(def: WorkflowDef, log: Log, a: Action)
    requires |a.emit| <= 1 && Sound(def, Replay(def, log).steps) && Only(Replay(def, log).steps, TokenOf(log))
    requires Walked(def, log)
    requires a.emit != [] ==> Fits(def, TokenOf(log), Replay(def, log).steps, a.emit[0].body)
    ensures TokenOf(log + a.emit) == TokLater(TokenOf(log), a)
    ensures Replay(def, log + a.emit).steps == StepsLater(def, Replay(def, log).steps, a)
    ensures Sound(def, Replay(def, log + a.emit).steps) && Only(Replay(def, log + a.emit).steps, TokenOf(log + a.emit))
    ensures Walked(def, log + a.emit)
  {
    hide Sound, Only, Fits, StepsAfter, Follows;
    var l := log + a.emit;
    if a.emit == [] {
      assert l == log;
    } else {
      assert l == log + [a.emit[0]] && l[..|log|] == log;
      ReplayAppend(def, log, a.emit[0]);
      StepsAfterFit(def, TokenOf(log), Replay(def, log).steps, a.emit[0].body);
      FitFollows(def, TokenOf(log), Replay(def, log).steps, a.emit[0].body);
      WalkOn(def, log, a.emit[0]);
    }
  }

  lemma WalkOn(def: WorkflowDef, log: Log, e: Event)
    requires Walked(def, log) && (Entered(e.body).Some? ==> Follows(def, TokenOf(log), Entered(e.body).value))
    ensures Walked(def, log + [e])
  {
    hide Follows;
    var l := log + [e];
    forall k | 0 <= k < |l| && Entered(l[k].body).Some?
      ensures Follows(def, TokenOf(l[..k]), Entered(l[k].body).value)
    {
      assert l[..k] == log[..k] && log[..|log|] == log;
    }
  }

  lemma FitFollows(def: WorkflowDef, tok: Option<StepName>, steps: Steps, b: Body)
    requires Fits(def, tok, steps, b)
    ensures Entered(b).Some? ==> Follows(def, tok, Entered(b).value)
  {
  }

  lemma WorkKeeps(def: WorkflowDef, c: Config, i: Input)
    requires NoEscalation(def) && RunOk(def, c) && c.stack != []
    ensures RunOk(def, Next(def, i, c))
  {
    var cur, tok := Replay(def, c.log), TokenOf(c.log);
    var a := Act(def, i, c.log, cur, c.stack[0]);
    ActGood(def, i, c.log, cur, tok, c.stack[0]);
    LogAfter(def, c.log, a);
    StackAfter(def, tok, cur.steps, c.stack, a);
  }

  predicate QueuesTasks(def: WorkflowDef, c: Config) {
    forall s :: s in c.queue ==> KindOf(def, s) == Task
  }

  lemma BeginKeeps(def: WorkflowDef, c: Config, op: Frame)
    requires RunOk(def, c) && c.stack == [] && MayBegin(c.log, c.queue, op) && Orderly(def, c, Begin(op))
    requires QueuesTasks(def, c)
    ensures StackOk(def, TokenOf(c.log), Replay(def, c.log).steps, [op])
  {
    var steps := Replay(def, c.log).steps;
    if op.ExecuteTask? { assert StepSound(def, op.step, steps[op.step]); }
  }

  /** A failed append or load leaves frames that were inert, or nothing below. */
  lemma ErrorKeeps(def: WorkflowDef, c: Config, i: Input)
    requires NoEscalation(def) && RunOk(def, c) && c.stack != [] && MayFail(def, i, c.log, c.stack[0])
    ensures RunOk(def, c.(stack := Failover(c.stack[0]) + c.stack[1..]))
  {
    var cur, tok := Replay(def, c.log), TokenOf(c.log);
    var f, rest := c.stack[0], c.stack[1..];
    if Loads(f) {
      FailGoes(def, tok, cur.steps, f);
      StackAfter(def, tok, cur.steps, c.stack, Go(Failover(f)));
      return;
    }
    ActGood(def, i, c.log, cur, tok, f);
    assert !Light(f) && [] + rest == rest;
    forall k | 0 <= k < |rest| ensures Inert(rest[k]) { assert BelowOk(cur.steps, c.stack, k + 1); }
  }

  lemma FailGoes(def: WorkflowDef, tok: Option<StepName>, steps: Steps, f: Frame)
    requires Loads(f) && Holds(def, tok, steps, f)
    ensures Good(def, tok, steps, f, Go(Failover(f)))
  {
  }

  lemma DoKeeps(def: WorkflowDef, c: Config, d: Deed)
    requires NoEscalation(def) && RunOk(def, c) && Orderly(def, c, d) && QueuesTasks(def, c)
    ensures RunOk(def, Do(def, c, d))
  {
    match d {
      case Begin(op) => if c.stack == [] && MayBegin(c.log, c.queue, op) { BeginKeeps(def, c, op); }
      case Work(i) => if c.stack != [] { WorkKeeps(def, c, i); }
      case StoreError(i) =>
        if c.stack != [] && MayFail(def, i, c.log, c.stack[0]) { ErrorKeeps(def, c, i); }
      case Crash =>
    }
  }

  lemma {:induction false} AlwaysOk(def: WorkflowDef, ds: seq<Deed>)
    requires NoEscalation(def) && AllOrderly(def, ds)
    ensures RunOk(def, DoAll(def, IDLE, ds))
    decreases |ds|
  {
    if ds != [] {
      var n := |ds| - 1;
      assert forall k :: 0 <= k < n ==> ds[..n][..k] == ds[..k] && ds[..n][k] == ds[k];
      AlwaysOk(def, ds[..n]);
      assert Orderly(def, DoAll(def, IDLE, ds[..n]), ds[n]);
      forall s | s in DoAll(def, IDLE, ds[..n]).queue ensures KindOf(def, s) == Task {
        Atomic.QueueHoldsTasks(def, ds[..n], s);
      }
      DoKeeps(def, DoAll(def, IDLE, ds[..n]), ds[n]);
    }
  }

  /** At most one step is PENDING, RUNNING or WAITING at any time, and it is the step visited last. */
  lemma SingleToken(def: WorkflowDef, ds: seq<Deed>, s: StepName, t: StepName)
    requires NoEscalation(def) && AllOrderly(def, ds)
    requires var steps := Replay(def, DoAll(def, IDLE, ds).log).steps;
             s in steps && t in steps && Active(steps[s].status) && Active(steps[t].status)
    ensures s == t && TokenOf(DoAll(def, IDLE, ds).log) == Some(s)
  {
    AlwaysOk(def, ds);
  }

  /** The visits form a walk: the first is the initial step; each later one repeats the one before, or is its
      Next or its OnError. */
  lemma VisitsWalk(def: WorkflowDef, ds: seq<Deed>, j: nat, k: nat)
    requires NoEscalation(def) && AllOrderly(def, ds)
    requires var log := DoAll(def, IDLE, ds).log;
             j < k < |log| && Entered(log[j].body).Some? && Entered(log[k].body).Some?
             && forall m :: j < m < k ==> Entered(log[m].body).None?
    ensures var log := DoAll(def, IDLE, ds).log;
            || Entered(log[k].body) == Entered(log[j].body)
            || Edge(def, Entered(log[j].body).value, Entered(log[k].body).value)
  {
    var log := DoAll(def, IDLE, ds).log;
    AlwaysOk(def, ds);
    TokenIsLast(log[..k], j);
  }

  lemma FirstVisit(def: WorkflowDef, ds: seq<Deed>, k: nat)
    requires NoEscalation(def) && AllOrderly(def, ds)
    requires var log := DoAll(def, IDLE, ds).log;
             k < |log| && Entered(log[k].body).Some? && forall m :: 0 <= m < k ==> Entered(log[m].body).None?
    ensures Entered(DoAll(def, IDLE, ds).log[k].body) == Some(def.initial)
  {
    AlwaysOk(def, ds);
    NoToken(DoAll(def, IDLE, ds).log[..k]);
  }

  lemma {:induction false} TokenIsLast(log: Log, j: nat)
    requires j < |log| && Entered(log[j].body).Some? && forall m :: j < m < |log| ==> Entered(log[m].body).None?
    ensures TokenOf(log) == Entered(log[j].body)
    decreases |log|
  {
    var n := |log| - 1;
    if j < n {
      assert log[..n][j] == log[j];
      assert Entered(log[n].body).None?;
      TokenIsLast(log[..n], j);
    }
  }

  lemma {:induction false} NoToken(log: Log)
    requires forall m :: 0 <= m < |log| ==> Entered(log[m].body).None?
    ensures TokenOf(log) == None
    decreases |log|
  {
    if log != [] {
      assert forall m :: 0 <= m < |log| - 1 ==> log[..|log| - 1][m] == log[m];
      NoToken(log[..|log| - 1]);
    }
  }
}
