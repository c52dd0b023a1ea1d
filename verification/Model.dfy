/** The intermediate representation of a workflow, the events of a run's log and
    the state derived from them (engine/model.go). */
module Model {

  datatype Option<+T> = None | Some(value: T)

  type RunId = string
  type StepName = string
  type Time = int
  type Duration = int
  type Output = map<string, string>

  const ZERO_TIME: Time := 0

  // ---- definitions -------------------------------------------------------

  datatype StepKind = Task | Approval | Delay | OtherKind(tag: string)

  datatype Approver = Approver(role: string, user: string)

  datatype RetryPolicy = RetryPolicy(maxAttempts: int, delay: Duration)

  datatype StepDef = StepDef(
    name: StepName,
    kind: StepKind,
    task: string,
    chain: Option<seq<Approver>>,
    delay: Option<Duration>,
    next: StepName,
    onError: StepName,
    assignTo: string,
    retry: RetryPolicy)

  datatype SlaDef = SlaDef(name: string, duration: Duration, onBreach: StepName)

  datatype WorkflowDef = WorkflowDef(
    name: string,
    version: string,
    description: string,
    initial: StepName,
    steps: seq<StepDef>,
    slas: seq<SlaDef>)

  /** The first declared step with the given name. */
  function FindStep(steps: seq<StepDef>, name: StepName): Option<StepDef> {
    if steps == [] then None
    else if steps[0].name == name then Some(steps[0])
    else FindStep(steps[1..], name)
  }

  lemma {:induction false} FindStepIsFirst(steps: seq<StepDef>, name: StepName)
    ensures FindStep(steps, name).None? <==> forall k :: 0 <= k < |steps| ==> steps[k].name != name
    ensures FindStep(steps, name).Some? ==>
              exists k :: 0 <= k < |steps| && steps[k] == FindStep(steps, name).value && steps[k].name == name
                          && forall j :: 0 <= j < k ==> steps[j].name != name
  {
    if steps != [] && steps[0].name != name {
      var rest := steps[1..];
      FindStepIsFirst(rest, name);
      assert forall k :: 1 <= k < |steps| ==> steps[k] == rest[k - 1];
      if FindStep(rest, name).Some? {
        var k :| 0 <= k < |rest| && rest[k] == FindStep(rest, name).value && rest[k].name == name
                 && forall j :: 0 <= j < k ==> rest[j].name != name;
        assert steps[k + 1] == rest[k];
        forall j | 0 <= j < k + 1 ensures steps[j].name != name {
          if j > 0 { assert rest[j - 1].name != name; }
        }
      }
    }
  }

  function Lookup(def: WorkflowDef, name: StepName): Option<StepDef> {
    FindStep(def.steps, name)
  }

  /** The kind `ensureStep` gives a step: the declared one, else a task. */
  function KindOf(def: WorkflowDef, name: StepName): StepKind {
    match Lookup(def, name)
    case Some(sd) => sd.kind
    case None => Task
  }

  function ChainOf(def: WorkflowDef, name: StepName): seq<Approver> {
    match Lookup(def, name)
    case Some(sd) => if sd.chain.Some? then sd.chain.value else []
    case None => []
  }

  /** The step `advance` goes to: Next on success, OnError on failure, "" for none. */
  function SuccessorOf(def: WorkflowDef, name: StepName, ok: bool): StepName {
    match Lookup(def, name)
    case Some(sd) => if ok then sd.next else sd.onError
    case None => ""
  }

  predicate Declared(def: WorkflowDef, name: StepName) {
    Lookup(def, name).Some?
  }

  predicate StepWellFormed(def: WorkflowDef, sd: StepDef) {
    && (sd.next != "" ==> Declared(def, sd.next))
    && (sd.onError != "" ==> Declared(def, sd.onError))
    && (sd.kind == Delay ==> sd.delay.Some?)
    && (sd.kind == Approval ==> sd.chain.Some? && sd.chain.value != [])
  }

  /** Every name the definition mentions is declared, delays have a duration, approvals a chain. */
  predicate WellFormed(def: WorkflowDef) {
    && Declared(def, def.initial)
    && (forall k :: 0 <= k < |def.steps| ==> StepWellFormed(def, def.steps[k]))
    && (forall k :: 0 <= k < |def.slas| ==> def.slas[k].onBreach != "" ==> Declared(def, def.slas[k].onBreach))
  }

  lemma DeclaredWellFormed(def: WorkflowDef, s: StepName)
    requires WellFormed(def) && Declared(def, s)
    ensures StepWellFormed(def, Lookup(def, s).value)
  {
    FindStepIsFirst(def.steps, s);
  }

  /** A definition as it is registered: the first step is the initial one when none is named. */
  function Registered(def: WorkflowDef): WorkflowDef {
    if def.initial == "" && |def.steps| > 0 then def.(initial := def.steps[0].name) else def
  }

  /** The definitions `RegisterWorkflow` accepts. */
  predicate Registrable(def: WorkflowDef) {
    def.name != "" && def.version != "" && Declared(def, Registered(def).initial)
  }

  /** What is registered differs from the definition at most in its initial step, which is the first declared one when
      none is named; it is accepted exactly when it is named, has a version, and declares that step. */
  lemma RegistrableIff(def: WorkflowDef)
    ensures Registered(def) == def.(initial := Registered(def).initial)
    ensures def.initial != "" ==> Registered(def).initial == def.initial
    ensures def.initial == "" && def.steps != [] ==> Registered(def).initial == def.steps[0].name
    ensures Registrable(def) <==>
              && def.name != "" && def.version != "" && def.steps != []
              && (def.initial == "" || exists k :: 0 <= k < |def.steps| && def.steps[k].name == def.initial)
  {
    FindStepIsFirst(def.steps, Registered(def).initial);
  }

  /** The key of a definition in a cache. */
  function WfKey(name: string, version: string): string {
    name + "@" + version
  }

  // ---- events ------------------------------------------------------------

  /** The error texts the engine writes, without their wording. */
  datatype Reason =
    | NoReason
    | Said(text: string)
    | NoHandlerFor(task: string)
    | Rejection(text: string)
    | ApprovalRejection(text: string)

  datatype Body =
    | TicketCreated(workflow: string, version: string)
    | RunStarted(first: StepName)
    | StepScheduled(step: StepName, kind: StepKind, due: Option<Time>)
    | StepStarted(step: StepName)
    | StepCompleted(step: StepName, output: Output)
    | StepFailed(step: StepName, reason: Reason, attempt: nat)
    | TimerFired(step: StepName)
    | ApprovalRequested(step: StepName, index: nat, role: string, user: string, chainLen: nat)
    | ApprovalGranted(step: StepName, index: nat, who: string)
    | ApprovalRejected(step: StepName, index: nat, who: string, text: string)
    | SlaBreached(sla: string, step: StepName)
    | TicketAssigned
    | RunCompleted(last: StepName)
    | RunFailed(last: StepName, reason: Reason)
    | RunCancelled(text: string)
    | RunFailing(last: StepName, reason: Reason)

  datatype Event = Event(at: Time, body: Body)

  type Log = seq<Event>

  // ---- derived state -----------------------------------------------------

  datatype RunStatus = RUnset | RActive | RWaiting | RCompleted | RFailed | RCancelled

  datatype StepStatus = SPending | SRunning | SCompleted | SFailed | SWaiting

  datatype LinkStatus = LinkPending | LinkGranted | LinkRejected

  datatype ApprovalState = ApprovalState(
    chain: seq<Approver>, index: nat, status: LinkStatus, decidedBy: string)

  datatype StepState = StepState(
    kind: StepKind,
    status: StepStatus,
    attempt: nat,
    output: Output,
    error: Reason,
    due: Option<Time>,
    approval: Option<ApprovalState>)

  datatype RunState = RunState(
    workflow: string,
    version: string,
    status: RunStatus,
    failed: bool,
    current: StepName,
    steps: map<StepName, StepState>,
    output: Output,
    createdAt: Time,
    updatedAt: Time)

  predicate Terminal(s: RunStatus) {
    s == RCompleted || s == RFailed || s == RCancelled
  }

  /** PENDING, RUNNING or WAITING: the step still holds a token. */
  predicate Active(s: StepStatus) {
    s == SPending || s == SRunning || s == SWaiting
  }
}
