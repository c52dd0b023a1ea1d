/** An initial step that no operation can finish: of a kind the engine does not run, or an approval whose first link
    names nobody. In every run it stays PENDING or WAITING for good. */
module InitialStep {
  import opened Model
  import opened Replaying
  import opened Machine
  import opened Moves

  /** Some operation can end a turn of the step: a worker, a timer, or a decision of somebody on its first link. */
  predicate CanRest(def: WorkflowDef, s: StepName) {
    match KindOf(def, s)
    case Task => true
    case Delay => true
    case Approval => ChainOf(def, s) != [] && (ChainOf(def, s)[0].user != "" || ChainOf(def, s)[0].role != "")
    case OtherKind(_) => false
  }

  /** Still active, and no link of it was decided. */
  predicate StepLodged(def: WorkflowDef, st: StepState) {
    var s := def.initial;
    Active(st.status) && st.kind == KindOf(def, s)
    && (st.approval.Some? ==>
          KindOf(def, s) == Approval && st.approval.value == ApprovalState(ChainOf(def, s), 0, LinkPending, ""))
  }

  predicate RunLodged(def: WorkflowDef, run: RunState) {
    && (def.initial in run.steps ==> StepLodged(def, run.steps[def.initial]))
    && (run.status == RActive || run.status == RWaiting ==> def.initial in run.steps)
  }

  /** An activation on the way to end a turn of its step, or to decide a link of it. */
  predicate Finishing(f: Frame) {
    f.FireTimer? || f.CompleteStep? || f.ExecuteTask? || f.StartTask? || f.RunHandler? || f.TaskFailed?
    || f.HandleFailure?
    || f.Reschedule? || f.FailStep? || f.Grant? || f.AppendRejected?
  }

  predicate FrameLodged(def: WorkflowDef, f: Frame) {
    && (RunOf(f).Some? ==> RunLodged(def, RunOf(f).value))
    && (Finishing(f) ==> f.step != def.initial)
    && (f.RequestFirst? ==> KindOf(def, f.step) == Approval && ChainOf(def, f.step) != [])
  }

  predicate StackLodged(def: WorkflowDef, stack: seq<Frame>) {
    forall k :: 0 <= k < |stack| ==> FrameLodged(def, stack[k])
  }

  /** The event leaves the initial step active and undecided. */
  predicate EventLodged(def: WorkflowDef, b: Body) {
    && (StepOf(b) == Some(def.initial) ==>
          || b.RunStarted? || b.StepScheduled?
          || (b.ApprovalRequested? && b.index == 0 && KindOf(def, b.step) == Approval))
    && (b.RunStarted? ==> b.first == def.initial)
  }

  predicate ActLodged(def: WorkflowDef, a: Action) {
    && |a.emit| <= 1 && (a.emit != [] ==> EventLodged(def, a.emit[0].body))
    && def.initial !in a.submit && StackLodged(def, a.push)
  }

  lemma NobodyDecides(def: WorkflowDef, run: RunState, who: string)
    requires !CanRest(def, def.initial) && RunLodged(def, run)
    ensures !MayDecide(run, def.initial, who)
  {
  }

  lemma CreateLodged(def: WorkflowDef, i: Input, log: Log, cur: RunState, f: Frame)
    requires !CanRest(def, def.initial) && RunLodged(def, cur) && FrameLodged(def, f)
    requires f.CreateEvent? || f.CreateStart? || f.CreateAssign? || f.Refresh?
    ensures ActLodged(def, ActEntry(def, i, log, cur, f))
  {
  }

  lemma EntryLodged(def: WorkflowDef, i: Input, log: Log, cur: RunState, f: Frame)
    requires !CanRest(def, def.initial) && RunLodged(def, cur) && FrameLodged(def, f)
    requires f.Dispatch? || f.CheckSla? || f.JumpTo?
    ensures ActLodged(def, ActEntry(def, i, log, cur, f))
  {
  }

  lemma ScheduleLodged(def: WorkflowDef, i: Input, f: Frame)
    requires !CanRest(def, def.initial) && FrameLodged(def, f) && ScheduleFrame(f)
    ensures ActLodged(def, ActSchedule(def, i, f))
  {
  }

  lemma SlaLodged(def: WorkflowDef, i: Input, f: Frame)
    requires !CanRest(def, def.initial) && FrameLodged(def, f) && f.SlaLoop?
    ensures ActLodged(def, ActSla(def, i, f))
  {
  }

  lemma ScanLodged(def: WorkflowDef, i: Input, f: Frame)
    requires !CanRest(def, def.initial) && FrameLodged(def, f) && ScanFrame(f)
    ensures ActLodged(def, ActScan(i, f))
  {
  }

  lemma AdvanceLodged(def: WorkflowDef, i: Input, f: Frame)
    requires !CanRest(def, def.initial) && FrameLodged(def, f) && AdvanceFrame(f)
    ensures ActLodged(def, ActAdvance(def, i, f))
  {
  }

  lemma TaskLodged(def: WorkflowDef, i: Input, log: Log, cur: RunState, f: Frame)
    requires !CanRest(def, def.initial) && RunLodged(def, cur) && FrameLodged(def, f)
    requires f.ExecuteTask? || f.StartTask? || f.RunHandler? || f.TaskFailed?
    ensures ActLodged(def, ActTask(def, i, log, cur, f))
  {
  }

  lemma FailureLodged(def: WorkflowDef, i: Input, log: Log, cur: RunState, f: Frame)
    requires !CanRest(def, def.initial) && RunLodged(def, cur) && FrameLodged(def, f)
    requires f.HandleFailure? || f.Reschedule? || f.FailStep? || f.MarkFailing?
    ensures ActLodged(def, ActTask(def, i, log, cur, f))
  {
  }

  lemma DecisionLodged(def: WorkflowDef, i: Input, log: Log, cur: RunState, f: Frame)
    requires !CanRest(def, def.initial) && RunLodged(def, cur) && FrameLodged(def, f) && (f.Approve? || f.Reject?)
    ensures ActLodged(def, ActHuman(def, i, log, cur, f))
  {
    NobodyDecides(def, cur, f.who);
  }

  lemma GrantLodged(def: WorkflowDef, i: Input, log: Log, cur: RunState, f: Frame)
    requires !CanRest(def, def.initial) && RunLodged(def, cur) && FrameLodged(def, f)
    requires f.Grant? || f.AfterGrant? || f.DispatchAfter?
    ensures ActLodged(def, ActHuman(def, i, log, cur, f))
  {
  }

  lemma RefusalLodged(def: WorkflowDef, i: Input, log: Log, cur: RunState, f: Frame)
    requires !CanRest(def, def.initial) && RunLodged(def, cur) && FrameLodged(def, f)
    requires f.AppendRejected? || f.FailRejected? || f.Cancel? || f.AppendCancelled?
    ensures ActLodged(def, ActHuman(def, i, log, cur, f))
  {
  }

  lemma EveryActLodged(def: WorkflowDef, i: Input, log: Log, cur: RunState, f: Frame)
    requires !CanRest(def, def.initial) && RunLodged(def, cur) && FrameLodged(def, f)
    ensures ActLodged(def, Act(def, i, log, cur, f))
  {
    hide ActLodged, FrameLodged, RunLodged, ActEntry, ActSla, ActSchedule, ActScan, ActAdvance, ActTask, ActHuman;
    if f.Dispatch? || f.CheckSla? || f.JumpTo? { EntryLodged(def, i, log, cur, f); }
    else if EntryFrame(f) { CreateLodged(def, i, log, cur, f); }
    else if f.SlaLoop? { SlaLodged(def, i, f); }
    else if ScheduleFrame(f) { ScheduleLodged(def, i, f); }
    else if ScanFrame(f) { ScanLodged(def, i, f); }
    else if AdvanceFrame(f) { AdvanceLodged(def, i, f); }
    else if f.HandleFailure? || f.Reschedule? || f.FailStep? || f.MarkFailing? { FailureLodged(def, i, log, cur, f); }
    else if TaskFrame(f) { TaskLodged(def, i, log, cur, f); }
    else if f.Approve? || f.Reject? { DecisionLodged(def, i, log, cur, f); }
    else if f.Grant? || f.AfterGrant? || f.DispatchAfter? { GrantLodged(def, i, log, cur, f); }
    else { RefusalLodged(def, i, log, cur, f); }
  }

  predicate ConfigLodged(def: WorkflowDef, c: Config) {
    RunLodged(def, Replay(def, c.log)) && StackLodged(def, c.stack) && def.initial !in c.queue
  }

  lemma EventStays(def: WorkflowDef, run: RunState, e: Event)
    requires RunLodged(def, run) && EventLodged(def, e.body)
    ensures RunLodged(def, Apply(def, run, e))
  {
  }

  lemma WorkLodged(def: WorkflowDef, c: Config, i: Input)
    requires !CanRest(def, def.initial) && ConfigLodged(def, c) && c.stack != []
    ensures ConfigLodged(def, Next(def, i, c))
  {
    hide RunLodged, FrameLodged, EventLodged, Act;
    var a := Act(def, i, c.log, Replay(def, c.log), c.stack[0]);
    EveryActLodged(def, i, c.log, Replay(def, c.log), c.stack[0]);
    if a.emit == [] {
      assert c.log + a.emit == c.log;
    } else {
      assert a.emit == [a.emit[0]];
      ReplayAppend(def, c.log, a.emit[0]);
      EventStays(def, Replay(def, c.log), a.emit[0]);
    }
  }

  lemma DoLodged(def: WorkflowDef, c: Config, d: Deed)
    requires !CanRest(def, def.initial) && ConfigLodged(def, c)
    ensures ConfigLodged(def, Do(def, c, d))
  {
    hide Next, RunLodged, Act, Replay;
    if d.Work? && c.stack != [] { WorkLodged(def, c, d.input); }
    if d.Work? && c.stack == [] { assert Do(def, c, d) == c by { NothingToDo(def, c, d.input); } }
  }

  lemma NothingToDo(def: WorkflowDef, c: Config, i: Input)
    requires c.stack == []
    ensures Next(def, i, c) == c
  {
  }

  /** An initial step that cannot rest is active in every started run, whatever the operations. */
  lemma {:induction false} InitialStays(def: WorkflowDef, ds: seq<Deed>)
    requires !CanRest(def, def.initial)
    ensures ConfigLodged(def, DoAll(def, IDLE, ds))
    decreases |ds|
  {
    if ds != [] {
      InitialStays(def, ds[..|ds| - 1]);
      DoLodged(def, DoAll(def, IDLE, ds[..|ds| - 1]), ds[|ds| - 1]);
    }
  }
}
