/** How runs end under atomic operations: a failing run never completes, and an ended run stays ended
    (engine/engine.go:176-182, 385-393, 426-429, 535-571, 698-715). */
module Ending {
  import opened Model
  import opened Replaying
  import opened Machine

  // ---- failure is sticky -------------------------------------------------

  predicate IsFailure(b: Body) {
    b.RunFailing? || b.RunFailed?
  }

  /** Operations that may put a run on its failure path; they are alone on the stack until they have. */
  predicate Lone(f: Frame) {
    f.ExecuteTask? || f.StartTask? || f.RunHandler? || f.TaskFailed? || f.HandleFailure? || f.Reschedule?
    || f.FailStep? || f.MarkFailing? || (f.Advance? && !f.ok)
    || f.Reject? || f.AppendRejected? || f.FailRejected?
  }

  /** The frame's snapshot, if it may still complete the run with it, knows whether the run is failing. */
  predicate Honest(failed: bool, f: Frame) {
    RunOf(f).Some? && !f.FailStep? && !f.MarkFailing? && !(f.Advance? && !f.ok) ==> RunOf(f).value.failed == failed
  }

  predicate FailedAfter(failed: bool, a: Action) {
    failed || (a.emit != [] && IsFailure(a.emit[0].body))
  }

  predicate Sticks(failed: bool, f: Frame, a: Action) {
    && |a.emit| <= 1
    && (a.emit != [] && a.emit[0].body.RunCompleted? ==> !failed)
    && (FailedAfter(failed, a) != failed ==> Lone(f))
    && (if Lone(f) then |a.push| <= 1 else forall k :: 0 <= k < |a.push| ==> !Lone(a.push[k]))
    && (forall k :: 0 <= k < |a.push| ==> Honest(FailedAfter(failed, a), a.push[k]))
  }

  lemma CreateSticks(def: WorkflowDef, i: Input, log: Log, cur: RunState, f: Frame)
    requires f.CreateEvent? || f.CreateStart? || f.CreateAssign? || f.Refresh?
    ensures Sticks(cur.failed, f, ActEntry(def, i, log, cur, f))
  {
  }

  lemma DispatchSticks(def: WorkflowDef, i: Input, log: Log, cur: RunState, f: Frame)
    requires f.Dispatch? || f.CheckSla? || f.JumpTo?
    requires Honest(cur.failed, f)
    ensures Sticks(cur.failed, f, ActEntry(def, i, log, cur, f))
  {
  }

  lemma ScheduleSticks(def: WorkflowDef, i: Input, failed: bool, f: Frame)
    requires ScheduleFrame(f)
    ensures Sticks(failed, f, ActSchedule(def, i, f))
  {
  }

  lemma SlaSticks(def: WorkflowDef, i: Input, failed: bool, f: Frame)
    requires f.SlaLoop? && Honest(failed, f)
    ensures Sticks(failed, f, ActSla(def, i, f))
  {
  }

  lemma ScanSticks(i: Input, failed: bool, f: Frame)
    requires ScanFrame(f) && Honest(failed, f)
    ensures Sticks(failed, f, ActScan(i, f))
  {
  }

  lemma FireSticks(def: WorkflowDef, i: Input, failed: bool, f: Frame)
    requires (f.FireTimer? || f.CompleteStep?) && Honest(failed, f)
    ensures Sticks(failed, f, ActAdvance(def, i, f))
  {
  }

  lemma AdvanceSticks(def: WorkflowDef, i: Input, failed: bool, f: Frame)
    requires (f.AdvanceApproval? || f.Advance?) && Honest(failed, f)
    ensures Sticks(failed, f, ActAdvance(def, i, f))
  {
  }

  lemma TaskSticks(def: WorkflowDef, i: Input, log: Log, cur: RunState, f: Frame)
    requires TaskFrame(f) && Honest(cur.failed, f)
    ensures Sticks(cur.failed, f, ActTask(def, i, log, cur, f))
  {
  }

  lemma GrantSticks(def: WorkflowDef, i: Input, log: Log, cur: RunState, f: Frame)
    requires f.Approve? || f.Grant?
    requires Honest(cur.failed, f)
    ensures Sticks(cur.failed, f, ActHuman(def, i, log, cur, f))
  {
  }

  lemma AfterSticks(def: WorkflowDef, i: Input, log: Log, cur: RunState, f: Frame)
    requires f.AfterGrant? || f.DispatchAfter?
    requires Honest(cur.failed, f)
    ensures Sticks(cur.failed, f, ActHuman(def, i, log, cur, f))
  {
  }

  lemma RejectSticks(def: WorkflowDef, i: Input, log: Log, cur: RunState, f: Frame)
    requires f.Reject? || f.AppendRejected? || f.FailRejected? || f.Cancel? || f.AppendCancelled?
    ensures Sticks(cur.failed, f, ActHuman(def, i, log, cur, f))
  {
  }

  lemma ActSticks(def: WorkflowDef, i: Input, log: Log, cur: RunState, f: Frame)
    requires Honest(cur.failed, f)
    ensures Sticks(cur.failed, f, Act(def, i, log, cur, f))
  {
    if f.Dispatch? || f.CheckSla? || f.JumpTo? { DispatchSticks(def, i, log, cur, f); }
    else if EntryFrame(f) { CreateSticks(def, i, log, cur, f); }
    else if f.SlaLoop? { SlaSticks(def, i, cur.failed, f); }
    else if ScheduleFrame(f) { ScheduleSticks(def, i, cur.failed, f); }
    else if ScanFrame(f) { ScanSticks(i, cur.failed, f); }
    else if f.FireTimer? || f.CompleteStep? { FireSticks(def, i, cur.failed, f); }
    else if AdvanceFrame(f) { AdvanceSticks(def, i, cur.failed, f); }
    else if TaskFrame(f) { TaskSticks(def, i, log, cur, f); }
    else if f.Approve? || f.Grant? { GrantSticks(def, i, log, cur, f); }
    else if f.AfterGrant? || f.DispatchAfter? { AfterSticks(def, i, log, cur, f); }
    else { RejectSticks(def, i, log, cur, f); }
  }

  /** No completion after a failure. */
  predicate Sticky(log: Log) {
    forall j, k :: 0 <= j < k < |log| && IsFailure(log[j].body) ==> !log[k].body.RunCompleted?
  }

  predicate StackHonest(failed: bool, stack: seq<Frame>) {
    && (forall k :: 0 <= k < |stack| ==> Honest(failed, stack[k]))
    && (|stack| > 1 ==> forall k :: 0 <= k < |stack| ==> !Lone(stack[k]))
  }

  predicate StickyOk(def: WorkflowDef, c: Config) {
    Sticky(c.log) && StackHonest(Replay(def, c.log).failed, c.stack)
  }

  lemma StickyAppend(def: WorkflowDef, log: Log, emit: Log)
    requires |emit| <= 1 && Sticky(log)
    requires emit != [] && emit[0].body.RunCompleted? ==> !Replay(def, log).failed
    ensures Sticky(log + emit)
    ensures Replay(def, log + emit).failed == (Replay(def, log).failed || (emit != [] && IsFailure(emit[0].body)))
  {
    if emit == [] {
      assert log + emit == log;
    } else {
      assert emit == [emit[0]];
      FailedIff(def, log);
      ReplayAppend(def, log, emit[0]);
    }
  }

  lemma StackAfter(failed: bool, stack: seq<Frame>, a: Action)
    requires stack != [] && StackHonest(failed, stack) && Sticks(failed, stack[0], a)
    ensures StackHonest(FailedAfter(failed, a), a.push + stack[1..])
  {
    var s' := a.push + stack[1..];
    forall k | 0 <= k < |s'|
      ensures Honest(FailedAfter(failed, a), s'[k]) && (|s'| > 1 ==> !Lone(s'[k]))
    {
      if k >= |a.push| { assert s'[k] == stack[k - |a.push| + 1]; }
    }
  }

  lemma WorkSticks(def: WorkflowDef, c: Config, i: Input)
    requires StickyOk(def, c) && c.stack != []
    ensures StickyOk(def, Next(def, i, c))
  {
    var a := Act(def, i, c.log, Replay(def, c.log), c.stack[0]);
    ActSticks(def, i, c.log, Replay(def, c.log), c.stack[0]);
    hide Act, Sticky, StackHonest, Replay;
    StickyAppend(def, c.log, a.emit);
    StackAfter(Replay(def, c.log).failed, c.stack, a);
  }

  lemma DoSticks(def: WorkflowDef, c: Config, d: Deed)
    requires StickyOk(def, c)
    ensures StickyOk(def, Do(def, c, d))
  {
    hide Act, Sticky, Replay, Next;
    match d {
      case Begin(op) =>
      case Work(i) => if c.stack != [] { WorkSticks(def, c, i); } else { Rests(def, c, i); }
      case StoreError(i) =>
      case Crash =>
    }
  }

  lemma Rests(def: WorkflowDef, c: Config, i: Input)
    requires c.stack == []
    ensures Next(def, i, c) == c
  {
  }

  /** Once a run is failing or failed, no later event completes it. */
  lemma {:induction false} FailureIsSticky(def: WorkflowDef, ds: seq<Deed>)
    ensures Sticky(DoAll(def, IDLE, ds).log)
    ensures StickyOk(def, DoAll(def, IDLE, ds))
    decreases |ds|
  {
    if ds != [] {
      FailureIsSticky(def, ds[..|ds| - 1]);
      DoSticks(def, DoAll(def, IDLE, ds[..|ds| - 1]), ds[|ds| - 1]);
    }
  }

  // ---- an ended run stays ended ------------------------------------------

  predicate Creating(f: Frame) {
    f.CreateEvent? || f.CreateStart?
  }

  predicate BirthOk(def: WorkflowDef, c: Config) {
    forall k :: 0 <= k < |c.stack| && Creating(c.stack[k]) ==> |c.stack| == 1 && Replay(def, c.log).status == RUnset
  }

  /** Only the creation of the run emits RUN_STARTED, and nothing leads back to it. */
  predicate Barren(f: Frame, a: Action) {
    && |a.emit| <= 1 && (Creating(f) ==> |a.push| == 1)
    && (a.emit != [] && a.emit[0].body.RunStarted? ==> f.CreateStart?)
    && (f.CreateEvent? ==> a.emit != [] && a.emit[0].body.TicketCreated?)
    && (forall k :: 0 <= k < |a.push| ==> Creating(a.push[k]) ==> f.CreateEvent?)
  }

  lemma EntryBarren(def: WorkflowDef, i: Input, log: Log, cur: RunState, f: Frame)
    requires EntryFrame(f)
    ensures Barren(f, ActEntry(def, i, log, cur, f))
  {
  }

  lemma ScheduleBarren(def: WorkflowDef, i: Input, f: Frame)
    requires ScheduleFrame(f)
    ensures Barren(f, ActSchedule(def, i, f))
  {
  }

  lemma AdvanceBarren(def: WorkflowDef, i: Input, f: Frame)
    requires AdvanceFrame(f)
    ensures Barren(f, ActAdvance(def, i, f))
  {
  }

  lemma ScanBarren(def: WorkflowDef, i: Input, f: Frame)
    requires ScanFrame(f) || f.SlaLoop?
    ensures Barren(f, if f.SlaLoop? then ActSla(def, i, f) else ActScan(i, f))
  {
  }

  lemma TaskBarren(def: WorkflowDef, i: Input, log: Log, cur: RunState, f: Frame)
    requires TaskFrame(f)
    ensures Barren(f, ActTask(def, i, log, cur, f))
  {
  }

  lemma HumanBarren(def: WorkflowDef, i: Input, log: Log, cur: RunState, f: Frame)
    requires HumanFrame(f)
    ensures Barren(f, ActHuman(def, i, log, cur, f))
  {
  }

  lemma ActBarren(def: WorkflowDef, i: Input, log: Log, cur: RunState, f: Frame)
    ensures Barren(f, Act(def, i, log, cur, f))
  {
    if EntryFrame(f) { EntryBarren(def, i, log, cur, f); }
    else if f.SlaLoop? || ScanFrame(f) { ScanBarren(def, i, f); }
    else if ScheduleFrame(f) { ScheduleBarren(def, i, f); }
    else if AdvanceFrame(f) { AdvanceBarren(def, i, f); }
    else if TaskFrame(f) { TaskBarren(def, i, log, cur, f); }
    else { HumanBarren(def, i, log, cur, f); }
  }

  lemma WorkBirth(def: WorkflowDef, c: Config, i: Input)
    requires BirthOk(def, c) && c.stack != []
    ensures BirthOk(def, Next(def, i, c))
    ensures Terminal(Replay(def, c.log).status) ==> Terminal(Replay(def, Next(def, i, c).log).status)
  {
    hide Act, Replay;
    var a := Act(def, i, c.log, Replay(def, c.log), c.stack[0]);
    ActBarren(def, i, c.log, Replay(def, c.log), c.stack[0]);
    if a.emit == [] {
      assert c.log + a.emit == c.log;
    } else {
      assert a.emit == [a.emit[0]];
      ReplayAppend(def, c.log, a.emit[0]);
    }
  }

  lemma DoBirth(def: WorkflowDef, c: Config, d: Deed)
    requires BirthOk(def, c)
    ensures BirthOk(def, Do(def, c, d))
    ensures Terminal(Replay(def, c.log).status) ==> Terminal(Replay(def, Do(def, c, d).log).status)
  {
    hide Act;
    if d.Work? && c.stack != [] { WorkBirth(def, c, d.input); }
  }

  lemma {:induction false} AlwaysBirth(def: WorkflowDef, ds: seq<Deed>)
    ensures BirthOk(def, DoAll(def, IDLE, ds))
    decreases |ds|
  {
    if ds != [] {
      AlwaysBirth(def, ds[..|ds| - 1]);
      DoBirth(def, DoAll(def, IDLE, ds[..|ds| - 1]), ds[|ds| - 1]);
    }
  }

  /** Whatever operations follow, in whatever order, a run that was COMPLETED, FAILED or CANCELLED is never
      live again. */
  lemma {:induction false} EndedForGood(def: WorkflowDef, c: Config, ds: seq<Deed>)
    requires Reachable(def, c) && Terminal(Replay(def, c.log).status)
    ensures Terminal(Replay(def, DoAll(def, c, ds).log).status)
    ensures BirthOk(def, DoAll(def, c, ds))
    decreases |ds|
  {
    if ds == [] {
      var past: seq<Deed> :| DoAll(def, IDLE, past) == c;
      AlwaysBirth(def, past);
    } else {
      EndedForGood(def, c, ds[..|ds| - 1]);
      DoBirth(def, DoAll(def, c, ds[..|ds| - 1]), ds[|ds| - 1]);
    }
  }

  /** A sweep, a recovery (both dispatch the run) or a cancellation, or no operation at all. */
  predicate Leaves(d: Deed) {
    d.Begin? ==> d.op.Refresh? || d.op.Cancel?
  }

  predicate Resting(def: WorkflowDef, c: Config) {
    || c.stack == []
    || (|c.stack| == 1 && (c.stack[0].Refresh? || c.stack[0].Cancel? || c.stack[0] == Dispatch(Replay(def, c.log))))
  }

  lemma InertStep(def: WorkflowDef, c: Config, d: Deed)
    requires Resting(def, c) && Leaves(d) && c.log != [] && Terminal(Replay(def, c.log).status)
    ensures Do(def, c, d).log == c.log && Resting(def, Do(def, c, d))
  {
    if d.Work? && c.stack != [] {
      var a := Act(def, d.input, c.log, Replay(def, c.log), c.stack[0]);
      assert a.emit == [] && c.log + a.emit == c.log;
      assert a.push + c.stack[1..] == a.push;
    }
  }

  /** Still the ended log, and nothing under way that could change it. */
  predicate Inert(def: WorkflowDef, log: Log, c: Config) {
    c.log == log && Resting(def, c)
  }

  /** Sweeps, recoveries and cancellations of an ended run leave its log unchanged. */
  lemma {:induction false} EndedIsInert(def: WorkflowDef, c: Config, ds: seq<Deed>)
    requires c.stack == [] && c.log != [] && Terminal(Replay(def, c.log).status)
    requires forall d :: d in ds ==> Leaves(d)
    ensures Inert(def, c.log, DoAll(def, c, ds))
    decreases |ds|
  {
    if ds != [] {
      var init := ds[..|ds| - 1];
      EndedIsInert(def, c, init);
      assert ds[|ds| - 1] in ds;
      InertStep(def, DoAll(def, c, init), ds[|ds| - 1]);
    }
  }
}
