/** Where the events of a run come from, in every interleaving: each scheduled step is
    entitled to its turn by an earlier event, and no activation looks up a step, a delay,
    a chain or a step state that is not there. */
module Provenance {
  import opened Model
  import opened Replaying
  import opened Machine

  // ---- what a log shows --------------------------------------------------

  /** The steps a log mentions (a replay has a state for exactly these), and those it shows
      completed, failed, failing the run or rejected; the SLAs it flags; whether it has begun. */
  datatype History = History(
    known: set<StepName>, completed: set<StepName>, failed: set<StepName>, failing: set<StepName>,
    rejected: set<StepName>, flagged: set<string>, begun: bool)

  function Remember(h: History, b: Body): History {
    History(
      if StepOf(b).Some? then h.known + {StepOf(b).value} else h.known,
      if b.StepCompleted? then h.completed + {b.step} else h.completed,
      if b.StepFailed? then h.failed + {b.step} else h.failed,
      if b.RunFailing? then h.failing + {b.last} else h.failing,
      if b.ApprovalRejected? then h.rejected + {b.step} else h.rejected,
      if b.SlaBreached? then h.flagged + {b.sla} else h.flagged,
      true)
  }

  function Recall(log: Log): History {
    if log == [] then History({}, {}, {}, {}, {}, {}, false)
    else Remember(Recall(log[..|log| - 1]), log[|log| - 1].body)
  }

  /** `h` may grow into `j`. */
  predicate Grows(h: History, j: History) {
    h.known <= j.known && h.completed <= j.completed && h.failed <= j.failed && h.failing <= j.failing
    && h.rejected <= j.rejected && h.flagged <= j.flagged && (h.begun ==> j.begun)
  }

  /** What membership in a history means for the log. */
  lemma {:induction false} RecallMeans(log: Log, s: StepName)
    ensures s in Recall(log).completed <==>
              exists k :: 0 <= k < |log| && log[k].body.StepCompleted? && log[k].body.step == s
    ensures s in Recall(log).failed <==> exists k :: 0 <= k < |log| && log[k].body.StepFailed? && log[k].body.step == s
    ensures s in Recall(log).failing <==> exists k :: 0 <= k < |log| && log[k].body.RunFailing? && log[k].body.last == s
    decreases |log|
  {
    if log != [] {
      var init := log[..|log| - 1];
      RecallMeans(init, s);
      assert forall k :: 0 <= k < |init| ==> init[k] == log[k];
    }
  }

  lemma {:induction false} RecallMeansToo(log: Log, s: StepName)
    ensures s in Recall(log).rejected <==>
              exists k :: 0 <= k < |log| && log[k].body.ApprovalRejected? && log[k].body.step == s
    ensures s in Recall(log).flagged <==> exists k :: 0 <= k < |log| && log[k].body.SlaBreached? && log[k].body.sla == s
    ensures s in Recall(log).known <==> exists k :: 0 <= k < |log| && StepOf(log[k].body) == Some(s)
    decreases |log|
  {
    if log != [] {
      var init := log[..|log| - 1];
      RecallMeansToo(init, s);
      assert forall k :: 0 <= k < |init| ==> init[k] == log[k];
    }
  }

  lemma {:induction false} KnownIsReplayed(def: WorkflowDef, log: Log)
    ensures Replay(def, log).steps.Keys == Recall(log).known
    ensures Recall(log).begun <==> log != []
    decreases |log|
  {
    if log != [] { KnownIsReplayed(def, log[..|log| - 1]); }
  }

  lemma RecallAppend(log: Log, e: Event)
    ensures Recall(log + [e]) == Remember(Recall(log), e.body)
  {
    assert (log + [e])[..|log|] == log;
  }

  predicate Breach(def: WorkflowDef, h: History, s: StepName) {
    exists j :: 0 <= j < |def.slas| && def.slas[j].name in h.flagged && def.slas[j].onBreach == s
  }

  /** The history justifies going on to step s: it is the Next of a completed step, the OnError of a step that failed
      the run, or the OnBreach of a flagged SLA. */
  ghost predicate Called(def: WorkflowDef, h: History, s: StepName) {
    || (s != "" && exists a :: a in h.completed && SuccessorOf(def, a, true) == s)
    || (s != "" && exists a :: a in h.failing && SuccessorOf(def, a, false) == s)
    || (s != "" && Breach(def, h, s))
  }

  /** ... or it is the initial step. */
  ghost predicate Entitled(def: WorkflowDef, h: History, s: StepName) {
    s == def.initial || Called(def, h, s)
  }

  /** What justifies scheduling s: the creation of the run, or what went before. */
  ghost predicate Owed(def: WorkflowDef, h: History, s: StepName, then_: After) {
    if then_ == ThenAssign then s == def.initial else Called(def, h, s)
  }

  /** An event is justified by the history before it. */
  ghost predicate Justified(def: WorkflowDef, h: History, b: Body) {
    && (StepOf(b).Some? ==>
          var s := StepOf(b).value;
          || s in h.known
          || (b.RunStarted? && s == def.initial)
          || (Entitled(def, h, s) && Lookup(def, s).Some?))
    && (b.StepScheduled? ==> Lookup(def, b.step).Some? && (Entitled(def, h, b.step) || b.step in h.failed))
    && (b.RunCompleted? ==> b.last in h.completed && SuccessorOf(def, b.last, true) == "")
    && (b.RunFailed? ==>
          || (b.last in h.completed && SuccessorOf(def, b.last, true) == "")
          || (b.last in h.failing && SuccessorOf(def, b.last, false) == "")
          || b.last in h.rejected)
    && (b.RunFailing? ==> b.last in h.known)
  }

  ghost predicate AllJustified(def: WorkflowDef, log: Log) {
    forall k :: 0 <= k < |log| ==> Justified(def, Recall(log[..k]), log[k].body)
  }

  // ---- what an activation knows ------------------------------------------

  /** The frame is about a step its snapshot (or, without one, the log) knows. */
  predicate KnowsStep(def: WorkflowDef, h: History, f: Frame) {
    match f
    case FireTimer(r, s) => s in r.steps
    case CompleteStep(r, s, _) => s in r.steps
    case AdvanceApproval(r, s) => s in r.steps
    case Advance(r, s, _) => s in r.steps
    case StartTask(r, s) => s in r.steps
    case RunHandler(r, s, _) => s in r.steps
    case HandleFailure(r, s, _, _) => s in r.steps
    case FailStep(r, s, _) => s in r.steps
    case MarkFailing(r, s, _) => s in r.steps
    case ExecuteTask(s) => s in h.known
    case TaskFailed(r, s, _, _) => s in r.steps
    case Reschedule(s, _) => s in h.known && Lookup(def, s).Some?
    case Grant(s, _, _) => s in h.known
    case AfterGrant(s) => s in h.known
    case AppendRejected(s, _, _, _) => s in h.known
    case ScanSteps(r, todo) => todo <= r.steps.Keys
    case ScanApprovals(r, todo) => todo <= r.steps.Keys
    case ScanAfter(r, todo) => todo <= r.steps.Keys
    case _ => true
  }

  /** The event that put the activation on its way is in the log. */
  ghost predicate Warranted(def: WorkflowDef, h: History, f: Frame) {
    match f
    case ScheduleStep(s, then_) => Owed(def, h, s, then_)
    case RequestFirst(s, _, then_) => Owed(def, h, s, then_) && Lookup(def, s).Some? && ChainOf(def, s) != []
    case EmitScheduled(s, _, then_) => Owed(def, h, s, then_) && Lookup(def, s).Some?
    case JumpTo(_, s) => s != "" && Breach(def, h, s)
    case Advance(_, s, ok) => if ok then s in h.completed else s in h.failing
    case MarkFailing(_, s, _) => s in h.failed
    case Reschedule(s, _) => s in h.failed
    case FailRejected(s, _) => s in h.rejected
    case _ => true
  }

  ghost predicate FrameOk(def: WorkflowDef, h: History, f: Frame) {
    && (RunOf(f).Some? ==> RunOf(f).value.steps.Keys <= h.known)
    && KnowsStep(def, h, f)
    && Warranted(def, h, f)
    && (f.Refresh? || f.ExecuteTask? || f.AfterGrant? ==> h.begun)
  }

  ghost predicate StackOk(def: WorkflowDef, h: History, stack: seq<Frame>) {
    forall k :: 0 <= k < |stack| ==> FrameOk(def, h, stack[k])
  }

  lemma OwedGrows(def: WorkflowDef, h: History, j: History, s: StepName, then_: After)
    requires Owed(def, h, s, then_) && Grows(h, j)
    ensures Owed(def, j, s, then_)
  {
  }

  lemma FrameGrows(def: WorkflowDef, h: History, j: History, f: Frame)
    requires FrameOk(def, h, f) && Grows(h, j)
    ensures FrameOk(def, j, f)
  {
    if ScheduleFrame(f) { OwedGrows(def, h, j, f.step, f.then_); }
  }

  // ---- every action keeps it ---------------------------------------------

  /** The history after an action. */
  function Later(h: History, a: Action): History {
    if a.emit == [] then h else Remember(h, a.emit[0].body)
  }

  /** The event an action appends was justified, and what the action leaves to do is in order. */
  ghost predicate Kept(def: WorkflowDef, h: History, a: Action) {
    && |a.emit| <= 1
    && (a.emit != [] ==> Justified(def, h, a.emit[0].body))
    && (forall x :: x in a.submit ==> x in h.known)
    && StackOk(def, Later(h, a), a.push)
  }

  lemma EntryKeeps(def: WorkflowDef, i: Input, log: Log, cur: RunState, h: History, f: Frame)
    requires EntryFrame(f) && FrameOk(def, h, f) && cur.steps.Keys == h.known
    ensures Kept(def, h, ActEntry(def, i, log, cur, f))
  {
  }

  lemma SlaKeeps(def: WorkflowDef, i: Input, h: History, f: Frame)
    requires f.SlaLoop? && FrameOk(def, h, f)
    ensures Kept(def, h, ActSla(def, i, f))
  {
  }

  lemma ScheduleKeeps(def: WorkflowDef, i: Input, h: History, f: Frame)
    requires ScheduleFrame(f) && FrameOk(def, h, f)
    ensures Kept(def, h, ActSchedule(def, i, f))
  {
    OwedGrows(def, h, Later(h, ActSchedule(def, i, f)), f.step, f.then_);
  }

  lemma ScanKeeps(def: WorkflowDef, i: Input, h: History, f: Frame)
    requires ScanFrame(f) && FrameOk(def, h, f)
    ensures Kept(def, h, ActScan(i, f))
  {
  }

  lemma AdvanceKeeps(def: WorkflowDef, i: Input, h: History, f: Frame)
    requires AdvanceFrame(f) && FrameOk(def, h, f)
    ensures Kept(def, h, ActAdvance(def, i, f))
  {
  }

  lemma StartKeeps(def: WorkflowDef, i: Input, log: Log, cur: RunState, h: History, f: Frame)
    requires f.ExecuteTask? || f.StartTask?
    requires FrameOk(def, h, f) && cur.steps.Keys == h.known
    ensures Kept(def, h, ActTask(def, i, log, cur, f))
  {
  }

  lemma HandlerKeeps(def: WorkflowDef, i: Input, log: Log, cur: RunState, h: History, f: Frame)
    requires f.RunHandler? || f.TaskFailed?
    requires FrameOk(def, h, f) && cur.steps.Keys == h.known
    ensures Kept(def, h, ActTask(def, i, log, cur, f))
  {
  }

  lemma HandleKeeps(def: WorkflowDef, i: Input, log: Log, cur: RunState, h: History, f: Frame)
    requires f.HandleFailure?
    requires FrameOk(def, h, f) && cur.steps.Keys == h.known
    ensures Kept(def, h, ActTask(def, i, log, cur, f))
  {
  }

  lemma FailKeeps(def: WorkflowDef, i: Input, log: Log, cur: RunState, h: History, f: Frame)
    requires f.FailStep?
    requires FrameOk(def, h, f) && cur.steps.Keys == h.known
    ensures Kept(def, h, ActTask(def, i, log, cur, f))
  {
  }

  lemma FailingKeeps(def: WorkflowDef, i: Input, log: Log, cur: RunState, h: History, f: Frame)
    requires f.Reschedule? || f.MarkFailing?
    requires FrameOk(def, h, f) && cur.steps.Keys == h.known
    ensures Kept(def, h, ActTask(def, i, log, cur, f))
  {
  }

  lemma GrantKeeps(def: WorkflowDef, i: Input, log: Log, cur: RunState, h: History, f: Frame)
    requires f.Approve? || f.Grant?
    requires FrameOk(def, h, f) && cur.steps.Keys == h.known
    ensures Kept(def, h, ActHuman(def, i, log, cur, f))
  {
  }

  lemma AfterKeeps(def: WorkflowDef, i: Input, log: Log, cur: RunState, h: History, f: Frame)
    requires f.AfterGrant? || f.DispatchAfter?
    requires FrameOk(def, h, f) && cur.steps.Keys == h.known
    ensures Kept(def, h, ActHuman(def, i, log, cur, f))
  {
  }

  lemma RejectKeeps(def: WorkflowDef, i: Input, log: Log, cur: RunState, h: History, f: Frame)
    requires f.Reject?
    requires FrameOk(def, h, f) && cur.steps.Keys == h.known
    ensures Kept(def, h, ActHuman(def, i, log, cur, f))
  {
  }

  lemma RejectedKeeps(def: WorkflowDef, i: Input, log: Log, cur: RunState, h: History, f: Frame)
    requires f.AppendRejected? || f.FailRejected?
    requires FrameOk(def, h, f) && cur.steps.Keys == h.known
    ensures Kept(def, h, ActHuman(def, i, log, cur, f))
  {
  }

  lemma CancelKeeps(def: WorkflowDef, i: Input, log: Log, cur: RunState, h: History, f: Frame)
    requires f.Cancel? || f.AppendCancelled?
    requires FrameOk(def, h, f) && cur.steps.Keys == h.known
    ensures Kept(def, h, ActHuman(def, i, log, cur, f))
  {
  }

  lemma ActKeeps(def: WorkflowDef, i: Input, log: Log, cur: RunState, h: History, f: Frame)
    requires FrameOk(def, h, f) && cur.steps.Keys == h.known
    ensures Kept(def, h, Act(def, i, log, cur, f))
  {
    hide Kept, FrameOk, ActEntry, ActSla, ActSchedule, ActScan, ActAdvance, ActTask, ActHuman;
    if EntryFrame(f) { EntryKeeps(def, i, log, cur, h, f); }
    else if f.SlaLoop? { SlaKeeps(def, i, h, f); }
    else if ScheduleFrame(f) { ScheduleKeeps(def, i, h, f); }
    else if ScanFrame(f) { ScanKeeps(def, i, h, f); }
    else if AdvanceFrame(f) { AdvanceKeeps(def, i, h, f); }
    else if f.ExecuteTask? || f.StartTask? { StartKeeps(def, i, log, cur, h, f); }
    else if f.RunHandler? || f.TaskFailed? { HandlerKeeps(def, i, log, cur, h, f); }
    else if f.HandleFailure? { HandleKeeps(def, i, log, cur, h, f); }
    else if f.FailStep? { FailKeeps(def, i, log, cur, h, f); }
    else if TaskFrame(f) { FailingKeeps(def, i, log, cur, h, f); }
    else if f.Approve? || f.Grant? { GrantKeeps(def, i, log, cur, h, f); }
    else if f.AfterGrant? || f.DispatchAfter? { AfterKeeps(def, i, log, cur, h, f); }
    else if f.Cancel? || f.AppendCancelled? { CancelKeeps(def, i, log, cur, h, f); }
    else if f.Reject? { RejectKeeps(def, i, log, cur, h, f); }
    else { RejectedKeeps(def, i, log, cur, h, f); }
  }

  // ---- every interleaving ------------------------------------------------

  /** The invariant of the threads, their queue and their log. */
  ghost predicate SysOk(def: WorkflowDef, s: Sys) {
    && AllJustified(def, s.log)
    && (forall t :: t in s.threads ==> StackOk(def, Recall(s.log), s.threads[t]))
    && (forall x :: x in s.queue ==> x in Recall(s.log).known)
  }

  lemma JustifiedAppend(def: WorkflowDef, log: Log, e: Event)
    requires AllJustified(def, log) && Justified(def, Recall(log), e.body)
    ensures AllJustified(def, log + [e])
  {
    var l := log + [e];
    forall k | 0 <= k < |l| ensures Justified(def, Recall(l[..k]), l[k].body) {
      assert l[..k] == log[..k];
      assert log[..|log|] == log;
    }
  }

  lemma StackGrows(def: WorkflowDef, h: History, j: History, stack: seq<Frame>)
    requires StackOk(def, h, stack) && Grows(h, j)
    ensures StackOk(def, j, stack)
  {
    forall k | 0 <= k < |stack| ensures FrameOk(def, j, stack[k]) { FrameGrows(def, h, j, stack[k]); }
  }

  lemma ActionApplied(def: WorkflowDef, log: Log, a: Action)
    requires Kept(def, Recall(log), a) && AllJustified(def, log)
    ensures AllJustified(def, log + a.emit) && Recall(log + a.emit) == Later(Recall(log), a)
    ensures Grows(Recall(log), Recall(log + a.emit))
  {
    if a.emit == [] {
      assert log + a.emit == log;
    } else {
      assert a.emit == [a.emit[0]];
      RecallAppend(log, a.emit[0]);
      JustifiedAppend(def, log, a.emit[0]);
    }
  }

  lemma RunKeeps(def: WorkflowDef, s: Sys, t: nat, i: Input)
    requires SysOk(def, s) && Busy(s, t)
    ensures SysOk(def, RunThread(def, s, t, i))
  {
    hide FrameOk, Act, AllJustified, Recall, Replay;
    var h, f := Recall(s.log), Top(s, t);
    var a := Act(def, i, s.log, Replay(def, s.log), f);
    KnownIsReplayed(def, s.log);
    ActKeeps(def, i, s.log, Replay(def, s.log), h, f);
    ActionApplied(def, s.log, a);
    var j := Recall(s.log + a.emit);
    var s' := RunThread(def, s, t, i);
    forall u | u in s'.threads ensures StackOk(def, j, s'.threads[u]) {
      StackGrows(def, h, j, s.threads[u]);
    }
  }

  lemma SpawnKeeps(def: WorkflowDef, s: Sys, t: nat, op: Frame)
    requires SysOk(def, s) && s.log != [] && MayBegin(s.log, s.queue, op)
    ensures SysOk(def, s.(queue := TakeTask(s.queue, op), threads := s.threads[t := [op]]))
  {
    KnownIsReplayed(def, s.log);
    assert FrameOk(def, Recall(s.log), op);
  }

  lemma FailKeepsStack(def: WorkflowDef, s: Sys, t: nat)
    requires SysOk(def, s) && Busy(s, t)
    ensures SysOk(def, FailThread(s, t))
  {
    var f := Top(s, t);
    assert FrameOk(def, Recall(s.log), f);
  }

  lemma StepKeeps(def: WorkflowDef, s: Sys, m: Move)
    requires SysOk(def, s)
    ensures SysOk(def, Step(def, s, m))
  {
    match m {
      case Spawn(t, op) =>
        if !Busy(s, t) && s.log != [] && MayBegin(s.log, s.queue, op) { SpawnKeeps(def, s, t, op); }
      case Run(t, i) =>
        if Busy(s, t) { RunKeeps(def, s, t, i); }
      case Abort(t, i) =>
        if Step(def, s, m) != s { FailKeepsStack(def, s, t); }
      case CrashAll =>
    }
  }

  lemma {:induction false} AlwaysOk(def: WorkflowDef, ms: seq<Move>)
    ensures SysOk(def, StepAll(def, NEW_RUN, ms))
    decreases |ms|
  {
    if ms == [] {
      assert FrameOk(def, Recall([]), CreateEvent);
    } else {
      AlwaysOk(def, ms[..|ms| - 1]);
      StepKeeps(def, StepAll(def, NEW_RUN, ms[..|ms| - 1]), ms[|ms| - 1]);
    }
  }

  // ---- what it says about a log ------------------------------------------

  /** In every interleaving, a scheduled step is the initial one, the Next of a step completed earlier,
      the OnError of a step that failed the run earlier, the OnBreach of an SLA flagged earlier, or a
      retry of its own earlier failure. */
  lemma ScheduledHasCause(def: WorkflowDef, ms: seq<Move>, k: nat)
    requires k < |StepAll(def, NEW_RUN, ms).log| && StepAll(def, NEW_RUN, ms).log[k].body.StepScheduled?
    ensures var log := StepAll(def, NEW_RUN, ms).log;
            var s := log[k].body.step;
            && Lookup(def, s).Some?
            && (|| s == def.initial
                || (s != "" && exists j :: 0 <= j < k && log[j].body.StepCompleted?
                                           && SuccessorOf(def, log[j].body.step, true) == s)
                || (s != "" && exists j :: 0 <= j < k && log[j].body.RunFailing?
                                           && SuccessorOf(def, log[j].body.last, false) == s)
                || (s != "" && exists j, n :: 0 <= j < k && 0 <= n < |def.slas| && log[j].body.SlaBreached?
                                              && log[j].body.sla == def.slas[n].name && def.slas[n].onBreach == s)
                || (exists j :: 0 <= j < k && log[j].body.StepFailed? && log[j].body.step == s))
  {
    var log := StepAll(def, NEW_RUN, ms).log;
    var s, past := log[k].body.step, log[..k];
    AlwaysOk(def, ms);
    assert Justified(def, Recall(past), log[k].body);
    assert forall j :: 0 <= j < k ==> past[j] == log[j];
    RecallMeans(past, s);
    if s == def.initial || s in Recall(past).failed {
    } else if a :| a in Recall(past).completed && SuccessorOf(def, a, true) == s {
      RecallMeans(past, a);
    } else if a :| a in Recall(past).failing && SuccessorOf(def, a, false) == s {
      RecallMeans(past, a);
    } else {
      var n :| 0 <= n < |def.slas| && def.slas[n].name in Recall(past).flagged && def.slas[n].onBreach == s;
      RecallMeansToo(past, def.slas[n].name);
    }
  }

  /** A run is only completed after a step without a Next completed; it is only failed after a step
      without a successor finished, or after a rejection. */
  lemma EndingHasCause(def: WorkflowDef, ms: seq<Move>, k: nat)
    requires k < |StepAll(def, NEW_RUN, ms).log|
    ensures var log := StepAll(def, NEW_RUN, ms).log;
            log[k].body.RunCompleted? ==>
              SuccessorOf(def, log[k].body.last, true) == ""
              && exists j :: 0 <= j < k && log[j].body.StepCompleted? && log[j].body.step == log[k].body.last
    ensures var log := StepAll(def, NEW_RUN, ms).log;
            log[k].body.RunFailed? ==>
              || (SuccessorOf(def, log[k].body.last, true) == ""
                  && exists j :: 0 <= j < k && log[j].body.StepCompleted? && log[j].body.step == log[k].body.last)
              || (SuccessorOf(def, log[k].body.last, false) == ""
                  && exists j :: 0 <= j < k && log[j].body.RunFailing? && log[j].body.last == log[k].body.last)
              || (exists j :: 0 <= j < k && log[j].body.ApprovalRejected? && log[j].body.step == log[k].body.last)
  {
    var log := StepAll(def, NEW_RUN, ms).log;
    var past := log[..k];
    AlwaysOk(def, ms);
    assert Justified(def, Recall(past), log[k].body);
    assert forall j :: 0 <= j < k ==> past[j] == log[j];
    if log[k].body.RunCompleted? || log[k].body.RunFailed? {
      RecallMeans(past, log[k].body.last);
      RecallMeansToo(past, log[k].body.last);
    }
  }

  // ---- reachability in the definition ------------------------------------

  predicate Root(def: WorkflowDef, s: StepName) {
    s == def.initial || exists n :: 0 <= n < |def.slas| && def.slas[n].onBreach == s
  }

  /** A walk of the next/on_error graph from the initial step or an OnBreach target. */
  predicate Walk(def: WorkflowDef, p: seq<StepName>) {
    p != [] && Root(def, p[0]) && forall k :: 0 <= k < |p| - 1 ==> Edge(def, p[k], p[k + 1])
  }

  ghost predicate WalkTo(def: WorkflowDef, s: StepName) {
    exists p :: Walk(def, p) && p[|p| - 1] == s
  }

  lemma WalkOn(def: WorkflowDef, a: StepName, b: StepName)
    requires WalkTo(def, a) && Edge(def, a, b)
    ensures WalkTo(def, b)
  {
    var p :| Walk(def, p) && p[|p| - 1] == a;
    var q := p + [b];
    assert Walk(def, q) by {
      forall k | 0 <= k < |q| - 1 ensures Edge(def, q[k], q[k + 1]) {
        if k < |p| - 1 { assert Edge(def, p[k], p[k + 1]); }
      }
    }
    assert q[|q| - 1] == b;
  }

  lemma RootWalk(def: WorkflowDef, s: StepName)
    requires Root(def, s)
    ensures WalkTo(def, s)
  {
    assert Walk(def, [s]) && [s][|[s]| - 1] == s;
  }

  ghost predicate AllWalked(def: WorkflowDef, h: History) {
    && (forall s :: s in h.known ==> WalkTo(def, s) && (s == def.initial || Lookup(def, s).Some?))
    && h.completed <= h.known && h.failing <= h.known
  }

  lemma EntitledWalks(def: WorkflowDef, h: History, s: StepName)
    requires AllWalked(def, h) && Entitled(def, h, s)
    ensures WalkTo(def, s)
  {
    if Root(def, s) {
      RootWalk(def, s);
    } else if a :| a in h.completed && SuccessorOf(def, a, true) == s {
      WalkOn(def, a, s);
    } else {
      var a :| a in h.failing && SuccessorOf(def, a, false) == s;
      WalkOn(def, a, s);
    }
  }

  lemma {:induction false} JustifiedWalks(def: WorkflowDef, log: Log)
    requires AllJustified(def, log)
    ensures AllWalked(def, Recall(log))
    decreases |log|
  {
    if log != [] {
      var n := |log| - 1;
      var init, b := log[..n], log[n].body;
      forall k | 0 <= k < n ensures Justified(def, Recall(init[..k]), init[k].body) {
        assert init[..k] == log[..k];
      }
      JustifiedWalks(def, init);
      assert Justified(def, Recall(init), b);
      if StepOf(b).Some? && StepOf(b).value !in Recall(init).known {
        var s := StepOf(b).value;
        if s == def.initial { RootWalk(def, s); } else { EntitledWalks(def, Recall(init), s); }
      }
    }
  }

  /** Every step a replay knows is reachable in the graph from the initial step or an OnBreach target;
      with a declared initial step, it is declared. */
  lemma ReplayedStepIsReachable(def: WorkflowDef, ms: seq<Move>, s: StepName)
    requires s in Replay(def, StepAll(def, NEW_RUN, ms).log).steps
    ensures WalkTo(def, s)
    ensures Declared(def, def.initial) ==> Declared(def, s)
  {
    var log := StepAll(def, NEW_RUN, ms).log;
    AlwaysOk(def, ms);
    JustifiedWalks(def, log);
    KnownIsReplayed(def, log);
  }

  // ---- well-formed definitions do not go wrong ---------------------------

  /** The activation would find no step, no delay, no chain, or dereference a step state that is not there. */
  predicate Stuck(def: WorkflowDef, f: Frame) {
    match f
    case ScheduleStep(s, _) =>
      Lookup(def, s).None? || (KindOf(def, s) == Delay && Lookup(def, s).value.delay.None?)
      || (KindOf(def, s) == Approval && ChainOf(def, s) == [])
    case RequestFirst(s, _, _) => ChainOf(def, s) == []
    case StartTask(_, s) => Lookup(def, s).None?
    case HandleFailure(r, s, _, _) => s !in r.steps || Lookup(def, s).None?
    case FailStep(r, s, _) => s !in r.steps
    case AdvanceApproval(r, s) => s !in r.steps
    case Advance(r, s, _) => s !in r.steps
    case ScanSteps(r, todo) => !(todo <= r.steps.Keys)
    case ScanApprovals(r, todo) => !(todo <= r.steps.Keys)
    case ScanAfter(r, todo) => !(todo <= r.steps.Keys)
    case _ => false
  }

  lemma EntitledDeclared(def: WorkflowDef, h: History, s: StepName)
    requires WellFormed(def) && Entitled(def, h, s)
    ensures Declared(def, s)
  {
    if s != def.initial && !Breach(def, h, s) {
      if a :| a in h.completed && SuccessorOf(def, a, true) == s {
        DeclaredWellFormed(def, a);
      } else {
        var a :| a in h.failing && SuccessorOf(def, a, false) == s;
        DeclaredWellFormed(def, a);
      }
    }
  }

  lemma EntitledNotStuck(def: WorkflowDef, h: History, s: StepName, then_: After)
    requires WellFormed(def) && Entitled(def, h, s)
    ensures !Stuck(def, ScheduleStep(s, then_))
  {
    EntitledDeclared(def, h, s);
    DeclaredWellFormed(def, s);
  }

  lemma FrameNotStuck(def: WorkflowDef, h: History, f: Frame)
    requires WellFormed(def) && FrameOk(def, h, f)
    requires forall s :: s in h.known ==> Declared(def, s)
    ensures !Stuck(def, f)
  {
    if f.ScheduleStep? { EntitledNotStuck(def, h, f.step, f.then_); }
  }

  /** With a well-formed definition no activation of any thread ever gets stuck, in any interleaving. */
  lemma NothingGoesWrong(def: WorkflowDef, ms: seq<Move>, t: nat, k: nat)
    requires WellFormed(def)
    requires t in StepAll(def, NEW_RUN, ms).threads && k < |StepAll(def, NEW_RUN, ms).threads[t]|
    ensures !Stuck(def, StepAll(def, NEW_RUN, ms).threads[t][k])
  {
    var s := StepAll(def, NEW_RUN, ms);
    AlwaysOk(def, ms);
    JustifiedWalks(def, s.log);
    FrameNotStuck(def, Recall(s.log), s.threads[t][k]);
  }
}
