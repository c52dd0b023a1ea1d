/** Which steps the runs of a definition can come to, in every interleaving, crashes and failures included
    (engine/engine.go:180-244, 551-617; engine/sla.go:34-60): those on a trail from the initial step or an OnBreach
    target through steps that a worker, a timer or a first approver can end. `Walks` shows that they do come to them. */
module Trails {
  import opened Model
  import opened Replaying
  import opened Machine
  import opened Moves
  import opened ApprovalRace
  import Approvals
  import Provenance

  /** A run can go on from the step by its Next, or by its OnError. */
  predicate CanLeave(def: WorkflowDef, s: StepName, ok: bool) {
    Schedulable(def, s) &&
    match KindOf(def, s)
    case Task => true
    case Delay => ok
    case Approval => ok && !AsksNobody(def, s)
    case OtherKind(_) => false
  }

  predicate Hop(def: WorkflowDef, a: StepName, b: StepName) {
    b != "" && ((CanLeave(def, a, true) && SuccessorOf(def, a, true) == b)
                || (CanLeave(def, a, false) && SuccessorOf(def, a, false) == b))
  }

  predicate Target(def: WorkflowDef, s: StepName) {
    s != "" && exists n :: 0 <= n < |def.slas| && def.slas[n].onBreach == s
  }

  predicate Trail(def: WorkflowDef, p: seq<StepName>) {
    p != [] && (p[0] == def.initial || Target(def, p[0])) && forall k :: 0 <= k < |p| - 1 ==> Hop(def, p[k], p[k + 1])
  }

  /** Some trail ends at s. */
  ghost predicate Inside(def: WorkflowDef, s: StepName) {
    exists p :: Trail(def, p) && p[|p| - 1] == s
  }

  /** A run can come to s other than by beginning there. */
  ghost predicate Comes(def: WorkflowDef, s: StepName) {
    Target(def, s) || exists a :: Inside(def, a) && Hop(def, a, s)
  }

  lemma RootInside(def: WorkflowDef, s: StepName)
    requires s == def.initial || Target(def, s)
    ensures Inside(def, s)
  {
    assert Trail(def, [s]) && [s][|[s]| - 1] == s;
  }

  lemma HopInside(def: WorkflowDef, a: StepName, b: StepName)
    requires Inside(def, a) && Hop(def, a, b)
    ensures Inside(def, b)
  {
    var p :| Trail(def, p) && p[|p| - 1] == a;
    var q := p + [b];
    forall k | 0 <= k < |q| - 1 ensures Hop(def, q[k], q[k + 1]) {
      if k < |p| - 1 { assert Hop(def, p[k], p[k + 1]); }
    }
    assert Trail(def, q) && q[|q| - 1] == b;
  }

  /** The steps on trails are the initial one and those a run can come to. */
  lemma InsideIff(def: WorkflowDef, s: StepName)
    ensures Inside(def, s) <==> s == def.initial || Comes(def, s)
  {
    if s == def.initial || Target(def, s) {
      RootInside(def, s);
    } else if a :| Inside(def, a) && Hop(def, a, s) {
      HopInside(def, a, s);
    }
    if p :| Trail(def, p) && p[|p| - 1] == s {
      if |p| > 1 {
        var n := |p| - 1;
        assert Hop(def, p[n - 1], p[n]);
        assert Trail(def, p[..n]) && p[..n][|p[..n]| - 1] == p[n - 1];
      }
    }
  }

  // ---- which steps are ended -----------------------------------------------

  /** A kind of step that completes. */
  predicate Completes(def: WorkflowDef, s: StepName) {
    KindOf(def, s) == Approval || (Schedulable(def, s) && (KindOf(def, s) == Task || KindOf(def, s) == Delay))
  }

  predicate Fails(def: WorkflowDef, s: StepName) {
    KindOf(def, s) == Task && Declared(def, s)
  }

  predicate EventSorted(def: WorkflowDef, b: Body) {
    && (b.StepCompleted? ==> Completes(def, b.step))
    && (b.RunFailing? ==> Fails(def, b.last))
    && (b.ApprovalRequested? ==> KindOf(def, b.step) == Approval)
    && (b.StepScheduled? && b.due.Some? && KindOf(def, b.step) == Delay ==> Schedulable(def, b.step))
  }

  predicate StepSorted(def: WorkflowDef, s: StepName, st: StepState) {
    && st.kind == KindOf(def, s)
    && (st.approval.Some? ==> st.kind == Approval)
    && (st.due.Some? && st.kind == Delay ==> Schedulable(def, s))
  }

  predicate RunSorted(def: WorkflowDef, run: RunState) {
    forall s :: s in run.steps ==> StepSorted(def, s, run.steps[s])
  }

  predicate FrameSorted(def: WorkflowDef, f: Frame) {
    && (RunOf(f).Some? ==> RunSorted(def, RunOf(f).value))
    && match f
       case FireTimer(_, s) => KindOf(def, s) == Delay && Schedulable(def, s)
       case CompleteStep(_, s, _) => Completes(def, s)
       case RequestFirst(s, _, _) => KindOf(def, s) == Approval
       case ExecuteTask(s) => KindOf(def, s) == Task
       case StartTask(_, s) => KindOf(def, s) == Task
       case RunHandler(_, s, _) => Fails(def, s)
       case TaskFailed(_, s, _, _) => Fails(def, s)
       case HandleFailure(_, s, _, _) => Fails(def, s)
       case Reschedule(s, _) => Fails(def, s)
       case FailStep(_, s, _) => Fails(def, s)
       case MarkFailing(_, s, _) => Fails(def, s)
       case _ => true
  }

  predicate StackSorted(def: WorkflowDef, stack: seq<Frame>) {
    forall k :: 0 <= k < |stack| ==> FrameSorted(def, stack[k])
  }

  predicate ActSorted(def: WorkflowDef, a: Action) {
    && |a.emit| <= 1 && (a.emit != [] ==> EventSorted(def, a.emit[0].body))
    && (forall s :: s in a.submit ==> KindOf(def, s) == Task)
    && StackSorted(def, a.push)
  }

  lemma EntrySorted(def: WorkflowDef, i: Input, log: Log, cur: RunState, f: Frame)
    requires EntryFrame(f) && FrameSorted(def, f) && RunSorted(def, cur)
    ensures ActSorted(def, ActEntry(def, i, log, cur, f))
  {
    hide RunSorted;
  }

  lemma ScheduleSorted(def: WorkflowDef, i: Input, f: Frame)
    requires (ScheduleFrame(f) || f.SlaLoop?) && FrameSorted(def, f)
    ensures ActSorted(def, if f.SlaLoop? then ActSla(def, i, f) else ActSchedule(def, i, f))
  {
  }

  lemma ScanSorted(def: WorkflowDef, i: Input, f: Frame)
    requires ScanFrame(f) && FrameSorted(def, f)
    ensures ActSorted(def, ActScan(i, f))
  {
  }

  lemma AdvanceSorted(def: WorkflowDef, i: Input, f: Frame)
    requires AdvanceFrame(f) && FrameSorted(def, f)
    ensures ActSorted(def, ActAdvance(def, i, f))
  {
  }

  lemma TaskSorted(def: WorkflowDef, i: Input, log: Log, cur: RunState, f: Frame)
    requires TaskFrame(f) && FrameSorted(def, f) && RunSorted(def, cur)
    ensures ActSorted(def, ActTask(def, i, log, cur, f))
  {
    hide RunSorted;
  }

  lemma ApproveSorted(def: WorkflowDef, i: Input, log: Log, cur: RunState, f: Frame)
    requires (f.Approve? || f.Grant? || f.AfterGrant? || f.DispatchAfter?) && FrameSorted(def, f) && RunSorted(def, cur)
    ensures ActSorted(def, ActHuman(def, i, log, cur, f))
  {
    hide RunSorted, MayDecide;
  }

  lemma RejectSorted(def: WorkflowDef, i: Input, log: Log, cur: RunState, f: Frame)
    requires f.Reject? || f.AppendRejected? || f.FailRejected? || f.Cancel? || f.AppendCancelled?
    ensures ActSorted(def, ActHuman(def, i, log, cur, f))
  {
    hide RunSorted, MayDecide;
  }

  lemma AllSorted(def: WorkflowDef, i: Input, log: Log, cur: RunState, f: Frame)
    requires FrameSorted(def, f) && RunSorted(def, cur)
    ensures ActSorted(def, Act(def, i, log, cur, f))
  {
    hide FrameSorted, RunSorted, ActSorted, ActEntry, ActSla, ActSchedule, ActScan, ActAdvance, ActTask, ActHuman;
    if EntryFrame(f) { EntrySorted(def, i, log, cur, f); }
    else if f.SlaLoop? || ScheduleFrame(f) { ScheduleSorted(def, i, f); }
    else if ScanFrame(f) { ScanSorted(def, i, f); }
    else if AdvanceFrame(f) { AdvanceSorted(def, i, f); }
    else if TaskFrame(f) { TaskSorted(def, i, log, cur, f); }
    else if f.Approve? || f.Grant? || f.AfterGrant? || f.DispatchAfter? { ApproveSorted(def, i, log, cur, f); }
    else { RejectSorted(def, i, log, cur, f); }
  }

  ghost predicate LogSorted(def: WorkflowDef, log: Log) {
    RunSorted(def, Replay(def, log)) && forall k :: 0 <= k < |log| ==> EventSorted(def, log[k].body)
  }

  ghost predicate SysSorted(def: WorkflowDef, sys: Sys) {
    && LogSorted(def, sys.log)
    && (forall t :: t in sys.threads ==> StackSorted(def, sys.threads[t]))
    && (forall s :: s in sys.queue ==> KindOf(def, s) == Task)
  }

  lemma StepStaysSorted(def: WorkflowDef, s: StepName, prev: Option<StepState>, b: Body)
    requires (prev.Some? ==> StepSorted(def, s, prev.value)) && EventSorted(def, b) && StepOf(b) == Some(s)
    ensures StepSorted(def, s, ApplyStep(def, s, prev, b))
  {
    hide Schedulable;
  }

  lemma AppendSorted(def: WorkflowDef, log: Log, e: Event)
    requires LogSorted(def, log) && EventSorted(def, e.body)
    ensures LogSorted(def, log + [e])
  {
    hide EventSorted, StepSorted, ApplyStep;
    ReplayAppend(def, log, e);
    if StepOf(e.body).Some? {
      var s := StepOf(e.body).value;
      StepStaysSorted(def, s, Get(Replay(def, log).steps, s), e.body);
    }
  }

  lemma RunSorts(def: WorkflowDef, sys: Sys, t: nat, i: Input)
    requires SysSorted(def, sys) && Busy(sys, t)
    ensures SysSorted(def, RunThread(def, sys, t, i))
  {
    hide RunSorted, FrameSorted, EventSorted, Act, Replay;
    var a := Act(def, i, sys.log, Replay(def, sys.log), Top(sys, t));
    AllSorted(def, i, sys.log, Replay(def, sys.log), Top(sys, t));
    hide LogSorted;
    if a.emit == [] {
      assert sys.log + a.emit == sys.log;
    } else {
      assert a.emit == [a.emit[0]];
      AppendSorted(def, sys.log, a.emit[0]);
    }
  }

  lemma StepSorts(def: WorkflowDef, sys: Sys, m: Move)
    requires SysSorted(def, sys)
    ensures SysSorted(def, Step(def, sys, m))
  {
    hide LogSorted, RunSorted, Act, Replay;
    match m {
      case Spawn(t, op) =>
        if !Busy(sys, t) && sys.log != [] && MayBegin(sys.log, sys.queue, op) { assert FrameSorted(def, op); }
      case Run(t, i) => if Busy(sys, t) { RunSorts(def, sys, t, i); }
      case Abort(t, i) => if Busy(sys, t) { assert FrameSorted(def, Top(sys, t)); }
      case CrashAll =>
    }
  }

  lemma {:induction false} AlwaysSorted(def: WorkflowDef, ms: seq<Move>)
    ensures SysSorted(def, StepAll(def, NEW_RUN, ms))
    decreases |ms|
  {
    hide Step, FrameSorted;
    if ms == [] {
      NothingSorted(def);
    } else {
      AlwaysSorted(def, ms[..|ms| - 1]);
      StepSorts(def, StepAll(def, NEW_RUN, ms[..|ms| - 1]), ms[|ms| - 1]);
    }
  }

  lemma NothingSorted(def: WorkflowDef)
    ensures SysSorted(def, NEW_RUN)
  {
    assert FrameSorted(def, CreateEvent);
  }

  // ---- only along trails ---------------------------------------------------

  /** Every step this log shows completed, or failing the run, can be left so. */
  ghost predicate Leaves(def: WorkflowDef, log: Log) {
    forall k :: 0 <= k < |log| ==>
      && (log[k].body.StepCompleted? ==> CanLeave(def, log[k].body.step, true))
      && (log[k].body.RunFailing? ==> CanLeave(def, log[k].body.last, false))
  }

  /** An approval of which nobody is asked first is never completed. */
  lemma NobodyCompletes(def: WorkflowDef, s: StepName, ms: seq<Move>, k: nat)
    requires KindOf(def, s) == Approval && AsksNobody(def, s) && k < |StepAll(def, NEW_RUN, ms).log|
    ensures StepAll(def, NEW_RUN, ms).log[k].body.StepCompleted? ==> StepAll(def, NEW_RUN, ms).log[k].body.step != s
  {
    var log := StepAll(def, NEW_RUN, ms).log;
    OnlyFirst(def, s, ms);
    Approvals.AlwaysOk(def, s, ms);
    if ChainOf(def, s) != [] { NobodyGrants(def, s, log[..k]); }
  }

  lemma AlwaysLeaves(def: WorkflowDef, ms: seq<Move>)
    ensures Leaves(def, StepAll(def, NEW_RUN, ms).log)
  {
    var log := StepAll(def, NEW_RUN, ms).log;
    AlwaysSorted(def, ms);
    forall k | 0 <= k < |log|
      ensures log[k].body.StepCompleted? ==> CanLeave(def, log[k].body.step, true)
      ensures log[k].body.RunFailing? ==> CanLeave(def, log[k].body.last, false)
    {
      assert EventSorted(def, log[k].body);
      if log[k].body.StepCompleted? && KindOf(def, log[k].body.step) == Approval
         && AsksNobody(def, log[k].body.step)
      {
        NobodyCompletes(def, log[k].body.step, ms, k);
      }
    }
  }

  ghost predicate AllInside(def: WorkflowDef, h: Provenance.History) {
    && (forall s :: s in h.known ==> Inside(def, s))
    && (forall s :: s in h.completed ==> s in h.known && CanLeave(def, s, true))
    && (forall s :: s in h.failing ==> s in h.known && CanLeave(def, s, false))
  }

  lemma CalledComes(def: WorkflowDef, h: Provenance.History, s: StepName)
    requires AllInside(def, h) && Provenance.Called(def, h, s)
    ensures Comes(def, s)
  {
    hide Inside, CanLeave;
    if a :| a in h.completed && SuccessorOf(def, a, true) == s && s != "" {
      assert Hop(def, a, s);
    } else if a :| a in h.failing && SuccessorOf(def, a, false) == s && s != "" {
      assert Hop(def, a, s);
    }
  }

  lemma {:induction false} LogInside(def: WorkflowDef, log: Log)
    requires Provenance.AllJustified(def, log) && Leaves(def, log)
    ensures AllInside(def, Provenance.Recall(log))
    decreases |log|
  {
    hide Inside, CanLeave;
    if log != [] {
      var n := |log| - 1;
      Shorter(def, log);
      LogInside(def, log[..n]);
      Remembered(def, Provenance.Recall(log[..n]), log[n].body);
    }
  }

  lemma Shorter(def: WorkflowDef, log: Log)
    requires log != [] && Provenance.AllJustified(def, log) && Leaves(def, log)
    ensures var init := log[..|log| - 1]; Provenance.AllJustified(def, init) && Leaves(def, init)
    ensures Provenance.Justified(def, Provenance.Recall(log[..|log| - 1]), log[|log| - 1].body)
  {
    hide CanLeave, Provenance.Justified, Provenance.Recall;
    var n := |log| - 1;
    forall k | 0 <= k < n ensures log[..n][..k] == log[..k] && log[..n][k] == log[k] { }
  }

  lemma Remembered(def: WorkflowDef, h: Provenance.History, b: Body)
    requires AllInside(def, h) && Provenance.Justified(def, h, b)
    requires b.StepCompleted? ==> CanLeave(def, b.step, true)
    requires b.RunFailing? ==> CanLeave(def, b.last, false)
    ensures AllInside(def, Provenance.Remember(h, b))
  {
    hide Inside, CanLeave;
    if StepOf(b).Some? && StepOf(b).value !in h.known { NewInside(def, h, StepOf(b).value); }
  }

  lemma NewInside(def: WorkflowDef, h: Provenance.History, s: StepName)
    requires AllInside(def, h) && Provenance.Entitled(def, h, s)
    ensures Inside(def, s)
  {
    if s != def.initial { CalledComes(def, h, s); }
    InsideIff(def, s);
  }

  /** In every interleaving, the steps a replay knows lie on trails, and what is called comes by a trail. */
  lemma AlwaysInside(def: WorkflowDef, ms: seq<Move>)
    ensures AllInside(def, Provenance.Recall(StepAll(def, NEW_RUN, ms).log))
  {
    Provenance.AlwaysOk(def, ms);
    AlwaysLeaves(def, ms);
    LogInside(def, StepAll(def, NEW_RUN, ms).log);
  }

  // ---- asked at most once --------------------------------------------------

  ghost predicate Opened(log: Log, s: StepName) {
    exists k :: 0 <= k < |log| && Opens(log[k].body, s)
  }

  /** The log asks for the approval of s twice. */
  ghost predicate Twice(log: Log, s: StepName) {
    exists j, k :: 0 <= j < k < |log| && Opens(log[j].body, s) && Opens(log[k].body, s)
  }

  /** An activation of CreateTicket before it has asked for the approval of the initial step. */
  predicate Creating(f: Frame) {
    f.CreateEvent? || f.CreateStart?
    || (f.ScheduleStep? && f.then_ == ThenAssign) || (f.RequestFirst? && f.then_ == ThenAssign)
  }

  /** Only the thread of CreateTicket creates, before s was asked; and s was not asked twice. */
  ghost predicate Once(s: StepName, sys: Sys) {
    && !Twice(sys.log, s)
    && forall t, k :: t in sys.threads && 0 <= k < |sys.threads[t]| && Creating(sys.threads[t][k]) ==>
         t == 0 && |sys.threads[t]| == 1 && !Opened(sys.log, s)
  }

  /** Only the request of s itself asks; creation goes on one frame at a time. */
  predicate Modest(s: StepName, f: Frame, a: Action) {
    && |a.emit| <= 1
    && (a.emit != [] && Opens(a.emit[0].body, s) ==> f.RequestFirst? && f.step == s)
    && (forall k :: 0 <= k < |a.push| && Creating(a.push[k]) ==> Creating(f) && !f.RequestFirst? && |a.push| == 1)
  }

  lemma EntryModest(def: WorkflowDef, i: Input, log: Log, cur: RunState, s: StepName, f: Frame)
    requires EntryFrame(f)
    ensures Modest(s, f, ActEntry(def, i, log, cur, f))
  {
  }

  lemma ScheduleModest(def: WorkflowDef, i: Input, s: StepName, f: Frame)
    requires ScheduleFrame(f) || f.SlaLoop?
    ensures Modest(s, f, if f.SlaLoop? then ActSla(def, i, f) else ActSchedule(def, i, f))
  {
  }

  lemma ScanModest(def: WorkflowDef, i: Input, s: StepName, f: Frame)
    requires ScanFrame(f) || AdvanceFrame(f)
    ensures Modest(s, f, if ScanFrame(f) then ActScan(i, f) else ActAdvance(def, i, f))
  {
  }

  lemma TaskModest(def: WorkflowDef, i: Input, log: Log, cur: RunState, s: StepName, f: Frame)
    requires TaskFrame(f)
    ensures Modest(s, f, ActTask(def, i, log, cur, f))
  {
  }

  lemma HumanModest(def: WorkflowDef, i: Input, log: Log, cur: RunState, s: StepName, f: Frame)
    requires HumanFrame(f)
    ensures Modest(s, f, ActHuman(def, i, log, cur, f))
  {
  }

  lemma ActModest(def: WorkflowDef, i: Input, log: Log, cur: RunState, s: StepName, f: Frame)
    ensures Modest(s, f, Act(def, i, log, cur, f))
  {
    hide Modest, ActEntry, ActSla, ActSchedule, ActScan, ActAdvance, ActTask, ActHuman;
    if EntryFrame(f) { EntryModest(def, i, log, cur, s, f); }
    else if f.SlaLoop? || ScheduleFrame(f) { ScheduleModest(def, i, s, f); }
    else if ScanFrame(f) || AdvanceFrame(f) { ScanModest(def, i, s, f); }
    else if TaskFrame(f) { TaskModest(def, i, log, cur, s, f); }
    else { HumanModest(def, i, log, cur, s, f); }
  }

  lemma OpenedAppend(log: Log, e: Event, s: StepName)
    ensures Opened(log + [e], s) <==> Opened(log, s) || Opens(e.body, s)
    ensures Twice(log + [e], s) <==> Twice(log, s) || (Opened(log, s) && Opens(e.body, s))
  {
    var l, n := log + [e], |log|;
    assert l[n] == e && forall k :: 0 <= k < n ==> l[k] == log[k];
    if Opened(log, s) {
      var k :| 0 <= k < n && Opens(log[k].body, s);
      assert Opens(l[k].body, s);
      if Opens(e.body, s) { assert Opens(l[n].body, s); }
    }
    if Twice(log, s) {
      var j, k :| 0 <= j < k < n && Opens(log[j].body, s) && Opens(log[k].body, s);
      assert Opens(l[j].body, s) && Opens(l[k].body, s);
    }
    if Twice(l, s) {
      var j, k :| 0 <= j < k < |l| && Opens(l[j].body, s) && Opens(l[k].body, s);
      assert Opens(log[j].body, s);
      if k < n { assert Opens(log[k].body, s); }
    }
  }

  lemma RunOnce(def: WorkflowDef, s: StepName, sys: Sys, t: nat, i: Input)
    requires Once(s, sys) && Busy(sys, t)
    requires Top(sys, t).RequestFirst? && Top(sys, t).step == s ==> Top(sys, t).then_ == ThenAssign
    ensures Once(s, RunThread(def, sys, t, i))
  {
    var f, sys' := Top(sys, t), RunThread(def, sys, t, i);
    var a := Act(def, i, sys.log, Replay(def, sys.log), f);
    ActModest(def, i, sys.log, Replay(def, sys.log), s, f);
    hide Act, Replay, Opened, Twice, Opens;
    assert Creating(f) ==> t == 0 && |sys.threads[t]| == 1 && !Opened(sys.log, s);
    assert forall g :: g in sys.threads[t][1..] ==> !Creating(g);
    if a.emit == [] {
      assert sys'.log == sys.log;
    } else {
      assert sys'.log == sys.log + [a.emit[0]];
      OpenedAppend(sys.log, a.emit[0], s);
    }
    forall u, k | u in sys'.threads && 0 <= k < |sys'.threads[u]| && Creating(sys'.threads[u][k])
      ensures u == 0 && |sys'.threads[u]| == 1 && !Opened(sys'.log, s)
    {
    }
  }

  lemma StepOnce(def: WorkflowDef, s: StepName, sys: Sys, m: Move)
    requires Once(s, sys) && Provenance.SysOk(def, sys) && !Comes(def, s)
    requires AllInside(def, Provenance.Recall(sys.log))
    ensures Once(s, Step(def, sys, m))
  {
    hide Act, Replay, MayFail, Twice, Opened, Provenance.SysOk, AllInside, Comes;
    match m {
      case Run(t, i) =>
        if Busy(sys, t) {
          AsksAtCreation(def, s, sys, t);
          RunOnce(def, s, sys, t, i);
        }
      case Spawn(_, _) =>
      case Abort(_, _) =>
      case CrashAll =>
    }
  }

  lemma AsksAtCreation(def: WorkflowDef, s: StepName, sys: Sys, t: nat)
    requires Provenance.SysOk(def, sys) && !Comes(def, s) && AllInside(def, Provenance.Recall(sys.log)) && Busy(sys, t)
    ensures Top(sys, t).RequestFirst? && Top(sys, t).step == s ==> Top(sys, t).then_ == ThenAssign
  {
    hide Comes;
    var h, f := Provenance.Recall(sys.log), Top(sys, t);
    assert Provenance.FrameOk(def, h, f);
    if f.RequestFirst? && f.step == s && f.then_ == ThenDispatch { CalledComes(def, h, s); }
  }

  /** A step that no trail comes to is asked for approval at most once. */
  lemma {:induction false} AskedOnce(def: WorkflowDef, s: StepName, ms: seq<Move>)
    requires !Comes(def, s)
    ensures Once(s, StepAll(def, NEW_RUN, ms))
    decreases |ms|
  {
    hide Step, Comes;
    if ms != [] {
      var init := ms[..|ms| - 1];
      AskedOnce(def, s, init);
      Provenance.AlwaysOk(def, init);
      AlwaysInside(def, init);
      StepOnce(def, s, StepAll(def, NEW_RUN, init), ms[|ms| - 1]);
    }
  }
}
