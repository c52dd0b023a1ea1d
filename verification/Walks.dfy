/** Runs along the trails of a definition, on a clock that never goes back: every step on a trail is come to, and a step
    that is come to other than by beginning there is come to by two threads at once. */
module Walks {
  import opened Model
  import opened Replaying
  import opened Machine
  import opened Moves
  import opened Threads
  import opened ApprovalRace
  import opened Authority
  import opened Trails
  import Idempotence
  import Reaching

  // ---- running runs ----------------------------------------------------------

  predicate Running(def: WorkflowDef, log: Log) {
    log != [] && Replay(def, log).status == RActive
  }

  /** The event does not end the run. */
  predicate Mild(b: Body) {
    !b.RunCompleted? && !b.RunFailed? && !b.RunCancelled?
  }

  lemma StillRunning(def: WorkflowDef, log: Log, e: Event)
    requires Running(def, log) && Mild(e.body)
    ensures Running(def, log + [e])
  {
    ReplayAppend(def, log, e);
  }

  lemma {:induction false} RunningThrough(def: WorkflowDef, log: Log, more: Log)
    requires Running(def, log) && forall k :: 0 <= k < |more| ==> Mild(more[k].body)
    ensures Running(def, log + more)
    decreases |more|
  {
    hide Running;
    if more == [] {
      assert log + more == log;
    } else {
      var init := more[..|more| - 1];
      RunningThrough(def, log, init);
      StillRunning(def, log + init, more[|more| - 1]);
      assert log + more == log + init + [more[|more| - 1]];
    }
  }

  /** Thread t is about to schedule s. */
  predicate Before(m: Moment, t: nat, s: StepName) {
    var stack := StackAt(m.sys, t);
    stack != [] && stack[0].ScheduleStep? && stack[0].step == s
  }

  lemma TopFrame(m: Moment, t: nat, s: StepName) returns (then_: After, rest: seq<Frame>)
    requires Before(m, t, s)
    ensures StackAt(m.sys, t) == [ScheduleStep(s, then_)] + rest
  {
    var stack := StackAt(m.sys, t);
    then_, rest := stack[0].then_, stack[1..];
    assert stack == [stack[0]] + stack[1..];
  }

  /** A thread that has nothing to do. */
  lemma Idle(m: Moment) returns (t: nat)
    ensures StackAt(m.sys, t) == []
  {
    t := Unused(m.sys.threads.Keys);
  }

  // ---- what a thread does at its step ----------------------------------------

  /** A task or a delay is scheduled. */
  lemma Scheduled(def: WorkflowDef, m: Moment, t: nat, s: StepName) returns (m': Moment)
    requires Before(m, t, s) && Running(def, m.sys.log) && Schedulable(def, s) && KindOf(def, s) != Approval
    ensures Worked(def, m, m', t) && m'.now == m.now && m'.sys.queue == m.sys.queue
    ensures m'.sys.log == m.sys.log + [Event(m.now, ScheduledBody(def, s, m.now))] && Running(def, m'.sys.log)
  {
    hide At, Worked, Running, Schedulable;
    var then_, rest := TopFrame(m, t, s);
    var l, q, c0 := m.sys.log, m.sys.queue, ConfigOf(m.sys, t);
    var e := Event(m.now, ScheduledBody(def, s, m.now));
    StillRunning(def, l, e);
    AtStart(def, m.now, l, q, [ScheduleStep(s, then_)] + rest);
    OnScheduleStep(def, m.now, c0, l, q, s, then_, rest);
    OnEmitScheduled(def, m.now, c0, l, q, s, m.now, then_, rest);
    m' := CameTo(def, m, t, l + [e], q, [AfterFrame(then_)] + rest);
  }

  /** An approval is asked for. */
  lemma AsksFor(def: WorkflowDef, m: Moment, t: nat, s: StepName) returns (m': Moment)
    requires Before(m, t, s) && Running(def, m.sys.log) && Schedulable(def, s) && KindOf(def, s) == Approval
    ensures Worked(def, m, m', t) && m'.now == m.now && m'.sys.queue == m.sys.queue && ChainOf(def, s) != []
    ensures m'.sys.log == m.sys.log + [Event(m.now, FirstRequest(def, s))] && Running(def, m'.sys.log)
    ensures LinkIs(def, Replay(def, m'.sys.log), s, 0, LinkPending)
  {
    var then_, rest := TopFrame(m, t, s);
    assert ChainOf(def, s) != [];
    var l, q, c0 := m.sys.log, m.sys.queue, ConfigOf(m.sys, t);
    var e := Event(m.now, FirstRequest(def, s));
    StillRunning(def, l, e);
    RequestApplies(def, l, s, 0, e);
    hide At, Worked, Running, Schedulable, LinkIs, Replay;
    AtStart(def, m.now, l, q, [ScheduleStep(s, then_)] + rest);
    OnScheduleStep(def, m.now, c0, l, q, s, then_, rest);
    OnRequestFirst(def, m.now, c0, l, q, s, m.now, then_, rest);
    m' := CameTo(def, m, t, l + [e], q, [EmitScheduled(s, m.now, then_)] + rest);
  }

  /** A sweep by a new thread, whose SLA check fails to load, comes to the loop over the steps. */
  lemma Sweeps(def: WorkflowDef, m: Moment, t: nat) returns (m': Moment, rest: seq<Frame>)
    requires Running(def, m.sys.log) && StackAt(m.sys, t) == []
    ensures Worked(def, m, m', t) && Sighted(m, m') && m'.now == m.now
    ensures var run := Replay(def, m.sys.log);
            Stands(m', t, m.sys.log, m.sys.queue, [ScanSteps(run, run.steps.Keys)] + rest)
  {
    var l, q, run := m.sys.log, m.sys.queue, Replay(def, m.sys.log);
    assert !Terminal(run.status);
    hide At, Worked, Running, Replay, Terminal;
    var m1 := Spawned(def, m, t, Refresh);
    rest := [ScanApprovals(run, run.steps.Keys)] + [];
    var below := [ScanSteps(run, run.steps.Keys)] + rest;
    AtStart(def, m.now, l, q, [Refresh] + []);
    OnRefresh(def, m.now, ConfigOf(m1.sys, t), l, q, []);
    OnDispatch(def, m.now, ConfigOf(m1.sys, t), l, q, run, []);
    var m2 := CameTo(def, m1, t, l, q, [CheckSla(run)] + below);
    m' := Dropped(def, m2, t, CheckSla(run), below);
    WorkedOn(def, m, m1, m2, t);
    WorkedOn(def, m, m2, m', t);
  }

  /** The frame will go on to b, whatever the log. */
  predicate Poised(def: WorkflowDef, f: Frame, b: StepName) {
    b != "" &&
    match f
    case FireTimer(_, a) => SuccessorOf(def, a, true) == b
    case StartTask(run, a) =>
      Declared(def, a) && a in run.steps && (SuccessorOf(def, a, true) == b || SuccessorOf(def, a, false) == b)
    case AdvanceApproval(run, a) =>
      ChainOf(def, a) != [] && LinkIs(def, run, a, |ChainOf(def, a)| - 1, LinkGranted) && SuccessorOf(def, a, true) == b
    case _ => false
  }

  lemma TimerGoes(def: WorkflowDef, m: Moment, t: nat, run: RunState, a: StepName, rest: seq<Frame>)
    returns (m': Moment)
    requires StackAt(m.sys, t) == [FireTimer(run, a)] + rest && Running(def, m.sys.log)
    requires SuccessorOf(def, a, true) != ""
    ensures Worked(def, m, m', t) && m'.now == m.now && Before(m', t, SuccessorOf(def, a, true))
    ensures m.sys.log <= m'.sys.log && Running(def, m'.sys.log)
  {
    hide At, Worked, Running, SuccessorOf;
    var l, q, c0 := m.sys.log, m.sys.queue, ConfigOf(m.sys, t);
    var e, f := Event(m.now, TimerFired(a)), Event(m.now, StepCompleted(a, map[]));
    StillRunning(def, l, e);
    StillRunning(def, l + [e], f);
    AtStart(def, m.now, l, q, [FireTimer(run, a)] + rest);
    OnFireTimer(def, m.now, c0, l, q, run, a, rest);
    OnCompleteStep(def, m.now, c0, l + [e], q, run, a, map[], rest);
    OnAdvance(def, m.now, c0, l + [e] + [f], q, run, a, true, rest);
    m' := CameTo(def, m, t, l + [e] + [f], q, [ScheduleStep(SuccessorOf(def, a, true), ThenDispatch)] + rest);
  }

  lemma ApprovalGoes(def: WorkflowDef, m: Moment, t: nat, run: RunState, a: StepName, rest: seq<Frame>)
    returns (m': Moment)
    requires StackAt(m.sys, t) == [AdvanceApproval(run, a)] + rest && Running(def, m.sys.log)
    requires ChainOf(def, a) != [] && LinkIs(def, run, a, |ChainOf(def, a)| - 1, LinkGranted)
    requires SuccessorOf(def, a, true) != ""
    ensures Worked(def, m, m', t) && m'.now == m.now && Before(m', t, SuccessorOf(def, a, true))
    ensures m.sys.log <= m'.sys.log && Running(def, m'.sys.log)
  {
    hide At, Worked, Running, SuccessorOf, LinkIs;
    var l, q, f := m.sys.log, m.sys.queue, Event(m.now, StepCompleted(a, map[]));
    StillRunning(def, l, f);
    var m1 := Completed(def, m, t, run, a, |ChainOf(def, a)| - 1, rest);
    AtStart(def, m.now, l + [f], q, [Advance(run, a, true)] + rest);
    OnAdvance(def, m.now, ConfigOf(m1.sys, t), l + [f], q, run, a, true, rest);
    m' := CameTo(def, m1, t, l + [f], q, [ScheduleStep(SuccessorOf(def, a, true), ThenDispatch)] + rest);
    WorkedOn(def, m, m1, m', t);
  }

  /** A worker's handler succeeds. */
  lemma TaskSucceeds(def: WorkflowDef, m: Moment, t: nat, run: RunState, a: StepName, rest: seq<Frame>)
    returns (m': Moment)
    requires StackAt(m.sys, t) == [StartTask(run, a)] + rest && Running(def, m.sys.log) && Declared(def, a)
    requires SuccessorOf(def, a, true) != ""
    ensures Worked(def, m, m', t) && m'.now == m.now && Before(m', t, SuccessorOf(def, a, true))
    ensures m.sys.log <= m'.sys.log && Running(def, m'.sys.log)
  {
    hide At, Worked, Running, SuccessorOf;
    var l, q, c0, o := m.sys.log, m.sys.queue, ConfigOf(m.sys, t), Succeeds(map[]);
    var e, f := Event(m.now, StepStarted(a)), Event(m.now, StepCompleted(a, map[]));
    StillRunning(def, l, e);
    StillRunning(def, l + [e], f);
    AtStart(def, m.now, l, q, [StartTask(run, a)] + rest);
    OnStartTask(def, m.now, o, c0, l, q, run, a, rest);
    OnRunHandler(def, m.now, o, c0, l + [e], q, run, a, |l|, rest);
    OnCompleteStep(def, m.now, c0, l + [e], q, run, a, map[], rest);
    OnAdvance(def, m.now, c0, l + [e] + [f], q, run, a, true, rest);
    m' := CameTo(def, m, t, l + [e] + [f], q, [ScheduleStep(SuccessorOf(def, a, true), ThenDispatch)] + rest);
  }

  /** A worker has no handler for the task. */
  lemma TaskFails(def: WorkflowDef, m: Moment, t: nat, run: RunState, a: StepName, rest: seq<Frame>)
    returns (m': Moment)
    requires StackAt(m.sys, t) == [StartTask(run, a)] + rest && Running(def, m.sys.log) && Declared(def, a)
    requires a in run.steps && SuccessorOf(def, a, false) != ""
    ensures Worked(def, m, m', t) && m'.now == m.now && Before(m', t, SuccessorOf(def, a, false))
    ensures m.sys.log <= m'.sys.log && Running(def, m'.sys.log)
  {
    hide At, Worked, Running, SuccessorOf;
    var l, q, c0, why := m.sys.log, m.sys.queue, ConfigOf(m.sys, t), NoHandlerFor(Lookup(def, a).value.task);
    var e, f := Event(m.now, StepFailed(a, why, run.steps[a].attempt)), Event(m.now, RunFailing(a, why));
    StillRunning(def, l, e);
    StillRunning(def, l + [e], f);
    AtStart(def, m.now, l, q, [StartTask(run, a)] + rest);
    OnStartTask(def, m.now, NoHandler, c0, l, q, run, a, rest);
    OnFailStep(def, m.now, c0, l, q, run, a, why, rest);
    OnMarkFailing(def, m.now, c0, l + [e], q, run, a, why, rest);
    OnAdvance(def, m.now, c0, l + [e] + [f], q, run, a, false, rest);
    m' := CameTo(def, m, t, l + [e] + [f], q, [ScheduleStep(SuccessorOf(def, a, false), ThenDispatch)] + rest);
  }

  lemma PoisedGoes(def: WorkflowDef, m: Moment, t: nat, f: Frame, rest: seq<Frame>, b: StepName) returns (m': Moment)
    requires StackAt(m.sys, t) == [f] + rest && Poised(def, f, b) && Running(def, m.sys.log)
    ensures Worked(def, m, m', t) && m'.now == m.now && Before(m', t, b)
    ensures m.sys.log <= m'.sys.log && Running(def, m'.sys.log)
  {
    hide Worked, Running, SuccessorOf, LinkIs, Before;
    if f.FireTimer? {
      m' := TimerGoes(def, m, t, f.run, f.step, rest);
    } else if f.AdvanceApproval? {
      m' := ApprovalGoes(def, m, t, f.run, f.step, rest);
    } else if SuccessorOf(def, f.step, true) == b {
      m' := TaskSucceeds(def, m, t, f.run, f.step, rest);
    } else {
      m' := TaskFails(def, m, t, f.run, f.step, rest);
    }
  }

  // ---- two threads ready to go on --------------------------------------------

  predicate Ready(def: WorkflowDef, m: Moment, t: nat, b: StepName) {
    StackAt(m.sys, t) != [] && Poised(def, StackAt(m.sys, t)[0], b)
  }

  lemma ReadyGoes(def: WorkflowDef, m: Moment, t: nat, b: StepName) returns (m': Moment)
    requires Ready(def, m, t, b) && Running(def, m.sys.log)
    ensures Worked(def, m, m', t) && Before(m', t, b) && m.sys.log <= m'.sys.log && Running(def, m'.sys.log)
  {
    hide Worked, Running, Poised, Before;
    var stack := StackAt(m.sys, t);
    assert stack == [stack[0]] + stack[1..];
    m' := PoisedGoes(def, m, t, stack[0], stack[1..], b);
  }

  /** A new thread that nothing has been asked of yet is ready to go on; the log stays. */
  ghost predicate Readied(def: WorkflowDef, m: Moment, m': Moment, t: nat, b: StepName) {
    Worked(def, m, m', t) && StackAt(m.sys, t) == [] && Ready(def, m', t, b) && m'.sys.log == m.sys.log
  }

  lemma TimerReadies(def: WorkflowDef, m: Moment, a: StepName) returns (m': Moment, t: nat)
    requires Running(def, m.sys.log) && a in Replay(def, m.sys.log).steps
    requires TimerDue(Replay(def, m.sys.log).steps[a], m.now) && SuccessorOf(def, a, true) != ""
    ensures Readied(def, m, m', t, SuccessorOf(def, a, true)) && m'.now == m.now
  {
    hide At, Worked, Running, SuccessorOf, Replay, TimerDue, LinkIs;
    var l, q, run := m.sys.log, m.sys.queue, Replay(def, m.sys.log);
    var keys := run.steps.Keys;
    t := Idle(m);
    var m1, rest := Sweeps(def, m, t);
    AtStart(def, m.now, l, q, [ScanSteps(run, keys)] + rest);
    OnScanTimer(def, m.now, ConfigOf(m1.sys, t), l, q, false, run, keys, a, rest);
    m' := CameTo(def, m1, t, l, q, [FireTimer(run, a)] + ([Scan(false, run, keys - {a})] + rest));
    WorkedOn(def, m, m1, m', t);
  }

  /** A sweep queues a pending task. */
  lemma Queues(def: WorkflowDef, m: Moment, a: StepName) returns (m': Moment, t: nat)
    requires Running(def, m.sys.log) && a in Replay(def, m.sys.log).steps
    requires TaskReady(Replay(def, m.sys.log).steps[a], m.now)
    ensures Worked(def, m, m', t) && Sighted(m, m') && StackAt(m.sys, t) == [] && m'.now == m.now
    ensures m'.sys.log == m.sys.log && m'.sys.queue == m.sys.queue + multiset{a}
  {
    hide At, Worked, Running, Replay, TaskReady;
    var l, q, run := m.sys.log, m.sys.queue, Replay(def, m.sys.log);
    var keys := run.steps.Keys;
    t := Idle(m);
    var m1, rest := Sweeps(def, m, t);
    AtStart(def, m.now, l, q, [ScanSteps(run, keys)] + rest);
    OnScanTask(def, m.now, ConfigOf(m1.sys, t), l, q, false, run, keys, a, rest);
    m' := CameTo(def, m1, t, l, q + multiset{a}, [Scan(false, run, keys - {a})] + rest);
    WorkedOn(def, m, m1, m', t);
  }

  /** A worker takes the task. */
  lemma WorkerStarts(def: WorkflowDef, m: Moment, a: StepName, t: nat) returns (m': Moment)
    requires m.sys.log != [] && a in m.sys.queue && StackAt(m.sys, t) == []
    ensures Worked(def, m, m', t) && Sighted(m, m') && m'.now == m.now
    ensures Stands(m', t, m.sys.log, m.sys.queue - multiset{a}, [StartTask(Replay(def, m.sys.log), a)] + [])
  {
    var l, op := m.sys.log, ExecuteTask(a);
    assert MayBegin(l, m.sys.queue, op);
    hide At, Worked, Replay, MayBegin;
    var m1 := Spawned(def, m, t, op);
    AtStart(def, m.now, l, m1.sys.queue, [op] + []);
    OnExecuteTask(def, m.now, ConfigOf(m1.sys, t), l, m1.sys.queue, a, []);
    m' := CameTo(def, m1, t, l, m1.sys.queue, [StartTask(Replay(def, l), a)] + []);
    WorkedOn(def, m, m1, m', t);
  }

  lemma WorkerReadies(def: WorkflowDef, m: Moment, a: StepName, b: StepName) returns (m': Moment, t: nat)
    requires Running(def, m.sys.log) && a in Replay(def, m.sys.log).steps && a in m.sys.queue && Declared(def, a)
    requires b != "" && (SuccessorOf(def, a, true) == b || SuccessorOf(def, a, false) == b)
    ensures Readied(def, m, m', t, b) && m'.now == m.now && m'.sys.queue == m.sys.queue - multiset{a}
  {
    t := Idle(m);
    hide Worked, Replay, SuccessorOf, LinkIs, StackAt;
    m' := WorkerStarts(def, m, a, t);
  }

  /** Two threads are ready to go on to b; the log has grown. */
  ghost predicate BothReady(def: WorkflowDef, m: Moment, m': Moment, t: nat, u: nat, b: StepName) {
    && Reaches(def, m, m') && t != u && Ready(def, m', t, b) && Ready(def, m', u, b)
    && m.sys.log <= m'.sys.log && Running(def, m'.sys.log)
  }

  lemma SecondReadied(def: WorkflowDef, m: Moment, m1: Moment, m2: Moment, m3: Moment, t: nat, u: nat, b: StepName)
    requires Reaches(def, m, m1) && m.sys.log <= m1.sys.log && Running(def, m1.sys.log)
    requires Readied(def, m1, m2, t, b) && Readied(def, m2, m3, u, b)
    ensures BothReady(def, m, m3, t, u, b)
  {
    hide Reaches, Running, Poised;
    ReachesOn(def, m, m1, m2);
    ReachesOn(def, m, m2, m3);
  }

  lemma ScheduledState(def: WorkflowDef, log: Log, now: Time, a: StepName)
    requires Schedulable(def, a) && (KindOf(def, a) == Task || KindOf(def, a) == Delay)
    ensures var run := Replay(def, log + [Event(now, ScheduledBody(def, a, now))]);
            && a in run.steps && run.steps[a].kind == KindOf(def, a)
            && run.steps[a].status == (if KindOf(def, a) == Task then SPending else SWaiting)
            && (KindOf(def, a) == Delay ==> run.steps[a].due == Some(now + Lookup(def, a).value.delay.value))
  {
    var e := Event(now, ScheduledBody(def, a, now));
    ReplayAppend(def, log, e);
    KindIsDeclared(def, log + [e], a);
  }

  function Later(a: Time, b: Time): (t: Time)
    ensures a <= t && b <= t
  {
    if a > b then a else b
  }

  lemma DelayReady(def: WorkflowDef, m: Moment, s: nat, a: StepName) returns (m': Moment, t: nat, u: nat)
    requires Before(m, s, a) && Running(def, m.sys.log) && Schedulable(def, a) && KindOf(def, a) == Delay
    requires SuccessorOf(def, a, true) != ""
    ensures BothReady(def, m, m', t, u, SuccessorOf(def, a, true))
  {
    ScheduledState(def, m.sys.log, m.now, a);
    hide Running, Reaches, Readied, BothReady, SuccessorOf, Before, Replay;
    var m1 := Scheduled(def, m, s, a);
    var st := Replay(def, m1.sys.log).steps[a];
    var m2 := Moment(m1.sys, Later(m.now, st.due.value));
    Waits(def, m1, m2.now);
    ReachesOn(def, m, m1, m2);
    var m3, t3 := TimerReadies(def, m2, a);
    SameLog(def, m2, m3, t3, SuccessorOf(def, a, true));
    var m4, t4 := TimerReadies(def, m3, a);
    m', t, u := m4, t3, t4;
    SecondReadied(def, m, m2, m3, m', t, u, SuccessorOf(def, a, true));
  }

  /** A readied thread leaves the log as it was. */
  lemma SameLog(def: WorkflowDef, m: Moment, m': Moment, t: nat, b: StepName)
    requires Readied(def, m, m', t, b)
    ensures m'.sys.log == m.sys.log
  {
  }

  lemma TaskReadyTwice(def: WorkflowDef, m: Moment, s: nat, a: StepName, b: StepName)
    returns (m': Moment, t: nat, u: nat)
    requires Before(m, s, a) && Running(def, m.sys.log) && Schedulable(def, a) && KindOf(def, a) == Task
    requires b != "" && (SuccessorOf(def, a, true) == b || SuccessorOf(def, a, false) == b)
    ensures BothReady(def, m, m', t, u, b)
  {
    ScheduledState(def, m.sys.log, m.now, a);
    assert Declared(def, a);
    hide Running, Reaches, Readied, BothReady, SuccessorOf, Before, Replay, Schedulable;
    var m1 := Scheduled(def, m, s, a);
    var st := Replay(def, m1.sys.log).steps[a];
    var m2 := Moment(m1.sys, if st.due.Some? then Later(m.now, st.due.value) else m.now);
    Waits(def, m1, m2.now);
    ReachesOn(def, m, m1, m2);
    var m3, _ := Queues(def, m2, a);
    ReachesOn(def, m, m2, m3);
    var m4, _ := Queues(def, m3, a);
    ReachesOn(def, m, m3, m4);
    assert m4.sys.queue[a] >= 2;
    var m5, t5 := WorkerReadies(def, m4, a, b);
    SameLog(def, m4, m5, t5, b);
    var m6, t6 := WorkerReadies(def, m5, a, b);
    m', t, u := m6, t5, t6;
    SecondReadied(def, m, m4, m5, m', t, u, b);
  }

  /** As many new threads as the chain has links, and one more, pass the check against the first link. */
  lemma ChainHeld(def: WorkflowDef, m: Moment, a: StepName, who: string) returns (m': Moment, b: nat)
    requires m.sys.log != [] && Authorized(ChainOf(def, a), 0, who)
    requires LinkIs(def, Replay(def, m.sys.log), a, 0, LinkPending)
    ensures Reaches(def, m, m') && m'.sys.log == m.sys.log
    ensures var n := |ChainOf(def, a)|; Hold(m'.sys, a, 0, who, b, b + n)
    ensures var n := |ChainOf(def, a)|; StackAt(m'.sys, b + n) == [Grant(a, 0, who)] + []
  {
    hide Reaches, Replay, LinkIs, Authorized, StackAt, Hold;
    b := Unused(m.sys.threads.Keys);
    NobodyAbove(m.sys, b);
    var n := |ChainOf(def, a)|;
    m' := Gathered(def, m, a, 0, who, b, b + n + 1);
    HoldLast(m'.sys, a, who, b, b + n);
  }

  /** Threads that all checked the first link grant the whole chain; one more holds its grant. */
  lemma ChainGranted(def: WorkflowDef, m: Moment, a: StepName, who: string) returns (m': Moment, t: nat, u: nat)
    requires Running(def, m.sys.log) && Authorized(ChainOf(def, a), 0, who)
    requires LinkIs(def, Replay(def, m.sys.log), a, 0, LinkPending)
    ensures Reaches(def, m, m') && m.sys.log <= m'.sys.log && Running(def, m'.sys.log) && t != u
    ensures var run := Replay(def, m'.sys.log);
            && LinkIs(def, run, a, |ChainOf(def, a)| - 1, LinkGranted)
            && StackAt(m'.sys, t) == [AdvanceApproval(run, a)] + ([DispatchAfter(run)] + [])
            && StackAt(m'.sys, u) == [Grant(a, 0, who)] + []
  {
    hide Reaches, Replay, LinkIs, Authorized, StackAt, Running, Hold, OnlyLink, OnlyDecisions;
    var n := |ChainOf(def, a)|;
    Plain(def, m.sys.log, a, who);
    var m1, b := ChainHeld(def, m, a, who);
    assert Hold(m1.sys, a, 0, who, b + 0, b + n);
    m' := Granting(def, m1, a, 0, who, 0, b);
    t, u := b + n - 1, b + n;
    assert StackAt(m'.sys, u) == StackAt(m1.sys, u);
    ReachesOn(def, m, m1, m');
    StillDeciding(def, m.sys.log, m'.sys.log);
  }

  lemma Plain(def: WorkflowDef, l: Log, a: StepName, who: string)
    requires Running(def, l) && Authorized(ChainOf(def, a), 0, who)
    ensures l != [] && |ChainOf(def, a)| > 0
  {
  }

  lemma HoldLast(s: Sys, a: StepName, who: string, b: nat, n: nat)
    requires Hold(s, a, 0, who, b, n + 1) && b <= n
    ensures Hold(s, a, 0, who, b, n) && StackAt(s, n) == [Grant(a, 0, who)] + []
  {
  }

  lemma GrantedAgain(def: WorkflowDef, m: Moment, a: StepName, who: string, u: nat) returns (m': Moment)
    requires Running(def, m.sys.log) && StackAt(m.sys, u) == [Grant(a, 0, who)] + [] && ChainOf(def, a) != []
    requires LinkIs(def, Replay(def, m.sys.log), a, |ChainOf(def, a)| - 1, LinkGranted)
    requires SuccessorOf(def, a, true) != ""
    ensures Worked(def, m, m', u) && Ready(def, m', u, SuccessorOf(def, a, true))
    ensures m.sys.log <= m'.sys.log && Running(def, m'.sys.log)
  {
    hide Worked, Replay, StackAt, Running, SuccessorOf;
    var n, e := |ChainOf(def, a)|, Event(m.now, ApprovalGranted(a, 0, who));
    StillRunning(def, m.sys.log, e);
    assert AtLink(def, Replay(def, m.sys.log), a, n - 1);
    m' := GrantRuns(def, m, u, a, 0, n - 1, who);
    PoisedApproval(def, Replay(def, m'.sys.log), a);
  }

  lemma ApprovalReady(def: WorkflowDef, m: Moment, s: nat, a: StepName) returns (m': Moment, t: nat, u: nat)
    requires Before(m, s, a) && Running(def, m.sys.log) && Schedulable(def, a) && KindOf(def, a) == Approval
    requires !AsksNobody(def, a) && SuccessorOf(def, a, true) != ""
    ensures BothReady(def, m, m', t, u, SuccessorOf(def, a, true)) && Opened(m'.sys.log, a)
  {
    hide Running, Reaches, SuccessorOf, Before, Replay, Schedulable, LinkIs, Authorized, AsksNobody, NameOn, StackAt,
         Poised, Opened;
    var who := Somebody(def, a);
    var m1 := AsksFor(def, m, s, a);
    var m2, t2, u2 := ChainGranted(def, m1, a, who);
    m' := GrantedAgain(def, m2, a, who, u2);
    t, u := t2, u2;
    ReachesOn(def, m, m1, m2);
    ReachesOn(def, m, m2, m');
    PoisedApproval(def, Replay(def, m2.sys.log), a);
    AsksOpens(def, a, m.sys.log, m1.sys.log, m'.sys.log, m.now);
  }

  lemma NobodyAbove(s: Sys, b: nat)
    requires forall t :: t in s.threads.Keys ==> t < b
    ensures forall t: nat :: t >= b ==> StackAt(s, t) == []
  {
  }

  lemma StillDeciding(def: WorkflowDef, l: Log, l': Log)
    requires Running(def, l) && l <= l' && OnlyDecisions(l', |l|)
    ensures Running(def, l')
  {
    RunningThrough(def, l, l'[|l|..]);
    assert l' == l + l'[|l|..];
  }

  lemma PoisedApproval(def: WorkflowDef, run: RunState, a: StepName)
    requires ChainOf(def, a) != [] && LinkIs(def, run, a, |ChainOf(def, a)| - 1, LinkGranted)
    requires SuccessorOf(def, a, true) != ""
    ensures Poised(def, AdvanceApproval(run, a), SuccessorOf(def, a, true))
  {
  }

  lemma AsksOpens(def: WorkflowDef, a: StepName, l: Log, l1: Log, l': Log, now: Time)
    requires ChainOf(def, a) != [] && l1 == l + [Event(now, FirstRequest(def, a))] && l1 <= l'
    ensures Opened(l', a)
  {
    assert Opens(l'[|l|].body, a);
  }

  /** A thread before a step that can be left: two threads come before the step after it. */
  lemma GoesOn(def: WorkflowDef, m: Moment, s: nat, a: StepName, b: StepName) returns (m': Moment, t: nat, u: nat)
    requires Before(m, s, a) && Running(def, m.sys.log) && Hop(def, a, b)
    ensures Reaches(def, m, m') && t != u && Before(m', t, b) && Before(m', u, b)
    ensures m.sys.log <= m'.sys.log && Running(def, m'.sys.log)
    ensures KindOf(def, a) == Approval ==> Opened(m'.sys.log, a)
  {
    hide Running, Reaches, SuccessorOf, Before, Schedulable, StackAt, Poised, Opened, AsksNobody;
    var m1: Moment;
    if KindOf(def, a) == Task {
      m1, t, u := TaskReadyTwice(def, m, s, a, b);
    } else if KindOf(def, a) == Delay {
      m1, t, u := DelayReady(def, m, s, a);
    } else {
      m1, t, u := ApprovalReady(def, m, s, a);
    }
    var m2 := ReadyGoes(def, m1, t, b);
    m' := ReadyGoes(def, m2, u, b);
    ReachesOn(def, m, m1, m2);
    ReachesOn(def, m, m2, m');
    BothBefore(m2, m', t, b);
    if Opened(m1.sys.log, a) { OpenedGrows(m1.sys.log, m'.sys.log, a); }
  }

  lemma BothBefore(m: Moment, m': Moment, t: nat, b: StepName)
    requires Before(m, t, b) && StackAt(m'.sys, t) == StackAt(m.sys, t)
    ensures Before(m', t, b)
  {
  }

  lemma OpenedGrows(l: Log, l': Log, s: StepName)
    requires Opened(l, s) && l <= l'
    ensures Opened(l', s)
  {
    var k :| 0 <= k < |l| && Opens(l[k].body, s);
    assert Opens(l'[k].body, s);
  }

  // ---- beginning -------------------------------------------------------------

  /** CreateTicket comes to schedule the initial step. */
  lemma Begins(def: WorkflowDef) returns (m: Moment)
    ensures Reaches(def, START, m) && m.now == 1 && Before(m, 0, def.initial)
    ensures m.sys.log == Reaching.Born(def) && Running(def, m.sys.log) && Sighted(START, m)
  {
    hide At, Worked, Running;
    var e, f := Event(1, TicketCreated(def.name, def.version)), Event(1, RunStarted(def.initial));
    var none, c0 := multiset{}, ConfigOf(NEW_RUN, 0);
    BornRuns(def);
    assert StackAt(NEW_RUN, 0) == [CreateEvent] && [CreateEvent] + [] == [CreateEvent];
    AtStart(def, 1, [], none, [CreateEvent]);
    OnCreateEvent(def, 1, c0, [], none, []);
    assert [] + [e] == [e];
    OnCreateStart(def, 1, c0, [e], none, []);
    m := CameTo(def, START, 0, [e] + [f], none, [ScheduleStep(def.initial, ThenAssign)] + []);
    JustReaches(def, START, m, 0);
  }

  lemma JustReaches(def: WorkflowDef, m: Moment, m': Moment, t: nat)
    requires Worked(def, m, m', t)
    ensures Reaches(def, m, m')
  {
  }

  lemma BornRuns(def: WorkflowDef)
    ensures var log := Reaching.Born(def);
            && Running(def, log) && Breached(log) == {} && Replay(def, log).steps.Keys == {def.initial}
  {
    Reaching.BornState(def);
  }

  // ---- breaches --------------------------------------------------------------

  /** A sweep by a new thread comes to the loop over the SLAs. */
  lemma Checks(def: WorkflowDef, m: Moment, t: nat) returns (m': Moment, rest: seq<Frame>)
    requires Running(def, m.sys.log) && StackAt(m.sys, t) == [] && def.slas != []
    ensures Worked(def, m, m', t) && m'.now == m.now
    ensures var l := m.sys.log;
            Stands(m', t, l, m.sys.queue, [SlaLoop(Replay(def, l), Breached(l), 0, m.now)] + rest)
  {
    hide At, Worked, Replay;
    var l, q, run := m.sys.log, m.sys.queue, Replay(def, m.sys.log);
    var m1 := Spawned(def, m, t, Refresh);
    rest := [ScanSteps(run, run.steps.Keys)] + ([ScanApprovals(run, run.steps.Keys)] + []);
    var c0 := ConfigOf(m1.sys, t);
    AtStart(def, m.now, l, q, [Refresh] + []);
    OnRefresh(def, m.now, c0, l, q, []);
    OnDispatch(def, m.now, c0, l, q, run, []);
    OnCheckSla(def, m.now, c0, l, q, run, rest);
    m' := CameTo(def, m1, t, l, q, [SlaLoop(run, Breached(l), 0, m.now)] + rest);
    WorkedOn(def, m, m1, m', t);
  }

  /** A jump comes to nothing: its first append can fail. */
  lemma JumpLeft(def: WorkflowDef, m: Moment, t: nat, run: RunState, c: StepName, rest: seq<Frame>)
    returns (m': Moment)
    requires StackAt(m.sys, t) == [JumpTo(run, c)] + rest
    ensures Worked(def, m, m', t) && m'.now == m.now && Stands(m', t, m.sys.log, m.sys.queue, rest)
  {
    hide At, Worked, Replay, StepActive, Schedulable;
    var l, q, c0, now := m.sys.log, m.sys.queue, ConfigOf(m.sys, t), m.now;
    AtStart(def, now, l, q, [JumpTo(run, c)] + rest);
    OnJumpTo(def, now, c0, l, q, run, c, rest);
    if StepActive(run, c) {
      m' := CameTo(def, m, t, l, q, rest);
    } else {
      OnScheduleStep(def, now, c0, l, q, c, ThenDispatch, rest);
      if !Schedulable(def, c) {
        m' := CameTo(def, m, t, l, q, rest);
      } else {
        var f := if KindOf(def, c) == Approval then RequestFirst(c, now, ThenDispatch)
                 else EmitScheduled(c, now, ThenDispatch);
        var m1 := CameTo(def, m, t, l, q, [f] + rest);
        AppendMayFail(def, now, l, c, f);
        m' := Dropped(def, m1, t, f, rest);
        WorkedOn(def, m, m1, m', t);
      }
    }
  }

  lemma AppendMayFail(def: WorkflowDef, now: Time, l: Log, c: StepName, f: Frame)
    requires f == RequestFirst(c, now, ThenDispatch) || f == EmitScheduled(c, now, ThenDispatch)
    requires Schedulable(def, c) && (f.RequestFirst? ==> KindOf(def, c) == Approval)
    ensures MayFail(def, Tick(now), l, f)
  {
  }

  /** One turn of the loop over the SLAs flags one and goes on. */
  lemma Flags(def: WorkflowDef, m: Moment, t: nat, run: RunState, k: nat, at: Time, rest: seq<Frame>)
    returns (m': Moment)
    requires StackAt(m.sys, t) == [SlaLoop(run, {}, k, at)] + rest && Running(def, m.sys.log)
    requires k < |def.slas| && !SlaPasses(def, run, {}, k, at)
    ensures Worked(def, m, m', t) && m'.now == m.now && StackAt(m'.sys, t) == [SlaLoop(run, {}, k + 1, at)] + rest
    ensures m.sys.log <= m'.sys.log && Running(def, m'.sys.log)
  {
    hide At, Worked, Replay, SlaPasses, Running;
    var l, q, next := m.sys.log, m.sys.queue, [SlaLoop(run, {}, k + 1, at)] + rest;
    var e := Event(m.now, SlaBreached(def.slas[k].name, run.current));
    StillRunning(def, l, e);
    AtStart(def, m.now, l, q, [SlaLoop(run, {}, k, at)] + rest);
    OnSlaFlag(def, m.now, ConfigOf(m.sys, t), l, q, run, {}, k, at, rest);
    if def.slas[k].onBreach == "" {
      m' := CameTo(def, m, t, l + [e], q, next);
    } else {
      var m1 := CameTo(def, m, t, l + [e], q, [JumpTo(run, def.slas[k].onBreach)] + next);
      m' := JumpLeft(def, m1, t, run, def.slas[k].onBreach, next);
      WorkedOn(def, m, m1, m', t);
    }
  }

  /** The loop comes to the breach of the i-th SLA, and jumps. */
  lemma {:induction false} Jumps(def: WorkflowDef, m: Moment, t: nat, run: RunState, k: nat, i: nat, at: Time,
        rest: seq<Frame>)
    returns (m': Moment)
    requires StackAt(m.sys, t) == [SlaLoop(run, {}, k, at)] + rest && Running(def, m.sys.log) && k <= i < |def.slas|
    requires forall j :: k <= j <= i ==> !SlaPasses(def, run, {}, j, at)
    requires def.slas[i].onBreach != "" && !StepActive(run, def.slas[i].onBreach)
    ensures Worked(def, m, m', t) && m'.now == m.now && Before(m', t, def.slas[i].onBreach)
    ensures m.sys.log <= m'.sys.log && Running(def, m'.sys.log)
    decreases i - k
  {
    hide At, Worked, Replay, SlaPasses, Running, StepActive;
    if k < i {
      var m1 := Flags(def, m, t, run, k, at, rest);
      m' := Jumps(def, m1, t, run, k + 1, i, at, rest);
      WorkedOn(def, m, m1, m', t);
    } else {
      var b, l, q, next := def.slas[k].onBreach, m.sys.log, m.sys.queue, [SlaLoop(run, {}, k + 1, at)] + rest;
      var e, c0 := Event(m.now, SlaBreached(def.slas[k].name, run.current)), ConfigOf(m.sys, t);
      StillRunning(def, l, e);
      AtStart(def, m.now, l, q, [SlaLoop(run, {}, k, at)] + rest);
      OnSlaFlag(def, m.now, c0, l, q, run, {}, k, at, rest);
      OnJumpTo(def, m.now, c0, l + [e], q, run, b, next);
      m' := CameTo(def, m, t, l + [e], q, [ScheduleStep(b, ThenDispatch)] + next);
    }
  }

  /** In a run without flags in which an OnBreach target is not active: two sweeps both jump there. */
  lemma TargetComes(def: WorkflowDef, m: Moment, i: nat) returns (m': Moment, t: nat, u: nat)
    requires Running(def, m.sys.log) && Breached(m.sys.log) == {} && i < |def.slas| && def.slas[i].onBreach != ""
    requires !StepActive(Replay(def, m.sys.log), def.slas[i].onBreach)
    ensures Reaches(def, m, m') && t != u && Before(m', t, def.slas[i].onBreach) && Before(m', u, def.slas[i].onBreach)
    ensures m.sys.log <= m'.sys.log && Running(def, m'.sys.log)
  {
    hide Reaches, Replay, Running, StepActive, StackAt, Before;
    var run, b := Replay(def, m.sys.log), def.slas[i].onBreach;
    var at := Later(m.now, Idempotence.Late(def.slas, run.createdAt));
    var m1 := Moment(m.sys, at);
    Waits(def, m, at);
    t := Idle(m1);
    var m2, r2 := Checks(def, m1, t);
    u := Idle(m2);
    var m3, r3 := Checks(def, m2, u);
    ReachesOn(def, m, m1, m2);
    ReachesOn(def, m, m2, m3);
    assert t != u && [SlaLoop(run, {}, 0, at)] + r2 != [];
    var m4 := Jumps(def, m3, t, run, 0, i, at, r2);
    m' := Jumps(def, m4, u, run, 0, i, at, r3);
    ReachesOn(def, m, m3, m4);
    ReachesOn(def, m, m4, m');
    BothBefore(m4, m', t, b);
  }

  // ---- along a trail ---------------------------------------------------------

  lemma TargetIndex(def: WorkflowDef, b: StepName) returns (i: nat)
    requires Target(def, b)
    ensures i < |def.slas| && def.slas[i].onBreach == b && b != ""
  {
    i :| 0 <= i < |def.slas| && def.slas[i].onBreach == b;
  }

  /** Some thread comes before the last step of every trail. */
  lemma {:induction false} Arrives(def: WorkflowDef, p: seq<StepName>) returns (m: Moment, t: nat)
    requires Trail(def, p)
    ensures Reaches(def, START, m) && Before(m, t, p[|p| - 1]) && Running(def, m.sys.log)
    decreases |p|
  {
    hide Reaches, Running, Before, Hop;
    if |p| == 1 {
      m := Begins(def);
      t := 0;
      if p[0] != def.initial {
        var i := TargetIndex(def, p[0]);
        Unborn(def, p[0]);
        var m1 := m;
        var u: nat;
        m, t, u := TargetComes(def, m1, i);
        ReachesOn(def, START, m1, m);
      }
    } else {
      var n := |p| - 1;
      assert Hop(def, p[n - 1], p[n]) && Trail(def, p[..n]);
      var m1, t1 := Arrives(def, p[..n]);
      var u: nat;
      m, t, u := GoesOn(def, m1, t1, p[n - 1], p[n]);
      ReachesOn(def, START, m1, m);
    }
  }

  lemma Unborn(def: WorkflowDef, b: StepName)
    requires b != def.initial
    ensures Breached(Reaching.Born(def)) == {} && !StepActive(Replay(def, Reaching.Born(def)), b)
  {
    BornRuns(def);
  }
}
