/** A task whose worker stopped between STEP_STARTED and its outcome is not taken up again: sweeps and recoveries only
    queue PENDING tasks (engine/engine.go:431-441, 736-788), although engine/worker.go:18-21 says that the task is
    enqueued again. Such a run is live and nothing but a human or an SLA can move it. */
module Abandoned {
  import opened Model
  import opened Replaying
  import opened Machine
  import opened Moves
  import opened Reaching

  /** No pending task, no waiting delay, no granted approval: at no time is anything due or ready. */
  predicate NothingPends(run: RunState) {
    forall s :: s in run.steps ==>
      && !(run.steps[s].kind == Task && run.steps[s].status == SPending)
      && !(run.steps[s].kind == Delay && run.steps[s].status == SWaiting)
      && !Granted(run.steps[s])
  }

  /** The dispatch of a sweep or a recovery, still holding what the log says. */
  predicate Sweeps(run: RunState, f: Frame) {
    f.Refresh? || ((f.Dispatch? || f.CheckSla? || f.ScanSteps? || f.ScanApprovals?) && f.run == run)
    || (f.AdvanceApproval? && f.run == run && f.step in run.steps && !HasGrant(run, f.step))
  }

  predicate Idles(def: WorkflowDef, log: Log, c: Config) {
    c.log == log && c.queue == multiset{} && forall k :: 0 <= k < |c.stack| ==> Sweeps(Replay(def, log), c.stack[k])
  }

  predicate IdleAct(run: RunState, a: Action) {
    a.emit == [] && a.submit == multiset{} && forall k :: 0 <= k < |a.push| ==> Sweeps(run, a.push[k])
  }

  lemma EntryIdles(def: WorkflowDef, i: Input, log: Log, run: RunState, f: Frame)
    requires EntryFrame(f) && Sweeps(run, f) && def.slas == []
    ensures IdleAct(run, ActEntry(def, i, log, run, f))
  {
  }

  lemma ScanIdles(i: Input, run: RunState, f: Frame)
    requires ScanFrame(f) && Sweeps(run, f) && NothingPends(run)
    ensures IdleAct(run, ActScan(i, f))
  {
  }

  lemma AdvanceIdles(def: WorkflowDef, i: Input, run: RunState, f: Frame)
    requires AdvanceFrame(f) && Sweeps(run, f)
    ensures IdleAct(run, ActAdvance(def, i, f))
  {
  }

  lemma ActIdles(def: WorkflowDef, i: Input, log: Log, run: RunState, f: Frame)
    requires Sweeps(run, f) && NothingPends(run) && def.slas == []
    ensures IdleAct(run, Act(def, i, log, run, f))
  {
    hide IdleAct, NothingPends, ActEntry, ActScan, ActAdvance;
    if EntryFrame(f) { EntryIdles(def, i, log, run, f); }
    else if ScanFrame(f) { ScanIdles(i, run, f); }
    else { AdvanceIdles(def, i, run, f); }
  }

  lemma DoIdles(def: WorkflowDef, log: Log, c: Config, d: Deed)
    requires Idles(def, log, c) && NothingPends(Replay(def, log)) && def.slas == [] && (d.Begin? ==> d.op.Refresh?)
    ensures Idles(def, log, Do(def, c, d))
  {
    hide Act, NothingPends, Replay;
    if d.Work? && c.stack != [] {
      var a := Act(def, d.input, log, Replay(def, log), c.stack[0]);
      ActIdles(def, d.input, log, Replay(def, log), c.stack[0]);
      assert log + a.emit == log && multiset{} + a.submit == a.submit;
    }
  }

  /** Whatever sweeps and recoveries follow, at whatever times, such a run keeps its log, and none of its tasks is
      queued. */
  lemma {:induction false} SweepsChangeNothing(def: WorkflowDef, log: Log, ds: seq<Deed>)
    requires NothingPends(Replay(def, log)) && def.slas == [] && forall d :: d in ds && d.Begin? ==> d.op.Refresh?
    ensures Idles(def, log, DoAll(def, Config(log, multiset{}, []), ds))
    decreases |ds|
  {
    if ds != [] {
      var init := ds[..|ds| - 1];
      assert ds[|ds| - 1] in ds && forall d :: d in init ==> d in ds;
      SweepsChangeNothing(def, log, init);
      DoIdles(def, log, DoAll(def, Config(log, multiset{}, []), init), ds[|ds| - 1]);
    }
  }

  // ---- a run that comes to that ------------------------------------------

  /** The log of a run whose first task was started and not finished. */
  function Interrupted(def: WorkflowDef): Log {
    Born(def) + [Event(1, ScheduledBody(def, def.initial, 1))] + [Event(1, TicketAssigned)]
    + [Event(1, StepStarted(def.initial))]
  }

  lemma InterruptedState(def: WorkflowDef)
    requires Declared(def, def.initial) && KindOf(def, def.initial) == Task
    ensures var l := Born(def) + [Event(1, ScheduledBody(def, def.initial, 1))] + [Event(1, TicketAssigned)];
            var run := Replay(def, l);
            && l != [] && run.status == RActive && run.steps.Keys == {def.initial}
            && TaskReady(run.steps[def.initial], 1)
    ensures var run := Replay(def, Interrupted(def));
            && NothingPends(run) && run.status == RActive && run.steps.Keys == {def.initial}
            && run.steps[def.initial].status == SRunning
  {
    var l0 := Born(def);
    var e, f := Event(1, ScheduledBody(def, def.initial, 1)), Event(1, TicketAssigned);
    var g := Event(1, StepStarted(def.initial));
    BornState(def);
    ReplayAppend(def, l0, e);
    ReplayAppend(def, l0 + [e], f);
    ReplayAppend(def, l0 + [e] + [f], g);
  }

  /** Without SLAs a dispatch comes to the loops over the steps. */
  lemma StepsLooked(def: WorkflowDef, l: Log, q: multiset<StepName>)
    requires Reached(def, 1, l, q, [Refresh] + []) && l != [] && def.slas == [] && !Terminal(Replay(def, l).status)
    ensures Reached(def, 1, l, q, Below(Replay(def, l)))
  {
    hide Reached, At, Replay, Terminal;
    var run := Replay(def, l);
    var c0 := Config(l, q, [Refresh] + []);
    AtStart(def, 1, l, q, [Refresh] + []);
    OnRefresh(def, 1, c0, l, q, []);
    OnDispatch(def, 1, c0, l, q, run, []);
    OnCheckSla(def, 1, c0, l, q, run, Below(run));
    Came(def, 1, l, q, [Refresh] + [], l, q, Below(run));
  }

  /** CreateTicket queues the first task; a worker starts it, and the process stops. */
  lemma InterruptedReached(def: WorkflowDef)
    requires Declared(def, def.initial) && KindOf(def, def.initial) == Task && def.slas == []
    ensures Reached(def, 1, Interrupted(def), multiset{}, [])
  {
    var s, l0 := def.initial, Born(def);
    var l := l0 + [Event(1, ScheduledBody(def, s, 1))] + [Event(1, TicketAssigned)];
    var run := Replay(def, l);
    InterruptedState(def);
    hide Reached, At, Replay, TaskReady, ScheduledBody;
    var stack, none := [ScheduleStep(s, ThenAssign)] + [], multiset{};
    var c0 := Config(l0, none, stack);
    BornReached(def);
    AtStart(def, 1, l0, none, stack);
    OnScheduleStep(def, 1, c0, l0, none, s, ThenAssign, []);
    OnEmitScheduled(def, 1, c0, l0, none, s, 1, ThenAssign, []);
    OnCreateAssign(def, 1, c0, l0 + [Event(1, ScheduledBody(def, s, 1))], none, []);
    Came(def, 1, l0, none, stack, l, none, [Refresh] + []);
    StepsLooked(def, l, none);
    var q := ScanLeaves(def, 1, l, none, run, run.steps.Keys, [ScanApprovals(run, run.steps.Keys)] + []);
    ApprovalsLeave(def, 1, l, q, run, run.steps.Keys, []);
    StartedAndLost(def, l, q, run);
  }

  lemma StartedAndLost(def: WorkflowDef, l: Log, q: multiset<StepName>, run: RunState)
    requires Declared(def, def.initial) && l != [] && run == Replay(def, l) && def.initial in q
    requires Reached(def, 1, l, q, [])
    ensures Reached(def, 1, l + [Event(1, StepStarted(def.initial))], multiset{}, [])
  {
    hide Reached, At, Replay;
    var s := def.initial;
    var op := ExecuteTask(s);
    Begun(def, 1, l, q, op);
    var q' := TakeTask(q, op);
    var c0 := Config(l, q', [op] + []);
    AtStart(def, 1, l, q', [op] + []);
    OnExecuteTask(def, 1, c0, l, q', s, []);
    OnStartTask(def, 1, Fails(""), c0, l, q', run, s, []);
    Came(def, 1, l, q', [op] + [], l + [Event(1, StepStarted(s))], q', [RunHandler(run, s, |l|)] + []);
    Crashed(def, 1, l + [Event(1, StepStarted(s))], q', [RunHandler(run, s, |l|)] + []);
  }

  /** For every workflow whose first step is a task, and which has no SLA: a run stopped while that task ran is live,
      its task RUNNING, and no sweep or recovery ever changes its log or queues the task. */
  lemma InterruptedTaskIsLost(def: WorkflowDef, ds: seq<Deed>)
    requires Declared(def, def.initial) && KindOf(def, def.initial) == Task && def.slas == []
    requires forall d :: d in ds && d.Begin? ==> d.op.Refresh?
    ensures Reachable(def, Config(Interrupted(def), multiset{}, []))
    ensures var c := DoAll(def, Config(Interrupted(def), multiset{}, []), ds);
            c.log == Interrupted(def) && c.queue == multiset{}
            && Replay(def, c.log).status == RActive && Replay(def, c.log).steps[def.initial].status == SRunning
  {
    InterruptedReached(def);
    ReachedReachable(def, 1, Interrupted(def), multiset{}, []);
    InterruptedState(def);
    SweepsChangeNothing(def, Interrupted(def), ds);
  }
}
