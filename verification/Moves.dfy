/** The moves of the frame machine, one lemma for each frame: what the methods of the engine are checked against. */
module Moves {
  import opened Model
  import opened Replaying
  import opened Machine

  function Works(def: WorkflowDef, c: Config, ins: seq<Input>): Config
    decreases |ins|
  {
    if ins == [] then c else Next(def, ins[|ins| - 1], Works(def, c, ins[..|ins| - 1]))
  }

  predicate Timed(ins: seq<Input>, now: Time) {
    forall k :: 0 <= k < |ins| ==> ins[k].now == now
  }

  /** Some number of actions of the machine, all at the time `now`, lead from c0 to this log, queue and stack. */
  ghost predicate At(def: WorkflowDef, now: Time, c0: Config, log: Log, q: multiset<StepName>, stack: seq<Frame>) {
    exists ins: seq<Input> :: Timed(ins, now) && Works(def, c0, ins) == Config(log, q, stack)
  }

  lemma AtStart(def: WorkflowDef, now: Time, log: Log, q: multiset<StepName>, stack: seq<Frame>)
    ensures At(def, now, Config(log, q, stack), log, q, stack)
  {
    assert Timed([], now) && Works(def, Config(log, q, stack), []) == Config(log, q, stack);
  }

  /** Where the machine can be after a reachable state is reachable. */
  lemma AtReachable(def: WorkflowDef, now: Time, c0: Config, log: Log, q: multiset<StepName>, stack: seq<Frame>)
    requires Reachable(def, c0) && At(def, now, c0, log, q, stack)
    ensures Reachable(def, Config(log, q, stack))
  {
    var ins: seq<Input> :| Timed(ins, now) && Works(def, c0, ins) == Config(log, q, stack);
    WorksReachable(def, c0, ins);
  }

  lemma {:induction false} WorksReachable(def: WorkflowDef, c: Config, ins: seq<Input>)
    requires Reachable(def, c)
    ensures Reachable(def, Works(def, c, ins))
    decreases |ins|
  {
    if ins != [] {
      WorksReachable(def, c, ins[..|ins| - 1]);
      ReachableStep(def, Works(def, c, ins[..|ins| - 1]), Work(ins[|ins| - 1]));
    }
  }

  function Tick(now: Time): Input {
    Input(now, "", NoHandler)
  }

  // ---- one action, whatever the frame ------------------------------------

  lemma Went(def: WorkflowDef, c0: Config, log: Log, q: multiset<StepName>, f: Frame, rest: seq<Frame>, i: Input,
        a: Action)
    requires At(def, i.now, c0, log, q, [f] + rest) && a == Act(def, i, log, Replay(def, log), f)
    ensures At(def, i.now, c0, log + a.emit, q + a.submit, a.push + rest)
  {
    var ins: seq<Input> :| Timed(ins, i.now) && Works(def, c0, ins) == Config(log, q, [f] + rest);
    assert ([f] + rest)[1..] == rest;
    assert (ins + [i])[..|ins|] == ins;
    assert Timed(ins + [i], i.now) && Works(def, c0, ins + [i]) == Next(def, i, Config(log, q, [f] + rest));
  }

  lemma Returned(def: WorkflowDef, c0: Config, log: Log, q: multiset<StepName>, f: Frame, rest: seq<Frame>, i: Input)
    requires At(def, i.now, c0, log, q, [f] + rest) && Act(def, i, log, Replay(def, log), f) == Go([])
    ensures At(def, i.now, c0, log, q, rest)
  {
    Went(def, c0, log, q, f, rest, i, Go([]));
    assert log + [] == log && [] + rest == rest;
  }

  lemma Became(def: WorkflowDef, c0: Config, log: Log, q: multiset<StepName>, f: Frame, rest: seq<Frame>, i: Input,
        g: Frame)
    requires At(def, i.now, c0, log, q, [f] + rest) && Act(def, i, log, Replay(def, log), f) == Go([g])
    ensures At(def, i.now, c0, log, q, [g] + rest)
  {
    Went(def, c0, log, q, f, rest, i, Go([g]));
    assert log + [] == log;
  }

  lemma Called(def: WorkflowDef, c0: Config, log: Log, q: multiset<StepName>, f: Frame, rest: seq<Frame>, i: Input,
        g: Frame, h: Frame)
    requires At(def, i.now, c0, log, q, [f] + rest) && Act(def, i, log, Replay(def, log), f) == Go([g, h])
    ensures At(def, i.now, c0, log, q, [g] + ([h] + rest))
  {
    Went(def, c0, log, q, f, rest, i, Go([g, h]));
    assert log + [] == log;
    Pair(g, h, rest);
  }

  lemma Wrote(def: WorkflowDef, c0: Config, log: Log, q: multiset<StepName>, f: Frame, rest: seq<Frame>, i: Input,
        e: Event)
    requires At(def, i.now, c0, log, q, [f] + rest)
    requires Act(def, i, log, Replay(def, log), f) == Action([e], multiset{}, [])
    ensures At(def, i.now, c0, log + [e], q, rest)
  {
    Went(def, c0, log, q, f, rest, i, Action([e], multiset{}, []));
    assert [] + rest == rest;
  }

  lemma WroteThen(def: WorkflowDef, c0: Config, log: Log, q: multiset<StepName>, f: Frame, rest: seq<Frame>, i: Input,
        e: Event, g: Frame)
    requires At(def, i.now, c0, log, q, [f] + rest)
    requires Act(def, i, log, Replay(def, log), f) == Action([e], multiset{}, [g])
    ensures At(def, i.now, c0, log + [e], q, [g] + rest)
  {
    Went(def, c0, log, q, f, rest, i, Action([e], multiset{}, [g]));
  }

  // ---- CreateTicket ------------------------------------------------------

  lemma OnCreateEvent(def: WorkflowDef, now: Time, c0: Config, log: Log, q: multiset<StepName>, rest: seq<Frame>)
    requires At(def, now, c0, log, q, [CreateEvent] + rest)
    ensures At(def, now, c0, log + [Event(now, TicketCreated(def.name, def.version))], q, [CreateStart] + rest)
  {
    WroteThen(def, c0, log, q, CreateEvent, rest, Tick(now), Event(now, TicketCreated(def.name, def.version)),
              CreateStart);
  }

  lemma OnCreateStart(def: WorkflowDef, now: Time, c0: Config, log: Log, q: multiset<StepName>, rest: seq<Frame>)
    requires At(def, now, c0, log, q, [CreateStart] + rest)
    ensures At(def, now, c0, log + [Event(now, RunStarted(def.initial))], q,
               [ScheduleStep(def.initial, ThenAssign)] + rest)
  {
    WroteThen(def, c0, log, q, CreateStart, rest, Tick(now), Event(now, RunStarted(def.initial)),
              ScheduleStep(def.initial, ThenAssign));
  }

  lemma OnCreateAssign(def: WorkflowDef, now: Time, c0: Config, log: Log, q: multiset<StepName>, rest: seq<Frame>)
    requires At(def, now, c0, log, q, [CreateAssign] + rest)
    ensures At(def, now, c0, log + [Event(now, TicketAssigned)], q, [Refresh] + rest)
  {
    WroteThen(def, c0, log, q, CreateAssign, rest, Tick(now), Event(now, TicketAssigned), Refresh);
  }

  // ---- dispatch ----------------------------------------------------------

  lemma OnRefresh(def: WorkflowDef, now: Time, c0: Config, log: Log, q: multiset<StepName>, rest: seq<Frame>)
    requires At(def, now, c0, log, q, [Refresh] + rest) && log != []
    ensures At(def, now, c0, log, q, [Dispatch(Replay(def, log))] + rest)
  {
    Became(def, c0, log, q, Refresh, rest, Tick(now), Dispatch(Replay(def, log)));
  }

  lemma OnDispatch(def: WorkflowDef, now: Time, c0: Config, log: Log, q: multiset<StepName>, run: RunState,
        rest: seq<Frame>)
    requires At(def, now, c0, log, q, [Dispatch(run)] + rest)
    ensures Terminal(run.status) ==> At(def, now, c0, log, q, rest)
    ensures !Terminal(run.status) ==>
              At(def, now, c0, log, q,
                 [CheckSla(run)] + ([ScanSteps(run, run.steps.Keys)] + ([ScanApprovals(run, run.steps.Keys)] + rest)))
  {
    if Terminal(run.status) {
      Returned(def, c0, log, q, Dispatch(run), rest, Tick(now));
    } else {
      var f, g, h := CheckSla(run), ScanSteps(run, run.steps.Keys), ScanApprovals(run, run.steps.Keys);
      Went(def, c0, log, q, Dispatch(run), rest, Tick(now), Go([f, g, h]));
      assert log + [] == log;
      Three(f, g, h, rest);
    }
  }

  lemma Pair(f: Frame, g: Frame, rest: seq<Frame>)
    ensures [f, g] + rest == [f] + ([g] + rest)
  {
  }

  lemma Three(f: Frame, g: Frame, h: Frame, rest: seq<Frame>)
    ensures [f, g, h] + rest == [f] + ([g] + ([h] + rest))
  {
  }

  function Scan(after: bool, run: RunState, todo: set<StepName>): Frame {
    if after then ScanAfter(run, todo) else ScanSteps(run, todo)
  }

  lemma OnScanEnd(def: WorkflowDef, now: Time, c0: Config, log: Log, q: multiset<StepName>, f: Frame, rest: seq<Frame>)
    requires At(def, now, c0, log, q, [f] + rest) && ScanFrame(f) && f.todo == {}
    ensures At(def, now, c0, log, q, rest)
  {
    Returned(def, c0, log, q, f, rest, Tick(now));
  }

  /** A loop over the steps submits the task s. */
  lemma OnScanTask(def: WorkflowDef, now: Time, c0: Config, log: Log, q: multiset<StepName>, after: bool, run: RunState,
        todo: set<StepName>, s: StepName, rest: seq<Frame>)
    requires At(def, now, c0, log, q, [Scan(after, run, todo)] + rest) && s in todo && s in run.steps
    requires TaskReady(run.steps[s], now) || (after && run.steps[s].kind == Task && run.steps[s].status == SPending)
    ensures At(def, now, c0, log, q + multiset{s}, [Scan(after, run, todo - {s})] + rest)
  {
    Went(def, c0, log, q, Scan(after, run, todo), rest, Input(now, s, NoHandler),
         Action([], multiset{s}, [Scan(after, run, todo - {s})]));
    assert log + [] == log;
  }

  /** A loop over the steps fires the timer of s. */
  lemma OnScanTimer(def: WorkflowDef, now: Time, c0: Config, log: Log, q: multiset<StepName>, after: bool,
        run: RunState, todo: set<StepName>, s: StepName, rest: seq<Frame>)
    requires At(def, now, c0, log, q, [Scan(after, run, todo)] + rest) && s in todo && s in run.steps
    requires TimerDue(run.steps[s], now)
    ensures At(def, now, c0, log, q, [FireTimer(run, s)] + ([Scan(after, run, todo - {s})] + rest))
  {
    Called(def, c0, log, q, Scan(after, run, todo), rest, Input(now, s, NoHandler), FireTimer(run, s),
           Scan(after, run, todo - {s}));
  }

  lemma OnScanNothing(def: WorkflowDef, now: Time, c0: Config, log: Log, q: multiset<StepName>, after: bool,
        run: RunState, todo: set<StepName>, s: StepName, rest: seq<Frame>)
    requires At(def, now, c0, log, q, [Scan(after, run, todo)] + rest) && s in todo && s in run.steps
    requires !TaskReady(run.steps[s], now) && !TimerDue(run.steps[s], now)
    requires after ==> !(run.steps[s].kind == Task && run.steps[s].status == SPending)
    ensures At(def, now, c0, log, q, [Scan(after, run, todo - {s})] + rest)
  {
    Became(def, c0, log, q, Scan(after, run, todo), rest, Input(now, s, NoHandler), Scan(after, run, todo - {s}));
  }

  predicate Parked(run: RunState, s: StepName) {
    s in run.steps && run.steps[s].kind == Approval && run.steps[s].status == SWaiting && run.steps[s].approval.Some?
  }

  lemma OnScanApproval(def: WorkflowDef, now: Time, c0: Config, log: Log, q: multiset<StepName>, run: RunState,
        todo: set<StepName>, s: StepName, rest: seq<Frame>)
    requires At(def, now, c0, log, q, [ScanApprovals(run, todo)] + rest) && s in todo && s in run.steps
    ensures Parked(run, s) ==>
              At(def, now, c0, log, q, [AdvanceApproval(run, s)] + ([ScanApprovals(run, todo - {s})] + rest))
    ensures !Parked(run, s) ==> At(def, now, c0, log, q, [ScanApprovals(run, todo - {s})] + rest)
  {
    if Parked(run, s) {
      Called(def, c0, log, q, ScanApprovals(run, todo), rest, Input(now, s, NoHandler), AdvanceApproval(run, s),
             ScanApprovals(run, todo - {s}));
    } else {
      Became(def, c0, log, q, ScanApprovals(run, todo), rest, Input(now, s, NoHandler), ScanApprovals(run, todo - {s}));
    }
  }

  // ---- CheckSLA, jumpTo --------------------------------------------------

  predicate SlaOff(def: WorkflowDef, run: RunState) {
    def.slas == [] || (run.status != RActive && run.status != RWaiting)
  }

  lemma OnCheckSla(def: WorkflowDef, now: Time, c0: Config, log: Log, q: multiset<StepName>, run: RunState,
        rest: seq<Frame>)
    requires At(def, now, c0, log, q, [CheckSla(run)] + rest)
    ensures SlaOff(def, run) ==> At(def, now, c0, log, q, rest)
    ensures !SlaOff(def, run) ==> At(def, now, c0, log, q, [SlaLoop(run, Breached(log), 0, now)] + rest)
  {
    if SlaOff(def, run) {
      Returned(def, c0, log, q, CheckSla(run), rest, Tick(now));
    } else {
      Became(def, c0, log, q, CheckSla(run), rest, Tick(now), SlaLoop(run, Breached(log), 0, now));
    }
  }

  lemma OnSlaEnd(def: WorkflowDef, now: Time, c0: Config, log: Log, q: multiset<StepName>, run: RunState,
        flags: set<string>, at: Time, rest: seq<Frame>)
    requires At(def, now, c0, log, q, [SlaLoop(run, flags, |def.slas|, at)] + rest)
    ensures At(def, now, c0, log, q, rest)
  {
    Returned(def, c0, log, q, SlaLoop(run, flags, |def.slas|, at), rest, Tick(now));
  }

  predicate SlaPasses(def: WorkflowDef, run: RunState, flags: set<string>, k: nat, at: Time)
    requires k < |def.slas|
  {
    def.slas[k].name in flags || at <= run.createdAt + def.slas[k].duration
  }

  lemma OnSlaSkip(def: WorkflowDef, now: Time, c0: Config, log: Log, q: multiset<StepName>, run: RunState,
        flags: set<string>, k: nat, at: Time, rest: seq<Frame>)
    requires At(def, now, c0, log, q, [SlaLoop(run, flags, k, at)] + rest) && k < |def.slas|
    requires SlaPasses(def, run, flags, k, at)
    ensures At(def, now, c0, log, q, [SlaLoop(run, flags, k + 1, at)] + rest)
  {
    Became(def, c0, log, q, SlaLoop(run, flags, k, at), rest, Tick(now), SlaLoop(run, flags, k + 1, at));
  }

  lemma ActSlaLoop(def: WorkflowDef, i: Input, log: Log, cur: RunState, run: RunState, flags: set<string>, k: nat,
        at: Time)
    requires k < |def.slas| && !SlaPasses(def, run, flags, k, at)
    ensures Act(def, i, log, cur, SlaLoop(run, flags, k, at)) ==
              Action([Event(i.now, SlaBreached(def.slas[k].name, run.current))], multiset{},
                     if def.slas[k].onBreach != ""
                     then [JumpTo(run, def.slas[k].onBreach), SlaLoop(run, flags, k + 1, at)]
                     else [SlaLoop(run, flags, k + 1, at)])
  {
  }

  lemma OnSlaFlag(def: WorkflowDef, now: Time, c0: Config, log: Log, q: multiset<StepName>, run: RunState,
        flags: set<string>, k: nat, at: Time, rest: seq<Frame>)
    requires At(def, now, c0, log, q, [SlaLoop(run, flags, k, at)] + rest) && k < |def.slas|
    requires !SlaPasses(def, run, flags, k, at)
    ensures def.slas[k].onBreach == "" ==>
              At(def, now, c0, log + [Event(now, SlaBreached(def.slas[k].name, run.current))], q,
                 [SlaLoop(run, flags, k + 1, at)] + rest)
    ensures def.slas[k].onBreach != "" ==>
              At(def, now, c0, log + [Event(now, SlaBreached(def.slas[k].name, run.current))], q,
                 [JumpTo(run, def.slas[k].onBreach)] + ([SlaLoop(run, flags, k + 1, at)] + rest))
  {
    hide Act, At, Replay, SlaPasses;
    ActSlaLoop(def, Tick(now), log, Replay(def, log), run, flags, k, at);
    var e := Event(now, SlaBreached(def.slas[k].name, run.current));
    var f, next := SlaLoop(run, flags, k, at), SlaLoop(run, flags, k + 1, at);
    if def.slas[k].onBreach == "" {
      WroteThen(def, c0, log, q, f, rest, Tick(now), e, next);
    } else {
      var jump := JumpTo(run, def.slas[k].onBreach);
      Pair(jump, next, rest);
      Went(def, c0, log, q, f, rest, Tick(now), Action([e], multiset{}, [jump, next]));
      assert q + multiset{} == q;
    }
  }

  predicate StepActive(run: RunState, s: StepName) {
    s in run.steps && Active(run.steps[s].status)
  }

  lemma OnJumpTo(def: WorkflowDef, now: Time, c0: Config, log: Log, q: multiset<StepName>, run: RunState, s: StepName,
        rest: seq<Frame>)
    requires At(def, now, c0, log, q, [JumpTo(run, s)] + rest)
    ensures StepActive(run, s) ==> At(def, now, c0, log, q, rest)
    ensures !StepActive(run, s) ==> At(def, now, c0, log, q, [ScheduleStep(s, ThenDispatch)] + rest)
  {
    if StepActive(run, s) {
      Returned(def, c0, log, q, JumpTo(run, s), rest, Tick(now));
    } else {
      Became(def, c0, log, q, JumpTo(run, s), rest, Tick(now), ScheduleStep(s, ThenDispatch));
    }
  }

  // ---- scheduleStep ------------------------------------------------------

  /** scheduleStep finds the step and what its kind needs. */
  predicate Schedulable(def: WorkflowDef, s: StepName) {
    && Declared(def, s)
    && (KindOf(def, s) == Delay ==> Lookup(def, s).value.delay.Some?)
    && (KindOf(def, s) == Approval ==> ChainOf(def, s) != [])
  }

  lemma ActScheduleStep(def: WorkflowDef, i: Input, log: Log, run: RunState, s: StepName, then_: After)
    ensures Act(def, i, log, run, ScheduleStep(s, then_)) ==
              if !Schedulable(def, s) then Go([])
              else if KindOf(def, s) == Approval then Go([RequestFirst(s, i.now, then_)])
              else Go([EmitScheduled(s, i.now, then_)])
  {
  }

  lemma OnScheduleStep(def: WorkflowDef, now: Time, c0: Config, log: Log, q: multiset<StepName>, s: StepName,
        then_: After, rest: seq<Frame>)
    requires At(def, now, c0, log, q, [ScheduleStep(s, then_)] + rest)
    ensures !Schedulable(def, s) ==> At(def, now, c0, log, q, rest)
    ensures Schedulable(def, s) && KindOf(def, s) != Approval ==>
              At(def, now, c0, log, q, [EmitScheduled(s, now, then_)] + rest)
    ensures Schedulable(def, s) && KindOf(def, s) == Approval ==>
              At(def, now, c0, log, q, [RequestFirst(s, now, then_)] + rest)
  {
    var i := Tick(now);
    ActScheduleStep(def, i, log, Replay(def, log), s, then_);
    if !Schedulable(def, s) {
      Returned(def, c0, log, q, ScheduleStep(s, then_), rest, i);
    } else if KindOf(def, s) != Approval {
      Became(def, c0, log, q, ScheduleStep(s, then_), rest, i, EmitScheduled(s, now, then_));
    } else {
      Became(def, c0, log, q, ScheduleStep(s, then_), rest, i, RequestFirst(s, now, then_));
    }
  }

  function FirstRequest(def: WorkflowDef, s: StepName): Body
    requires ChainOf(def, s) != []
  {
    ApprovalRequested(s, 0, ChainOf(def, s)[0].role, ChainOf(def, s)[0].user, |ChainOf(def, s)|)
  }

  lemma OnRequestFirst(def: WorkflowDef, now: Time, c0: Config, log: Log, q: multiset<StepName>, s: StepName, at: Time,
        then_: After, rest: seq<Frame>)
    requires At(def, now, c0, log, q, [RequestFirst(s, at, then_)] + rest) && ChainOf(def, s) != []
    ensures At(def, now, c0, log + [Event(now, FirstRequest(def, s))], q, [EmitScheduled(s, at, then_)] + rest)
  {
    WroteThen(def, c0, log, q, RequestFirst(s, at, then_), rest, Tick(now), Event(now, FirstRequest(def, s)),
              EmitScheduled(s, at, then_));
  }

  function AfterFrame(then_: After): Frame {
    if then_ == ThenAssign then CreateAssign else Refresh
  }

  lemma OnEmitScheduled(def: WorkflowDef, now: Time, c0: Config, log: Log, q: multiset<StepName>, s: StepName, at: Time,
        then_: After, rest: seq<Frame>)
    requires At(def, now, c0, log, q, [EmitScheduled(s, at, then_)] + rest)
    ensures At(def, now, c0, log + [Event(at, ScheduledBody(def, s, at))], q, [AfterFrame(then_)] + rest)
  {
    WroteThen(def, c0, log, q, EmitScheduled(s, at, then_), rest, Tick(now), Event(at, ScheduledBody(def, s, at)),
              AfterFrame(then_));
  }

  // ---- advance, fireTimer, advanceApproval -------------------------------

  lemma OnFireTimer(def: WorkflowDef, now: Time, c0: Config, log: Log, q: multiset<StepName>, run: RunState,
        s: StepName, rest: seq<Frame>)
    requires At(def, now, c0, log, q, [FireTimer(run, s)] + rest)
    ensures At(def, now, c0, log + [Event(now, TimerFired(s))], q, [CompleteStep(run, s, map[])] + rest)
  {
    WroteThen(def, c0, log, q, FireTimer(run, s), rest, Tick(now), Event(now, TimerFired(s)),
              CompleteStep(run, s, map[]));
  }

  lemma OnCompleteStep(def: WorkflowDef, now: Time, c0: Config, log: Log, q: multiset<StepName>, run: RunState,
        s: StepName, out: Output, rest: seq<Frame>)
    requires At(def, now, c0, log, q, [CompleteStep(run, s, out)] + rest)
    ensures At(def, now, c0, log + [Event(now, StepCompleted(s, out))], q, [Advance(run, s, true)] + rest)
  {
    WroteThen(def, c0, log, q, CompleteStep(run, s, out), rest, Tick(now), Event(now, StepCompleted(s, out)),
              Advance(run, s, true));
  }

  predicate HasGrant(run: RunState, s: StepName) {
    s in run.steps && run.steps[s].approval.Some? && run.steps[s].approval.value.status == LinkGranted
  }

  function NextRequest(a: ApprovalState, s: StepName): Body
    requires a.index + 1 < |a.chain|
  {
    ApprovalRequested(s, a.index + 1, a.chain[a.index + 1].role, a.chain[a.index + 1].user, |a.chain|)
  }

  lemma ActAdvanceApproval(def: WorkflowDef, i: Input, log: Log, cur: RunState, run: RunState, s: StepName)
    ensures Act(def, i, log, cur, AdvanceApproval(run, s)) ==
              if !HasGrant(run, s) then Go([])
              else
                var a := run.steps[s].approval.value;
                if a.index + 1 < |a.chain| then Action([Event(i.now, NextRequest(a, s))], multiset{}, [])
                else Go([CompleteStep(run, s, map[])])
  {
  }

  lemma OnAdvanceApproval(def: WorkflowDef, now: Time, c0: Config, log: Log, q: multiset<StepName>, run: RunState,
        s: StepName, rest: seq<Frame>)
    requires At(def, now, c0, log, q, [AdvanceApproval(run, s)] + rest)
    ensures !HasGrant(run, s) ==> At(def, now, c0, log, q, rest)
    ensures HasGrant(run, s) && run.steps[s].approval.value.index + 1 < |run.steps[s].approval.value.chain| ==>
              At(def, now, c0, log + [Event(now, NextRequest(run.steps[s].approval.value, s))], q, rest)
    ensures HasGrant(run, s) && run.steps[s].approval.value.index + 1 >= |run.steps[s].approval.value.chain| ==>
              At(def, now, c0, log, q, [CompleteStep(run, s, map[])] + rest)
  {
    hide Act, At, Replay;
    ActAdvanceApproval(def, Tick(now), log, Replay(def, log), run, s);
    if !HasGrant(run, s) {
      Returned(def, c0, log, q, AdvanceApproval(run, s), rest, Tick(now));
    } else if run.steps[s].approval.value.index + 1 < |run.steps[s].approval.value.chain| {
      Wrote(def, c0, log, q, AdvanceApproval(run, s), rest, Tick(now),
            Event(now, NextRequest(run.steps[s].approval.value, s)));
    } else {
      Became(def, c0, log, q, AdvanceApproval(run, s), rest, Tick(now), CompleteStep(run, s, map[]));
    }
  }

  /** The event that ends a run after step s. */
  function EndingBody(run: RunState, s: StepName, ok: bool): Body {
    if ok && !run.failed then RunCompleted(s) else RunFailed(s, if s in run.steps then run.steps[s].error else NoReason)
  }

  lemma OnAdvance(def: WorkflowDef, now: Time, c0: Config, log: Log, q: multiset<StepName>, run: RunState, s: StepName,
        ok: bool, rest: seq<Frame>)
    requires At(def, now, c0, log, q, [Advance(run, s, ok)] + rest)
    ensures SuccessorOf(def, s, ok) != "" ==>
              At(def, now, c0, log, q, [ScheduleStep(SuccessorOf(def, s, ok), ThenDispatch)] + rest)
    ensures SuccessorOf(def, s, ok) == "" ==> At(def, now, c0, log + [Event(now, EndingBody(run, s, ok))], q, rest)
  {
    if SuccessorOf(def, s, ok) != "" {
      Became(def, c0, log, q, Advance(run, s, ok), rest, Tick(now),
             ScheduleStep(SuccessorOf(def, s, ok), ThenDispatch));
    } else {
      Wrote(def, c0, log, q, Advance(run, s, ok), rest, Tick(now), Event(now, EndingBody(run, s, ok)));
    }
  }

  // ---- executeTask, handleTaskFailure, failStep --------------------------

  lemma OnExecuteTask(def: WorkflowDef, now: Time, c0: Config, log: Log, q: multiset<StepName>, s: StepName,
        rest: seq<Frame>)
    requires At(def, now, c0, log, q, [ExecuteTask(s)] + rest) && log != []
    ensures At(def, now, c0, log, q, [StartTask(Replay(def, log), s)] + rest)
  {
    Became(def, c0, log, q, ExecuteTask(s), rest, Tick(now), StartTask(Replay(def, log), s));
  }

  lemma OnStartTask(def: WorkflowDef, now: Time, o: Outcome, c0: Config, log: Log, q: multiset<StepName>, run: RunState,
        s: StepName, rest: seq<Frame>)
    requires At(def, now, c0, log, q, [StartTask(run, s)] + rest)
    ensures !Declared(def, s) ==> At(def, now, c0, log, q, rest)
    ensures Declared(def, s) && o.NoHandler? ==>
              At(def, now, c0, log, q, [FailStep(run, s, NoHandlerFor(Lookup(def, s).value.task))] + rest)
    ensures Declared(def, s) && !o.NoHandler? ==>
              At(def, now, c0, log + [Event(now, StepStarted(s))], q, [RunHandler(run, s, |log|)] + rest)
  {
    if !Declared(def, s) {
      Returned(def, c0, log, q, StartTask(run, s), rest, Input(now, s, o));
    } else if o.NoHandler? {
      Became(def, c0, log, q, StartTask(run, s), rest, Input(now, s, o),
             FailStep(run, s, NoHandlerFor(Lookup(def, s).value.task)));
    } else {
      WroteThen(def, c0, log, q, StartTask(run, s), rest, Input(now, s, o), Event(now, StepStarted(s)),
                RunHandler(run, s, |log|));
    }
  }

  lemma OnRunHandler(def: WorkflowDef, now: Time, o: Outcome, c0: Config, log: Log, q: multiset<StepName>,
        run: RunState, s: StepName, start: nat, rest: seq<Frame>)
    requires At(def, now, c0, log, q, [RunHandler(run, s, start)] + rest)
    ensures o.Succeeds? ==> At(def, now, c0, log, q, [CompleteStep(run, s, o.output)] + rest)
    ensures o.Fails? ==> At(def, now, c0, log, q, [TaskFailed(run, s, Said(o.reason), start)] + rest)
  {
    if o.Succeeds? {
      Became(def, c0, log, q, RunHandler(run, s, start), rest, Input(now, s, o), CompleteStep(run, s, o.output));
    } else if o.Fails? {
      Became(def, c0, log, q, RunHandler(run, s, start), rest, Input(now, s, o),
             TaskFailed(run, s, Said(o.reason), start));
    }
  }

  lemma OnTaskFailed(def: WorkflowDef, now: Time, c0: Config, log: Log, q: multiset<StepName>, run: RunState,
        s: StepName, reason: Reason, start: nat, rest: seq<Frame>)
    requires At(def, now, c0, log, q, [TaskFailed(run, s, reason, start)] + rest)
    ensures At(def, now, c0, log, q, [HandleFailure(Replay(def, log), s, reason, start)] + rest)
  {
    Became(def, c0, log, q, TaskFailed(run, s, reason, start), rest, Tick(now),
           HandleFailure(Replay(def, log), s, reason, start));
  }

  predicate Retries(def: WorkflowDef, run: RunState, s: StepName) {
    s in run.steps && Declared(def, s) && run.steps[s].attempt < MaxAttempts(Lookup(def, s).value)
  }

  lemma OnHandleFailure(def: WorkflowDef, now: Time, c0: Config, log: Log, q: multiset<StepName>, run: RunState,
        s: StepName, reason: Reason, start: nat, rest: seq<Frame>)
    requires At(def, now, c0, log, q, [HandleFailure(run, s, reason, start)] + rest) && s in run.steps
    requires Declared(def, s)
    ensures Retries(def, run, s) ==>
              At(def, now, c0, log + [Event(now, StepFailed(s, reason, run.steps[s].attempt))], q,
                 [Reschedule(s, start)] + rest)
    ensures !Retries(def, run, s) ==> At(def, now, c0, log, q, [FailStep(run, s, reason)] + rest)
  {
    if Retries(def, run, s) {
      WroteThen(def, c0, log, q, HandleFailure(run, s, reason, start), rest, Tick(now),
                Event(now, StepFailed(s, reason, run.steps[s].attempt)), Reschedule(s, start));
    } else {
      Became(def, c0, log, q, HandleFailure(run, s, reason, start), rest, Tick(now), FailStep(run, s, reason));
    }
  }

  /** The STEP_SCHEDULED payload of a retry: after the backoff, if one is configured. */
  function RetryBody(def: WorkflowDef, s: StepName, now: Time): Body
    requires Declared(def, s)
  {
    var backoff := Lookup(def, s).value.retry.delay;
    StepScheduled(s, Task, if backoff > 0 then Some(now + backoff) else None)
  }

  lemma OnReschedule(def: WorkflowDef, now: Time, c0: Config, log: Log, q: multiset<StepName>, s: StepName, start: nat,
        rest: seq<Frame>)
    requires At(def, now, c0, log, q, [Reschedule(s, start)] + rest) && Declared(def, s)
    ensures At(def, now, c0, log + [Event(now, RetryBody(def, s, now))], q, [Refresh] + rest)
  {
    WroteThen(def, c0, log, q, Reschedule(s, start), rest, Tick(now), Event(now, RetryBody(def, s, now)), Refresh);
  }

  lemma OnFailStep(def: WorkflowDef, now: Time, c0: Config, log: Log, q: multiset<StepName>, run: RunState, s: StepName,
        reason: Reason, rest: seq<Frame>)
    requires At(def, now, c0, log, q, [FailStep(run, s, reason)] + rest) && s in run.steps
    ensures At(def, now, c0, log + [Event(now, StepFailed(s, reason, run.steps[s].attempt))], q,
               [MarkFailing(run, s, reason)] + rest)
  {
    WroteThen(def, c0, log, q, FailStep(run, s, reason), rest, Tick(now),
              Event(now, StepFailed(s, reason, run.steps[s].attempt)), MarkFailing(run, s, reason));
  }

  lemma OnMarkFailing(def: WorkflowDef, now: Time, c0: Config, log: Log, q: multiset<StepName>, run: RunState,
        s: StepName, reason: Reason, rest: seq<Frame>)
    requires At(def, now, c0, log, q, [MarkFailing(run, s, reason)] + rest)
    ensures At(def, now, c0, log + [Event(now, RunFailing(s, reason))], q, [Advance(run, s, false)] + rest)
  {
    WroteThen(def, c0, log, q, MarkFailing(run, s, reason), rest, Tick(now), Event(now, RunFailing(s, reason)),
              Advance(run, s, false));
  }

  // ---- Approve, Reject, Cancel -------------------------------------------

  lemma ActApprove(def: WorkflowDef, i: Input, log: Log, cur: RunState, s: StepName, who: string)
    ensures Act(def, i, log, cur, Approve(s, who)) ==
              if log == [] || !MayDecide(cur, s, who) then Go([])
              else Go([Grant(s, cur.steps[s].approval.value.index, who)])
  {
  }

  lemma OnApprove(def: WorkflowDef, now: Time, c0: Config, log: Log, q: multiset<StepName>, s: StepName, who: string,
        rest: seq<Frame>)
    requires At(def, now, c0, log, q, [Approve(s, who)] + rest) && log != []
    ensures !MayDecide(Replay(def, log), s, who) ==> At(def, now, c0, log, q, rest)
    ensures MayDecide(Replay(def, log), s, who) ==>
              At(def, now, c0, log, q, [Grant(s, Replay(def, log).steps[s].approval.value.index, who)] + rest)
  {
    hide Act, At, Replay, Authorized;
    ActApprove(def, Tick(now), log, Replay(def, log), s, who);
    if MayDecide(Replay(def, log), s, who) {
      Became(def, c0, log, q, Approve(s, who), rest, Tick(now),
             Grant(s, Replay(def, log).steps[s].approval.value.index, who));
    } else {
      Returned(def, c0, log, q, Approve(s, who), rest, Tick(now));
    }
  }

  lemma OnGrant(def: WorkflowDef, now: Time, c0: Config, log: Log, q: multiset<StepName>, s: StepName, index: nat,
        who: string, rest: seq<Frame>)
    requires At(def, now, c0, log, q, [Grant(s, index, who)] + rest)
    ensures At(def, now, c0, log + [Event(now, ApprovalGranted(s, index, who))], q, [AfterGrant(s)] + rest)
  {
    WroteThen(def, c0, log, q, Grant(s, index, who), rest, Tick(now), Event(now, ApprovalGranted(s, index, who)),
              AfterGrant(s));
  }

  lemma OnAfterGrant(def: WorkflowDef, now: Time, c0: Config, log: Log, q: multiset<StepName>, s: StepName,
        rest: seq<Frame>)
    requires At(def, now, c0, log, q, [AfterGrant(s)] + rest)
    ensures At(def, now, c0, log, q,
               [AdvanceApproval(Replay(def, log), s)] + ([DispatchAfter(Replay(def, log))] + rest))
  {
    Called(def, c0, log, q, AfterGrant(s), rest, Tick(now), AdvanceApproval(Replay(def, log), s),
           DispatchAfter(Replay(def, log)));
  }

  lemma ActDispatchAfter(def: WorkflowDef, i: Input, log: Log, cur: RunState, run: RunState)
    ensures Act(def, i, log, cur, DispatchAfter(run)) ==
              if Terminal(run.status) then Go([]) else Go([ScanAfter(run, run.steps.Keys)])
  {
  }

  lemma OnDispatchAfter(def: WorkflowDef, now: Time, c0: Config, log: Log, q: multiset<StepName>, run: RunState,
        rest: seq<Frame>)
    requires At(def, now, c0, log, q, [DispatchAfter(run)] + rest)
    ensures Terminal(run.status) ==> At(def, now, c0, log, q, rest)
    ensures !Terminal(run.status) ==> At(def, now, c0, log, q, [ScanAfter(run, run.steps.Keys)] + rest)
  {
    hide Act, At, Replay, Terminal;
    ActDispatchAfter(def, Tick(now), log, Replay(def, log), run);
    if Terminal(run.status) {
      Returned(def, c0, log, q, DispatchAfter(run), rest, Tick(now));
    } else {
      Became(def, c0, log, q, DispatchAfter(run), rest, Tick(now), ScanAfter(run, run.steps.Keys));
    }
  }

  lemma ActReject(def: WorkflowDef, i: Input, log: Log, cur: RunState, s: StepName, who: string, why: string)
    ensures Act(def, i, log, cur, Reject(s, who, why)) ==
              if log == [] || !MayDecide(cur, s, who) then Go([])
              else Go([AppendRejected(s, cur.steps[s].approval.value.index, who, why)])
  {
  }

  lemma OnReject(def: WorkflowDef, now: Time, c0: Config, log: Log, q: multiset<StepName>, s: StepName, who: string,
        why: string, rest: seq<Frame>)
    requires At(def, now, c0, log, q, [Reject(s, who, why)] + rest) && log != []
    ensures !MayDecide(Replay(def, log), s, who) ==> At(def, now, c0, log, q, rest)
    ensures MayDecide(Replay(def, log), s, who) ==>
              At(def, now, c0, log, q,
                 [AppendRejected(s, Replay(def, log).steps[s].approval.value.index, who, why)] + rest)
  {
    hide Act, At, Replay, Authorized;
    ActReject(def, Tick(now), log, Replay(def, log), s, who, why);
    if MayDecide(Replay(def, log), s, who) {
      Became(def, c0, log, q, Reject(s, who, why), rest, Tick(now),
             AppendRejected(s, Replay(def, log).steps[s].approval.value.index, who, why));
    } else {
      Returned(def, c0, log, q, Reject(s, who, why), rest, Tick(now));
    }
  }

  lemma OnAppendRejected(def: WorkflowDef, now: Time, c0: Config, log: Log, q: multiset<StepName>, s: StepName,
        index: nat, who: string, why: string, rest: seq<Frame>)
    requires At(def, now, c0, log, q, [AppendRejected(s, index, who, why)] + rest)
    ensures At(def, now, c0, log + [Event(now, ApprovalRejected(s, index, who, why))], q, [FailRejected(s, why)] + rest)
  {
    WroteThen(def, c0, log, q, AppendRejected(s, index, who, why), rest, Tick(now),
              Event(now, ApprovalRejected(s, index, who, why)), FailRejected(s, why));
  }

  lemma OnFailRejected(def: WorkflowDef, now: Time, c0: Config, log: Log, q: multiset<StepName>, s: StepName,
        why: string, rest: seq<Frame>)
    requires At(def, now, c0, log, q, [FailRejected(s, why)] + rest)
    ensures At(def, now, c0, log + [Event(now, RunFailed(s, ApprovalRejection(why)))], q, rest)
  {
    Wrote(def, c0, log, q, FailRejected(s, why), rest, Tick(now), Event(now, RunFailed(s, ApprovalRejection(why))));
  }

  lemma ActCancel(def: WorkflowDef, i: Input, log: Log, cur: RunState, why: string)
    ensures Act(def, i, log, cur, Cancel(why)) ==
              if log == [] || Terminal(cur.status) then Go([]) else Go([AppendCancelled(why)])
  {
  }

  lemma OnCancel(def: WorkflowDef, now: Time, c0: Config, log: Log, q: multiset<StepName>, why: string,
        rest: seq<Frame>)
    requires At(def, now, c0, log, q, [Cancel(why)] + rest) && log != []
    ensures Terminal(Replay(def, log).status) ==> At(def, now, c0, log, q, rest)
    ensures !Terminal(Replay(def, log).status) ==> At(def, now, c0, log, q, [AppendCancelled(why)] + rest)
  {
    hide Act, At, Replay, Terminal;
    ActCancel(def, Tick(now), log, Replay(def, log), why);
    if Terminal(Replay(def, log).status) {
      Returned(def, c0, log, q, Cancel(why), rest, Tick(now));
    } else {
      Became(def, c0, log, q, Cancel(why), rest, Tick(now), AppendCancelled(why));
    }
  }

  lemma OnAppendCancelled(def: WorkflowDef, now: Time, c0: Config, log: Log, q: multiset<StepName>, why: string,
        rest: seq<Frame>)
    requires At(def, now, c0, log, q, [AppendCancelled(why)] + rest)
    ensures At(def, now, c0, log + [Event(now, RunCancelled(why))], q, rest)
  {
    Wrote(def, c0, log, q, AppendCancelled(why), rest, Tick(now), Event(now, RunCancelled(why)));
  }
}
