/** Where the rounds of atomic operations break (engine/engine.go:431-448, 583-617; engine/sla.go:34-60). A sweep that
    begins with a grant which was not advanced advances its old snapshot at its end. When an escalation, or a delay that
    a task executed twice has armed, comes back to the approval in between, a round is completed without a grant of its
    own. `Rounds.RoundsRespected` excludes both. */
module RoundLimits {
  import opened Model
  import opened Replaying
  import opened Machine
  import opened Moves
  import opened Reaching
  import opened Idempotence
  import opened Approvals
  import opened ApprovalRace
  import opened Resting
  import opened Rounds

  // ---- a grant that is not advanced ------------------------------------------

  /** A snapshot in which the first link of the step is pending. */
  predicate Awaits(def: WorkflowDef, run: RunState, s: StepName) {
    && s in run.steps && run.steps[s].kind == Approval && run.steps[s].status == SWaiting
    && LinkIs(def, run, s, 0, LinkPending)
  }

  /** A snapshot in which the first link of the step is granted. */
  predicate IsGranted(def: WorkflowDef, run: RunState, s: StepName) {
    Parked(run, s) && LinkIs(def, run, s, 0, LinkGranted)
  }

  lemma GrantGrants(def: WorkflowDef, l: Log, s: StepName, e: Event, who: string)
    requires Awaits(def, Replay(def, l), s) && IsStarted(def, l) && Authorized(ChainOf(def, s), 0, who)
    requires e.body == ApprovalGranted(s, 0, who)
    ensures MayDecide(Replay(def, l), s, who) && Replay(def, l).steps[s].approval.value.index == 0
    ensures var l' := l + [e];
            && IsStarted(def, l') && Breached(l') == Breached(l) && IsGranted(def, Replay(def, l'), s)
            && Replay(def, l').steps.Keys == Replay(def, l).steps.Keys
  {
    hide Authorized;
    ReplayAppend(def, l, e);
    BreachedAppend(l, e);
  }

  /** The step is granted, and the load after the grant fails. */
  lemma Approves(def: WorkflowDef, t: Time, l: Log, q: multiset<StepName>, s: StepName, who: string)
    requires Reached(def, t, l, q, []) && l != [] && IsStarted(def, l)
    requires Awaits(def, Replay(def, l), s) && Authorized(ChainOf(def, s), 0, who)
    ensures Reached(def, t, l + [Event(t, ApprovalGranted(s, 0, who))], q, [])
  {
    hide Reached, At, Replay, MayDecide, Authorized, Awaits, IsStarted, IsGranted;
    var e := Event(t, ApprovalGranted(s, 0, who));
    GrantGrants(def, l, s, e, who);
    var op := [Approve(s, who)] + [];
    var c := Config(l, q, op);
    Begun(def, t, l, q, Approve(s, who));
    AtStart(def, t, l, q, op);
    OnApprove(def, t, c, l, q, s, who, []);
    OnGrant(def, t, c, l, q, s, 0, who, []);
    Came(def, t, l, q, op, l + [e], q, [AfterGrant(s)] + []);
    Failed(def, Tick(t), l + [e], q, AfterGrant(s), []);
  }

  /** A new run after the first step was asked for its approval. */
  function AskedLog(def: WorkflowDef): Log
    requires ChainOf(def, def.initial) != []
  {
    Born(def) + [Event(1, FirstRequest(def, def.initial))]
  }

  lemma RequestAwaits(def: WorkflowDef, l: Log, s: StepName, at: Time)
    requires IsStarted(def, l) && ChainOf(def, s) != [] && KindOf(def, s) == Approval
    requires s in Replay(def, l).steps ==>
               Replay(def, l).steps[s].kind == Approval
               && (ApprovalIn(Replay(def, l), s).Some? ==>
                     ApprovalIn(Replay(def, l), s).value.chain == ChainOf(def, s))
    ensures var l' := l + [Event(at, FirstRequest(def, s))];
            && IsStarted(def, l') && Breached(l') == Breached(l) && Awaits(def, Replay(def, l'), s)
            && Replay(def, l').steps.Keys == Replay(def, l).steps.Keys + {s}
  {
    ReplayAppend(def, l, Event(at, FirstRequest(def, s)));
    BreachedAppend(l, Event(at, FirstRequest(def, s)));
  }

  lemma AskedReached(def: WorkflowDef)
    requires KindOf(def, def.initial) == Approval && ChainOf(def, def.initial) != []
    ensures var l := AskedLog(def);
            && l != [] && Reached(def, 1, l, multiset{}, []) && IsStarted(def, l) && Breached(l) == {}
            && Awaits(def, Replay(def, l), def.initial) && Replay(def, l).steps.Keys == {def.initial}
  {
    var s, q := def.initial, multiset{};
    assert Schedulable(def, s);
    BornState(def);
    RequestAwaits(def, Born(def), s, 1);
    hide Reached, At, Replay, Schedulable, IsStarted, Awaits;
    var stack := [ScheduleStep(s, ThenAssign)] + [];
    var c0 := Config(Born(def), q, stack);
    BornReached(def);
    AtStart(def, 1, Born(def), q, stack);
    OnScheduleStep(def, 1, c0, Born(def), q, s, ThenAssign, []);
    OnRequestFirst(def, 1, c0, Born(def), q, s, 1, ThenAssign, []);
    Came(def, 1, Born(def), q, stack, AskedLog(def), q, [EmitScheduled(s, 1, ThenAssign)] + []);
    EmitFails(def, 1, AskedLog(def), q, s, 1, ThenAssign, []);
  }

  // ---- advancing it ----------------------------------------------------------

  lemma GrantedCompletes(def: WorkflowDef, run: RunState, s: StepName)
    requires IsGranted(def, run, s) && |ChainOf(def, s)| == 1
    ensures s in run.steps && HasGrant(run, s)
    ensures run.steps[s].approval.value.index + 1 >= |run.steps[s].approval.value.chain|
  {
  }

  /** The loop over the approvals of a snapshot completes the step. */
  lemma ScanCompletes(def: WorkflowDef, at: Time, l: Log, q: multiset<StepName>, run: RunState, s: StepName,
        rest: seq<Frame>)
    returns (below: seq<Frame>)
    requires IsGranted(def, run, s) && |ChainOf(def, s)| == 1
    requires Reached(def, at, l, q, [ScanApprovals(run, run.steps.Keys)] + rest)
    ensures below == [ScanApprovals(run, run.steps.Keys - {s})] + rest
    ensures Reached(def, at, l + [Event(at, StepCompleted(s, map[]))], q, [Advance(run, s, true)] + below)
  {
    assert Parked(run, s);
    GrantedCompletes(def, run, s);
    hide Reached, At, IsGranted, Parked, HasGrant;
    var stack := [ScanApprovals(run, run.steps.Keys)] + rest;
    var c0 := Config(l, q, stack);
    below := [ScanApprovals(run, run.steps.Keys - {s})] + rest;
    AtStart(def, at, l, q, stack);
    OnScanApproval(def, at, c0, l, q, run, run.steps.Keys, s, rest);
    OnAdvanceApproval(def, at, c0, l, q, run, s, below);
    OnCompleteStep(def, at, c0, l, q, run, s, map[], below);
    Came(def, at, l, q, stack, l + [Event(at, StepCompleted(s, map[]))], q, [Advance(run, s, true)] + below);
  }

  /** The completion of d asks for the approval of s, of one link. */
  predicate LeadsTo(def: WorkflowDef, d: StepName, s: StepName) {
    && SuccessorOf(def, d, true) == s != "" && Schedulable(def, s)
    && KindOf(def, s) == Approval && |ChainOf(def, s)| == 1
  }

  lemma RequestsNext(def: WorkflowDef, at: Time, l: Log, q: multiset<StepName>, run: RunState, d: StepName,
        s: StepName, rest: seq<Frame>)
    requires Reached(def, at, l, q, [Advance(run, d, true)] + rest) && LeadsTo(def, d, s)
    ensures Reached(def, at, l + [Event(at, FirstRequest(def, s))], q, rest)
  {
    hide Reached, At, Schedulable, SuccessorOf;
    var stack, l' := [Advance(run, d, true)] + rest, l + [Event(at, FirstRequest(def, s))];
    var c0 := Config(l, q, stack);
    AtStart(def, at, l, q, stack);
    OnAdvance(def, at, c0, l, q, run, d, true, rest);
    OnScheduleStep(def, at, c0, l, q, s, ThenDispatch, rest);
    OnRequestFirst(def, at, c0, l, q, s, at, ThenDispatch, rest);
    Came(def, at, l, q, stack, l', q, [EmitScheduled(s, at, ThenDispatch)] + rest);
    EmitFails(def, at, l', q, s, at, ThenDispatch, rest);
  }

  /** A dispatch that finds the grant completes the step and asks for its approval again. */
  lemma DispatchAsksAgain(def: WorkflowDef, at: Time, l: Log, q: multiset<StepName>, s: StepName, rest: seq<Frame>)
    returns (l': Log, q': multiset<StepName>)
    requires Reached(def, at, l, q, [Refresh] + rest) && l != [] && IsStarted(def, l)
    requires IsGranted(def, Replay(def, l), s) && LeadsTo(def, s, s)
    ensures Reached(def, at, l', q', rest) && l' != [] && l'[|l'| - 1].body == FirstRequest(def, s)
  {
    var run := Replay(def, l);
    assert !Terminal(run.status);
    hide Reached, At, Replay, IsStarted, Terminal, IsGranted, Schedulable, SuccessorOf;
    var keys := run.steps.Keys;
    var c0 := Config(l, q, [Refresh] + rest);
    var tail := [ScanApprovals(run, keys)] + rest;
    AtStart(def, at, l, q, [Refresh] + rest);
    OnRefresh(def, at, c0, l, q, rest);
    OnDispatch(def, at, c0, l, q, run, rest);
    Came(def, at, l, q, [Refresh] + rest, l, q, [CheckSla(run)] + ([ScanSteps(run, keys)] + tail));
    Failed(def, Tick(at), l, q, CheckSla(run), [ScanSteps(run, keys)] + tail);
    q' := ScanLeaves(def, at, l, q, run, keys, tail);
    var below := ScanCompletes(def, at, l, q', run, s, rest);
    var l1 := l + [Event(at, StepCompleted(s, map[]))];
    l' := l1 + [Event(at, FirstRequest(def, s))];
    RequestsNext(def, at, l1, q', run, s, s, below);
    ApprovalsLeave(def, at, l', q', run, keys - {s}, rest);
  }

  // ---- the breach ------------------------------------------------------------

  lemma {:induction false} GrantStaysGranted(def: WorkflowDef, l: Log, more: Log, s: StepName)
    requires IsGranted(def, Replay(def, l), s) && forall k :: 0 <= k < |more| ==> StepOf(more[k].body) != Some(s)
    ensures IsGranted(def, Replay(def, l + more), s)
    decreases |more|
  {
    if more != [] {
      var n := |more| - 1;
      GrantStaysGranted(def, l, more[..n], s);
      assert l + more == l + more[..n] + [more[n]];
      ReplayAppend(def, l + more[..n], more[n]);
      Untouching(def, Replay(def, l + more[..n]), more[n], s);
    } else {
      assert l + more == l;
    }
  }

  lemma Untouching(def: WorkflowDef, run: RunState, e: Event, s: StepName)
    requires StepOf(e.body) != Some(s) && IsGranted(def, run, s)
    ensures IsGranted(def, Apply(def, run, e), s)
  {
  }

  /** The turns of the loop over the SLAs append flags only. */
  lemma {:induction false} OnlyFlags(def: WorkflowDef, l: Log, run: RunState, flags: set<string>, k: nat, j: nat,
        at: Time)
    requires k <= j <= |def.slas|
    ensures var l' := Turns(def, l, run, flags, k, j, at);
            l <= l' && forall n :: |l| <= n < |l'| ==> l'[n].body.SlaBreached?
    decreases j
  {
    if j > k { OnlyFlags(def, l, run, flags, k, j - 1, at); }
  }

  lemma JumpKeepsGrant(def: WorkflowDef, l: Log, run: RunState, i: nat, at: Time, s: StepName)
    requires i < |def.slas| && Schedulable(def, def.slas[i].onBreach) && def.slas[i].onBreach != s
    requires IsStarted(def, l) && IsGranted(def, Replay(def, l), s)
    ensures var l' := Jumped(def, l, run, i, at);
            l' != [] && IsStarted(def, l') && IsGranted(def, Replay(def, l'), s)
  {
    var flag := [Event(at, SlaBreached(def.slas[i].name, run.current))];
    var more := flag + Scheduling(def, def.slas[i].onBreach, at);
    JumpedState(def, l, run, i, at);
    assert l + more == l + flag + Scheduling(def, def.slas[i].onBreach, at);
    ScheduledElse(def, s, def.slas[i].onBreach, at);
    hide IsGranted, Replay, Scheduling;
    GrantStaysGranted(def, l, more, s);
  }

  lemma ScheduledElse(def: WorkflowDef, s: StepName, c: StepName, at: Time)
    requires Schedulable(def, c) && c != s
    ensures forall k :: 0 <= k < |Scheduling(def, c, at)| ==> StepOf(Scheduling(def, c, at)[k].body) != Some(s)
  {
  }

  /** The loop of the sweep that jumped goes on to the loop over its approvals. */
  lemma StaleSweep(def: WorkflowDef, at: Time, l: Log, q: multiset<StepName>, run: RunState, i: nat, s: StepName)
    requires IsGranted(def, run, s) && |ChainOf(def, s)| == 1 && i <= |def.slas|
    requires Reached(def, at, l, q, [SlaLoop(run, {}, i, at)] + Below(run))
    requires l != [] && ApprovalRace.Opens(l[|l| - 1].body, s)
    ensures exists ds: seq<Deed> :: Forward(ds) && !EachRound(def, s, DoAll(def, IDLE, ds).log)
  {
    hide Reached, IsGranted, Turns, EachRound, Forward;
    var keys := run.steps.Keys;
    LoopLeaves(def, l, q, run, {}, i, at, Below(run));
    var l1 := Turns(def, l, run, {}, i, |def.slas|, at);
    OnlyFlags(def, l, run, {}, i, |def.slas|, at);
    var q' := ScanLeaves(def, at, l1, q, run, keys, [ScanApprovals(run, keys)] + []);
    StaleScan(def, at, l1, q', run, s, l);
  }

  /** The loop over the approvals of an old snapshot completes the step, although its approval was asked for again. */
  lemma StaleScan(def: WorkflowDef, at: Time, l: Log, q: multiset<StepName>, run: RunState, s: StepName, past: Log)
    requires IsGranted(def, run, s) && |ChainOf(def, s)| == 1
    requires Reached(def, at, l, q, [ScanApprovals(run, run.steps.Keys)] + [])
    requires past != [] && ApprovalRace.Opens(past[|past| - 1].body, s) && past <= l
    requires forall n :: |past| <= n < |l| ==> l[n].body.SlaBreached?
    ensures exists ds: seq<Deed> :: Forward(ds) && !EachRound(def, s, DoAll(def, IDLE, ds).log)
  {
    hide Reached, IsGranted, EachRound, GrantedInRound, Forward;
    NoneInRound(def, s, past, l);
    var below := ScanCompletes(def, at, l, q, run, s, []);
    var l' := l + [Event(at, StepCompleted(s, map[]))];
    assert l'[..|l'| - 1] == l;
    NotEachRound(def, s, l');
    ReachedBy(def, at, l', q, [Advance(run, s, true)] + below, s);
  }

  lemma ReachedBy(def: WorkflowDef, at: Time, l: Log, q: multiset<StepName>, stack: seq<Frame>, s: StepName)
    requires Reached(def, at, l, q, stack) && !EachRound(def, s, l)
    ensures exists ds: seq<Deed> :: Forward(ds) && !EachRound(def, s, DoAll(def, IDLE, ds).log)
  {
    hide EachRound;
    var ds: seq<Deed> :| Forward(ds) && By(ds, at) && DoAll(def, IDLE, ds) == Config(l, q, stack);
  }

  /** In a run at rest in which a step of one link that leads to itself is granted, the breach of an SLA that escalates
      to a step which is not active breaks the round. */
  lemma BreachBreaks(def: WorkflowDef, t: Time, l: Log, q: multiset<StepName>, i: nat, s: StepName)
    requires Reached(def, t, l, q, []) && l != [] && IsStarted(def, l) && Breached(l) == {}
    requires IsGranted(def, Replay(def, l), s) && LeadsTo(def, s, s) && i < |def.slas|
    requires def.slas[i].onBreach !in {"", s} && Schedulable(def, def.slas[i].onBreach)
    requires !StepActive(Replay(def, l), def.slas[i].onBreach)
    ensures exists ds: seq<Deed> :: Forward(ds) && !EachRound(def, s, DoAll(def, IDLE, ds).log)
  {
    hide Reached, Schedulable, SuccessorOf, StepActive, Replay, IsStarted, Jumped, Below, Turns, IsGranted, EachRound,
         SlaPasses, KindOf, ChainOf, Forward;
    var run := Replay(def, l);
    var at := Max(t, Late(def.slas, run.createdAt));
    Reaching.Later(def, t, at, l, q, []);
    SweepOpens(def, at, l, q);
    LoopRuns(def, l, q, run, {}, 0, i, at, Below(run));
    var l1 := Turns(def, l, run, {}, 0, i, at);
    TurnsState(def, l, run, {}, 0, i, at);
    TurnsKeepGrant(def, l, run, i, at, s);
    Overdue(def, run, i, at);
    JumpDispatches(def, at, l1, q, run, i, Below(run));
    var l2 := Jumped(def, l1, run, i, at);
    JumpKeepsGrant(def, l1, run, i, at, s);
    var l3, q3 := DispatchAsksAgain(def, at, l2, q, s, [SlaLoop(run, {}, i + 1, at)] + Below(run));
    StaleSweep(def, at, l3, q3, run, i + 1, s);
  }

  lemma TurnsKeepGrant(def: WorkflowDef, l: Log, run: RunState, i: nat, at: Time, s: StepName)
    requires i <= |def.slas| && IsGranted(def, Replay(def, l), s)
    ensures IsGranted(def, Replay(def, Turns(def, l, run, {}, 0, i, at)), s)
  {
    hide IsGranted, Replay, Turns;
    var l1 := Turns(def, l, run, {}, 0, i, at);
    OnlyFlags(def, l, run, {}, 0, i, at);
    assert l1 == l + l1[|l|..];
    GrantStaysGranted(def, l, l1[|l|..], s);
  }

  lemma ComesBack(def: WorkflowDef)
    requires KindOf(def, def.initial) == Approval && |ChainOf(def, def.initial)| == 1
    requires SuccessorOf(def, def.initial, true) == def.initial != ""
    ensures LeadsTo(def, def.initial, def.initial)
  {
  }

  /** Every workflow that starts with an approval of one link and comes back to it, and has an SLA that escalates to
      another step: a run of atomic operations, on a clock that never goes back, completes a round without a grant of
      its own. */
  lemma EscalationBreaks(def: WorkflowDef, i: nat)
    requires KindOf(def, def.initial) == Approval && |ChainOf(def, def.initial)| == 1 && !AsksNobody(def, def.initial)
    requires SuccessorOf(def, def.initial, true) == def.initial != "" && i < |def.slas|
    requires def.slas[i].onBreach !in {"", def.initial} && Schedulable(def, def.slas[i].onBreach)
    ensures exists ds: seq<Deed> :: Forward(ds) && !EachRound(def, def.initial, DoAll(def, IDLE, ds).log)
  {
    hide Reached, LeadsTo, Replay, IsStarted, IsGranted, Awaits, Authorized, EachRound, AsksNobody, AskedLog, Forward;
    var s := def.initial;
    ComesBack(def);
    var who := Somebody(def, s);
    var e := Event(1, ApprovalGranted(s, 0, who));
    AskedReached(def);
    Approves(def, 1, AskedLog(def), multiset{}, s, who);
    GrantGrants(def, AskedLog(def), s, e, who);
    BreachBreaks(def, 1, AskedLog(def) + [e], multiset{}, i, s);
  }

  lemma Overdue(def: WorkflowDef, run: RunState, i: nat, at: Time)
    requires i < |def.slas| && run.createdAt + def.slas[i].duration < at
    ensures !SlaPasses(def, run, {}, i, at)
  {
  }

  // ---- a delay that leads to the approval ------------------------------------

  /** The log after the delay fired and its successor was asked for approval. */
  function DelayLog(def: WorkflowDef, l: Log, d: StepName, s: StepName, at: Time): Log
    requires ChainOf(def, s) != []
  {
    l + [Event(at, TimerFired(d))] + [Event(at, StepCompleted(d, map[]))] + [Event(at, FirstRequest(def, s))]
  }

  /** A sweep fires a delay, which asks for the approval, and comes to its second loop. */
  lemma DelayAsks(def: WorkflowDef, at: Time, l: Log, q: multiset<StepName>, d: StepName, s: StepName)
    returns (q': multiset<StepName>)
    requires Reached(def, at, l, q, []) && l != [] && IsStarted(def, l) && LeadsTo(def, d, s)
    requires d in Replay(def, l).steps && TimerDue(Replay(def, l).steps[d], at)
    ensures var run := Replay(def, l);
            Reached(def, at, DelayLog(def, l, d, s, at), q', [ScanApprovals(run, run.steps.Keys)] + []) && q <= q'
  {
    var run := Replay(def, l);
    hide Reached, At, Replay, IsStarted, TimerDue, Schedulable, SuccessorOf;
    var keys := run.steps.Keys;
    var tail := [ScanApprovals(run, keys)] + [];
    var stack, below := [Scan(false, run, keys)] + tail, [Scan(false, run, keys - {d})] + tail;
    var c0 := Config(l, q, stack);
    SlasUnread(def, at, l, q);
    AtStart(def, at, l, q, stack);
    OnScanTimer(def, at, c0, l, q, false, run, keys, d, tail);
    OnFireTimer(def, at, c0, l, q, run, d, below);
    var l1 := l + [Event(at, TimerFired(d))];
    OnCompleteStep(def, at, c0, l1, q, run, d, map[], below);
    var l2 := l1 + [Event(at, StepCompleted(d, map[]))];
    Came(def, at, l, q, stack, l2, q, [Advance(run, d, true)] + below);
    RequestsNext(def, at, l2, q, run, d, s, below);
    q' := ScanLeaves(def, at, DelayLog(def, l, d, s, at), q, run, keys - {d}, tail);
  }

  /** In a run at rest in which an approval of one link is granted and a delay that leads to it is due, a sweep breaks
      the round. */
  lemma DelayBreaks(def: WorkflowDef, at: Time, l: Log, q: multiset<StepName>, d: StepName, s: StepName)
    requires Reached(def, at, l, q, []) && l != [] && IsStarted(def, l) && LeadsTo(def, d, s)
    requires d in Replay(def, l).steps && TimerDue(Replay(def, l).steps[d], at) && IsGranted(def, Replay(def, l), s)
    ensures exists ds: seq<Deed> :: Forward(ds) && !EachRound(def, s, DoAll(def, IDLE, ds).log)
  {
    hide Reached, Replay, IsStarted, TimerDue, IsGranted, Forward, EachRound, Schedulable, SuccessorOf;
    var q' := DelayAsks(def, at, l, q, d, s);
    StaleScan(def, at, DelayLog(def, l, d, s, at), q', Replay(def, l), s, DelayLog(def, l, d, s, at));
  }

  // ---- a task that is executed twice -----------------------------------------

  /** The log after a task was executed and the delay that follows it was armed. */
  function ArmedLog(def: WorkflowDef, l: Log, a: StepName, d: StepName, at: Time): Log {
    l + [Event(at, StepStarted(a))] + [Event(at, StepCompleted(a, map[]))] + [Event(at, ScheduledBody(def, d, at))]
  }

  predicate Arms(def: WorkflowDef, a: StepName, d: StepName) {
    && Declared(def, a) && SuccessorOf(def, a, true) == d != "" && Schedulable(def, d) && KindOf(def, d) == Delay
  }

  lemma TaskArms(def: WorkflowDef, at: Time, l: Log, q: multiset<StepName>, a: StepName, d: StepName)
    requires Reached(def, at, l, q, []) && l != [] && a in q && Arms(def, a, d)
    ensures Reached(def, at, ArmedLog(def, l, a, d, at), q - multiset{a}, [])
  {
    hide Reached, At, Replay, Schedulable, SuccessorOf;
    var run, o, q' := Replay(def, l), Succeeds(map[]), q - multiset{a};
    var op := [ExecuteTask(a)] + [];
    var c0 := Config(l, q', op);
    var l1 := l + [Event(at, StepStarted(a))];
    var l2 := l1 + [Event(at, StepCompleted(a, map[]))];
    Begun(def, at, l, q, ExecuteTask(a));
    AtStart(def, at, l, q', op);
    OnExecuteTask(def, at, c0, l, q', a, []);
    OnStartTask(def, at, o, c0, l, q', run, a, []);
    OnRunHandler(def, at, o, c0, l1, q', run, a, |l|, []);
    OnCompleteStep(def, at, c0, l1, q', run, a, map[], []);
    OnAdvance(def, at, c0, l2, q', run, a, true, []);
    OnScheduleStep(def, at, c0, l2, q', d, ThenDispatch, []);
    OnEmitScheduled(def, at, c0, l2, q', d, at, ThenDispatch, []);
    Came(def, at, l, q', op, ArmedLog(def, l, a, d, at), q', [Refresh] + []);
    Failed(def, Tick(at), ArmedLog(def, l, a, d, at), q', Refresh, []);
  }

  /** When a delay that is armed at a time is due. */
  function DueAt(def: WorkflowDef, d: StepName, at: Time): (r: Time)
    requires Schedulable(def, d) && KindOf(def, d) == Delay
    ensures r >= at
  {
    Max(at, at + Lookup(def, d).value.delay.value)
  }

  lemma ArmedState(def: WorkflowDef, l: Log, a: StepName, d: StepName, at: Time)
    requires l != [] && IsStarted(def, l) && Arms(def, a, d) && a != d
    requires d in Replay(def, l).steps ==> Replay(def, l).steps[d].kind == Delay
    ensures var l' := ArmedLog(def, l, a, d, at); var run := Replay(def, l');
            && l' != [] && IsStarted(def, l') && run.steps.Keys == Replay(def, l).steps.Keys + {a, d}
            && run.steps[d].kind == Delay && TimerDue(run.steps[d], DueAt(def, d, at))
  {
    var e, f, g := Event(at, StepStarted(a)), Event(at, StepCompleted(a, map[])), Event(at, ScheduledBody(def, d, at));
    ReplayAppend(def, l, e);
    ReplayAppend(def, l + [e], f);
    ReplayAppend(def, l + [e] + [f], g);
  }

  lemma AskedAgain(def: WorkflowDef, l: Log, d: StepName, s: StepName, at: Time)
    requires IsStarted(def, l) && LeadsTo(def, d, s) && s != d
    requires s !in Replay(def, l).steps && d in Replay(def, l).steps
    ensures var l' := DelayLog(def, l, d, s, at); var run := Replay(def, l');
            && l' != [] && IsStarted(def, l') && Awaits(def, run, s)
            && d in run.steps && run.steps[d].kind == Replay(def, l).steps[d].kind
  {
    var e, f := Event(at, TimerFired(d)), Event(at, StepCompleted(d, map[]));
    ReplayAppend(def, l, e);
    ReplayAppend(def, l + [e], f);
    RequestAwaits(def, l + [e] + [f], s, at);
    ReplayAppend(def, l + [e] + [f], Event(at, FirstRequest(def, s)));
  }

  /** Two sweeps queue the initial task twice. */
  lemma QueuedTwice(def: WorkflowDef) returns (q: multiset<StepName>)
    requires KindOf(def, def.initial) == Task
    ensures Reached(def, 1, Born(def), q, []) && q[def.initial] == 2
  {
    BornReached(def);
    SweepQueues(def, multiset{});
    var a := def.initial;
    SweepQueues(def, multiset{} + multiset{a});
    q := multiset{} + multiset{a} + multiset{a};
  }

  lemma SweepQueues(def: WorkflowDef, q: multiset<StepName>)
    requires KindOf(def, def.initial) == Task && Reached(def, 1, Born(def), q, [])
    ensures Reached(def, 1, Born(def), q + multiset{def.initial}, [])
  {
    var l, a := Born(def), def.initial;
    var run := Replay(def, l);
    BornState(def);
    assert IsStarted(def, l) && TaskReady(run.steps[a], 1) && run.steps.Keys == {a};
    hide Reached, At, Replay, IsStarted, TaskReady, Born;
    var q', tail := q + multiset{a}, [ScanApprovals(run, {a})] + [];
    var stack := [Scan(false, run, {a})] + tail;
    var c0 := Config(l, q, stack);
    SlasUnread(def, 1, l, q);
    AtStart(def, 1, l, q, stack);
    OnScanTask(def, 1, c0, l, q, false, run, {a}, a, tail);
    OnScanEnd(def, 1, c0, l, q', Scan(false, run, {a} - {a}), tail);
    Came(def, 1, l, q, stack, l, q', tail);
    ApprovalsLeave(def, 1, l, q', run, {a}, []);
  }

  lemma BornStarted(def: WorkflowDef)
    ensures Born(def) != [] && IsStarted(def, Born(def)) && Replay(def, Born(def)).steps.Keys == {def.initial}
  {
    BornState(def);
  }

  /** Every workflow that starts with a task, goes on by a delay and then an approval of one link: a run of atomic
      operations, on a clock that never goes back, completes a round of the approval without a grant of its own, with
      or without SLAs. In it the task is executed twice. */
  lemma SecondExecutionBreaks(def: WorkflowDef, d: StepName, s: StepName)
    requires KindOf(def, def.initial) == Task && Arms(def, def.initial, d) && LeadsTo(def, d, s) && !AsksNobody(def, s)
    ensures exists ds: seq<Deed> :: Forward(ds) && !EachRound(def, s, DoAll(def, IDLE, ds).log)
  {
    hide Reached, Replay, IsStarted, TimerDue, IsGranted, Awaits, Authorized, Forward, EachRound, Schedulable,
         SuccessorOf, ArmedLog, DelayLog, AsksNobody, Born, DueAt, LeadsTo;
    var a, l0 := def.initial, Born(def);
    BornStarted(def);
    Distinct(def, d, s);
    var who := Somebody(def, s);
    var q := QueuedTwice(def);
    TaskArms(def, 1, l0, q, a, d);
    ArmedState(def, l0, a, d, 1);
    var l1, t1, q1 := ArmedLog(def, l0, a, d, 1), DueAt(def, d, 1), q - multiset{a};
    Reaching.Later(def, 1, t1, l1, q1, []);
    var q2 := DelayAsks(def, t1, l1, q1, d, s);
    ApprovalsLeave(def, t1, DelayLog(def, l1, d, s, t1), q2, Replay(def, l1), Replay(def, l1).steps.Keys, []);
    AskedAgain(def, l1, d, s, t1);
    var l2 := DelayLog(def, l1, d, s, t1);
    TwoTokens(def, t1, l2, q2, d, s, who);
  }

  lemma Distinct(def: WorkflowDef, d: StepName, s: StepName)
    requires KindOf(def, def.initial) == Task && Arms(def, def.initial, d) && LeadsTo(def, d, s)
    ensures def.initial != d && def.initial != s && s != d
  {
  }

  lemma GrantElse(def: WorkflowDef, l: Log, s: StepName, e: Event, d: StepName)
    requires StepOf(e.body) == Some(s) && d != s && d in Replay(def, l).steps
    ensures d in Replay(def, l + [e]).steps && Replay(def, l + [e]).steps[d] == Replay(def, l).steps[d]
  {
    ReplayAppend(def, l, e);
  }

  lemma TaskKeepsGrant(def: WorkflowDef, l: Log, a: StepName, d: StepName, s: StepName, t: Time)
    requires IsGranted(def, Replay(def, l), s) && a != s && d != s
    ensures IsGranted(def, Replay(def, ArmedLog(def, l, a, d, t)), s)
  {
    hide IsGranted, Replay;
    var more := [Event(t, StepStarted(a))] + [Event(t, StepCompleted(a, map[]))] + [Event(t, ScheduledBody(def, d, t))];
    assert ArmedLog(def, l, a, d, t) == l + more;
    GrantStaysGranted(def, l, more, s);
  }

  /** While the approval is pending the task is executed again, and the approval granted but not advanced. */
  lemma TwoTokens(def: WorkflowDef, t: Time, l: Log, q: multiset<StepName>, d: StepName, s: StepName, who: string)
    requires Reached(def, t, l, q, []) && l != [] && IsStarted(def, l) && def.initial in q
    requires Arms(def, def.initial, d) && LeadsTo(def, d, s) && Authorized(ChainOf(def, s), 0, who)
    requires Awaits(def, Replay(def, l), s) && d in Replay(def, l).steps && Replay(def, l).steps[d].kind == Delay
    requires KindOf(def, def.initial) == Task
    ensures exists ds: seq<Deed> :: Forward(ds) && !EachRound(def, s, DoAll(def, IDLE, ds).log)
  {
    var a, e := def.initial, Event(t, ApprovalGranted(s, 0, who));
    hide Reached, Replay, IsStarted, TimerDue, IsGranted, Awaits, Authorized, Forward, EachRound, DueAt, LeadsTo,
         ArmedLog;
    Distinct(def, d, s);
    GrantGrants(def, l, s, e, who);
    GrantElse(def, l, s, e, d);
    Approves(def, t, l, q, s, who);
    var l1 := l + [e];
    TaskArms(def, t, l1, q, a, d);
    ArmedState(def, l1, a, d, t);
    var l2, t2 := ArmedLog(def, l1, a, d, t), DueAt(def, d, t);
    TaskKeepsGrant(def, l1, a, d, s, t);
    Reaching.Later(def, t, t2, l2, q - multiset{a}, []);
    DelayBreaks(def, t2, l2, q - multiset{a}, d, s);
  }
}
