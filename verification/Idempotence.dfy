/** When CheckSLA is idempotent (engine/sla.go:8-46): exactly for definitions with distinct SLA names in which only the
    last SLA escalates to a step that can be jumped to. `Escalation` proves that these flag no SLA twice; here every
    other definition is given a run that does. */
module Idempotence {
  import opened Model
  import opened Replaying
  import opened Machine
  import opened Moves
  import opened InitialStep
  import opened Escalation
  import opened Resting
  import opened Reaching

  // ---- the loop of CheckSLA ----------------------------------------------

  /** The log after the k-th turn of a loop whose jumps come to nothing. */
  function Turn(def: WorkflowDef, l: Log, run: RunState, flags: set<string>, k: nat, at: Time): Log
    requires k < |def.slas|
  {
    if SlaPasses(def, run, flags, k, at) then l else l + [Event(at, SlaBreached(def.slas[k].name, run.current))]
  }

  /** The log after its turns from k up to j. */
  function Turns(def: WorkflowDef, l: Log, run: RunState, flags: set<string>, k: nat, j: nat, at: Time): Log
    requires k <= j <= |def.slas|
    decreases j
  {
    if j == k then l else Turn(def, Turns(def, l, run, flags, k, j - 1, at), run, flags, j - 1, at)
  }

  lemma LoopTurns(def: WorkflowDef, l: Log, q: multiset<StepName>, run: RunState, flags: set<string>, k: nat, at: Time,
        rest: seq<Frame>)
    requires k < |def.slas| && Reached(def, at, l, q, [SlaLoop(run, flags, k, at)] + rest)
    ensures Reached(def, at, Turn(def, l, run, flags, k, at), q, [SlaLoop(run, flags, k + 1, at)] + rest)
  {
    hide Reached, At, SlaPasses;
    var stack, next := [SlaLoop(run, flags, k, at)] + rest, [SlaLoop(run, flags, k + 1, at)] + rest;
    var c0 := Config(l, q, stack);
    AtStart(def, at, l, q, stack);
    if SlaPasses(def, run, flags, k, at) {
      OnSlaSkip(def, at, c0, l, q, run, flags, k, at, rest);
      Came(def, at, l, q, stack, l, q, next);
    } else {
      var l' := l + [Event(at, SlaBreached(def.slas[k].name, run.current))];
      OnSlaFlag(def, at, c0, l, q, run, flags, k, at, rest);
      if def.slas[k].onBreach == "" {
        Came(def, at, l, q, stack, l', q, next);
      } else {
        Came(def, at, l, q, stack, l', q, [JumpTo(run, def.slas[k].onBreach)] + next);
        JumpLeaves(def, at, l', q, run, def.slas[k].onBreach, next);
      }
    }
  }

  lemma {:induction false} LoopRuns(def: WorkflowDef, l: Log, q: multiset<StepName>, run: RunState, flags: set<string>,
        k: nat, j: nat, at: Time, rest: seq<Frame>)
    requires k <= j <= |def.slas| && Reached(def, at, l, q, [SlaLoop(run, flags, k, at)] + rest)
    ensures Reached(def, at, Turns(def, l, run, flags, k, j, at), q, [SlaLoop(run, flags, j, at)] + rest)
    decreases j
  {
    hide Reached, Turn;
    if j > k {
      LoopRuns(def, l, q, run, flags, k, j - 1, at, rest);
      LoopTurns(def, Turns(def, l, run, flags, k, j - 1, at), q, run, flags, j - 1, at, rest);
    }
  }

  lemma LoopLeaves(def: WorkflowDef, l: Log, q: multiset<StepName>, run: RunState, flags: set<string>, k: nat, at: Time,
        rest: seq<Frame>)
    requires k <= |def.slas| && Reached(def, at, l, q, [SlaLoop(run, flags, k, at)] + rest)
    ensures Reached(def, at, Turns(def, l, run, flags, k, |def.slas|, at), q, rest)
  {
    hide Reached, At;
    var l', n := Turns(def, l, run, flags, k, |def.slas|, at), |def.slas|;
    LoopRuns(def, l, q, run, flags, k, n, at, rest);
    var stack := [SlaLoop(run, flags, n, at)] + rest;
    AtStart(def, at, l', q, stack);
    OnSlaEnd(def, at, Config(l', q, stack), l', q, run, flags, at, rest);
    Came(def, at, l', q, stack, l', q, rest);
  }

  lemma {:induction false} TurnsGrow(def: WorkflowDef, l: Log, run: RunState, flags: set<string>, k: nat, j: nat,
        at: Time)
    requires k <= j <= |def.slas|
    ensures l <= Turns(def, l, run, flags, k, j, at)
    decreases j
  {
    if j > k { TurnsGrow(def, l, run, flags, k, j - 1, at); }
  }

  /** A loop that passes over nothing flags every SLA, in order. */
  lemma {:induction false} TurnsFlag(def: WorkflowDef, l: Log, run: RunState, flags: set<string>, j: nat, at: Time)
    requires j <= |def.slas| && forall k :: 0 <= k < j ==> !SlaPasses(def, run, flags, k, at)
    ensures var l' := Turns(def, l, run, flags, 0, j, at);
            && |l'| == |l| + j && l <= l'
            && (forall k :: 0 <= k < j ==> l'[|l| + k].body == SlaBreached(def.slas[k].name, run.current))
            && Breached(l') == Breached(l) + Names(def, j)
    decreases j
  {
    if j > 0 {
      var l0 := Turns(def, l, run, flags, 0, j - 1, at);
      var e := Event(at, SlaBreached(def.slas[j - 1].name, run.current));
      TurnsFlag(def, l, run, flags, j - 1, at);
      BreachedAppend(l0, e);
      assert Names(def, j) == Names(def, j - 1) + {def.slas[j - 1].name};
    } else {
      assert Names(def, 0) == {};
    }
  }

  /** A loop that passes over everything leaves the log. */
  lemma {:induction false} TurnsPass(def: WorkflowDef, l: Log, run: RunState, flags: set<string>, k: nat, j: nat,
        at: Time)
    requires k <= j <= |def.slas| && forall m :: k <= m < j ==> SlaPasses(def, run, flags, m, at)
    ensures Turns(def, l, run, flags, k, j, at) == l
    decreases j
  {
    if j > k { TurnsPass(def, l, run, flags, k, j - 1, at); }
  }

  // ---- moments -----------------------------------------------------------

  /** After every deadline of a run created at t. */
  function Late(slas: seq<SlaDef>, t: Time): (r: Time)
    ensures forall k :: 0 <= k < |slas| ==> t + slas[k].duration < r
  {
    if slas == [] then t
    else
      var r := Late(slas[..|slas| - 1], t);
      var d := t + slas[|slas| - 1].duration + 1;
      assert forall k :: 0 <= k < |slas| - 1 ==> slas[..|slas| - 1][k] == slas[k];
      if d > r then d else r
  }

  function Max(a: Time, b: Time): Time {
    if a > b then a else b
  }

  predicate IsStarted(def: WorkflowDef, l: Log) {
    Replay(def, l).status == RActive
  }

  lemma DispatchOpens(def: WorkflowDef, at: Time, c0: Config, l: Log, q: multiset<StepName>, rest: seq<Frame>)
    requires IsStarted(def, l) && l != [] && def.slas != [] && At(def, at, c0, l, q, [Refresh] + rest)
    ensures var run := Replay(def, l);
            At(def, at, c0, l, q, [SlaLoop(run, Breached(l), 0, at)]
                                  + ([ScanSteps(run, run.steps.Keys)] + ([ScanApprovals(run, run.steps.Keys)] + rest)))
  {
    hide At, Replay;
    var run := Replay(def, l);
    OnRefresh(def, at, c0, l, q, rest);
    OnDispatch(def, at, c0, l, q, run, rest);
    OnCheckSla(def, at, c0, l, q, run,
               [ScanSteps(run, run.steps.Keys)] + ([ScanApprovals(run, run.steps.Keys)] + rest));
  }

  /** A sweep at the time `at` begins with the loop over the SLAs. */
  lemma SweepOpens(def: WorkflowDef, at: Time, l: Log, q: multiset<StepName>)
    requires Reached(def, at, l, q, []) && IsStarted(def, l) && l != [] && def.slas != []
    ensures Reached(def, at, l, q, [SlaLoop(Replay(def, l), Breached(l), 0, at)] + Below(Replay(def, l)))
  {
    hide Reached, At, Replay;
    Begun(def, at, l, q, Refresh);
    AtStart(def, at, l, q, [Refresh] + []);
    DispatchOpens(def, at, Config(l, q, [Refresh] + []), l, q, []);
    Came(def, at, l, q, [Refresh] + [], l, q, [SlaLoop(Replay(def, l), Breached(l), 0, at)] + Below(Replay(def, l)));
  }

  // ---- a run that flags an SLA twice -------------------------------------

  ghost predicate FlagsTwice(def: WorkflowDef) {
    exists ds: seq<Deed> :: Forward(ds) && !FlaggedOnce(DoAll(def, IDLE, ds).log)
  }

  lemma ReachedTwice(def: WorkflowDef, at: Time, l: Log, q: multiset<StepName>, stack: seq<Frame>, j: nat, k: nat)
    requires Reached(def, at, l, q, stack) && j < k < |l|
    requires l[j].body.SlaBreached? && l[k].body.SlaBreached? && l[j].body.sla == l[k].body.sla
    ensures FlagsTwice(def)
  {
    var ds: seq<Deed> :| Forward(ds) && By(ds, at) && DoAll(def, IDLE, ds) == Config(l, q, stack);
    assert IsFlag(l[k].body, l[j].body.sla);
    assert !FlaggedOnce(l);
  }

  /** Two SLAs of one name are both flagged by one loop. */
  lemma SameNameFlagsTwice(def: WorkflowDef, i: nat, j: nat)
    requires i < j < |def.slas| && def.slas[i].name == def.slas[j].name
    ensures FlagsTwice(def)
  {
    hide Reached, Turns, Replay, FlaggedOnce, FlagsTwice, Below;
    var l := Born(def);
    BornReached(def);
    BornState(def);
    var run, at := Replay(def, l), Max(1, Late(def.slas, 1));
    Later(def, 1, at, l, multiset{}, []);
    SweepOpens(def, at, l, multiset{});
    LoopRuns(def, l, multiset{}, run, {}, 0, j + 1, at, Below(run));
    TurnsFlag(def, l, run, {}, j + 1, at);
    ReachedTwice(def, at, Turns(def, l, run, {}, 0, j + 1, at), multiset{}, [SlaLoop(run, {}, j + 1, at)] + Below(run),
                 |l| + i, |l| + j);
  }

  lemma ScheduledState(def: WorkflowDef, l: Log, s: StepName, at: Time)
    requires Schedulable(def, s) && IsStarted(def, l)
    ensures var l' := l + Scheduling(def, s, at);
            && l' != [] && IsStarted(def, l') && Replay(def, l').createdAt == Replay(def, l).createdAt
            && Breached(l') == Breached(l)
  {
    var e := Event(at, ScheduledBody(def, s, at));
    if KindOf(def, s) == Approval {
      var f := Event(at, FirstRequest(def, s));
      ReplayAppend(def, l, f);
      ReplayAppend(def, l + [f], e);
      BreachedAppend(l, f);
      BreachedAppend(l + [f], e);
      assert l + Scheduling(def, s, at) == l + [f] + [e];
    } else {
      ReplayAppend(def, l, e);
      BreachedAppend(l, e);
      assert l + Scheduling(def, s, at) == l + [e];
    }
  }

  /** scheduleStep without failures. */
  lemma Schedules(def: WorkflowDef, at: Time, c0: Config, l: Log, q: multiset<StepName>, s: StepName, then_: After,
        rest: seq<Frame>)
    requires Schedulable(def, s) && At(def, at, c0, l, q, [ScheduleStep(s, then_)] + rest)
    ensures At(def, at, c0, l + Scheduling(def, s, at), q, [AfterFrame(then_)] + rest)
  {
    hide At;
    OnScheduleStep(def, at, c0, l, q, s, then_, rest);
    var e := Event(at, ScheduledBody(def, s, at));
    if KindOf(def, s) == Approval {
      var f := Event(at, FirstRequest(def, s));
      OnRequestFirst(def, at, c0, l, q, s, at, then_, rest);
      OnEmitScheduled(def, at, c0, l + [f], q, s, at, then_, rest);
      assert l + Scheduling(def, s, at) == l + [f] + [e];
    } else {
      OnEmitScheduled(def, at, c0, l, q, s, at, then_, rest);
      assert l + Scheduling(def, s, at) == l + [e];
    }
  }

  /** The log after the i-th SLA was flagged and its step scheduled. */
  function Jumped(def: WorkflowDef, l: Log, run: RunState, i: nat, at: Time): Log
    requires i < |def.slas| && Schedulable(def, def.slas[i].onBreach)
  {
    l + [Event(at, SlaBreached(def.slas[i].name, run.current))] + Scheduling(def, def.slas[i].onBreach, at)
  }

  lemma JumpDispatches(def: WorkflowDef, at: Time, l: Log, q: multiset<StepName>, run: RunState, i: nat,
        rest: seq<Frame>)
    requires i < |def.slas| && def.slas[i].onBreach != "" && Schedulable(def, def.slas[i].onBreach)
    requires !StepActive(run, def.slas[i].onBreach)
    requires Reached(def, at, l, q, [SlaLoop(run, {}, i, at)] + rest) && !SlaPasses(def, run, {}, i, at)
    ensures Reached(def, at, Jumped(def, l, run, i, at), q, [Refresh] + ([SlaLoop(run, {}, i + 1, at)] + rest))
  {
    hide Reached, At, Schedulable, StepActive, SlaPasses, Scheduling;
    var b, next := def.slas[i].onBreach, [SlaLoop(run, {}, i + 1, at)] + rest;
    var stack := [SlaLoop(run, {}, i, at)] + rest;
    var c0 := Config(l, q, stack);
    var l1 := l + [Event(at, SlaBreached(def.slas[i].name, run.current))];
    AtStart(def, at, l, q, stack);
    OnSlaFlag(def, at, c0, l, q, run, {}, i, at, rest);
    OnJumpTo(def, at, c0, l1, q, run, b, next);
    Schedules(def, at, c0, l1, q, b, ThenDispatch, next);
    Came(def, at, l, q, stack, Jumped(def, l, run, i, at), q, [Refresh] + next);
  }

  lemma JumpedState(def: WorkflowDef, l: Log, run: RunState, i: nat, at: Time)
    requires i < |def.slas| && Schedulable(def, def.slas[i].onBreach) && IsStarted(def, l)
    ensures var l' := Jumped(def, l, run, i, at);
            && l' != [] && IsStarted(def, l') && Replay(def, l').createdAt == Replay(def, l).createdAt
            && Breached(l') == Breached(l) + {def.slas[i].name}
  {
    var e := Event(at, SlaBreached(def.slas[i].name, run.current));
    ReplayAppend(def, l, e);
    BreachedAppend(l, e);
    ScheduledState(def, l + [e], def.slas[i].onBreach, at);
  }

  lemma {:induction false} TurnsState(def: WorkflowDef, l: Log, run: RunState, flags: set<string>, k: nat, j: nat,
        at: Time)
    requires k <= j <= |def.slas| && IsStarted(def, l)
    ensures var l' := Turns(def, l, run, flags, k, j, at);
            IsStarted(def, l') && Replay(def, l').createdAt == Replay(def, l).createdAt
    decreases j
  {
    if j > k {
      var l0 := Turns(def, l, run, flags, k, j - 1, at);
      TurnsState(def, l, run, flags, k, j - 1, at);
      ReplayAppend(def, l0, Event(at, SlaBreached(def.slas[j - 1].name, run.current)));
    }
  }

  /** A dispatch whose log flags the first k SLAs flags the next, and can end. */
  lemma NestedFlags(def: WorkflowDef, at: Time, l: Log, q: multiset<StepName>, k: nat, rest: seq<Frame>)
    returns (l': Log, q': multiset<StepName>)
    requires DistinctNames(def) && k < |def.slas| && l != [] && IsStarted(def, l) && Breached(l) == Names(def, k)
    requires Replay(def, l).createdAt + def.slas[k].duration < at
    requires Reached(def, at, l, q, [Refresh] + rest)
    ensures Reached(def, at, l', q', rest) && |l| < |l'| && l <= l' && l'[|l|].body.SlaBreached?
    ensures l'[|l|].body.sla == def.slas[k].name
  {
    hide Reached, At, Replay, IsStarted;
    var run, flags := Replay(def, l), Names(def, k);
    var tail := [ScanApprovals(run, run.steps.Keys)] + rest;
    var below := [ScanSteps(run, run.steps.Keys)] + tail;
    AtStart(def, at, l, q, [Refresh] + rest);
    DispatchOpens(def, at, Config(l, q, [Refresh] + rest), l, q, rest);
    Came(def, at, l, q, [Refresh] + rest, l, q, [SlaLoop(run, flags, 0, at)] + below);
    LoopRuns(def, l, q, run, flags, 0, k, at, below);
    TurnsPass(def, l, run, flags, 0, k, at);
    LoopTurns(def, l, q, run, flags, k, at, below);
    assert def.slas[k].name !in flags;
    var l1 := l + [Event(at, SlaBreached(def.slas[k].name, run.current))];
    LoopLeaves(def, l1, q, run, flags, k + 1, at, below);
    TurnsGrow(def, l1, run, flags, k + 1, |def.slas|, at);
    l' := Turns(def, l1, run, flags, k + 1, |def.slas|, at);
    q' := ScanLeaves(def, at, l', q, run, run.steps.Keys, tail);
    ApprovalsLeave(def, at, l', q', run, run.steps.Keys, rest);
    assert l'[|l|] == l1[|l|];
  }

  /** The breach of the i-th SLA jumps to a step: the dispatch it starts flags the next SLA, and so does the loop that
      jumped, whose set of flags is stale. */
  lemma JumpFlagsTwice(def: WorkflowDef, t: Time, l: Log, q: multiset<StepName>, i: nat)
    requires Reached(def, t, l, q, []) && l != [] && IsStarted(def, l) && Breached(l) == {}
    requires DistinctNames(def) && i + 1 < |def.slas| && def.slas[i].onBreach != ""
    requires Schedulable(def, def.slas[i].onBreach)
    requires !StepActive(Replay(def, l), def.slas[i].onBreach)
    ensures FlagsTwice(def)
  {
    hide Reached, At, Schedulable, StepActive, Replay, IsStarted, Jumped, Below;
    var run := Replay(def, l);
    var at := Max(t, Late(def.slas, run.createdAt));
    Later(def, t, at, l, q, []);
    var b, rest := def.slas[i].onBreach, Below(run);
    SweepOpens(def, at, l, q);
    LoopRuns(def, l, q, run, {}, 0, i, at, rest);
    TurnsFlag(def, l, run, {}, i, at);
    var l1 := Turns(def, l, run, {}, 0, i, at);
    TurnsState(def, l, run, {}, 0, i, at);
    JumpDispatches(def, at, l1, q, run, i, rest);
    JumpedState(def, l1, run, i, at);
    NextName(def, i);
    var l2 := Jumped(def, l1, run, i, at);
    assert Breached(l2) == Names(def, i + 1);
    var outer := [SlaLoop(run, {}, i + 1, at)] + rest;
    var l3, q3 := NestedFlags(def, at, l2, q, i + 1, outer);
    LoopTurns(def, l3, q3, run, {}, i + 1, at, rest);
    var l4 := l3 + [Event(at, SlaBreached(def.slas[i + 1].name, run.current))];
    assert l4[|l2|] == l3[|l2|];
    ReachedTwice(def, at, l4, q3, [SlaLoop(run, {}, i + 2, at)] + rest, |l2|, |l3|);
  }

  lemma NextName(def: WorkflowDef, i: nat)
    requires i < |def.slas|
    ensures Names(def, i + 1) == Names(def, i) + {def.slas[i].name}
  {
  }

  // ---- runs in which a step that can be jumped to is not active -----------

  /** A started run at rest at the time t, with no SLA flagged, in which s is not active. */
  ghost predicate Opens(def: WorkflowDef, t: Time, l: Log, q: multiset<StepName>, s: StepName) {
    Reached(def, t, l, q, []) && l != [] && IsStarted(def, l) && Breached(l) == {} && !StepActive(Replay(def, l), s)
  }

  /** The loop over the SLAs may not begin: its History read can fail. The sweep goes on to the steps. */
  lemma SlasUnread(def: WorkflowDef, t: Time, l: Log, q: multiset<StepName>)
    requires Reached(def, t, l, q, []) && l != [] && IsStarted(def, l)
    ensures Reached(def, t, l, q, Below(Replay(def, l)))
  {
    var run := Replay(def, l);
    var c0 := Config(l, q, [Refresh] + []);
    assert !Terminal(run.status);
    hide Reached, At, Replay, IsStarted, Terminal;
    Begun(def, t, l, q, Refresh);
    AtStart(def, t, l, q, [Refresh] + []);
    OnRefresh(def, t, c0, l, q, []);
    OnDispatch(def, t, c0, l, q, run, []);
    Came(def, t, l, q, [Refresh] + [], l, q, [CheckSla(run)] + Below(run));
    Failed(def, Tick(t), l, q, CheckSla(run), Below(run));
  }

  /** When the delay of an initial step that was scheduled at 1 is fired. */
  function FireTime(def: WorkflowDef): (t: Time)
    requires KindOf(def, def.initial) == Delay && Schedulable(def, def.initial)
    ensures t >= 1 && t >= 1 + Lookup(def, def.initial).value.delay.value
  {
    Max(1, 1 + Lookup(def, def.initial).value.delay.value)
  }

  /** An initial delay fires, and the process stops before it advances. */
  lemma DelayOpens(def: WorkflowDef) returns (t: Time, l: Log)
    requires KindOf(def, def.initial) == Delay && Schedulable(def, def.initial)
    ensures Opens(def, t, l, multiset{}, def.initial)
  {
    var s := def.initial;
    var l1 := Born(def) + Scheduling(def, s, 1);
    t := FireTime(def);
    l := l1 + [Event(t, TimerFired(s))] + [Event(t, StepCompleted(s, map[]))];
    DelayStates(def, t);
    hide Reached, At, Scheduling, Replay, IsStarted, TimerDue;
    BornReached(def);
    var stack := [ScheduleStep(s, ThenAssign)] + [];
    AtStart(def, 1, Born(def), multiset{}, stack);
    Schedules(def, 1, Config(Born(def), multiset{}, stack), Born(def), multiset{}, s, ThenAssign, []);
    Came(def, 1, Born(def), multiset{}, stack, l1, multiset{}, [CreateAssign] + []);
    Crashed(def, 1, l1, multiset{}, [CreateAssign] + []);
    Later(def, 1, t, l1, multiset{}, []);
    SlasUnread(def, t, l1, multiset{});
    DelayFires(def, t, l1, Replay(def, l1));
  }

  lemma DelayStates(def: WorkflowDef, t: Time)
    requires KindOf(def, def.initial) == Delay && Schedulable(def, def.initial)
    requires 1 + Lookup(def, def.initial).value.delay.value <= t
    ensures var s := def.initial;
            var l1 := Born(def) + Scheduling(def, s, 1);
            var l := l1 + [Event(t, TimerFired(s))] + [Event(t, StepCompleted(s, map[]))];
            && l1 != [] && IsStarted(def, l1) && s in Replay(def, l1).steps && TimerDue(Replay(def, l1).steps[s], t)
            && IsStarted(def, l) && Breached(l) == {} && !StepActive(Replay(def, l), s)
  {
    var s := def.initial;
    var e, f, g := Event(1, ScheduledBody(def, s, 1)), Event(t, TimerFired(s)), Event(t, StepCompleted(s, map[]));
    var l0 := Born(def);
    BornState(def);
    assert l0 + Scheduling(def, s, 1) == l0 + [e];
    ReplayAppend(def, l0, e);
    ReplayAppend(def, l0 + [e], f);
    ReplayAppend(def, l0 + [e] + [f], g);
    BreachedAppend(l0, e);
    BreachedAppend(l0 + [e], f);
    BreachedAppend(l0 + [e] + [f], g);
  }

  lemma DelayFires(def: WorkflowDef, t: Time, l: Log, run: RunState)
    requires Reached(def, t, l, multiset{}, Below(run))
    requires def.initial in run.steps && TimerDue(run.steps[def.initial], t)
    ensures var s := def.initial;
            Reached(def, t, l + [Event(t, TimerFired(s))] + [Event(t, StepCompleted(s, map[]))], multiset{}, [])
  {
    hide Reached, At, TimerDue;
    var s, keys := def.initial, run.steps.Keys;
    var tail := [ScanApprovals(run, keys)] + [];
    var c0 := Config(l, multiset{}, Below(run));
    var l2 := l + [Event(t, TimerFired(s))] + [Event(t, StepCompleted(s, map[]))];
    var rest := [Scan(false, run, keys - {s})] + tail;
    AtStart(def, t, l, multiset{}, Below(run));
    OnScanTimer(def, t, c0, l, multiset{}, false, run, keys, s, tail);
    OnFireTimer(def, t, c0, l, multiset{}, run, s, rest);
    OnCompleteStep(def, t, c0, l + [Event(t, TimerFired(s))], multiset{}, run, s, map[], rest);
    Came(def, t, l, multiset{}, Below(run), l2, multiset{}, [Advance(run, s, true)] + rest);
    Crashed(def, t, l2, multiset{}, [Advance(run, s, true)] + rest);
  }

  /** An initial task fails, and the process stops before it is retried. */
  lemma TaskOpens(def: WorkflowDef) returns (l: Log)
    requires KindOf(def, def.initial) == Task && Declared(def, def.initial)
    ensures Opens(def, 1, l, multiset{}, def.initial)
  {
    var s, l0 := def.initial, Born(def);
    var run := Replay(def, l0);
    BornState(def);
    TaskStates(def);
    assert IsStarted(def, l0);
    assert TaskReady(run.steps[s], 1);
    hide Reached, Replay, IsStarted, StepActive;
    BornReached(def);
    SlasUnread(def, 1, l0, multiset{});
    var q := ScanLeaves(def, 1, l0, multiset{}, run, run.steps.Keys, [ScanApprovals(run, run.steps.Keys)] + []);
    ApprovalsLeave(def, 1, l0, q, run, run.steps.Keys, []);
    Begun(def, 1, l0, q, ExecuteTask(s));
    l := TaskFails(def, l0, q - multiset{s}, run);
  }

  /** What a failed initial task leaves. */
  function TaskLog(def: WorkflowDef): Log {
    Born(def) + [Event(1, StepStarted(def.initial))] + [Event(1, StepFailed(def.initial, Said(""), 1))]
  }

  lemma TaskStates(def: WorkflowDef)
    ensures var started := Born(def) + [Event(1, StepStarted(def.initial))];
            def.initial in Replay(def, started).steps && Replay(def, started).steps[def.initial].attempt == 1
    ensures var l := TaskLog(def);
            l != [] && IsStarted(def, l) && Breached(l) == {} && !StepActive(Replay(def, l), def.initial)
  {
    var e, f := Event(1, StepStarted(def.initial)), Event(1, StepFailed(def.initial, Said(""), 1));
    BornState(def);
    ReplayAppend(def, Born(def), e);
    ReplayAppend(def, Born(def) + [e], f);
    BreachedAppend(Born(def), e);
    BreachedAppend(Born(def) + [e], f);
  }

  lemma TaskFails(def: WorkflowDef, l0: Log, q: multiset<StepName>, run: RunState) returns (l: Log)
    requires l0 == Born(def) && run == Replay(def, l0) && Declared(def, def.initial)
    requires Reached(def, 1, l0, q, [ExecuteTask(def.initial)] + [])
    ensures l == TaskLog(def) && Reached(def, 1, l, multiset{}, [])
  {
    var s, o := def.initial, Fails("");
    var l1 := l0 + [Event(1, StepStarted(s))];
    TaskStates(def);
    hide Reached, At, Replay, Retries, IsStarted, StepActive;
    var c0 := Config(l0, q, [ExecuteTask(s)] + []);
    var now := Replay(def, l1);
    AtStart(def, 1, l0, q, [ExecuteTask(s)] + []);
    OnExecuteTask(def, 1, c0, l0, q, s, []);
    OnStartTask(def, 1, o, c0, l0, q, run, s, []);
    OnRunHandler(def, 1, o, c0, l1, q, run, s, |l0|, []);
    OnTaskFailed(def, 1, c0, l1, q, run, s, Said(""), |l0|, []);
    OnHandleFailure(def, 1, c0, l1, q, now, s, Said(""), |l0|, []);
    l := TaskLog(def);
    if Retries(def, now, s) {
      Came(def, 1, l0, q, [ExecuteTask(s)] + [], l, q, [Reschedule(s, |l0|)] + []);
      Crashed(def, 1, l, q, [Reschedule(s, |l0|)] + []);
    } else {
      OnFailStep(def, 1, c0, l1, q, now, s, Said(""), []);
      Came(def, 1, l0, q, [ExecuteTask(s)] + [], l, q, [MarkFailing(now, s, Said(""))] + []);
      Crashed(def, 1, l, q, [MarkFailing(now, s, Said(""))] + []);
    }
  }

  /** An initial approval is rejected, and the process stops before the run is failed. */
  lemma ApprovalOpens(def: WorkflowDef) returns (l: Log)
    requires KindOf(def, def.initial) == Approval && Schedulable(def, def.initial) && CanRest(def, def.initial)
    ensures Opens(def, 1, l, multiset{}, def.initial)
  {
    var s := def.initial;
    var link := ChainOf(def, s)[0];
    var who := if link.user != "" then link.user else link.role;
    var l1 := Born(def) + [Event(1, FirstRequest(def, s))];
    l := l1 + [Event(1, ApprovalRejected(s, 0, who, ""))];
    ApprovalStates(def, who);
    hide Reached, At, Replay, IsStarted, StepActive, MayDecide, Schedulable;
    var stack, op := [ScheduleStep(s, ThenAssign)] + [], Reject(s, who, "");
    var c0, c1 := Config(Born(def), multiset{}, stack), Config(l1, multiset{}, [op] + []);
    BornReached(def);
    AtStart(def, 1, Born(def), multiset{}, stack);
    OnScheduleStep(def, 1, c0, Born(def), multiset{}, s, ThenAssign, []);
    OnRequestFirst(def, 1, c0, Born(def), multiset{}, s, 1, ThenAssign, []);
    Came(def, 1, Born(def), multiset{}, stack, l1, multiset{}, [EmitScheduled(s, 1, ThenAssign)] + []);
    Crashed(def, 1, l1, multiset{}, [EmitScheduled(s, 1, ThenAssign)] + []);
    Begun(def, 1, l1, multiset{}, op);
    AtStart(def, 1, l1, multiset{}, [op] + []);
    OnReject(def, 1, c1, l1, multiset{}, s, who, "", []);
    OnAppendRejected(def, 1, c1, l1, multiset{}, s, 0, who, "", []);
    Came(def, 1, l1, multiset{}, [op] + [], l, multiset{}, [FailRejected(s, "")] + []);
    Crashed(def, 1, l, multiset{}, [FailRejected(s, "")] + []);
  }

  lemma ApprovalStates(def: WorkflowDef, who: string)
    requires KindOf(def, def.initial) == Approval && ChainOf(def, def.initial) != [] && who != ""
    requires who == var link := ChainOf(def, def.initial)[0]; if link.user != "" then link.user else link.role
    ensures var s := def.initial;
            var l1 := Born(def) + [Event(1, FirstRequest(def, s))];
            var l := l1 + [Event(1, ApprovalRejected(s, 0, who, ""))];
            && l1 != [] && MayDecide(Replay(def, l1), s, who) && Replay(def, l1).steps[s].approval.value.index == 0
            && l != [] && IsStarted(def, l) && Breached(l) == {} && !StepActive(Replay(def, l), s)
  {
    var s := def.initial;
    var e, f := Event(1, FirstRequest(def, s)), Event(1, ApprovalRejected(s, 0, who, ""));
    BornState(def);
    ReplayAppend(def, Born(def), e);
    ReplayAppend(def, Born(def) + [e], f);
    BreachedAppend(Born(def), e);
    BreachedAppend(Born(def) + [e], f);
  }

  lemma CanJumpOpens(def: WorkflowDef, s: StepName) returns (t: Time, l: Log)
    requires CanJump(def, s)
    ensures Opens(def, t, l, multiset{}, s)
  {
    t := 1;
    if s != def.initial {
      l := Born(def);
      BornReached(def);
      BornState(def);
    } else {
      match KindOf(def, s) {
        case Task => l := TaskOpens(def);
        case Delay => t, l := DelayOpens(def);
        case Approval => l := ApprovalOpens(def);
      }
    }
  }

  /** A definition that breaks the condition has a run, on a clock that never goes back, which flags an SLA twice. */
  lemma OthersFlagTwice(def: WorkflowDef)
    requires !DistinctNames(def) || !OnlyLastJumps(def)
    ensures FlagsTwice(def)
  {
    if !DistinctNames(def) {
      var i, j :| 0 <= i < j < |def.slas| && def.slas[i].name == def.slas[j].name;
      SameNameFlagsTwice(def, i, j);
    } else {
      var i :| 0 <= i < |def.slas| - 1 && CanJump(def, def.slas[i].onBreach);
      var t, l := CanJumpOpens(def, def.slas[i].onBreach);
      JumpFlagsTwice(def, t, l, multiset{}, i);
    }
  }

  /** No run of atomic operations, with crashes and failures, flags an SLA twice exactly when the SLA names are distinct
      and only the last SLA escalates to a step that can be jumped to. The condition is sufficient on every clock; the
      runs that show it necessary are on clocks that never go back, so it is the same condition on those alone. */
  lemma FlaggedOnceIff(def: WorkflowDef)
    ensures (forall ds: seq<Deed> :: FlaggedOnce(DoAll(def, IDLE, ds).log)) <==>
              DistinctNames(def) && OnlyLastJumps(def)
    ensures (forall ds: seq<Deed> :: Forward(ds) ==> FlaggedOnce(DoAll(def, IDLE, ds).log))
            <==> DistinctNames(def) && OnlyLastJumps(def)
  {
    if DistinctNames(def) && OnlyLastJumps(def) {
      forall ds: seq<Deed> ensures FlaggedOnce(DoAll(def, IDLE, ds).log) { SlaFlaggedOnce(def, ds); }
    } else {
      OthersFlagTwice(def);
      var ds: seq<Deed> :| Forward(ds) && !FlaggedOnce(DoAll(def, IDLE, ds).log);
      NotAlways(def, ds);
    }
  }

  lemma NotAlways(def: WorkflowDef, ds: seq<Deed>)
    requires Forward(ds) && !FlaggedOnce(DoAll(def, IDLE, ds).log)
    ensures !forall ds: seq<Deed> :: FlaggedOnce(DoAll(def, IDLE, ds).log)
    ensures !forall ds: seq<Deed> :: Forward(ds) ==> FlaggedOnce(DoAll(def, IDLE, ds).log)
  {
    hide FlaggedOnce, Forward;
  }
}
