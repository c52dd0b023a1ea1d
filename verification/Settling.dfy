/** What is due in a run at a moment, and the measure by which dispatching it comes to rest
    (engine/engine.go:426-449, 551-617; engine/sla.go:11-60). */
module Settling {
  import opened Model
  import opened Replaying
  import opened Machine

  // ---- delays that do not wait -------------------------------------------

  /** A delay step of no positive duration: due as soon as it is scheduled. */
  predicate Instant(def: WorkflowDef, s: StepName) {
    && KindOf(def, s) == Delay && Lookup(def, s).Some?
    && Lookup(def, s).value.delay.Some? && Lookup(def, s).value.delay.value <= 0
  }

  /** The Next of s, when it is an instant delay. */
  function InstantNext(def: WorkflowDef, s: StepName): Option<StepName> {
    var n := SuccessorOf(def, s, true);
    if n != "" && Instant(def, n) then Some(n) else None
  }

  /** Following Next through instant delays from s stops within k hops. */
  predicate Ends(def: WorkflowDef, s: StepName, k: nat)
    decreases k
  {
    match InstantNext(def, s)
    case None => true
    case Some(n) => k > 0 && Ends(def, n, k - 1)
  }

  ghost predicate Stops(def: WorkflowDef, s: StepName) {
    exists k: nat :: Ends(def, s, k)
  }

  /** No loop of instant delays: from every step the chain of instant delays ends. */
  ghost predicate Settles(def: WorkflowDef) {
    forall s :: Stops(def, s)
  }

  ghost function Hops(def: WorkflowDef, s: StepName): nat
    requires Settles(def)
    ensures Ends(def, s, Hops(def, s)) && forall j :: 0 <= j < Hops(def, s) ==> !Ends(def, s, j)
  {
    assert Stops(def, s);
    var k: nat :| Ends(def, s, k);
    Least(def, s, k)
  }

  ghost function Least(def: WorkflowDef, s: StepName, k: nat): (r: nat)
    requires Ends(def, s, k)
    ensures Ends(def, s, r) && forall j :: 0 <= j < r ==> !Ends(def, s, j)
  {
    if j: nat :| j < k && Ends(def, s, j) then Least(def, s, j) else k
  }

  /** How many firings a due step can lead to at one moment, itself included. */
  ghost function Weight(def: WorkflowDef, s: StepName): nat
    requires Settles(def)
  {
    Hops(def, s) + 1
  }

  /** What scheduling s adds to what is due. */
  ghost function Gain(def: WorkflowDef, s: StepName): nat
    requires Settles(def)
  {
    if Instant(def, s) then Weight(def, s) else 0
  }

  lemma WeightIsGain(def: WorkflowDef, s: StepName)
    requires Settles(def)
    ensures SuccessorOf(def, s, true) != "" ==> Weight(def, s) == 1 + Gain(def, SuccessorOf(def, s, true))
  {
    if InstantNext(def, s).Some? {
      var n := InstantNext(def, s).value;
      assert Ends(def, s, Hops(def, n) + 1);
      assert Hops(def, s) > 0 && Ends(def, n, Hops(def, s) - 1);
      assert Hops(def, s) >= Hops(def, n) + 1;
    } else {
      assert Ends(def, s, 0);
    }
  }

  /** Positive delays settle. */
  lemma PositiveDelaysSettle(def: WorkflowDef)
    requires forall k :: 0 <= k < |def.steps| && def.steps[k].kind == Delay && def.steps[k].delay.Some? ==>
               def.steps[k].delay.value > 0
    ensures Settles(def)
  {
    forall s: StepName ensures Stops(def, s) {
      var n := SuccessorOf(def, s, true);
      FindStepIsFirst(def.steps, n);
      assert Ends(def, s, 0);
    }
  }

  // ---- sums over sets of steps -------------------------------------------

  ghost function Load(def: WorkflowDef, d: set<StepName>): nat
    requires Settles(def)
  {
    if d == {} then 0 else var x :| x in d; Weight(def, x) + Load(def, d - {x})
  }

  lemma {:induction false} LoadWithout(def: WorkflowDef, d: set<StepName>, x: StepName)
    requires Settles(def) && x in d
    ensures Load(def, d) == Weight(def, x) + Load(def, d - {x})
    decreases d
  {
    var y :| y in d && Load(def, d) == Weight(def, y) + Load(def, d - {y});
    if y != x {
      LoadWithout(def, d - {y}, x);
      LoadWithout(def, d - {x}, y);
      assert d - {y} - {x} == d - {x} - {y};
    }
  }

  lemma {:induction false} LoadMonotone(def: WorkflowDef, d: set<StepName>, e: set<StepName>)
    requires Settles(def) && d <= e
    ensures Load(def, d) <= Load(def, e)
    decreases d
  {
    if d != {} {
      var x :| x in d;
      LoadWithout(def, d, x);
      LoadWithout(def, e, x);
      LoadMonotone(def, d - {x}, e - {x});
    }
  }

  lemma LoadWith(def: WorkflowDef, d: set<StepName>, e: set<StepName>, s: StepName)
    requires Settles(def) && e <= d + if Instant(def, s) then {s} else {}
    ensures Load(def, e) <= Load(def, d) + Gain(def, s)
  {
    if Instant(def, s) && s in e {
      LoadWithout(def, e, s);
      LoadMonotone(def, e - {s}, d);
    } else {
      LoadMonotone(def, e, d);
    }
  }

  /** Firing s, due in d0, when what is due now is within d0. */
  lemma LoadFire(def: WorkflowDef, d0: set<StepName>, d: set<StepName>, s: StepName)
    requires Settles(def) && d <= d0 && s in d0
    ensures Load(def, d - {s}) + Weight(def, s) <= Load(def, d0)
  {
    LoadWithout(def, d0, s);
    LoadMonotone(def, d - {s}, d0 - {s});
  }

  // ---- what is due -------------------------------------------------------

  /** The delays past due and the approvals granted in a run. */
  function Due(steps: map<StepName, StepState>, now: Time): set<StepName> {
    set s | s in steps && (TimerDue(steps[s], now) || Granted(steps[s]))
  }

  function Ready(steps: map<StepName, StepState>, now: Time): set<StepName> {
    set s | s in steps && TaskReady(steps[s], now)
  }

  function Overdue(def: WorkflowDef, now: Time, createdAt: Time): set<string> {
    set i | 0 <= i < |def.slas| && createdAt + def.slas[i].duration < now :: def.slas[i].name
  }

  function Unflagged(def: WorkflowDef, flags: set<string>): set<nat> {
    set i: nat | i < |def.slas| && def.slas[i].name !in flags
  }

  function Live(def: WorkflowDef, log: Log): bool {
    !Terminal(Replay(def, log).status)
  }

  predicate Started(def: WorkflowDef, log: Log) {
    var s := Replay(def, log).status;
    s == RActive || s == RWaiting
  }

  /** The SLAs a live run has yet to flag; 0 when the run has ended. */
  function Level(def: WorkflowDef, log: Log): nat {
    if Live(def, log) then 1 + |Unflagged(def, Breached(log))| else 0
  }

  function DueIn(def: WorkflowDef, now: Time, log: Log): set<StepName> {
    Due(Replay(def, log).steps, now)
  }

  function ReadyIn(def: WorkflowDef, now: Time, log: Log): set<StepName> {
    Ready(Replay(def, log).steps, now)
  }

  /** A started run has flagged every SLA that is overdue at `now`. */
  predicate Flagged(def: WorkflowDef, now: Time, log: Log) {
    Started(def, log) ==> Overdue(def, now, Replay(def, log).createdAt) <= Breached(log)
  }

  /** Nothing is left to do at `now`: no delay past due, no approval granted, every overdue SLA of a started
      run flagged, every ready task queued. */
  predicate Quiet(def: WorkflowDef, now: Time, log: Log, queue: multiset<StepName>) {
    && DueIn(def, now, log) == {}
    && (forall s :: s in ReadyIn(def, now, log) ==> s in queue)
    && Flagged(def, now, log)
  }

  // ---- later logs --------------------------------------------------------

  /** `b` continues `a` within the life of the run: no new ticket, no new start. */
  predicate Continues(def: WorkflowDef, a: Log, b: Log) {
    && a <= b && Breached(a) <= Breached(b)
    && Replay(def, a).createdAt == Replay(def, b).createdAt
    && Replay(def, a).steps.Keys <= Replay(def, b).steps.Keys
    && (Live(def, b) ==> Replay(def, a).status == Replay(def, b).status)
  }

  /** Nothing has become due or ready. */
  predicate Narrows(def: WorkflowDef, now: Time, a: Log, b: Log) {
    DueIn(def, now, b) <= DueIn(def, now, a) && ReadyIn(def, now, b) <= ReadyIn(def, now, a)
  }

  lemma ContinuesTrans(def: WorkflowDef, a: Log, b: Log, c: Log)
    requires Continues(def, a, b) && Continues(def, b, c)
    ensures Continues(def, a, c)
  {
  }

  lemma LevelFalls(def: WorkflowDef, a: Log, b: Log)
    requires Continues(def, a, b)
    ensures Level(def, b) <= Level(def, a)
    ensures Live(def, a) && !Live(def, b) ==> Level(def, b) < Level(def, a)
  {
    var u, v := Unflagged(def, Breached(a)), Unflagged(def, Breached(b));
    assert v <= u && u == v + (u - v);
  }

  /** Flagging an SLA that the log did not flag lowers the level. */
  lemma FlagLowers(def: WorkflowDef, a: Log, b: Log, i: nat)
    requires Continues(def, a, b) && i < |def.slas| && Live(def, a)
    requires def.slas[i].name !in Breached(a) && def.slas[i].name in Breached(b)
    ensures Level(def, b) < Level(def, a)
  {
    var u, v := Unflagged(def, Breached(a)), Unflagged(def, Breached(b));
    assert i in u && i !in v && v <= u - {i};
    var rest := u - {i} - v;
    assert u - {i} == v + rest;
  }

  lemma AppendContinues(def: WorkflowDef, log: Log, e: Event)
    requires !e.body.TicketCreated? && !e.body.RunStarted?
    ensures Continues(def, log, log + [e])
    ensures Replay(def, log + [e]).steps == StepsAfter(def, Replay(def, log).steps, e.body)
    ensures Breached(log + [e]) == Breached(log) + if e.body.SlaBreached? then {e.body.sla} else {}
  {
    ReplayAppend(def, log, e);
    BreachedAppend(log, e);
  }

  /** Events that touch no step leave what is due as it is. */
  lemma PlainNarrows(def: WorkflowDef, now: Time, log: Log, e: Event)
    requires StepOf(e.body).None? && !e.body.TicketCreated?
    ensures Narrows(def, now, log, log + [e]) && Replay(def, log + [e]).steps == Replay(def, log).steps
  {
    ReplayAppend(def, log, e);
  }

  /** A step that completes, fails or has an approval requested is no longer due, nor ready. */
  lemma StepRests(def: WorkflowDef, now: Time, log: Log, e: Event)
    requires e.body.StepCompleted? || e.body.StepFailed?
             || (e.body.ApprovalRequested? && KindOf(def, e.body.step) == Approval)
    ensures DueIn(def, now, log + [e]) <= DueIn(def, now, log) - {e.body.step}
    ensures ReadyIn(def, now, log + [e]) <= ReadyIn(def, now, log)
  {
    ReplayAppend(def, log, e);
    if e.body.step in Replay(def, log).steps { KindIsDeclared(def, log, e.body.step); }
  }

  /** A step scheduled at `now` is due only when it is an instant delay; an approval must be pending. */
  lemma StepScheduledNow(def: WorkflowDef, now: Time, log: Log, s: StepName)
    requires Declared(def, s) && (KindOf(def, s) == Delay ==> Lookup(def, s).value.delay.Some?)
    requires KindOf(def, s) == Approval ==> s in Replay(def, log).steps && !Granted(Replay(def, log).steps[s])
                                            && Replay(def, log).steps[s].status == SWaiting
    ensures var l := log + [Event(now, ScheduledBody(def, s, now))];
            DueIn(def, now, l) <= DueIn(def, now, log) + if Instant(def, s) then {s} else {}
  {
    ReplayAppend(def, log, Event(now, ScheduledBody(def, s, now)));
    if s in Replay(def, log).steps { KindIsDeclared(def, log, s); }
  }

  /** Neither an event of a step that is no task nor a schedule makes a ready task less ready. */
  lemma ReadyStays(def: WorkflowDef, now: Time, log: Log, e: Event)
    requires || (StepOf(e.body).None? && !e.body.TicketCreated?)
             || (StepOf(e.body).Some? && KindOf(def, StepOf(e.body).value) != Task)
             || (e.body.StepScheduled? && Declared(def, e.body.step) && e.body == ScheduledBody(def, e.body.step, e.at))
    ensures ReadyIn(def, now, log) <= ReadyIn(def, now, log + [e])
  {
    ReplayAppend(def, log, e);
    if StepOf(e.body).Some? {
      var s := StepOf(e.body).value;
      if s in Replay(def, log).steps { KindIsDeclared(def, log, s); }
    }
  }
}
