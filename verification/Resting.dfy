/** What one call of the engine leaves behind, on logs and queues: the facts the methods of `Engine` are built on. */
module Resting {
  import opened Model
  import opened Replaying
  import opened Machine
  import opened Settling
  import opened Moves
  import Atomic

  /** The run only went on, and no queued task was lost. */
  predicate Grown(def: WorkflowDef, a: Log, qa: multiset<StepName>, b: Log, qb: multiset<StepName>) {
    Continues(def, a, b) && qa <= qb
  }

  /** What was ready still is, and only ready tasks were queued. */
  predicate Fed(def: WorkflowDef, now: Time, a: Log, qa: multiset<StepName>, b: Log, qb: multiset<StepName>) {
    ReadyIn(def, now, a) <= ReadyIn(def, now, b) && forall s :: s in qb && qa[s] < qb[s] ==> s in ReadyIn(def, now, b)
  }

  /** All that happened to tasks is that they were scheduled, at once. */
  predicate Untimed(def: WorkflowDef, a: Log, b: Log) {
    forall k :: |a| <= k < |b| && StepOf(b[k].body).Some? && KindOf(def, StepOf(b[k].body).value) == Task ==>
      b[k].body.StepScheduled? && b[k].body.kind == Task && b[k].body.due == None
  }

  predicate Kept(def: WorkflowDef, now: Time, a: Log, qa: multiset<StepName>, b: Log, qb: multiset<StepName>) {
    Grown(def, a, qa, b, qb) && Fed(def, now, a, qa, b, qb) && Untimed(def, a, b)
  }

  /** A run that is still live is at rest, or has no more due and ready than before. */
  predicate Rests(def: WorkflowDef, now: Time, a: Log, b: Log, qb: multiset<StepName>) {
    Live(def, b) ==> Quiet(def, now, b, qb) || Narrows(def, now, a, b)
  }

  /** The same, and the step s is no longer due. */
  predicate Falls(def: WorkflowDef, now: Time, a: Log, b: Log, qb: multiset<StepName>, s: StepName) {
    Live(def, b) ==> Quiet(def, now, b, qb)
                     || (DueIn(def, now, b) <= DueIn(def, now, a) - {s} && ReadyIn(def, now, b) <= ReadyIn(def, now, a))
  }

  lemma Same(def: WorkflowDef, now: Time, log: Log, q: multiset<StepName>)
    ensures Kept(def, now, log, q, log, q) && Rests(def, now, log, log, q)
  {
  }

  lemma KeptMeans(def: WorkflowDef, now: Time, a: Log, qa: multiset<StepName>, b: Log, qb: multiset<StepName>)
    requires Kept(def, now, a, qa, b, qb)
    ensures Level(def, b) <= Level(def, a) && (Live(def, a) && !Live(def, b) ==> Level(def, b) < Level(def, a))
    ensures Breached(a) <= Breached(b) && Replay(def, b).createdAt == Replay(def, a).createdAt
    ensures a <= b
    ensures Live(def, b) ==> Live(def, a) && (Started(def, b) <==> Started(def, a))
  {
    LevelFalls(def, a, b);
  }

  lemma GrownMeans(def: WorkflowDef, a: Log, qa: multiset<StepName>, b: Log, qb: multiset<StepName>)
    requires Grown(def, a, qa, b, qb)
    ensures Level(def, b) <= Level(def, a) && (Live(def, a) && !Live(def, b) ==> Level(def, b) < Level(def, a))
    ensures a <= b && qa <= qb
  {
    LevelFalls(def, a, b);
  }

  lemma KeptGrows(def: WorkflowDef, now: Time, a: Log, qa: multiset<StepName>, b: Log, qb: multiset<StepName>)
    requires Kept(def, now, a, qa, b, qb)
    ensures Grown(def, a, qa, b, qb)
  {
  }

  lemma GrownThen(def: WorkflowDef, a: Log, qa: multiset<StepName>, b: Log, qb: multiset<StepName>, c: Log,
        qc: multiset<StepName>)
    requires Grown(def, a, qa, b, qb) && Grown(def, b, qb, c, qc)
    ensures Grown(def, a, qa, c, qc)
  {
    ContinuesTrans(def, a, b, c);
  }

  lemma KeptThen(def: WorkflowDef, now: Time, a: Log, qa: multiset<StepName>, b: Log, qb: multiset<StepName>, c: Log,
        qc: multiset<StepName>)
    requires Kept(def, now, a, qa, b, qb) && Kept(def, now, b, qb, c, qc)
    ensures Kept(def, now, a, qa, c, qc)
  {
    ContinuesTrans(def, a, b, c);
  }

  lemma RestsThen(def: WorkflowDef, now: Time, a: Log, b: Log, qb: multiset<StepName>, c: Log, qc: multiset<StepName>)
    requires Rests(def, now, a, b, qb) && Kept(def, now, b, qb, c, qc) && Rests(def, now, b, c, qc)
    ensures Rests(def, now, a, c, qc)
  {
    if Live(def, c) && Narrows(def, now, b, c) && Quiet(def, now, b, qb) {
      NarrowsQuiet(def, now, b, qb, c, qc);
    }
  }

  /** A log at rest stays at rest while nothing becomes due or ready. */
  lemma NarrowsQuiet(def: WorkflowDef, now: Time, b: Log, qb: multiset<StepName>, c: Log, qc: multiset<StepName>)
    requires Quiet(def, now, b, qb) && Kept(def, now, b, qb, c, qc) && Narrows(def, now, b, c) && Live(def, c)
    ensures Quiet(def, now, c, qc)
  {
    forall s | s in ReadyIn(def, now, c) ensures s in qc {
      assert s in ReadyIn(def, now, b) && s in qb;
      assert qb[s] <= qc[s];
    }
  }

  /** The first k SLAs are flagged if they are overdue at `now`. */
  predicate Passed(def: WorkflowDef, run: RunState, now: Time, k: nat, log: Log)
    requires k <= |def.slas|
  {
    forall j :: 0 <= j < k && run.createdAt + def.slas[j].duration < now ==> def.slas[j].name in Breached(log)
  }

  lemma PassedNone(def: WorkflowDef, run: RunState, now: Time, log: Log)
    ensures Passed(def, run, now, 0, log)
  {
  }

  lemma PassedOn(def: WorkflowDef, run: RunState, now: Time, k: nat, a: Log, qa: multiset<StepName>, b: Log,
        qb: multiset<StepName>)
    requires k < |def.slas| && Passed(def, run, now, k, a) && Kept(def, now, a, qa, b, qb)
    requires now <= run.createdAt + def.slas[k].duration || def.slas[k].name in Breached(b)
    ensures Passed(def, run, now, k + 1, b)
  {
  }

  lemma PassedAll(def: WorkflowDef, a: Log, qa: multiset<StepName>, now: Time, b: Log, qb: multiset<StepName>)
    requires Passed(def, Replay(def, a), now, |def.slas|, b) && Kept(def, now, a, qa, b, qb)
    ensures Live(def, b) ==> Flagged(def, now, b)
  {
  }

  lemma FlagDrops(def: WorkflowDef, now: Time, a: Log, qa: multiset<StepName>, b: Log, qb: multiset<StepName>, k: nat)
    requires Kept(def, now, a, qa, b, qb) && k < |def.slas| && Live(def, a)
    requires def.slas[k].name !in Breached(a) && def.slas[k].name in Breached(b)
    ensures Level(def, b) < Level(def, a)
  {
    FlagLowers(def, a, b, k);
  }

  lemma QuietRests(def: WorkflowDef, now: Time, a: Log, b: Log, qb: multiset<StepName>)
    requires Live(def, b) ==> Quiet(def, now, b, qb)
    ensures Rests(def, now, a, b, qb)
  {
  }

  /** After a due step was done. */
  lemma FallsThen(def: WorkflowDef, now: Time, a: Log, q: multiset<StepName>, b: Log, c: Log, qc: multiset<StepName>,
        s: StepName)
    requires Done(def, now, a, q, b, s)
    requires Rests(def, now, b, c, qc)
    ensures Falls(def, now, a, c, qc, s)
  {
  }

  // ---- single events -----------------------------------------------------

  /** Flagging an SLA changes nothing but the flags. */
  lemma FlagRests(def: WorkflowDef, now: Time, log: Log, q: multiset<StepName>, e: Event)
    requires e.body.SlaBreached?
    ensures Kept(def, now, log, q, log + [e], q) && Rests(def, now, log, log + [e], q)
    ensures e.body.sla in Breached(log + [e])
  {
    AppendContinues(def, log, e);
    PlainNarrows(def, now, log, e);
    ReadyStays(def, now, log, e);
  }

  /** The step is due no more, and nothing became due or ready. */
  predicate Done(def: WorkflowDef, now: Time, a: Log, q: multiset<StepName>, b: Log, s: StepName) {
    && Grown(def, a, q, b, q) && (KindOf(def, s) != Task ==> Kept(def, now, a, q, b, q))
    && DueIn(def, now, b) <= DueIn(def, now, a) - {s} && ReadyIn(def, now, b) <= ReadyIn(def, now, a)
  }

  lemma DoneMeans(def: WorkflowDef, now: Time, a: Log, q: multiset<StepName>, b: Log, s: StepName)
    requires Done(def, now, a, q, b, s)
    ensures Grown(def, a, q, b, q) && (KindOf(def, s) != Task ==> Kept(def, now, a, q, b, q))
    ensures DueIn(def, now, b) <= DueIn(def, now, a) - {s} && ReadyIn(def, now, b) <= ReadyIn(def, now, a)
  {
  }

  /** TIMER_FIRED and STEP_COMPLETED: the delay is due no more. */
  lemma FiredRests(def: WorkflowDef, now: Time, log: Log, q: multiset<StepName>, s: StepName)
    ensures Done(def, now, log, q, log + [Event(now, TimerFired(s))] + [Event(now, StepCompleted(s, map[]))], s)
  {
    var e := Event(now, TimerFired(s));
    AppendContinues(def, log, e);
    PlainNarrows(def, now, log, e);
    ReadyStays(def, now, log, e);
    DoneRests(def, now, log + [e], q, s, map[]);
    ContinuesTrans(def, log, log + [e], log + [e] + [Event(now, StepCompleted(s, map[]))]);
  }

  lemma DoneRests(def: WorkflowDef, now: Time, log: Log, q: multiset<StepName>, s: StepName, out: Output)
    ensures Done(def, now, log, q, log + [Event(now, StepCompleted(s, out))], s)
  {
    var e := Event(now, StepCompleted(s, out));
    AppendContinues(def, log, e);
    StepRests(def, now, log, e);
    if KindOf(def, s) != Task { ReadyStays(def, now, log, e); }
  }

  lemma RequestRests(def: WorkflowDef, now: Time, log: Log, q: multiset<StepName>, e: Event)
    requires e.body.ApprovalRequested?
    ensures Grown(def, log, q, log + [e], q)
    ensures (KindOf(def, e.body.step) != Task ==> Kept(def, now, log, q, log + [e], q))
    ensures KindOf(def, e.body.step) == Approval ==> Falls(def, now, log, log + [e], q, e.body.step)
  {
    AppendContinues(def, log, e);
    if KindOf(def, e.body.step) != Task { ReadyStays(def, now, log, e); }
    if KindOf(def, e.body.step) == Approval { StepRests(def, now, log, e); }
  }

  /** The event that ends the run ends it. */
  lemma EndingRests(def: WorkflowDef, now: Time, log: Log, q: multiset<StepName>, e: Event)
    requires e.body.RunCompleted? || e.body.RunFailed? || e.body.RunCancelled?
    ensures Kept(def, now, log, q, log + [e], q) && !Live(def, log + [e]) && Rests(def, now, log, log + [e], q)
  {
    AppendContinues(def, log, e);
    ReplayAppend(def, log, e);
    ReadyStays(def, now, log, e);
  }

  // ---- scheduling a step -------------------------------------------------

  /** The events scheduleStep appends. */
  function Scheduling(def: WorkflowDef, s: StepName, now: Time): Log
    requires Schedulable(def, s)
  {
    (if KindOf(def, s) == Approval then [Event(now, FirstRequest(def, s))] else [])
    + [Event(now, ScheduledBody(def, s, now))]
  }

  /** Scheduling a step makes nothing due but the step itself, and only when it is an instant delay. */
  lemma SchedulingRests(def: WorkflowDef, now: Time, log: Log, q: multiset<StepName>, s: StepName)
    requires Schedulable(def, s)
    ensures var l := log + Scheduling(def, s, now);
            && l != [] && Kept(def, now, log, q, l, q)
            && DueIn(def, now, l) <= DueIn(def, now, log) + if Instant(def, s) then {s} else {}
  {
    var e := Event(now, ScheduledBody(def, s, now));
    if KindOf(def, s) == Approval {
      var first := Event(now, FirstRequest(def, s));
      var l := log + [first];
      AppendContinues(def, log, first);
      StepRests(def, now, log, first);
      ReadyStays(def, now, log, first);
      ReadyStays(def, now, l, e);
      AppendContinues(def, l, e);
      ContinuesTrans(def, log, l, l + [e]);
      StepScheduledNow(def, now, l, s);
      assert log + Scheduling(def, s, now) == l + [e];
    } else {
      AppendContinues(def, log, e);
      ReadyStays(def, now, log, e);
      StepScheduledNow(def, now, log, s);
      assert log + Scheduling(def, s, now) == log + [e];
    }
  }

  // ---- a loop over the steps of a snapshot -------------------------------

  /** While a dispatch at `now` that took its snapshot at log `a` goes through the steps: what is still due is in the
      part it has not visited, what is ready is there or queued, and the SLAs are flagged. */
  ghost predicate Sweeping(def: WorkflowDef, now: Time, a: Log, b: Log, qb: multiset<StepName>, todo: set<StepName>,
        approvalsOnly: bool) {
    Live(def, b) ==>
      && DueIn(def, now, b) <= DueIn(def, now, a)
      && (forall s :: s in DueIn(def, now, b) ==>
            if approvalsOnly then s in todo && KindOf(def, s) == Approval else s in todo || KindOf(def, s) == Approval)
      && (forall s :: s in ReadyIn(def, now, b) ==>
            s in qb || (!approvalsOnly && s in ReadyIn(def, now, a) && s in todo))
      && Flagged(def, now, b)
  }

  /** Visiting a step: what the visit made due or ready it dealt with. */
  lemma SweepOn(def: WorkflowDef, now: Time, a: Log, b: Log, qb: multiset<StepName>, c: Log, qc: multiset<StepName>,
        todo: set<StepName>, s: StepName, approvalsOnly: bool)
    requires Sweeping(def, now, a, b, qb, todo, approvalsOnly) && Kept(def, now, b, qb, c, qc)
    requires Falls(def, now, b, c, qc, s)
    requires approvalsOnly || s !in ReadyIn(def, now, a)
    ensures Sweeping(def, now, a, c, qc, todo - {s}, approvalsOnly)
  {
    if Live(def, c) {
      forall x | x in ReadyIn(def, now, c)
        ensures x in qc || (!approvalsOnly && x in ReadyIn(def, now, a) && x in todo - {s})
      {
        if !Quiet(def, now, c, qc) {
          assert x in ReadyIn(def, now, b);
          if x in qb { assert qb[x] <= qc[x]; }
        }
      }
    }
  }

  /** A step that is neither due nor ready may be passed over. */
  lemma SweepPast(def: WorkflowDef, now: Time, a: Log, b: Log, qb: multiset<StepName>, todo: set<StepName>, s: StepName,
        approvalsOnly: bool)
    requires Sweeping(def, now, a, b, qb, todo, approvalsOnly)
    requires s !in DueIn(def, now, a) || (approvalsOnly <==> KindOf(def, s) != Approval)
    requires s !in ReadyIn(def, now, a) || approvalsOnly
    ensures Sweeping(def, now, a, b, qb, todo - {s}, approvalsOnly)
  {
  }

  lemma MoreQueued(def: WorkflowDef, now: Time, a: Log, qa: multiset<StepName>, b: Log, qb: multiset<StepName>,
        s: StepName)
    requires Kept(def, now, a, qa, b, qb)
    ensures s in ReadyIn(def, now, a) ==> Kept(def, now, a, qa, b, qb + multiset{s})
  {
  }

  lemma MoreGrown(def: WorkflowDef, a: Log, qa: multiset<StepName>, b: Log, qb: multiset<StepName>, s: StepName)
    requires Grown(def, a, qa, b, qb)
    ensures Grown(def, a, qa, b, qb + multiset{s})
  {
  }

  /** Firing a step that the snapshot had due does not raise the load, while the run lives. */
  lemma FireLoad(def: WorkflowDef, now: Time, a: Log, b: Log, qb: multiset<StepName>, todo: set<StepName>, s: StepName,
        approvalsOnly: bool)
    requires Settles(def) && Sweeping(def, now, a, b, qb, todo, approvalsOnly) && s in DueIn(def, now, a)
    ensures Live(def, b) ==> Load(def, DueIn(def, now, b) - {s}) + Weight(def, s) <= Load(def, DueIn(def, now, a))
  {
    if Live(def, b) {
      assert DueIn(def, now, b) <= DueIn(def, now, a);
      LoadFire(def, DueIn(def, now, a), DueIn(def, now, b), s);
    }
  }

  /** A ready task that is queued is dealt with. */
  lemma SweepSubmit(def: WorkflowDef, now: Time, a: Log, b: Log, qb: multiset<StepName>, todo: set<StepName>,
        s: StepName)
    requires Sweeping(def, now, a, b, qb, todo, false) && s !in DueIn(def, now, a)
    ensures Sweeping(def, now, a, b, qb + multiset{s}, todo - {s}, false)
  {
  }

  /** After the SLAs are checked the loops over the snapshot begin. */
  lemma SweepStart(def: WorkflowDef, now: Time, a: Log, qa: multiset<StepName>, b: Log, qb: multiset<StepName>)
    requires Kept(def, now, a, qa, b, qb) && Rests(def, now, a, b, qb) && (Live(def, b) ==> Flagged(def, now, b))
    ensures Sweeping(def, now, a, b, qb, Replay(def, a).steps.Keys, false)
  {
  }

  /** The second loop begins where the first ended. */
  lemma SweepTurn(def: WorkflowDef, now: Time, a: Log, b: Log, qb: multiset<StepName>)
    requires Sweeping(def, now, a, b, qb, {}, false)
    ensures Sweeping(def, now, a, b, qb, Replay(def, a).steps.Keys, true)
  {
  }

  lemma SweepEnd(def: WorkflowDef, now: Time, a: Log, b: Log, qb: multiset<StepName>)
    requires Sweeping(def, now, a, b, qb, {}, true)
    ensures Live(def, b) ==> Quiet(def, now, b, qb)
  {
  }

  /** What the snapshot of a log says of a step. */
  lemma Visited(def: WorkflowDef, now: Time, log: Log, s: StepName)
    requires s in Replay(def, log).steps
    ensures s in DueIn(def, now, log) <==>
              TimerDue(Replay(def, log).steps[s], now) || Granted(Replay(def, log).steps[s])
    ensures s in ReadyIn(def, now, log) <==> TaskReady(Replay(def, log).steps[s], now)
    ensures s in DueIn(def, now, log) ==> s !in ReadyIn(def, now, log)
    ensures s in DueIn(def, now, log) ==> KindOf(def, s) != Task
    ensures s in DueIn(def, now, log) && !TimerDue(Replay(def, log).steps[s], now) ==> KindOf(def, s) == Approval
    ensures Replay(def, log).steps[s].kind == KindOf(def, s)
  {
    KindIsDeclared(def, log, s);
  }

  /** What advancing after s adds to what is due. */
  ghost function GainAfter(def: WorkflowDef, s: StepName, ok: bool): nat
    requires Settles(def)
  {
    if SuccessorOf(def, s, ok) == "" then 0 else Gain(def, SuccessorOf(def, s, ok))
  }

  // ---- tasks -------------------------------------------------------------

  /** What `failStep` appends before it advances. */
  function Failing(now: Time, s: StepName, reason: Reason, attempt: nat): Log {
    [Event(now, StepFailed(s, reason, attempt)), Event(now, RunFailing(s, reason))]
  }

  /** A STEP_STARTED is counted. */
  lemma StartCounts(def: WorkflowDef, log: Log, e: Event)
    requires e.body.StepStarted? && e.body.step in Replay(def, log).steps
    ensures e.body.step in Replay(def, log + [e]).steps
    ensures Replay(def, log + [e]).steps[e.body.step].attempt == Replay(def, log).steps[e.body.step].attempt + 1
  {
    ReplayAppend(def, log, e);
  }

  /** After n attempts the retry policy allows another. */
  predicate MayRetry(sd: StepDef, n: nat) {
    n == 0 || n < sd.retry.maxAttempts
  }

  /** What a failure at the n-th attempt leaves: a retry, after the backoff if there is one, while attempts are left,
      else the error path. */
  predicate FailureLeft(sd: StepDef, now: Time, s: StepName, reason: Reason, n: nat, l0: Log, l1: Log) {
    var failed := l0 + [Event(now, StepFailed(s, reason, n))];
    if MayRetry(sd, n)
    then failed + [Event(now, StepScheduled(s, Task, if sd.retry.delay > 0 then Some(now + sd.retry.delay) else None))]
         <= l1
    else failed + [Event(now, RunFailing(s, reason))] <= l1
  }

  lemma RetryLeft(sd: StepDef, now: Time, s: StepName, reason: Reason, n: nat, l0: Log, l1: Log)
    requires MayRetry(sd, n)
    requires var due := if sd.retry.delay > 0 then Some(now + sd.retry.delay) else None;
             l0 + [Event(now, StepFailed(s, reason, n))] + [Event(now, StepScheduled(s, Task, due))] <= l1
    ensures FailureLeft(sd, now, s, reason, n, l0, l1)
  {
  }

  lemma ErrorLeft(sd: StepDef, now: Time, s: StepName, reason: Reason, n: nat, l0: Log, l1: Log)
    requires !MayRetry(sd, n) && l0 + Failing(now, s, reason, n) <= l1
    ensures FailureLeft(sd, now, s, reason, n, l0, l1)
  {
    assert l0 + Failing(now, s, reason, n)
        == l0 + [Event(now, StepFailed(s, reason, n))] + [Event(now, RunFailing(s, reason))];
  }

  lemma RetryIs(def: WorkflowDef, s: StepName, sd: StepDef, now: Time)
    requires Lookup(def, s) == Some(sd)
    ensures Declared(def, s)
    ensures RetryBody(def, s, now) ==
              StepScheduled(s, Task, if sd.retry.delay > 0 then Some(now + sd.retry.delay) else None)
    ensures KindOf(def, s) == sd.kind
  {
  }

  /** The handler of a task fails, an attempt is left, and it has to wait for it. */
  predicate BacksOff(def: WorkflowDef, s: StepName, outcome: Outcome, log: Log) {
    match Lookup(def, s)
    case None => false
    case Some(sd) =>
      outcome.Fails? && sd.kind == Task && sd.retry.delay > 0 && Starts(log, s) + 1 < sd.retry.maxAttempts
  }

  /** What the execution of a task leaves in the log, before what dispatching adds. */
  predicate TaskLeft(def: WorkflowDef, now: Time, s: StepName, outcome: Outcome, l0: Log, l1: Log) {
    match Lookup(def, s)
    case None => l1 == l0
    case Some(sd) =>
      var started := l0 + [Event(now, StepStarted(s))];
      match outcome
      case NoHandler => l0 + Failing(now, s, NoHandlerFor(sd.task), Starts(l0, s)) <= l1
      case Succeeds(out) => started + [Event(now, StepCompleted(s, out))] <= l1
      case Fails(reason) => FailureLeft(sd, now, s, Said(reason), Starts(l0, s) + 1, started, l1)
  }

  lemma TaskUnknown(def: WorkflowDef, now: Time, s: StepName, outcome: Outcome, l0: Log)
    requires !Declared(def, s)
    ensures TaskLeft(def, now, s, outcome, l0, l0)
  {
  }

  lemma TaskUnhandled(def: WorkflowDef, now: Time, s: StepName, l0: Log, l1: Log)
    requires Declared(def, s)
    requires l0 + Failing(now, s, NoHandlerFor(Lookup(def, s).value.task), Starts(l0, s)) <= l1
    ensures TaskLeft(def, now, s, NoHandler, l0, l1) && l0 <= l1
  {
    Prefix(l0, Failing(now, s, NoHandlerFor(Lookup(def, s).value.task), Starts(l0, s)), l1);
  }

  lemma TaskHandled(def: WorkflowDef, now: Time, s: StepName, outcome: Outcome, l0: Log, l1: Log)
    requires Declared(def, s) && !outcome.NoHandler?
    requires var started := l0 + [Event(now, StepStarted(s))];
             && (outcome.Succeeds? ==> started + [Event(now, StepCompleted(s, outcome.output))] <= l1)
             && (outcome.Fails? ==>
                   FailureLeft(Lookup(def, s).value, now, s, Said(outcome.reason), Starts(started, s), started, l1))
    ensures TaskLeft(def, now, s, outcome, l0, l1) && l0 <= l1
  {
    var started := l0 + [Event(now, StepStarted(s))];
    assert started[..|l0|] == l0;
    assert l0 <= started;
  }

  lemma Prefix(a: Log, b: Log, c: Log)
    requires a + b <= c
    ensures a <= c
  {
    assert a <= a + b;
  }

  // ---- operations --------------------------------------------------------

  /** The machine, begun with the operation `op` on this log and queue, may leave them so at the time `now`. */
  ghost predicate Performed(def: WorkflowDef, now: Time, l0: Log, q0: multiset<StepName>, op: Frame, l1: Log,
        q1: multiset<StepName>) {
    At(def, now, Config(l0, TakeTask(q0, op), [op]), l1, q1, [])
  }

  lemma Performs(def: WorkflowDef, now: Time, l0: Log, q0: multiset<StepName>, op: Frame, l1: Log,
        q1: multiset<StepName>)
    requires Reachable(def, Config(l0, q0, [])) && MayBegin(l0, q0, op) && Performed(def, now, l0, q0, op, l1, q1)
    ensures Reachable(def, Config(l1, q1, []))
  {
    ReachableStep(def, Config(l0, q0, []), Begin(op));
    AtReachable(def, now, Config(l0, TakeTask(q0, op), [op]), l1, q1, []);
  }

  /** Reject appends the rejection and fails the run. */
  lemma RejectPerforms(def: WorkflowDef, now: Time, l0: Log, q0: multiset<StepName>, s: StepName, who: string,
        why: string)
    requires l0 != [] && MayDecide(Replay(def, l0), s, who)
    ensures var index := Replay(def, l0).steps[s].approval.value.index;
            var l1 := l0 + [Event(now, ApprovalRejected(s, index, who, why))]
                         + [Event(now, RunFailed(s, ApprovalRejection(why)))];
            Performed(def, now, l0, q0, Reject(s, who, why), l1, q0) && Replay(def, l1).status == RFailed
  {
    var op, index := Reject(s, who, why), Replay(def, l0).steps[s].approval.value.index;
    var c0, l := Config(l0, q0, [op]), l0 + [Event(now, ApprovalRejected(s, index, who, why))];
    ReplayAppend(def, l, Event(now, RunFailed(s, ApprovalRejection(why))));
    hide At, MayDecide, Replay;
    AtStart(def, now, l0, q0, [op]);
    assert [op] + [] == [op];
    OnReject(def, now, c0, l0, q0, s, who, why, []);
    OnAppendRejected(def, now, c0, l0, q0, s, index, who, why, []);
    OnFailRejected(def, now, c0, l, q0, s, why, []);
  }

  lemma NewRun(def: WorkflowDef, now: Time, l1: Log, q1: multiset<StepName>)
    requires At(def, now, Config([], multiset{}, [CreateEvent]), l1, q1, [])
    ensures Reachable(def, Config(l1, q1, [])) && Performed(def, now, [], multiset{}, CreateEvent, l1, q1)
  {
    var none: seq<Deed> := [];
    assert DoAll(def, IDLE, none) == IDLE;
    Performs(def, now, [], multiset{}, CreateEvent, l1, q1);
  }

  /** A replayed run names the definition it was created with. */
  lemma RunLoaded(def: WorkflowDef, log: Log, q: multiset<StepName>)
    requires Reachable(def, Config(log, q, [])) && log != []
    ensures Replay(def, log).workflow == def.name && Replay(def, log).version == def.version
  {
    var ds: seq<Deed> :| DoAll(def, IDLE, ds) == Config(log, q, []);
    Atomic.ReplayNamesDefinition(def, ds);
  }

  /** So does the run of a queued task, whose step has a state; without its definition the task is dropped. */
  lemma TaskLoaded(def: WorkflowDef, log: Log, q: multiset<StepName>, s: StepName)
    requires Reachable(def, Config(log, q, [])) && log != [] && s in q
    ensures Replay(def, log).workflow == def.name && Replay(def, log).version == def.version
    ensures s in Replay(def, log).steps
    ensures Reachable(def, Config(log, q - multiset{s}, []))
  {
    hide Replay, Act;
    RunLoaded(def, log, q);
    var ds: seq<Deed> :| DoAll(def, IDLE, ds) == Config(log, q, []);
    Atomic.QueueIsKnown(def, ds, s);
    TaskDropped(def, log, q, s);
  }

  /** A queued task that is taken and does not load is gone. */
  lemma TaskDropped(def: WorkflowDef, log: Log, q: multiset<StepName>, s: StepName)
    requires Reachable(def, Config(log, q, [])) && s in q
    ensures Reachable(def, Config(log, q - multiset{s}, []))
  {
    hide Replay, Act, Reachable;
    ReachableStep(def, Config(log, q, []), Begin(ExecuteTask(s)));
    var c := Config(log, q - multiset{s}, [ExecuteTask(s)]);
    ReachableStep(def, c, StoreError(Tick(0)));
    assert [] + c.stack[1..] == [];
  }

  /** A run that a sweep dispatched: as a lone dispatch may leave it, at rest; a run that was at rest keeps its log. */
  ghost predicate Swept(def: WorkflowDef, now: Time, l0: Log, q0: multiset<StepName>, l1: Log, q1: multiset<StepName>) {
    && Performed(def, now, l0, q0, Refresh, l1, q1) && Kept(def, now, l0, q0, l1, q1)
    && (Live(def, l1) ==> Quiet(def, now, l1, q1))
    && (!Live(def, l0) || Quiet(def, now, l0, q0) ==> l1 == l0)
  }

  lemma SweptBy(def: WorkflowDef, now: Time, l0: Log, q0: multiset<StepName>, l1: Log, q1: multiset<StepName>)
    requires Performed(def, now, l0, q0, Refresh, l1, q1) && Kept(def, now, l0, q0, l1, q1)
    requires Live(def, l1) ==> Quiet(def, now, l1, q1)
    requires !Live(def, l0) || (DueIn(def, now, l0) == {} && Flagged(def, now, l0)) ==> l1 == l0
    ensures Swept(def, now, l0, q0, l1, q1)
  {
  }

  /** A sweep of a run with an empty queue queues exactly what is ready. */
  lemma SweptQueue(def: WorkflowDef, now: Time, l0: Log, l1: Log, q1: multiset<StepName>, s: StepName)
    requires Swept(def, now, l0, multiset{}, l1, q1)
    ensures s in q1 ==> s in ReadyIn(def, now, l1)
    ensures Live(def, l1) ==> (s in q1 <==> s in ReadyIn(def, now, l1))
  {
    if s in q1 { assert q1[s] > 0; }
  }

  /** The log of a new run before its first step is scheduled. */
  function Opening(def: WorkflowDef, now: Time): Log {
    [Event(now, TicketCreated(def.name, def.version)), Event(now, RunStarted(def.initial))]
  }

  /** The log of a new run before its first dispatch. */
  function Birth(def: WorkflowDef, now: Time): Log
    requires Schedulable(def, def.initial)
  {
    Opening(def, now) + Scheduling(def, def.initial, now) + [Event(now, TicketAssigned)]
  }

  /** What CreateTicket leaves: the run's first events and, unless the first step cannot be scheduled, a dispatched run;
      its result is the run before that dispatch. */
  ghost predicate Created(def: WorkflowDef, now: Time, l1: Log, q1: multiset<StepName>, run: Option<RunState>) {
    && Performed(def, now, [], multiset{}, CreateEvent, l1, q1)
    && if Schedulable(def, def.initial)
       then
         && Birth(def, now) <= l1 && run == Some(Replay(def, Birth(def, now)))
         && (Live(def, l1) ==> Quiet(def, now, l1, q1))
       else run == None && l1 == Opening(def, now)
  }
}
