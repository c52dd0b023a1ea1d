/** When a task is queued, in terms of the events of its log alone (engine/engine.go:310-320, 431-436, 509-530): a
    pending task is queued by a dispatch, a sweep or a recovery exactly when the due time of its last STEP_SCHEDULED to
    carry one has come. So a retry waits for its backoff. */
module Backoff {
  import opened Model
  import opened Replaying
  import opened Machine
  import opened Settling
  import opened Resting
  import opened Derived

  // ---- pending, due ----------------------------------------------------------

  /** The last event that set the status of s scheduled it to be executed, or s is the first step of a run that has
      only begun. */
  ghost predicate PendingIn(log: Log, s: StepName) {
    || (exists k: nat :: Last(FStatus, log, s, k) && IsTurn(log[k].body))
    || (Never(FStatus, log, s) && BornPending(log, s))
  }

  predicate IsTurn(b: Body) {
    b.StepScheduled? && b.kind != Approval && b.kind != Delay
  }

  /** The last event that set the due time of s, if there is one, set it to `now` or earlier. */
  ghost predicate DueBy(log: Log, s: StepName, now: Time) {
    forall k: nat :: Last(FDue, log, s, k) ==> log[k].body.due.value <= now
  }

  lemma PendingIff(def: WorkflowDef, log: Log, s: StepName)
    ensures PendingIn(log, s) <==> s in Replay(def, log).steps && Replay(def, log).steps[s].status == SPending
  {
    hide Last, Never, Replay;
    LastOrNever(FStatus, log, s);
    if k: nat :| Last(FStatus, log, s, k) {
      StatusIsLast(def, log, s, k);
      forall j: nat | Last(FStatus, log, s, j) ensures j == k { OneLast(FStatus, log, s, j, k); }
      SetsStatus(log, s, k);
    } else {
      StatusAtFirst(def, log, s);
    }
  }

  lemma SetsStatus(log: Log, s: StepName, k: nat)
    requires Last(FStatus, log, s, k)
    ensures k < |log| && Sets(FStatus, log[k].body, s)
  {
  }

  lemma DueIff(def: WorkflowDef, log: Log, s: StepName, now: Time)
    requires s in Replay(def, log).steps
    ensures var due := Replay(def, log).steps[s].due;
            DueBy(log, s, now) <==> (due.None? || due.value <= now)
  {
    hide Last, Never, Replay;
    LastOrNever(FDue, log, s);
    if k: nat :| Last(FDue, log, s, k) {
      DueIsLast(def, log, s, k);
      forall j: nat | Last(FDue, log, s, j) ensures j == k { OneLast(FDue, log, s, j, k); }
      HasDue(log, s, k);
    } else {
      DueIsNone(def, log, s);
    }
  }

  lemma HasDue(log: Log, s: StepName, k: nat)
    requires Last(FDue, log, s, k)
    ensures log[k].body.StepScheduled? && log[k].body.due.Some?
  {
  }

  /** The tasks that are ready, by the events of the log. */
  lemma ReadyIff(def: WorkflowDef, now: Time, log: Log, s: StepName)
    ensures s in ReadyIn(def, now, log) <==> KindOf(def, s) == Task && PendingIn(log, s) && DueBy(log, s, now)
  {
    hide Replay, PendingIn, DueBy;
    PendingIff(def, log, s);
    if s in Replay(def, log).steps {
      KindIsDeclared(def, log, s);
      DueIff(def, log, s, now);
    }
  }

  /** A task that was just scheduled is pending, until its due time if it was given one. */
  lemma Armed(log: Log, s: StepName, at: Time, due: Time, now: Time)
    ensures var l := log + [Event(at, StepScheduled(s, Task, Some(due)))];
            PendingIn(l, s) && (DueBy(l, s, now) <==> due <= now)
  {
    var l, n := log + [Event(at, StepScheduled(s, Task, Some(due)))], |log|;
    assert Last(FStatus, l, s, n) && Last(FDue, l, s, n);
    forall k: nat | Last(FDue, l, s, k) ensures k == n { OneLast(FDue, l, s, k, n); }
  }

  // ---- what a dispatch queues ------------------------------------------------

  /** A pending task that is not due by `now` was left as it was; one that is due is queued while the run lives. */
  ghost predicate Timely(def: WorkflowDef, now: Time, l0: Log, q0: multiset<StepName>, l1: Log, q1: multiset<StepName>)
  {
    && (forall s :: KindOf(def, s) == Task && PendingIn(l0, s) && !DueBy(l0, s, now) ==> q1[s] == q0[s])
    && (forall s :: KindOf(def, s) == Task && PendingIn(l0, s) && DueBy(l0, s, now) && Live(def, l1) ==> s in q1)
    && (forall s :: KindOf(def, s) == Task && PendingIn(l1, s) && DueBy(l1, s, now) && Live(def, l1) ==> s in q1)
  }

  lemma UntimedEvent(def: WorkflowDef, a: Log, b: Log, s: StepName, k: nat)
    requires Untimed(def, a, b) && KindOf(def, s) == Task && |a| <= k < |b|
    ensures !Sets(FDue, b[k].body, s)
    ensures Sets(FStatus, b[k].body, s) ==> IsTurn(b[k].body)
  {
  }

  /** A dispatch leaves the due time of a task as it was ... */
  lemma StillDue(def: WorkflowDef, a: Log, b: Log, s: StepName, now: Time)
    requires a <= b && Untimed(def, a, b) && KindOf(def, s) == Task
    ensures DueBy(b, s, now) <==> DueBy(a, s, now)
  {
    hide Untimed, KindOf, Sets;
    forall k: nat ensures Last(FDue, a, s, k) <==> Last(FDue, b, s, k) {
      forall j: nat | |a| <= j < |b| ensures !Sets(FDue, b[j].body, s) { UntimedEvent(def, a, b, s, j); }
    }
  }

  /** ... and a pending task pending. */
  lemma StillPending(def: WorkflowDef, a: Log, b: Log, s: StepName)
    requires a <= b && Untimed(def, a, b) && KindOf(def, s) == Task && PendingIn(a, s)
    ensures PendingIn(b, s)
  {
    hide Untimed, KindOf, Sets, Last, Never;
    LastOrNever(FStatus, b, s);
    if k: nat :| Last(FStatus, b, s, k) {
      SetsStatus(b, s, k);
      if k >= |a| {
        UntimedEvent(def, a, b, s, k);
      } else {
        LastInside(a, b, s, k);
        forall j: nat | Last(FStatus, a, s, j) ensures j == k { OneLast(FStatus, a, s, j, k); }
        LastOrNever(FStatus, a, s);
      }
    } else {
      NeverInside(a, b, s);
      LastOrNever(FStatus, a, s);
      BornInside(a, b, s);
    }
  }

  lemma LastInside(a: Log, b: Log, s: StepName, k: nat)
    requires a <= b && k < |a| && Last(FStatus, b, s, k)
    ensures Last(FStatus, a, s, k) && a[k] == b[k]
  {
  }

  lemma NeverInside(a: Log, b: Log, s: StepName)
    requires a <= b && Never(FStatus, b, s)
    ensures Never(FStatus, a, s)
  {
  }

  lemma BornInside(a: Log, b: Log, s: StepName)
    requires a <= b && BornPending(a, s)
    ensures BornPending(b, s)
  {
    var k: nat :| BornAt(a, s, k);
    assert BornAt(b, s, k);
  }

  lemma KeptTimely(def: WorkflowDef, now: Time, l0: Log, q0: multiset<StepName>, l1: Log, q1: multiset<StepName>)
    requires Kept(def, now, l0, q0, l1, q1) && (Live(def, l1) ==> Quiet(def, now, l1, q1))
    ensures Timely(def, now, l0, q0, l1, q1)
  {
    hide PendingIn, DueBy, Live, ReadyIn, Continues;
    KeptMeans(def, now, l0, q0, l1, q1);
    forall s | KindOf(def, s) == Task
      ensures PendingIn(l0, s) && !DueBy(l0, s, now) ==> q1[s] == q0[s]
      ensures PendingIn(l0, s) && DueBy(l0, s, now) && Live(def, l1) ==> s in q1
      ensures PendingIn(l1, s) && DueBy(l1, s, now) && Live(def, l1) ==> s in q1
    {
      StillDue(def, l0, l1, s, now);
      if PendingIn(l0, s) { StillPending(def, l0, l1, s); }
      ReadyIff(def, now, l1, s);
      assert q0[s] <= q1[s];
    }
  }

  lemma StaysQueued(def: WorkflowDef, now: Time, l0: Log, q0: multiset<StepName>, l1: Log, q1: multiset<StepName>,
        s: StepName)
    requires Timely(def, now, l0, q0, l1, q1) && PendingIn(l0, s) && !DueBy(l0, s, now)
    ensures KindOf(def, s) == Task ==> q1[s] == q0[s]
  {
  }

  lemma SweptTimely(def: WorkflowDef, now: Time, l0: Log, q0: multiset<StepName>, l1: Log, q1: multiset<StepName>)
    requires Swept(def, now, l0, q0, l1, q1)
    ensures Timely(def, now, l0, q0, l1, q1)
  {
    hide Performed, Kept, Quiet, Live, Timely;
    KeptTimely(def, now, l0, q0, l1, q1);
  }
}
