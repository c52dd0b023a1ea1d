/** The retry bound: while the reload after a handler's error succeeds, whatever the interleaving of workers, duplicate
    submissions, crashes and recoveries, the retry branch re-schedules a task step fewer times than its attempts allow
    (engine/engine.go:321-326, 475-486, 501-533). `RetryRace` shows that there is no bound on the other retries. */
module Retries {
  import opened Model
  import opened Replaying
  import opened Machine

  /** Attempts a step is allowed: those of its retry policy, at least one. */
  function Allowed(def: WorkflowDef, s: StepName): (r: nat)
    ensures r >= 1
  {
    match Lookup(def, s)
    case Some(sd) => if sd.retry.maxAttempts > 1 then sd.retry.maxAttempts else 1
    case None => 1
  }

  /** Which STEP_STARTED of step s the one at position k is, counting from 1. */
  function Ordinal(log: Log, s: StepName, k: nat): nat
    requires k < |log|
  {
    Starts(log[..k + 1], s)
  }

  predicate IsStart(log: Log, s: StepName, k: nat) {
    k < |log| && log[k].body == StepStarted(s)
  }

  // ---- activations of executeTask ----------------------------------------

  predicate Solo(f: Frame) {
    f.ExecuteTask? || f.StartTask? || f.RunHandler? || f.TaskFailed? || f.HandleFailure? || f.Reschedule?
  }

  /** The position of the STEP_STARTED the activation appended and may still retry. */
  function StartOf(f: Frame): Option<nat> {
    if f.RunHandler? || f.TaskFailed? || f.HandleFailure? || f.Reschedule? then Some(f.start) else None
  }

  predicate FrameOk(def: WorkflowDef, log: Log, blind: set<nat>, f: Frame) {
    StartOf(f).Some? ==>
      && IsStart(log, f.step, f.start)
      && (f.HandleFailure? && f.step in f.run.steps ==>
            f.start in blind || Ordinal(log, f.step, f.start) <= f.run.steps[f.step].attempt)
      && (f.Reschedule? ==> f.start in blind || Ordinal(log, f.step, f.start) < Allowed(def, f.step))
  }

  /** A task activation before its retry decision is alone on its stack. */
  predicate StackOk(def: WorkflowDef, log: Log, blind: set<nat>, stack: seq<Frame>) {
    && (|stack| == 1 ==> FrameOk(def, log, blind, stack[0]))
    && (|stack| > 1 ==> forall k :: 0 <= k < |stack| ==> !Solo(stack[k]))
  }

  function Carried(stack: seq<Frame>): Option<nat> {
    if |stack| == 1 then StartOf(stack[0]) else None
  }

  lemma OrdinalGrows(log: Log, more: Log, s: StepName, k: nat)
    requires k < |log|
    ensures Ordinal(log + more, s, k) == Ordinal(log, s, k)
  {
    assert (log + more)[..k + 1] == log[..k + 1];
  }

  lemma {:induction false} StartsGrow(log: Log, s: StepName, k: nat)
    requires k <= |log|
    ensures Starts(log[..k], s) <= Starts(log, s)
    decreases |log|
  {
    if k == |log| {
      assert log[..k] == log;
    } else {
      var init := log[..|log| - 1];
      assert init[..k] == log[..k];
      StartsGrow(init, s, k);
    }
  }

  lemma StackGrows(def: WorkflowDef, log: Log, more: Log, blind: set<nat>, more': set<nat>, stack: seq<Frame>)
    requires StackOk(def, log, blind, stack)
    ensures StackOk(def, log + more, blind + more', stack)
  {
    if |stack| == 1 && StartOf(stack[0]).Some? { OrdinalGrows(log, more, stack[0].step, stack[0].start); }
  }

  /** What one action does to an activation's start. */
  ghost predicate Carries(def: WorkflowDef, log: Log, blind: set<nat>, f: Frame, a: Action) {
    && |a.emit| <= 1
    && (Solo(f) ==> |a.push| <= 1)
    && (!Solo(f) ==> forall k :: 0 <= k < |a.push| ==> !Solo(a.push[k]))
    && (|a.push| == 1 ==> FrameOk(def, log + a.emit, blind, a.push[0]))
    && (Carried(a.push).Some? ==>
          || Carried(a.push) == StartOf(f)
          || Carried(a.push) == Some(|log|))
  }

  /** The other activations start no task activation. */
  predicate Quiet(a: Action) {
    |a.emit| <= 1 && forall k :: 0 <= k < |a.push| ==> !Solo(a.push[k])
  }

  lemma EntryQuiet(def: WorkflowDef, i: Input, log: Log, cur: RunState, f: Frame)
    requires EntryFrame(f)
    ensures Quiet(ActEntry(def, i, log, cur, f))
  {
  }

  lemma SlaQuiet(def: WorkflowDef, i: Input, f: Frame)
    requires f.SlaLoop?
    ensures Quiet(ActSla(def, i, f))
  {
  }

  lemma ScheduleQuiet(def: WorkflowDef, i: Input, f: Frame)
    requires ScheduleFrame(f)
    ensures Quiet(ActSchedule(def, i, f))
  {
  }

  lemma ScanQuiet(i: Input, f: Frame)
    requires ScanFrame(f)
    ensures Quiet(ActScan(i, f))
  {
  }

  lemma AdvanceQuiet(def: WorkflowDef, i: Input, f: Frame)
    requires AdvanceFrame(f)
    ensures Quiet(ActAdvance(def, i, f))
  {
  }

  lemma HumanQuiet(def: WorkflowDef, i: Input, log: Log, cur: RunState, f: Frame)
    requires HumanFrame(f)
    ensures Quiet(ActHuman(def, i, log, cur, f))
  {
  }

  lemma FailQuiet(def: WorkflowDef, i: Input, log: Log, cur: RunState, f: Frame)
    requires f.FailStep? || f.MarkFailing?
    ensures Quiet(ActTask(def, i, log, cur, f))
  {
  }

  lemma OthersQuiet(def: WorkflowDef, i: Input, log: Log, cur: RunState, f: Frame)
    requires !Solo(f)
    ensures Quiet(Act(def, i, log, cur, f))
  {
    if EntryFrame(f) { EntryQuiet(def, i, log, cur, f); }
    else if f.SlaLoop? { SlaQuiet(def, i, f); }
    else if ScheduleFrame(f) { ScheduleQuiet(def, i, f); }
    else if ScanFrame(f) { ScanQuiet(i, f); }
    else if AdvanceFrame(f) { AdvanceQuiet(def, i, f); }
    else if TaskFrame(f) { FailQuiet(def, i, log, cur, f); }
    else { HumanQuiet(def, i, log, cur, f); }
  }

  lemma TaskCarries(def: WorkflowDef, i: Input, log: Log, blind: set<nat>, f: Frame)
    requires Solo(f) && FrameOk(def, log, blind, f)
    ensures Carries(def, log, blind, f, ActTask(def, i, log, Replay(def, log), f))
  {
    if f.TaskFailed? || f.HandleFailure? {
      FailureCarries(def, i, log, blind, f);
    } else {
      hide Replay, Ordinal;
      var a := ActTask(def, i, log, Replay(def, log), f);
      if f.StartTask? { assert a.emit != [] ==> (log + a.emit)[|log|] == a.emit[0]; }
      if f.RunHandler? { assert log + a.emit == log; }
    }
  }

  lemma FailureCarries(def: WorkflowDef, i: Input, log: Log, blind: set<nat>, f: Frame)
    requires (f.TaskFailed? || f.HandleFailure?) && FrameOk(def, log, blind, f)
    ensures Carries(def, log, blind, f, ActTask(def, i, log, Replay(def, log), f))
  {
    hide Replay;
    var a := ActTask(def, i, log, Replay(def, log), f);
    if f.TaskFailed? {
      AttemptIsStarts(def, log, f.step);
      StartsGrow(log, f.step, f.start + 1);
      assert log + a.emit == log;
    } else {
      OrdinalGrows(log, a.emit, f.step, f.start);
    }
  }

  lemma ActCarries(def: WorkflowDef, i: Input, log: Log, blind: set<nat>, f: Frame)
    requires FrameOk(def, log, blind, f)
    ensures Carries(def, log, blind, f, Act(def, i, log, Replay(def, log), f))
  {
    var cur := Replay(def, log);
    if Solo(f) {
      TaskCarries(def, i, log, blind, f);
      hide Carries, ActTask;
    } else {
      OthersQuiet(def, i, log, cur, f);
      hide Act, FrameOk;
      QuietCarries(def, log, blind, f, Act(def, i, log, cur, f));
    }
  }

  lemma QuietCarries(def: WorkflowDef, log: Log, blind: set<nat>, f: Frame, a: Action)
    requires !Solo(f) && Quiet(a)
    ensures Carries(def, log, blind, f, a)
  {
  }

  // ---- every interleaving ------------------------------------------------

  /** A retry was granted to an early enough STEP_STARTED, or without looking at it. */
  predicate RetryOk(def: WorkflowDef, log: Log, blind: set<nat>, k: nat) {
    && k < |log| && log[k].body.StepStarted?
    && (k in blind || Ordinal(log, log[k].body.step, k) < Allowed(def, log[k].body.step))
  }

  /** No STEP_STARTED is carried by two activations, or carried and already retried, or retried twice. */
  ghost predicate SysOk(def: WorkflowDef, s: Sys) {
    && (forall t :: t in s.threads ==> StackOk(def, s.log, s.blind, s.threads[t]))
    && (forall t, u :: t in s.threads && u in s.threads && t != u && Carried(s.threads[t]).Some? ==>
          Carried(s.threads[t]) != Carried(s.threads[u]))
    && (forall t :: t in s.threads && Carried(s.threads[t]).Some? ==> Carried(s.threads[t]).value !in s.retried)
    && (forall n :: 0 <= n < |s.retried| ==> RetryOk(def, s.log, s.blind, s.retried[n]))
    && (forall m, n :: 0 <= m < n < |s.retried| ==> s.retried[m] != s.retried[n])
  }

  lemma StackAfter(def: WorkflowDef, log: Log, blind: set<nat>, stack: seq<Frame>, a: Action)
    requires stack != [] && StackOk(def, log, blind, stack) && Carries(def, log, blind, stack[0], a)
    ensures StackOk(def, log + a.emit, blind, a.push + stack[1..])
    ensures Carried(a.push + stack[1..]).Some? ==>
              Carried(a.push + stack[1..]) == Carried(stack) || Carried(a.push + stack[1..]) == Some(|log|)
  {
    var rest, s' := stack[1..], a.push + stack[1..];
    if |stack| == 1 {
      assert s' == a.push;
    } else {
      assert rest[0] == stack[1];
      forall k | 0 <= k < |s'| ensures !Solo(s'[k]) {
        if k >= |a.push| { assert s'[k] == stack[k - |a.push| + 1]; }
      }
    }
  }

  /** Thread t goes on with another stack: the log, the queue and the blind decisions may grow. */
  function Onward(s: Sys, t: nat, emit: Log, stack: seq<Frame>, queue: multiset<StepName>, more: set<nat>): Sys {
    Sys(s.log + emit, queue, s.threads[t := stack], s.retried, s.blind + more)
  }

  lemma ThreadsKeep(def: WorkflowDef, s: Sys, t: nat, emit: Log, stack: seq<Frame>, queue: multiset<StepName>,
        more: set<nat>)
    requires SysOk(def, s) && t in s.threads
    requires StackOk(def, s.log + emit, s.blind + more, stack)
    requires Carried(stack).Some? ==> Carried(stack) == Carried(s.threads[t]) || Carried(stack) == Some(|s.log|)
    ensures SysOk(def, Onward(s, t, emit, stack, queue, more))
  {
    forall u | u in s.threads ensures StackOk(def, s.log + emit, s.blind + more, s.threads[u]) {
      StackGrows(def, s.log, emit, s.blind, more, s.threads[u]);
    }
    forall n | 0 <= n < |s.retried| ensures RetryOk(def, s.log + emit, s.blind + more, s.retried[n]) {
      OrdinalGrows(s.log, emit, s.log[s.retried[n]].body.step, s.retried[n]);
    }
    forall u | u in s.threads && Carried(s.threads[u]).Some? ensures Carried(s.threads[u]).value < |s.log| {
      assert StackOk(def, s.log, s.blind, s.threads[u]);
    }
  }

  /** The retry decision of an activation whose start is recorded and given up. */
  lemma RetryKeeps(def: WorkflowDef, s: Sys, k: nat)
    requires SysOk(def, s) && RetryOk(def, s.log, s.blind, k) && k !in s.retried
    requires forall t :: t in s.threads ==> Carried(s.threads[t]) != Some(k)
    ensures SysOk(def, s.(retried := s.retried + [k]))
  {
  }

  lemma RunKeeps(def: WorkflowDef, s: Sys, t: nat, i: Input)
    requires SysOk(def, s) && Busy(s, t)
    ensures SysOk(def, RunThread(def, s, t, i))
  {
    var f, stack := Top(s, t), s.threads[t];
    var a := Act(def, i, s.log, Replay(def, s.log), f);
    assert FrameOk(def, s.log, s.blind, f);
    ActCarries(def, i, s.log, s.blind, f);
    StackAfter(def, s.log, s.blind, stack, a);
    assert s.blind + {} == s.blind;
    ThreadsKeep(def, s, t, a.emit, a.push + stack[1..], s.queue + a.submit, {});
    if f.Reschedule? {
      assert |stack| == 1;
      assert a.push + stack[1..] == [Refresh];
      RescheduleKeeps(def, s, t, a.emit, s.queue + a.submit);
    }
  }

  lemma RescheduleKeeps(def: WorkflowDef, s: Sys, t: nat, emit: Log, queue: multiset<StepName>)
    requires SysOk(def, s) && t in s.threads && |s.threads[t]| == 1 && s.threads[t][0].Reschedule?
    ensures SysOk(def, Sys(s.log + emit, queue, s.threads[t := [Refresh]],
                           s.retried + [s.threads[t][0].start], s.blind))
  {
    var f := s.threads[t][0];
    assert s.blind + {} == s.blind;
    ThreadsKeep(def, s, t, emit, [Refresh], queue, {});
    OrdinalGrows(s.log, emit, f.step, f.start);
    assert Carried(s.threads[t]) == Some(f.start);
    RetryKeeps(def, Sys(s.log + emit, queue, s.threads[t := [Refresh]], s.retried, s.blind), f.start);
  }

  lemma StepKeeps(def: WorkflowDef, s: Sys, m: Move)
    requires SysOk(def, s)
    ensures SysOk(def, Step(def, s, m))
  {
    hide Act, Ordinal, IsStart;
    match m {
      case Spawn(t, op) =>
      case Run(t, i) =>
        if Busy(s, t) { RunKeeps(def, s, t, i); }
      case Abort(t, i) =>
        if Step(def, s, m) != s { AbortKeeps(def, s, t); }
      case CrashAll =>
    }
  }

  lemma AbortKeeps(def: WorkflowDef, s: Sys, t: nat)
    requires SysOk(def, s) && Busy(s, t)
    ensures SysOk(def, FailThread(s, t))
  {
    var f, stack := Top(s, t), s.threads[t];
    var next := Failover(f) + stack[1..];
    assert s.log + [] == s.log && s.blind + {} == s.blind;
    if f.TaskFailed? {
      assert |stack| == 1 && next == Failover(f);
      ThreadsKeep(def, s, t, [], next, s.queue, {f.start});
    } else {
      assert next == stack[1..] && (|stack| > 1 ==> next[0] == stack[1]);
      ThreadsKeep(def, s, t, [], next, s.queue, {});
    }
  }

  lemma {:induction false} AlwaysOk(def: WorkflowDef, ms: seq<Move>)
    ensures SysOk(def, StepAll(def, NEW_RUN, ms))
    decreases |ms|
  {
    if ms != [] {
      AlwaysOk(def, ms[..|ms| - 1]);
      StepKeeps(def, StepAll(def, NEW_RUN, ms[..|ms| - 1]), ms[|ms| - 1]);
    }
  }

  // ---- counting ----------------------------------------------------------

  /** The starts of s that may be retried when m attempts are allowed. */
  function EarlyStarts(log: Log, s: StepName, m: nat): set<nat> {
    set k: nat | k < |log| && Early(log, s, m, k)
  }

  predicate Early(log: Log, s: StepName, m: nat, k: nat)
    requires k < |log|
  {
    log[k].body == StepStarted(s) && Ordinal(log, s, k) < m
  }

  lemma {:induction false} FewEarlyStarts(log: Log, s: StepName, m: nat)
    requires m >= 1
    ensures |EarlyStarts(log, s, m)| <= m - 1 && |EarlyStarts(log, s, m)| <= Starts(log, s)
    decreases |log|
  {
    if log == [] {
      assert EarlyStarts(log, s, m) == {};
    } else {
      hide EarlyStarts;
      var init, e := log[..|log| - 1], log[|log| - 1];
      FewEarlyStarts(init, s, m);
      EarlyStartsAppend(init, e, s, m);
      assert init + [e] == log;
    }
  }

  lemma EarlyStartsAppend(init: Log, e: Event, s: StepName, m: nat)
    ensures var more := e.body == StepStarted(s) && Starts(init, s) + 1 < m;
            EarlyStarts(init + [e], s, m) == EarlyStarts(init, s, m) + if more then {|init|} else {}
  {
    var log, n := init + [e], |init|;
    assert log[..n + 1] == log && log[..n] == init;
    forall k | 0 <= k < n ensures Early(log, s, m, k) <==> Early(init, s, m, k) {
      OrdinalGrows(init, [e], s, k);
      assert log[k] == init[k];
    }
    assert Early(log, s, m, n) <==> e.body == StepStarted(s) && Starts(init, s) + 1 < m;
    hide Early;
  }

  /** The retries of step s: the positions of the starts whose failure was re-scheduled. */
  function RetriesOf(s: Sys, step: StepName): set<nat> {
    set n | 0 <= n < |s.retried| && IsStart(s.log, step, s.retried[n]) :: s.retried[n]
  }

  /** Over any run no start is retried twice, and at most max(1, MaxAttempts) - 1 starts of a step are retried other
      than by a decision made on a snapshot from before the start. */
  lemma RetryBound(def: WorkflowDef, ms: seq<Move>, step: StepName)
    ensures var s := StepAll(def, NEW_RUN, ms);
            && (forall m, n :: 0 <= m < n < |s.retried| ==> s.retried[m] != s.retried[n])
            && (forall n :: 0 <= n < |s.retried| ==> s.retried[n] < |s.log| && s.log[s.retried[n]].body.StepStarted?)
            && |RetriesOf(s, step) - s.blind| <= Allowed(def, step) - 1
  {
    var s := StepAll(def, NEW_RUN, ms);
    AlwaysOk(def, ms);
    var early, seen := EarlyStarts(s.log, step, Allowed(def, step)), RetriesOf(s, step) - s.blind;
    FewEarlyStarts(s.log, step, Allowed(def, step));
    assert seen <= early;
    assert early == seen + (early - seen);
  }

  /** No failed task was decided on after a failed reload. */
  predicate NoReloadFails(def: WorkflowDef, ms: seq<Move>) {
    forall k :: 0 <= k < |ms| && ms[k].Abort? ==>
      var s := StepAll(def, NEW_RUN, ms[..k]);
      Busy(s, ms[k].tid) ==> !Top(s, ms[k].tid).TaskFailed?
  }

  lemma {:induction false} NothingBlind(def: WorkflowDef, ms: seq<Move>)
    requires NoReloadFails(def, ms)
    ensures StepAll(def, NEW_RUN, ms).blind == {}
    decreases |ms|
  {
    if ms != [] {
      var n := |ms| - 1;
      assert forall k :: 0 <= k < n ==> ms[..n][..k] == ms[..k] && ms[..n][k] == ms[k];
      NothingBlind(def, ms[..n]);
    }
  }

  /** While reloads succeed a step is retried at most max(1, MaxAttempts) - 1 times, in every interleaving. */
  lemma RetriesBounded(def: WorkflowDef, ms: seq<Move>, step: StepName)
    requires NoReloadFails(def, ms)
    ensures |RetriesOf(StepAll(def, NEW_RUN, ms), step)| <= Allowed(def, step) - 1
  {
    RetryBound(def, ms, step);
    NothingBlind(def, ms);
    assert RetriesOf(StepAll(def, NEW_RUN, ms), step) - {} == RetriesOf(StepAll(def, NEW_RUN, ms), step);
  }
}
