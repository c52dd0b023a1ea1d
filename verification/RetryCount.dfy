/** A task that fails every time is tried as often as its retry policy allows, and then fails its run
    (engine/engine.go:476-547): the bound of `Retries.RetriesBounded` is met. */
module RetryCount {
  import opened Model
  import opened Replaying
  import opened Machine
  import opened Moves
  import opened Threads
  import opened Walks
  import opened RetryRace
  import R = Retries
  import Reaching

  /** The task is pending and due, and was started j times. */
  predicate ReadyAgain(def: WorkflowDef, m: Moment, s: StepName, j: nat) {
    var run := Replay(def, m.sys.log);
    && Running(def, m.sys.log) && s in run.steps && TaskReady(run.steps[s], m.now)
    && Starts(m.sys.log, s) == j
  }

  /** A worker takes the task, and its handler fails; it has reloaded the run. */
  lemma FailsOnce(def: WorkflowDef, m: Moment, s: StepName, j: nat) returns (m': Moment, t: nat)
    requires ReadyAgain(def, m, s, j) && Declared(def, s)
    ensures Reaches(def, m, m') && Sighted(m, m') && m'.now == m.now
    ensures m'.sys.log == m.sys.log + [Event(m.now, StepStarted(s))]
    ensures StackAt(m'.sys, t) == [HandleFailure(Replay(def, m'.sys.log), s, Said(""), |m.sys.log|)]
  {
    hide Worked, Reaches, Act, Replay, Running, TaskReady;
    var run, i, n := Replay(def, m.sys.log), Input(m.now, "", Fails("")), |m.sys.log|;
    var m1, _ := Queues(def, m, s);
    t := Idle(m1);
    NotEmpty(def, m.sys.log);
    var m2 := WorkerStarts(def, m1, s, t);
    ActsFailing(def, i, m2.sys.log, Replay(def, m2.sys.log), run, s, n);
    var m3 := Turn(def, m2, t, i, StartTask(run, s),
                   Action([Event(m.now, StepStarted(s))], multiset{}, [RunHandler(run, s, n)]));
    var now := Replay(def, m3.sys.log);
    ActsFailing(def, i, m3.sys.log, now, run, s, n);
    var m4 := Turn(def, m3, t, i, RunHandler(run, s, n), Go([TaskFailed(run, s, Said(""), n)]));
    assert m4.sys.log == m3.sys.log;
    ActsFailing(def, i, m4.sys.log, now, run, s, n);
    m' := Turn(def, m4, t, i, TaskFailed(run, s, Said(""), n), Go([HandleFailure(now, s, Said(""), n)]));
    WorkedOn(def, m2, m3, m4, t);
    WorkedOn(def, m2, m4, m', t);
    ReachesBy(def, m, m1, m2, m', t);
  }

  lemma ReachesBy(def: WorkflowDef, m: Moment, m1: Moment, m2: Moment, m': Moment, t: nat)
    requires exists u: nat :: Worked(def, m, m1, u)
    requires Worked(def, m1, m2, t) && Worked(def, m2, m', t)
    ensures Reaches(def, m, m')
  {
    hide Reaches;
    ReachesOn(def, m, m1, m2);
    ReachesOn(def, m, m2, m');
  }

  lemma ActsFailing(def: WorkflowDef, i: Input, log: Log, cur: RunState, run: RunState, s: StepName, start: nat)
    requires Declared(def, s) && i.outcome == Fails("")
    ensures Act(def, i, log, cur, StartTask(run, s)) ==
              Action([Event(i.now, StepStarted(s))], multiset{}, [RunHandler(run, s, |log|)])
    ensures Act(def, i, log, cur, RunHandler(run, s, start)) == Go([TaskFailed(run, s, Said(""), start)])
    ensures Act(def, i, log, cur, TaskFailed(run, s, Said(""), start)) ==
              Go([HandleFailure(cur, s, Said(""), start)])
  {
  }

  // ---- a retry ---------------------------------------------------------------

  /** The log after a failed execution that is retried. */
  function RetriedLog(def: WorkflowDef, l: Log, s: StepName, n: nat, at: Time): Log
    requires Declared(def, s)
  {
    l + [Event(at, StepStarted(s))] + [Event(at, StepFailed(s, Said(""), n))] + [Event(at, RetryBody(def, s, at))]
  }

  /** When the retry is due. */
  function RetryAt(def: WorkflowDef, s: StepName, now: Time): (r: Time)
    requires Declared(def, s)
    ensures r >= now
  {
    if Lookup(def, s).value.retry.delay > 0 then now + Lookup(def, s).value.retry.delay else now
  }

  lemma RetriedState(def: WorkflowDef, l: Log, s: StepName, now: Time, n: nat)
    requires Running(def, l) && s in Replay(def, l).steps && TaskReady(Replay(def, l).steps[s], now) && Declared(def, s)
    ensures var l' := RetriedLog(def, l, s, n, now); var run := Replay(def, l');
            && Running(def, l') && s in run.steps && TaskReady(run.steps[s], RetryAt(def, s, now))
    ensures Starts(RetriedLog(def, l, s, n, now), s) == Starts(l, s) + 1
  {
    var e, f := Event(now, StepStarted(s)), Event(now, StepFailed(s, Said(""), n));
    var g := Event(now, RetryBody(def, s, now));
    ReplayAppend(def, l, e);
    ReplayAppend(def, l + [e], f);
    ReplayAppend(def, l + [e] + [f], g);
    StartsAppend(l, e, s);
    StartsAppend(l + [e], f, s);
    StartsAppend(l + [e] + [f], g, s);
  }

  lemma StartsAppend(l: Log, e: Event, s: StepName)
    ensures Starts(l + [e], s) == Starts(l, s) + if e.body == StepStarted(s) then 1 else 0
  {
    assert (l + [e])[..|l|] == l;
  }

  lemma StartedState(def: WorkflowDef, l: Log, s: StepName, now: Time)
    requires s in Replay(def, l).steps
    ensures var l' := l + [Event(now, StepStarted(s))];
            s in Replay(def, l').steps && Replay(def, l').steps[s].attempt == Starts(l, s) + 1
  {
    var l' := l + [Event(now, StepStarted(s))];
    ReplayAppend(def, l, Event(now, StepStarted(s)));
    AttemptIsStarts(def, l', s);
    StartsAppend(l, Event(now, StepStarted(s)), s);
  }

  /** While attempts are left, the failure is retried, and the step is ready again when its backoff is over. */
  lemma RetriesOnce(def: WorkflowDef, m: Moment, s: StepName, j: nat) returns (m': Moment)
    requires ReadyAgain(def, m, s, j) && j + 1 < R.Allowed(def, s)
    ensures Reaches(def, m, m') && m'.sys.blind == m.sys.blind && ReadyAgain(def, m', s, j + 1)
    ensures m.sys.retried < m'.sys.retried && m'.sys.retried[|m'.sys.retried| - 1] == |m.sys.log|
    ensures m.sys.log + [Event(m.now, StepStarted(s))] <= m'.sys.log
  {
    hide Worked, Reaches, Act, Replay, Running, TaskReady;
    var i := Input(m.now, "", Fails(""));
    var m1, t := FailsOnce(def, m, s, j);
    var run := Replay(def, m1.sys.log);
    StartedState(def, m.sys.log, s, m.now);
    var m2 := Rescheduled(def, m1, t, i, run, s, |m.sys.log|);
    RetriedState(def, m.sys.log, s, m.now, j + 1);
    m' := Moment(m2.sys, RetryAt(def, s, m.now));
    Waits(def, m2, m'.now);
    JustReaches(def, m1, m2, t);
    ReachesOn(def, m, m1, m2);
    ReachesOn(def, m, m2, m');
  }

  // ---- as often as allowed ---------------------------------------------------

  lemma MoreRetried(s: StepName, sys: Sys, sys': Sys, ps: set<nat>, now: Time)
    requires Retried(sys, s, ps) && sys.retried < sys'.retried && sys'.retried[|sys'.retried| - 1] == |sys.log|
    requires sys.log + [Event(now, StepStarted(s))] <= sys'.log
    ensures Retried(sys', s, ps + {|sys.log|}) && |sys.log| !in ps
  {
    var n := |sys'.retried| - 1;
    assert sys'.retried[n] == |sys.log| && R.IsStart(sys'.log, s, sys'.retried[n]);
    forall p | p in ps ensures p in R.RetriesOf(sys', s) {
      var k :| 0 <= k < |sys.retried| && R.IsStart(sys.log, s, sys.retried[k]) && sys.retried[k] == p;
      assert sys'.retried[k] == p && R.IsStart(sys'.log, s, sys'.retried[k]);
    }
  }

  lemma {:induction false} RetriesTimes(def: WorkflowDef, m: Moment, s: StepName, n: nat)
    returns (m': Moment, ps: set<nat>)
    requires ReadyAgain(def, m, s, 0) && n < R.Allowed(def, s)
    ensures Reaches(def, m, m') && m'.sys.blind == m.sys.blind && ReadyAgain(def, m', s, n)
    ensures Retried(m'.sys, s, ps) && |ps| == n
    decreases n
  {
    hide Reaches, ReadyAgain, Retried, R.Allowed;
    if n == 0 {
      Waits(def, m, m.now);
      m', ps := m, {};
      NoneRetried(m.sys, s);
    } else {
      var m1, ps1 := RetriesTimes(def, m, s, n - 1);
      m' := RetriesOnce(def, m1, s, n - 1);
      MoreRetried(s, m1.sys, m'.sys, ps1, m1.now);
      ps := ps1 + {|m1.sys.log|};
      ReachesOn(def, m, m1, m');
    }
  }

  lemma NoneRetried(sys: Sys, s: StepName)
    ensures Retried(sys, s, {})
  {
  }

  /** Without an attempt left, the failure fails the run. */
  lemma FailsAtLast(def: WorkflowDef, m: Moment, s: StepName, j: nat) returns (m': Moment)
    requires ReadyAgain(def, m, s, j) && Declared(def, s) && j + 1 >= R.Allowed(def, s)
    ensures Reaches(def, m, m') && Sighted(m, m')
    ensures m.sys.log + [Event(m.now, StepStarted(s))] + [Event(m.now, StepFailed(s, Said(""), j + 1))]
            + [Event(m.now, RunFailing(s, Said("")))] == m'.sys.log
  {
    hide Worked, Reaches, Act, Replay, Running, TaskReady;
    var i, why, n := Input(m.now, "", Fails("")), Said(""), |m.sys.log|;
    var m1, t := FailsOnce(def, m, s, j);
    var run := Replay(def, m1.sys.log);
    StartedState(def, m.sys.log, s, m.now);
    ActsLast(def, i, m1.sys.log, run, run, s, n);
    var m2 := Turn(def, m1, t, i, HandleFailure(run, s, why, n), Go([FailStep(run, s, why)]));
    ActsLast(def, i, m2.sys.log, Replay(def, m2.sys.log), run, s, n);
    var m3 := Turn(def, m2, t, i, FailStep(run, s, why),
                   Action([Event(m.now, StepFailed(s, why, j + 1))], multiset{}, [MarkFailing(run, s, why)]));
    ActsLast(def, i, m3.sys.log, Replay(def, m3.sys.log), run, s, n);
    m' := Turn(def, m3, t, i, MarkFailing(run, s, why),
               Action([Event(m.now, RunFailing(s, why))], multiset{}, [Advance(run, s, false)]));
    WorkedOn(def, m1, m2, m3, t);
    WorkedOn(def, m1, m3, m', t);
    JustReaches(def, m1, m', t);
    ReachesOn(def, m, m1, m');
  }

  lemma ActsLast(def: WorkflowDef, i: Input, log: Log, cur: RunState, run: RunState, s: StepName, start: nat)
    requires s in run.steps && Declared(def, s) && run.steps[s].attempt >= R.Allowed(def, s)
    ensures Act(def, i, log, cur, HandleFailure(run, s, Said(""), start)) == Go([FailStep(run, s, Said(""))])
    ensures Act(def, i, log, cur, FailStep(run, s, Said(""))) ==
              Action([Event(i.now, StepFailed(s, Said(""), run.steps[s].attempt))], multiset{},
                     [MarkFailing(run, s, Said(""))])
    ensures Act(def, i, log, cur, MarkFailing(run, s, Said(""))) ==
              Action([Event(i.now, RunFailing(s, Said("")))], multiset{}, [Advance(run, s, false)])
  {
  }

  /** What was blind stays so; a failed reload makes the start it decides on blind. */
  lemma BlindGrows(def: WorkflowDef, sys: Sys, m: Move)
    ensures sys.blind <= Step(def, sys, m).blind
    ensures m.Abort? && Busy(sys, m.tid) && Top(sys, m.tid).TaskFailed? ==> Step(def, sys, m).blind != {}
  {
    hide Act, Replay;
    if m.Abort? && Busy(sys, m.tid) && Top(sys, m.tid).TaskFailed? {
      assert Top(sys, m.tid).start in Step(def, sys, m).blind;
    }
  }

  /** Without a blind start no reload failed. */
  lemma {:induction false} SeenAlways(def: WorkflowDef, ms: seq<Move>)
    requires StepAll(def, NEW_RUN, ms).blind == {}
    ensures R.NoReloadFails(def, ms)
    decreases |ms|
  {
    hide Step, Top, Busy;
    if ms != [] {
      var n := |ms| - 1;
      var init := ms[..n];
      BlindGrows(def, StepAll(def, NEW_RUN, init), ms[n]);
      SeenAlways(def, init);
      assert forall k :: 0 <= k < n ==> init[..k] == ms[..k] && init[k] == ms[k];
    }
  }

  /** For every workflow whose first step is a declared task: a run, without a failed reload and on a clock that never
      goes back, in which the task fails every time, retries it exactly as often as its policy allows, which is one less
      than its attempts, and then fails. */
  lemma RetriedAsAllowed(def: WorkflowDef) returns (ms: seq<Move>)
    requires Declared(def, def.initial) && KindOf(def, def.initial) == Task
    ensures Onward(ms) && R.NoReloadFails(def, ms)
    ensures var s, log := def.initial, StepAll(def, NEW_RUN, ms).log;
            && |R.RetriesOf(StepAll(def, NEW_RUN, ms), s)| == R.Allowed(def, s) - 1
            && Starts(log, s) == R.Allowed(def, s) && log != [] && log[|log| - 1].body == RunFailing(s, Said(""))
  {
    hide Reaches, ReadyAgain, Retried, Running, Before, Onward, StepAll, R.RetriesOf, R.NoReloadFails, R.Allowed,
         Reaching.Born, KindOf, Declared;
    var s := def.initial;
    var m1 := Begins(def);
    FirstReady(def, m1);
    var m2, ps := RetriesTimes(def, m1, s, R.Allowed(def, s) - 1);
    ReachesOn(def, START, m1, m2);
    var m3 := FailsAtLast(def, m2, s, R.Allowed(def, s) - 1);
    ReachesOn(def, START, m2, m3);
    ms := MovesTo(def, m3);
    SeenAlways(def, ms);
    R.RetriesBounded(def, ms, s);
    AllRetried(m2, m3, s, ps);
    AllStarted(m2.sys.log, m2.now, s, R.Allowed(def, s));
    AgainStarted(def, m2, s, R.Allowed(def, s) - 1);
  }

  lemma FirstReady(def: WorkflowDef, m: Moment)
    requires Declared(def, def.initial) && KindOf(def, def.initial) == Task
    requires m.sys.log == Reaching.Born(def) && Running(def, m.sys.log)
    ensures ReadyAgain(def, m, def.initial, 0)
  {
    FirstTask(def, m.now);
    AttemptIsStarts(def, m.sys.log, def.initial);
    Reaching.BornState(def);
  }

  lemma AgainStarted(def: WorkflowDef, m: Moment, s: StepName, j: nat)
    requires ReadyAgain(def, m, s, j)
    ensures Starts(m.sys.log, s) == j
  {
  }

  lemma AllRetried(m: Moment, m': Moment, s: StepName, ps: set<nat>)
    requires Retried(m.sys, s, ps) && Sighted(m, m') && m.sys.log <= m'.sys.log
    ensures |R.RetriesOf(m'.sys, s)| >= |ps|
  {
    forall p | p in ps ensures p in R.RetriesOf(m'.sys, s) {
      var k :| 0 <= k < |m.sys.retried| && R.IsStart(m.sys.log, s, m.sys.retried[k]) && m.sys.retried[k] == p;
      assert m'.sys.retried[k] == p && R.IsStart(m'.sys.log, s, m'.sys.retried[k]);
    }
    Larger(ps, R.RetriesOf(m'.sys, s));
  }

  lemma AllStarted(l: Log, now: Time, s: StepName, n: nat)
    ensures var l' := l + [Event(now, StepStarted(s))] + [Event(now, StepFailed(s, Said(""), n))]
                        + [Event(now, RunFailing(s, Said("")))];
            Starts(l', s) == Starts(l, s) + 1 && l' != [] && l'[|l'| - 1].body == RunFailing(s, Said(""))
  {
    var e, f := Event(now, StepStarted(s)), Event(now, StepFailed(s, Said(""), n));
    StartsAppend(l, e, s);
    StartsAppend(l + [e], f, s);
    StartsAppend(l + [e] + [f], Event(now, RunFailing(s, Said(""))), s);
  }
}
