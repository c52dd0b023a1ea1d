/** When the reload after a handler's error fails, the retry decision counts the attempts of the snapshot from before
    the start (engine/engine.go:476-484, 501-533): workers that took a task at the same time then retry it any number
    of times, whatever its MaxAttempts. `Retries.RetriesBounded` needs its hypothesis. */
module RetryRace {
  import opened Model
  import opened Replaying
  import opened Machine
  import opened Moves
  import opened Threads
  import opened Trails
  import opened Walks
  import R = Retries
  import Reaching

  // ---- one worker ------------------------------------------------------------

  /** One action of thread t. */
  lemma Turn(def: WorkflowDef, m: Moment, t: nat, i: Input, f: Frame, a: Action) returns (m': Moment)
    requires StackAt(m.sys, t) == [f] && i.now == m.now && a == Act(def, i, m.sys.log, Replay(def, m.sys.log), f)
    ensures Worked(def, m, m', t) && m'.now == m.now && m'.sys.log == m.sys.log + a.emit
    ensures StackAt(m'.sys, t) == a.push && m'.sys.blind == m.sys.blind
    ensures m'.sys.retried == if f.Reschedule? then m.sys.retried + [f.start] else m.sys.retried
  {
    hide Reaches, Act, Replay;
    m' := Moment(Step(def, m.sys, Run(t, i)), m.now);
    ReachesOne(def, m, Run(t, i));
    assert a.push + [f][1..] == a.push;
  }

  /** The reload fails. */
  lemma Blinded(def: WorkflowDef, m: Moment, t: nat, run: RunState, s: StepName, why: Reason, start: nat)
    returns (m': Moment)
    requires StackAt(m.sys, t) == [TaskFailed(run, s, why, start)]
    ensures Worked(def, m, m', t) && m'.now == m.now && m'.sys.log == m.sys.log && m'.sys.retried == m.sys.retried
    ensures StackAt(m'.sys, t) == [HandleFailure(run, s, why, start)]
  {
    hide Reaches, Act, Replay;
    m' := Moment(Step(def, m.sys, Abort(t, Tick(m.now))), m.now);
    ReachesOne(def, m, Abort(t, Tick(m.now)));
  }

  lemma ActsStart(def: WorkflowDef, i: Input, log: Log, cur: RunState, run: RunState, s: StepName, start: nat)
    requires Retries(def, run, s) && i.outcome == Fails("")
    ensures Act(def, i, log, cur, StartTask(run, s)) ==
              Action([Event(i.now, StepStarted(s))], multiset{}, [RunHandler(run, s, |log|)])
    ensures Act(def, i, log, cur, RunHandler(run, s, start)) == Go([TaskFailed(run, s, Said(""), start)])
  {
  }

  lemma ActsRetry(def: WorkflowDef, i: Input, log: Log, cur: RunState, run: RunState, s: StepName, start: nat)
    requires Retries(def, run, s)
    ensures Act(def, i, log, cur, HandleFailure(run, s, Said(""), start)) ==
              Action([Event(i.now, StepFailed(s, Said(""), run.steps[s].attempt))], multiset{}, [Reschedule(s, start)])
    ensures Act(def, i, log, cur, Reschedule(s, start)) ==
              Action([Event(i.now, RetryBody(def, s, i.now))], multiset{}, [Refresh])
  {
  }

  /** One worker's handler fails, its reload fails, and the step is retried on the old snapshot. */
  lemma RetriesBlind(def: WorkflowDef, m: Moment, t: nat, run: RunState, s: StepName) returns (m': Moment)
    requires StackAt(m.sys, t) == [StartTask(run, s)] && Retries(def, run, s)
    ensures Worked(def, m, m', t) && m'.now == m.now && m'.sys.retried == m.sys.retried + [|m.sys.log|]
    ensures m.sys.log + [Event(m.now, StepStarted(s))] <= m'.sys.log
  {
    hide Worked, Act, Replay, Retries;
    var n, why, i := |m.sys.log|, Said(""), Input(m.now, "", Fails(""));
    var m1 := Started(def, m, t, i, run, s);
    ActsStart(def, i, m1.sys.log, Replay(def, m1.sys.log), run, s, n);
    var m2 := Turn(def, m1, t, i, RunHandler(run, s, n), Go([TaskFailed(run, s, why, n)]));
    var m3 := Blinded(def, m2, t, run, s, why, n);
    WorkedOn(def, m, m1, m2, t);
    WorkedOn(def, m, m2, m3, t);
    m' := Rescheduled(def, m3, t, i, run, s, n);
    WorkedOn(def, m, m3, m', t);
  }

  lemma Started(def: WorkflowDef, m: Moment, t: nat, i: Input, run: RunState, s: StepName) returns (m': Moment)
    requires StackAt(m.sys, t) == [StartTask(run, s)] && Retries(def, run, s) && i == Input(m.now, "", Fails(""))
    ensures Worked(def, m, m', t) && m'.now == m.now && m'.sys.retried == m.sys.retried
    ensures m'.sys.log == m.sys.log + [Event(m.now, StepStarted(s))] && m'.sys.blind == m.sys.blind
    ensures StackAt(m'.sys, t) == [RunHandler(run, s, |m.sys.log|)]
  {
    hide Worked, Act, Replay, Retries;
    ActsStart(def, i, m.sys.log, Replay(def, m.sys.log), run, s, 0);
    m' := Turn(def, m, t, i, StartTask(run, s),
               Action([Event(m.now, StepStarted(s))], multiset{}, [RunHandler(run, s, |m.sys.log|)]));
  }

  lemma Rescheduled(def: WorkflowDef, m: Moment, t: nat, i: Input, run: RunState, s: StepName, n: nat)
    returns (m': Moment)
    requires StackAt(m.sys, t) == [HandleFailure(run, s, Said(""), n)] && Retries(def, run, s)
    requires i == Input(m.now, "", Fails(""))
    ensures Worked(def, m, m', t) && m'.now == m.now && m.sys.log <= m'.sys.log
    ensures m'.sys.retried == m.sys.retried + [n] && m'.sys.blind == m.sys.blind
    ensures m'.sys.log == m.sys.log + [Event(m.now, StepFailed(s, Said(""), run.steps[s].attempt))]
                                    + [Event(m.now, RetryBody(def, s, m.now))]
  {
    assert s in run.steps && Declared(def, s);
    hide Worked, Act, Replay, Retries;
    var e := Event(m.now, StepFailed(s, Said(""), run.steps[s].attempt));
    ActsRetry(def, i, m.sys.log, Replay(def, m.sys.log), run, s, n);
    var m1 := Turn(def, m, t, i, HandleFailure(run, s, Said(""), n), Action([e], multiset{}, [Reschedule(s, n)]));
    ActsRetry(def, i, m1.sys.log, Replay(def, m1.sys.log), run, s, n);
    m' := Turn(def, m1, t, i, Reschedule(s, n),
               Action([Event(m.now, RetryBody(def, s, m.now))], multiset{}, [Refresh]));
    WorkedOn(def, m, m1, m', t);
  }

  // ---- many workers ----------------------------------------------------------

  /** These threads have all taken the task, and hold the same snapshot. */
  predicate Taken(sys: Sys, ts: seq<nat>, run: RunState, s: StepName) {
    && (forall i :: 0 <= i < |ts| ==> StackAt(sys, ts[i]) == [StartTask(run, s)])
    && (forall i, j :: 0 <= i < j < |ts| ==> ts[i] != ts[j])
  }

  /** Sweeps queue a pending task again and again, and as many workers take it before any of them starts. */
  lemma {:induction false} TakenTogether(def: WorkflowDef, m: Moment, s: StepName, n: nat)
    returns (m': Moment, ts: seq<nat>)
    requires Running(def, m.sys.log) && s in Replay(def, m.sys.log).steps
    requires TaskReady(Replay(def, m.sys.log).steps[s], m.now)
    ensures Reaches(def, m, m') && m'.now == m.now && m'.sys.log == m.sys.log
    ensures |ts| == n && Taken(m'.sys, ts, Replay(def, m.sys.log), s)
    decreases n
  {
    hide Reaches, Running, Replay, TaskReady, StackAt;
    if n == 0 {
      Waits(def, m, m.now);
      m', ts := m, [];
    } else {
      var m1, ts1 := TakenTogether(def, m, s, n - 1);
      var m2, _ := Queues(def, m1, s);
      var t := Idle(m2);
      NotEmpty(def, m.sys.log);
      m' := WorkerStarts(def, m2, s, t);
      ts := ts1 + [t];
      ReachesOn(def, m, m1, m2);
      ReachesOn(def, m, m2, m');
    }
  }

  lemma NotEmpty(def: WorkflowDef, l: Log)
    requires Running(def, l)
    ensures l != []
  {
  }

  /** The retried starts of s include these. */
  ghost predicate Retried(sys: Sys, s: StepName, ps: set<nat>) {
    && ps <= R.RetriesOf(sys, s)
    && forall p :: p in ps ==> p < |sys.log|
  }

  lemma OneMoreRetried(s: StepName, sys: Sys, sys': Sys, ps: set<nat>, now: Time)
    requires Retried(sys, s, ps) && sys'.retried == sys.retried + [|sys.log|]
    requires sys.log + [Event(now, StepStarted(s))] <= sys'.log
    ensures Retried(sys', s, ps + {|sys.log|})
  {
    var n := |sys.retried|;
    assert sys'.retried[n] == |sys.log| && R.IsStart(sys'.log, s, sys'.retried[n]);
    forall p | p in ps ensures p in R.RetriesOf(sys', s) {
      var k :| 0 <= k < n && R.IsStart(sys.log, s, sys.retried[k]) && sys.retried[k] == p;
      assert sys'.retried[k] == p && R.IsStart(sys'.log, s, sys'.retried[k]);
    }
  }

  /** One worker after the other retries the step. */
  lemma {:induction false} AllRetry(def: WorkflowDef, m: Moment, ts: seq<nat>, run: RunState, s: StepName)
    returns (m': Moment, ps: set<nat>)
    requires Taken(m.sys, ts, run, s) && Retries(def, run, s)
    ensures Reaches(def, m, m') && Retried(m'.sys, s, ps) && |ps| == |ts|
    ensures forall u: nat :: u !in ts ==> StackAt(m'.sys, u) == StackAt(m.sys, u)
    decreases |ts|
  {
    hide Reaches, Retries, StackAt;
    if ts == [] {
      Waits(def, m, m.now);
      m', ps := m, {};
    } else {
      var n := |ts| - 1;
      var m1, ps1 := AllRetry(def, m, ts[..n], run, s);
      assert ts[n] !in ts[..n] && forall u :: u !in ts ==> u !in ts[..n];
      m' := RetriesBlind(def, m1, ts[n], run, s);
      OneMoreRetried(s, m1.sys, m'.sys, ps1, m1.now);
      ps := ps1 + {|m1.sys.log|};
      ReachesOn(def, m, m1, m');
    }
  }

  /** For every workflow whose first step is a declared task, and for every number: some run retries that step so many
      times, each on a snapshot from before its start. */
  lemma RetriedWithoutBound(def: WorkflowDef, n: nat) returns (ms: seq<Move>)
    requires Declared(def, def.initial) && KindOf(def, def.initial) == Task
    ensures Onward(ms) && |R.RetriesOf(StepAll(def, NEW_RUN, ms), def.initial)| >= n
  {
    hide Reaches, Running, Replay, Retries, TaskReady, StackAt;
    var s := def.initial;
    var m1 := Begins(def);
    var run := Replay(def, m1.sys.log);
    FirstTask(def, m1.now);
    var m2, ts := TakenTogether(def, m1, s, n);
    ReachesOn(def, START, m1, m2);
    var m3, ps := AllRetry(def, m2, ts, run, s);
    ReachesOn(def, START, m2, m3);
    Larger(ps, R.RetriesOf(m3.sys, s));
    ms := MovesTo(def, m3);
  }

  lemma MovesTo(def: WorkflowDef, m: Moment) returns (ms: seq<Move>)
    requires Reaches(def, START, m)
    ensures Onward(ms) && StepAll(def, NEW_RUN, ms) == m.sys
  {
    ms :| Onward(ms) && Within(ms, START.now, m.now) && StepAll(def, START.sys, ms) == m.sys;
  }

  lemma FirstTask(def: WorkflowDef, now: Time)
    requires Declared(def, def.initial) && KindOf(def, def.initial) == Task
    ensures var run := Replay(def, Reaching.Born(def));
            def.initial in run.steps && TaskReady(run.steps[def.initial], now) && Retries(def, run, def.initial)
  {
    Reaching.BornState(def);
  }

  lemma {:induction false} Larger(a: set<nat>, b: set<nat>)
    requires a <= b
    ensures |a| <= |b|
  {
    assert b == a + (b - a);
  }

  /** The bound needs the hypothesis that no reload fails. */
  lemma ReloadsMatter(def: WorkflowDef) returns (ms: seq<Move>)
    requires Declared(def, def.initial) && KindOf(def, def.initial) == Task
    ensures !R.NoReloadFails(def, ms)
    ensures |R.RetriesOf(StepAll(def, NEW_RUN, ms), def.initial)| >= R.Allowed(def, def.initial)
  {
    ms := RetriedWithoutBound(def, R.Allowed(def, def.initial));
    if R.NoReloadFails(def, ms) { R.RetriesBounded(def, ms, def.initial); }
  }
}
