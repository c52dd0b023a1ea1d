/** Timers do not fire early (engine/engine.go:310-320, 437-441, 583-594): in every interleaving on a clock that never
    goes back, crashes, failures and stale snapshots included, a delay fires at or after a time it was scheduled for. */
module Timers {
  import opened Model
  import opened Replaying
  import opened Machine
  import opened Threads

  /** The log schedules s for the time d. */
  ghost predicate ScheduledFor(log: Log, s: StepName, d: Time) {
    exists j :: 0 <= j < |log| && log[j].body.StepScheduled? && log[j].body.step == s && log[j].body.due == Some(d)
  }

  ghost predicate DueBefore(log: Log, s: StepName, now: Time) {
    exists d: Time :: d <= now && ScheduledFor(log, s, d)
  }

  /** Every due time in the snapshot was scheduled. */
  ghost predicate Backed(log: Log, run: RunState) {
    forall s :: s in run.steps && run.steps[s].due.Some? ==> ScheduledFor(log, s, run.steps[s].due.value)
  }

  ghost predicate FrameOk(log: Log, now: Time, f: Frame) {
    && (RunOf(f).Some? ==> Backed(log, RunOf(f).value))
    && (f.FireTimer? ==> DueBefore(log, f.step, now))
  }

  ghost predicate StackOk(log: Log, now: Time, stack: seq<Frame>) {
    forall k :: 0 <= k < |stack| ==> FrameOk(log, now, stack[k])
  }

  /** What one action pushes, and fires. */
  ghost predicate ActOk(log: Log, now: Time, a: Action) {
    && |a.emit| <= 1 && StackOk(log, now, a.push)
    && (a.emit != [] && a.emit[0].body.TimerFired? ==> DueBefore(log, a.emit[0].body.step, a.emit[0].at))
  }

  lemma {:induction false} ReplayBacked(def: WorkflowDef, log: Log)
    ensures Backed(log, Replay(def, log))
    decreases |log|
  {
    if log != [] {
      var init, e := log[..|log| - 1], log[|log| - 1];
      ReplayBacked(def, init);
      forall s, d | ScheduledFor(init, s, d) ensures ScheduledFor(log, s, d) { ScheduledLater(init, log, s, d); }
      var run := Replay(def, log);
      forall s | s in run.steps && run.steps[s].due.Some? ensures ScheduledFor(log, s, run.steps[s].due.value) {
        if StepOf(e.body) == Some(s) && e.body.StepScheduled? && e.body.due.Some? { assert log[|log| - 1] == e; }
      }
    }
  }

  lemma ScheduledLater(log: Log, log': Log, s: StepName, d: Time)
    requires ScheduledFor(log, s, d) && log <= log'
    ensures ScheduledFor(log', s, d)
  {
    var j :| 0 <= j < |log| && log[j].body.StepScheduled? && log[j].body.step == s && log[j].body.due == Some(d);
    assert log'[j] == log[j];
  }

  lemma StackLater(log: Log, log': Log, now: Time, now': Time, stack: seq<Frame>)
    requires StackOk(log, now, stack) && log <= log' && now <= now'
    ensures StackOk(log', now', stack)
  {
    forall s, d | ScheduledFor(log, s, d) ensures ScheduledFor(log', s, d) { ScheduledLater(log, log', s, d); }
    hide ScheduledFor;
    assert forall k :: 0 <= k < |stack| ==> FrameOk(log, now, stack[k]);
  }

  // ---- one action ------------------------------------------------------------

  lemma EntryOk(def: WorkflowDef, i: Input, log: Log, cur: RunState, f: Frame)
    requires EntryFrame(f) && FrameOk(log, i.now, f) && Backed(log, cur)
    ensures ActOk(log, i.now, ActEntry(def, i, log, cur, f))
  {
    hide Backed, DueBefore;
  }

  lemma ScheduleOk(def: WorkflowDef, i: Input, log: Log, f: Frame)
    requires (ScheduleFrame(f) || f.SlaLoop?) && FrameOk(log, i.now, f)
    ensures ActOk(log, i.now, if f.SlaLoop? then ActSla(def, i, f) else ActSchedule(def, i, f))
  {
    hide Backed, DueBefore;
  }

  lemma ScanOk(i: Input, log: Log, f: Frame)
    requires ScanFrame(f) && FrameOk(log, i.now, f)
    ensures ActOk(log, i.now, ActScan(i, f))
  {
    hide ScheduledFor;
    if i.pick in f.run.steps && TimerDue(f.run.steps[i.pick], i.now) {
      assert ScheduledFor(log, i.pick, f.run.steps[i.pick].due.value);
    }
  }

  lemma AdvanceOk(def: WorkflowDef, i: Input, log: Log, f: Frame)
    requires AdvanceFrame(f) && FrameOk(log, i.now, f)
    ensures ActOk(log, i.now, ActAdvance(def, i, f))
  {
    hide Backed, DueBefore;
  }

  lemma TaskOk(def: WorkflowDef, i: Input, log: Log, cur: RunState, f: Frame)
    requires TaskFrame(f) && FrameOk(log, i.now, f) && Backed(log, cur)
    ensures ActOk(log, i.now, ActTask(def, i, log, cur, f))
  {
    hide Backed, DueBefore;
  }

  lemma HumanOk(def: WorkflowDef, i: Input, log: Log, cur: RunState, f: Frame)
    requires HumanFrame(f) && FrameOk(log, i.now, f) && Backed(log, cur)
    ensures ActOk(log, i.now, ActHuman(def, i, log, cur, f))
  {
    hide Backed, DueBefore, MayDecide, Terminal;
  }

  lemma AllOk(def: WorkflowDef, i: Input, log: Log, cur: RunState, f: Frame)
    requires FrameOk(log, i.now, f) && Backed(log, cur)
    ensures ActOk(log, i.now, Act(def, i, log, cur, f))
  {
    hide FrameOk, Backed, ActOk;
    if EntryFrame(f) { EntryOk(def, i, log, cur, f); }
    else if f.SlaLoop? || ScheduleFrame(f) { ScheduleOk(def, i, log, f); }
    else if ScanFrame(f) { ScanOk(i, log, f); }
    else if AdvanceFrame(f) { AdvanceOk(def, i, log, f); }
    else if TaskFrame(f) { TaskOk(def, i, log, cur, f); }
    else { HumanOk(def, i, log, cur, f); }
  }

  // ---- every interleaving ----------------------------------------------------

  /** Each timer of this log fired at or after a time it was scheduled for before. */
  ghost predicate OnTime(log: Log) {
    forall k :: 0 <= k < |log| && log[k].body.TimerFired? ==> DueBefore(log[..k], log[k].body.step, log[k].at)
  }

  ghost predicate SysOk(sys: Sys, now: Time) {
    OnTime(sys.log) && forall t :: t in sys.threads ==> StackOk(sys.log, now, sys.threads[t])
  }

  lemma OnTimeAppend(log: Log, e: Event)
    requires OnTime(log) && (e.body.TimerFired? ==> DueBefore(log, e.body.step, e.at))
    ensures OnTime(log + [e])
  {
    hide DueBefore;
    var l := log + [e];
    forall k | 0 <= k < |l| && l[k].body.TimerFired? ensures DueBefore(l[..k], l[k].body.step, l[k].at) {
      assert l[..k] == log[..k];
      if k == |log| { assert l[..k] == log; }
    }
  }

  lemma SysLater(sys: Sys, now: Time, now': Time)
    requires SysOk(sys, now) && now <= now'
    ensures SysOk(sys, now')
  {
    hide StackOk;
    forall t | t in sys.threads ensures StackOk(sys.log, now', sys.threads[t]) {
      StackLater(sys.log, sys.log, now, now', sys.threads[t]);
    }
  }

  lemma RunKeeps(def: WorkflowDef, sys: Sys, t: nat, i: Input)
    requires SysOk(sys, i.now) && Busy(sys, t)
    ensures SysOk(RunThread(def, sys, t, i), i.now)
  {
    hide Act, Replay, Backed, DueBefore, OnTime;
    var f, stack := Top(sys, t), sys.threads[t];
    var a := Act(def, i, sys.log, Replay(def, sys.log), f);
    ReplayBacked(def, sys.log);
    AllOk(def, i, sys.log, Replay(def, sys.log), f);
    var log := sys.log + a.emit;
    if a.emit == [] {
      assert log == sys.log;
    } else {
      assert log == sys.log + [a.emit[0]];
      OnTimeAppend(sys.log, a.emit[0]);
    }
    StackLater(sys.log, log, i.now, i.now, a.push + stack[1..]);
    hide StackOk;
    forall u | u in sys.threads ensures StackOk(log, i.now, sys.threads[u]) {
      StackLater(sys.log, log, i.now, i.now, sys.threads[u]);
    }
  }

  lemma StepKeeps(def: WorkflowDef, sys: Sys, m: Move, now: Time)
    requires SysOk(sys, now) && (MovedAt(m).Some? ==> MovedAt(m).value == now)
    ensures SysOk(Step(def, sys, m), now)
  {
    hide Act, Replay, Backed, DueBefore, OnTime;
    match m {
      case Spawn(t, op) =>
      case Run(t, i) => if Busy(sys, t) { RunKeeps(def, sys, t, i); }
      case Abort(t, i) =>
        if Busy(sys, t) {
          var f := Top(sys, t);
          assert FrameOk(sys.log, now, f);
          assert StackOk(sys.log, now, Failover(f) + sys.threads[t][1..]);
        }
      case CrashAll =>
    }
  }

  lemma {:induction false} AlwaysOk(def: WorkflowDef, ms: seq<Move>, now: Time)
    requires Onward(ms) && forall k :: 0 <= k < |ms| && MovedAt(ms[k]).Some? ==> MovedAt(ms[k]).value <= now
    ensures SysOk(StepAll(def, NEW_RUN, ms), now)
    decreases |ms|
  {
    hide Step, SysOk;
    if ms == [] {
      NothingFires(now);
    } else {
      var n := |ms| - 1;
      var m := ms[n];
      var at := if MovedAt(m).Some? then MovedAt(m).value else now;
      AlwaysOk(def, ms[..n], at);
      StepKeeps(def, StepAll(def, NEW_RUN, ms[..n]), m, at);
      SysLater(StepAll(def, NEW_RUN, ms), at, now);
    }
  }

  lemma NothingFires(now: Time)
    ensures SysOk(NEW_RUN, now)
  {
  }

  /** In every interleaving on a clock that never goes back, a timer fires at or after a time that its step was
      scheduled for earlier in the log. */
  lemma TimersOnTime(def: WorkflowDef, ms: seq<Move>, k: nat)
    requires Onward(ms) && k < |StepAll(def, NEW_RUN, ms).log|
    ensures var log := StepAll(def, NEW_RUN, ms).log;
            log[k].body.TimerFired? ==>
              exists j, d: Time ::
                0 <= j < k && d <= log[k].at && log[j].body.StepScheduled? && log[j].body.step == log[k].body.step
                && log[j].body.due == Some(d)
  {
    hide Step;
    var log := StepAll(def, NEW_RUN, ms).log;
    AlwaysOk(def, ms, LastTime(ms));
    if log[k].body.TimerFired? {
      var d: Time :| d <= log[k].at && ScheduledFor(log[..k], log[k].body.step, d);
      var past, s := log[..k], log[k].body.step;
      var j :| 0 <= j < |past| && past[j].body.StepScheduled? && past[j].body.step == s && past[j].body.due == Some(d);
      assert log[j] == past[j];
    }
  }

  /** A time that no move is after. */
  function LastTime(ms: seq<Move>): (now: Time)
    ensures forall k :: 0 <= k < |ms| && MovedAt(ms[k]).Some? ==> MovedAt(ms[k]).value <= now
  {
    if ms == [] then 0
    else
      var m, t := ms[|ms| - 1], LastTime(ms[..|ms| - 1]);
      assert forall k :: 0 <= k < |ms| - 1 ==> ms[..|ms| - 1][k] == ms[k];
      if MovedAt(m).Some? && MovedAt(m).value > t then MovedAt(m).value else t
  }
}
