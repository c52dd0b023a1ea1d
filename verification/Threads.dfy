/** Runs of the threads, built on a clock that never goes back: a thread that works alone for a while does what `Moves`
    says of one stack. */
module Threads {
  import opened Model
  import opened Replaying
  import opened Machine
  import opened Moves

  // ---- runs ----------------------------------------------------------------

  /** The time a move takes place at; beginning an operation and crashing are not timed. */
  function MovedAt(m: Move): Option<Time> {
    match m
    case Run(_, i) => Some(i.now)
    case Abort(_, i) => Some(i.now)
    case _ => None
  }

  /** The clock never goes back. */
  predicate Onward(ms: seq<Move>) {
    forall j, k :: 0 <= j < k < |ms| && MovedAt(ms[j]).Some? && MovedAt(ms[k]).Some? ==>
      MovedAt(ms[j]).value <= MovedAt(ms[k]).value
  }

  predicate Within(ms: seq<Move>, a: Time, b: Time) {
    forall k :: 0 <= k < |ms| && MovedAt(ms[k]).Some? ==> a <= MovedAt(ms[k]).value <= b
  }

  /** The threads at a time. */
  datatype Moment = Moment(sys: Sys, now: Time)

  const START := Moment(NEW_RUN, 1)

  ghost predicate Reaches(def: WorkflowDef, m: Moment, m': Moment) {
    m.now <= m'.now
    && exists ms: seq<Move> :: Onward(ms) && Within(ms, m.now, m'.now) && StepAll(def, m.sys, ms) == m'.sys
  }

  lemma {:induction false} StepAllSplit(def: WorkflowDef, s: Sys, a: seq<Move>, b: seq<Move>)
    ensures StepAll(def, s, a + b) == StepAll(def, StepAll(def, s, a), b)
    decreases |b|
  {
    if b == [] {
      assert a + b == a;
    } else {
      var init := b[..|b| - 1];
      StepAllSplit(def, s, a, init);
      assert (a + b)[..|a + b| - 1] == a + init;
    }
  }

  lemma ReachesOn(def: WorkflowDef, m: Moment, m': Moment, m'': Moment)
    requires Reaches(def, m, m') && Reaches(def, m', m'')
    ensures Reaches(def, m, m'')
  {
    hide StepAll;
    var a: seq<Move> :| Onward(a) && Within(a, m.now, m'.now) && StepAll(def, m.sys, a) == m'.sys;
    var b: seq<Move> :| Onward(b) && Within(b, m'.now, m''.now) && StepAll(def, m'.sys, b) == m''.sys;
    StepAllSplit(def, m.sys, a, b);
    assert Onward(a + b) && Within(a + b, m.now, m''.now);
  }

  lemma ReachesOne(def: WorkflowDef, m: Moment, move: Move)
    requires MovedAt(move).Some? ==> MovedAt(move).value == m.now
    ensures Reaches(def, m, Moment(Step(def, m.sys, move), m.now))
  {
    hide Step;
    assert [move][..0] == [];
    assert Onward([move]) && Within([move], m.now, m.now) && StepAll(def, m.sys, [move]) == Step(def, m.sys, move);
  }

  /** Time passes. */
  lemma Waits(def: WorkflowDef, m: Moment, now: Time)
    requires m.now <= now
    ensures Reaches(def, m, Moment(m.sys, now))
  {
    assert Onward([]) && Within([], m.now, now) && StepAll(def, m.sys, []) == m.sys;
  }

  /** A thread's stack, or none. */
  function StackAt(s: Sys, t: nat): seq<Frame> {
    if t in s.threads then s.threads[t] else []
  }

  // ---- one thread at work ------------------------------------------------

  /** A run in which only thread t moves. */
  ghost predicate Worked(def: WorkflowDef, m: Moment, m': Moment, t: nat) {
    Reaches(def, m, m') && forall u: nat :: u != t ==> StackAt(m'.sys, u) == StackAt(m.sys, u)
  }

  lemma WorkedOn(def: WorkflowDef, m: Moment, m': Moment, m'': Moment, t: nat)
    requires Worked(def, m, m', t) && Worked(def, m', m'', t)
    ensures Worked(def, m, m'', t)
  {
    hide Reaches;
    ReachesOn(def, m, m', m'');
  }

  /** No retry was forgotten, and no handler's failure was decided on after a failed reload. */
  ghost predicate Sighted(m: Moment, m': Moment) {
    m.sys.retried <= m'.sys.retried && m'.sys.blind == m.sys.blind
  }

  /** Thread t has this stack, over this log and queue. */
  predicate Stands(m: Moment, t: nat, l: Log, q: multiset<StepName>, stack: seq<Frame>) {
    m.sys.log == l && m.sys.queue == q && StackAt(m.sys, t) == stack
  }

  function ConfigOf(s: Sys, t: nat): Config {
    Config(s.log, s.queue, StackAt(s, t))
  }

  lemma {:induction false} WorksAlone(def: WorkflowDef, m: Moment, t: nat, ins: seq<Input>) returns (m': Moment)
    requires Timed(ins, m.now)
    ensures Worked(def, m, m', t) && Sighted(m, m') && m'.now == m.now
    ensures ConfigOf(m'.sys, t) == Works(def, ConfigOf(m.sys, t), ins)
    decreases |ins|
  {
    hide Act, Replay, Reaches;
    if ins == [] {
      Waits(def, m, m.now);
      m' := m;
    } else {
      var i := ins[|ins| - 1];
      var m1 := WorksAlone(def, m, t, ins[..|ins| - 1]);
      m' := Moment(Step(def, m1.sys, Run(t, i)), m.now);
      ReachesOne(def, m1, Run(t, i));
      WorkedOn(def, m, m1, m', t);
    }
  }

  /** Thread t comes to where its stack alone can come. */
  lemma CameTo(def: WorkflowDef, m: Moment, t: nat, l: Log, q: multiset<StepName>, stack: seq<Frame>)
    returns (m': Moment)
    requires At(def, m.now, ConfigOf(m.sys, t), l, q, stack)
    ensures Worked(def, m, m', t) && Sighted(m, m') && m'.now == m.now && Stands(m', t, l, q, stack)
  {
    hide Reaches;
    var ins: seq<Input> :| Timed(ins, m.now) && Works(def, ConfigOf(m.sys, t), ins) == Config(l, q, stack);
    m' := WorksAlone(def, m, t, ins);
  }

  /** An append or a load of thread t fails, and its activation returns. */
  lemma Dropped(def: WorkflowDef, m: Moment, t: nat, f: Frame, rest: seq<Frame>) returns (m': Moment)
    requires StackAt(m.sys, t) == [f] + rest && MayFail(def, Tick(m.now), m.sys.log, f) && !f.TaskFailed?
    ensures Worked(def, m, m', t) && Sighted(m, m') && m'.now == m.now
    ensures Stands(m', t, m.sys.log, m.sys.queue, rest)
  {
    hide Act, Replay, MayFail, Reaches;
    m' := Moment(Step(def, m.sys, Abort(t, Tick(m.now))), m.now);
    ReachesOne(def, m, Abort(t, Tick(m.now)));
    assert [] + ([f] + rest)[1..] == rest;
  }

  /** A thread that has nothing to do begins an operation. */
  lemma Spawned(def: WorkflowDef, m: Moment, t: nat, op: Frame) returns (m': Moment)
    requires m.sys.log != [] && StackAt(m.sys, t) == [] && MayBegin(m.sys.log, m.sys.queue, op)
    ensures Worked(def, m, m', t) && Sighted(m, m') && m'.now == m.now
    ensures Stands(m', t, m.sys.log, TakeTask(m.sys.queue, op), [op] + [])
  {
    hide Reaches;
    m' := Moment(Step(def, m.sys, Spawn(t, op)), m.now);
    ReachesOne(def, m, Spawn(t, op));
  }

  /** A number above all these. */
  lemma Unused(ts: set<nat>) returns (b: nat)
    ensures forall t :: t in ts ==> t < b
    decreases ts
  {
    b := 0;
    if ts != {} {
      var t :| t in ts;
      var c := Unused(ts - {t});
      b := if t >= c then t + 1 else c;
      forall u | u in ts ensures u < b { assert u == t || u in ts - {t}; }
    }
  }
}
