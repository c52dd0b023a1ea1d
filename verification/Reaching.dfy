/** States that runs of atomic operations can be brought to, failures and crashes at hand: the building blocks of the
    runs that show what the engine does not do. */
module Reaching {
  import opened Model
  import opened Replaying
  import opened Machine
  import opened Moves

  // ---- reaching a state --------------------------------------------------

  /** The time a deed takes place at; beginning an operation and crashing are not timed. */
  function TimeOf(d: Deed): Option<Time> {
    match d
    case Work(i) => Some(i.now)
    case StoreError(i) => Some(i.now)
    case _ => None
  }

  /** The clock never goes back. */
  predicate Forward(ds: seq<Deed>) {
    forall j, k :: 0 <= j < k < |ds| && TimeOf(ds[j]).Some? && TimeOf(ds[k]).Some? ==>
      TimeOf(ds[j]).value <= TimeOf(ds[k]).value
  }

  predicate By(ds: seq<Deed>, t: Time) {
    forall k :: 0 <= k < |ds| && TimeOf(ds[k]).Some? ==> TimeOf(ds[k]).value <= t
  }

  /** This state can be reached by the time t, on a clock that never goes back. */
  ghost predicate Reached(def: WorkflowDef, t: Time, log: Log, q: multiset<StepName>, stack: seq<Frame>) {
    exists ds: seq<Deed> :: Forward(ds) && By(ds, t) && DoAll(def, IDLE, ds) == Config(log, q, stack)
  }

  lemma ReachedReachable(def: WorkflowDef, t: Time, log: Log, q: multiset<StepName>, stack: seq<Frame>)
    requires Reached(def, t, log, q, stack)
    ensures Reachable(def, Config(log, q, stack))
  {
  }

  lemma Later(def: WorkflowDef, t: Time, t': Time, log: Log, q: multiset<StepName>, stack: seq<Frame>)
    requires Reached(def, t, log, q, stack) && t <= t'
    ensures Reached(def, t', log, q, stack)
  {
    var ds: seq<Deed> :| Forward(ds) && By(ds, t) && DoAll(def, IDLE, ds) == Config(log, q, stack);
    assert By(ds, t');
  }

  lemma Done(def: WorkflowDef, t: Time, log: Log, q: multiset<StepName>, stack: seq<Frame>, d: Deed)
    requires Reached(def, t, log, q, stack) && (TimeOf(d).Some? ==> TimeOf(d).value == t)
    ensures var c := Do(def, Config(log, q, stack), d);
            Reached(def, t, c.log, c.queue, c.stack)
  {
    hide Do;
    var ds: seq<Deed> :| Forward(ds) && By(ds, t) && DoAll(def, IDLE, ds) == Config(log, q, stack);
    var c := Do(def, Config(log, q, stack), d);
    assert (ds + [d])[..|ds|] == ds;
    assert Forward(ds + [d]) && By(ds + [d], t) && DoAll(def, IDLE, ds + [d]) == c;
  }

  lemma {:induction false} WorksReached(def: WorkflowDef, t: Time, c: Config, ins: seq<Input>)
    requires Reached(def, t, c.log, c.queue, c.stack) && Timed(ins, t)
    ensures var c' := Works(def, c, ins);
            Reached(def, t, c'.log, c'.queue, c'.stack)
    decreases |ins|
  {
    hide Reached;
    if ins != [] {
      WorksReached(def, t, c, ins[..|ins| - 1]);
      var c' := Works(def, c, ins[..|ins| - 1]);
      Done(def, t, c'.log, c'.queue, c'.stack, Work(ins[|ins| - 1]));
    }
  }

  lemma Came(def: WorkflowDef, now: Time, l: Log, q: multiset<StepName>, stack: seq<Frame>, l': Log,
        q': multiset<StepName>, stack': seq<Frame>)
    requires Reached(def, now, l, q, stack) && At(def, now, Config(l, q, stack), l', q', stack')
    ensures Reached(def, now, l', q', stack')
  {
    hide Reached;
    var ins: seq<Input> :| Timed(ins, now) && Works(def, Config(l, q, stack), ins) == Config(l', q', stack');
    WorksReached(def, now, Config(l, q, stack), ins);
  }

  /** An append or a load fails, and its activation returns. */
  lemma Failed(def: WorkflowDef, i: Input, l: Log, q: multiset<StepName>, f: Frame, rest: seq<Frame>)
    requires Reached(def, i.now, l, q, [f] + rest) && MayFail(def, i, l, f) && !f.TaskFailed?
    ensures Reached(def, i.now, l, q, rest)
  {
    hide Reached;
    Done(def, i.now, l, q, [f] + rest, StoreError(i));
    assert [] + ([f] + rest)[1..] == rest;
  }

  lemma Crashed(def: WorkflowDef, t: Time, l: Log, q: multiset<StepName>, stack: seq<Frame>)
    requires Reached(def, t, l, q, stack)
    ensures Reached(def, t, l, multiset{}, [])
  {
    Done(def, t, l, q, stack, Crash);
  }

  lemma Begun(def: WorkflowDef, t: Time, l: Log, q: multiset<StepName>, op: Frame)
    requires Reached(def, t, l, q, []) && MayBegin(l, q, op)
    ensures Reached(def, t, l, TakeTask(q, op), [op] + [])
  {
    hide Reached;
    Done(def, t, l, q, [], Begin(op));
    assert [op] + [] == [op];
  }

  // ---- leaving activations behind ----------------------------------------

  lemma EmitFails(def: WorkflowDef, t: Time, l: Log, q: multiset<StepName>, s: StepName, at: Time, then_: After,
        rest: seq<Frame>)
    requires Reached(def, t, l, q, [EmitScheduled(s, at, then_)] + rest)
    ensures Reached(def, t, l, q, rest)
  {
    assert MayFail(def, Tick(t), l, EmitScheduled(s, at, then_));
    Failed(def, Tick(t), l, q, EmitScheduled(s, at, then_), rest);
  }

  lemma RequestFails(def: WorkflowDef, t: Time, l: Log, q: multiset<StepName>, s: StepName, at: Time, then_: After,
        rest: seq<Frame>)
    requires Reached(def, t, l, q, [RequestFirst(s, at, then_)] + rest) && ChainOf(def, s) != []
    ensures Reached(def, t, l, q, rest)
  {
    assert MayFail(def, Tick(t), l, RequestFirst(s, at, then_));
    Failed(def, Tick(t), l, q, RequestFirst(s, at, then_), rest);
  }

  /** A jump may come to nothing: its first append can fail. */
  lemma JumpLeaves(def: WorkflowDef, t: Time, l: Log, q: multiset<StepName>, run: RunState, s: StepName,
        rest: seq<Frame>)
    requires Reached(def, t, l, q, [JumpTo(run, s)] + rest)
    ensures Reached(def, t, l, q, rest)
  {
    hide Reached, At, Schedulable, StepActive;
    var stack := [JumpTo(run, s)] + rest;
    var c0 := Config(l, q, stack);
    AtStart(def, t, l, q, stack);
    OnJumpTo(def, t, c0, l, q, run, s, rest);
    if StepActive(run, s) {
      Came(def, t, l, q, stack, l, q, rest);
    } else {
      OnScheduleStep(def, t, c0, l, q, s, ThenDispatch, rest);
      if !Schedulable(def, s) {
        Came(def, t, l, q, stack, l, q, rest);
      } else if KindOf(def, s) == Approval {
        Came(def, t, l, q, stack, l, q, [RequestFirst(s, t, ThenDispatch)] + rest);
        SchedulableChain(def, s);
        RequestFails(def, t, l, q, s, t, ThenDispatch, rest);
      } else {
        Came(def, t, l, q, stack, l, q, [EmitScheduled(s, t, ThenDispatch)] + rest);
        EmitFails(def, t, l, q, s, t, ThenDispatch, rest);
      }
    }
  }

  lemma SchedulableChain(def: WorkflowDef, s: StepName)
    requires Schedulable(def, s) && KindOf(def, s) == Approval
    ensures ChainOf(def, s) != []
  {
  }

  /** A loop over the steps can end without an append: that of a timer which is due can fail. */
  lemma {:induction false} ScanLeaves(def: WorkflowDef, t: Time, l: Log, q: multiset<StepName>, run: RunState,
        todo: set<StepName>, rest: seq<Frame>)
    returns (q': multiset<StepName>)
    requires Reached(def, t, l, q, [ScanSteps(run, todo)] + rest) && todo <= run.steps.Keys
    ensures Reached(def, t, l, q', rest) && q <= q'
    ensures forall s :: s in todo && TaskReady(run.steps[s], t) ==> s in q'
    decreases todo
  {
    hide Reached, At, TaskReady, TimerDue;
    var stack := [ScanSteps(run, todo)] + rest;
    var c0 := Config(l, q, stack);
    AtStart(def, t, l, q, stack);
    if todo == {} {
      OnScanEnd(def, t, c0, l, q, ScanSteps(run, todo), rest);
      Came(def, t, l, q, stack, l, q, rest);
      q' := q;
    } else {
      var s :| s in todo;
      var st := run.steps[s];
      var below := [ScanSteps(run, todo - {s})] + rest;
      assert Scan(false, run, todo) == ScanSteps(run, todo);
      assert Scan(false, run, todo - {s}) == ScanSteps(run, todo - {s});
      if TaskReady(st, t) {
        OnScanTask(def, t, c0, l, q, false, run, todo, s, rest);
        Came(def, t, l, q, stack, l, q + multiset{s}, below);
        q' := ScanLeaves(def, t, l, q + multiset{s}, run, todo - {s}, rest);
        assert s in q + multiset{s};
      } else {
        if TimerDue(st, t) {
          OnScanTimer(def, t, c0, l, q, false, run, todo, s, rest);
          Came(def, t, l, q, stack, l, q, [FireTimer(run, s)] + below);
          assert MayFail(def, Tick(t), l, FireTimer(run, s));
          Failed(def, Tick(t), l, q, FireTimer(run, s), below);
        } else {
          OnScanNothing(def, t, c0, l, q, false, run, todo, s, rest);
          Came(def, t, l, q, stack, l, q, below);
        }
        q' := ScanLeaves(def, t, l, q, run, todo - {s}, rest);
      }
    }
  }

  lemma AdvanceLeaves(def: WorkflowDef, t: Time, l: Log, q: multiset<StepName>, run: RunState, s: StepName,
        rest: seq<Frame>)
    requires Reached(def, t, l, q, [AdvanceApproval(run, s)] + rest)
    ensures Reached(def, t, l, q, rest)
  {
    hide Reached, At, HasGrant;
    var f := AdvanceApproval(run, s);
    var c0 := Config(l, q, [f] + rest);
    AtStart(def, t, l, q, [f] + rest);
    OnAdvanceApproval(def, t, c0, l, q, run, s, rest);
    if !HasGrant(run, s) {
      Came(def, t, l, q, [f] + rest, l, q, rest);
    } else {
      GrantSteps(def, t, l, run, s);
      if MayFail(def, Tick(t), l, f) {
        Failed(def, Tick(t), l, q, f, rest);
      } else {
        Came(def, t, l, q, [f] + rest, l, q, [CompleteStep(run, s, map[])] + rest);
        assert MayFail(def, Tick(t), l, CompleteStep(run, s, map[]));
        Failed(def, Tick(t), l, q, CompleteStep(run, s, map[]), rest);
      }
    }
  }

  lemma GrantSteps(def: WorkflowDef, t: Time, l: Log, run: RunState, s: StepName)
    requires HasGrant(run, s)
    ensures s in run.steps && run.steps[s].approval.Some?
    ensures var a := run.steps[s].approval.value;
            MayFail(def, Tick(t), l, AdvanceApproval(run, s)) <==> a.index + 1 < |a.chain|
  {
  }

  lemma {:induction false} ApprovalsLeave(def: WorkflowDef, t: Time, l: Log, q: multiset<StepName>, run: RunState,
        todo: set<StepName>, rest: seq<Frame>)
    requires Reached(def, t, l, q, [ScanApprovals(run, todo)] + rest) && todo <= run.steps.Keys
    ensures Reached(def, t, l, q, rest)
    decreases todo
  {
    hide Reached, At, Parked;
    var stack := [ScanApprovals(run, todo)] + rest;
    var c0 := Config(l, q, stack);
    AtStart(def, t, l, q, stack);
    if todo == {} {
      OnScanEnd(def, t, c0, l, q, ScanApprovals(run, todo), rest);
      Came(def, t, l, q, stack, l, q, rest);
    } else {
      var s :| s in todo;
      var below := [ScanApprovals(run, todo - {s})] + rest;
      OnScanApproval(def, t, c0, l, q, run, todo, s, rest);
      if Parked(run, s) {
        Came(def, t, l, q, stack, l, q, [AdvanceApproval(run, s)] + below);
        AdvanceLeaves(def, t, l, q, run, s, below);
      } else {
        Came(def, t, l, q, stack, l, q, below);
      }
      ApprovalsLeave(def, t, l, q, run, todo - {s}, rest);
    }
  }

  // ---- a new run -----------------------------------------------------------

  function Below(run: RunState): seq<Frame> {
    [ScanSteps(run, run.steps.Keys)] + ([ScanApprovals(run, run.steps.Keys)] + [])
  }

  /** The first two events of a run, at the time 1. */
  function Born(def: WorkflowDef): Log {
    [Event(1, TicketCreated(def.name, def.version))] + [Event(1, RunStarted(def.initial))]
  }

  lemma BornReached(def: WorkflowDef)
    ensures Reached(def, 1, Born(def), multiset{}, [ScheduleStep(def.initial, ThenAssign)] + [])
    ensures Reached(def, 1, Born(def), multiset{}, [])
  {
    hide Reached, At;
    var c0 := Config([], multiset{}, [CreateEvent] + []);
    assert Reached(def, 1, [], multiset{}, []) by { NothingReached(def); }
    Begun(def, 1, [], multiset{}, CreateEvent);
    AtStart(def, 1, [], multiset{}, [CreateEvent] + []);
    OnCreateEvent(def, 1, c0, [], multiset{}, []);
    assert [] + [Event(1, TicketCreated(def.name, def.version))] == [Event(1, TicketCreated(def.name, def.version))];
    OnCreateStart(def, 1, c0, [Event(1, TicketCreated(def.name, def.version))], multiset{}, []);
    Came(def, 1, [], multiset{}, [CreateEvent] + [], Born(def), multiset{},
         [ScheduleStep(def.initial, ThenAssign)] + []);
    Crashed(def, 1, Born(def), multiset{}, [ScheduleStep(def.initial, ThenAssign)] + []);
  }

  lemma NothingReached(def: WorkflowDef)
    ensures Reached(def, 1, [], multiset{}, [])
  {
    var none: seq<Deed> := [];
    assert Forward(none) && By(none, 1) && DoAll(def, IDLE, none) == IDLE;
  }

  lemma BornState(def: WorkflowDef)
    ensures var run := Replay(def, Born(def));
            && run.status == RActive && run.createdAt == 1
            && run.steps == map[def.initial := Fresh(def, def.initial, SPending)]
    ensures Breached(Born(def)) == {}
  {
    var e, f := Event(1, TicketCreated(def.name, def.version)), Event(1, RunStarted(def.initial));
    ReplayAppend(def, [], e);
    assert [] + [e] == [e];
    ReplayAppend(def, [e], f);
    BreachedAppend([], e);
    BreachedAppend([e], f);
  }
}
