/** Replay: the state of a run is a fold over its log (engine/engine.go:279-422). */
module Replaying {
  import opened Model

  // ---- the fold ----------------------------------------------------------

  /** The step whose state an event touches; TIMER_FIRED and SLA_BREACHED touch none. */
  function StepOf(b: Body): Option<StepName> {
    match b
    case RunStarted(first) => Some(first)
    case StepScheduled(s, _, _) => Some(s)
    case StepStarted(s) => Some(s)
    case StepCompleted(s, _) => Some(s)
    case StepFailed(s, _, _) => Some(s)
    case ApprovalRequested(s, _, _, _, _) => Some(s)
    case ApprovalGranted(s, _, _) => Some(s)
    case ApprovalRejected(s, _, _, _) => Some(s)
    case _ => None
  }

  function Fresh(def: WorkflowDef, s: StepName, status: StepStatus): StepState {
    StepState(KindOf(def, s), status, 0, map[], NoReason, None, None)
  }

  function Touch(def: WorkflowDef, s: StepName, prev: Option<StepState>, status: StepStatus): StepState {
    if prev.Some? then prev.value else Fresh(def, s, status)
  }

  function ScheduledStatus(kind: StepKind): StepStatus {
    if kind == Approval || kind == Delay then SWaiting else SPending
  }

  /** The new state of step `s` after an event that touches it. */
  function ApplyStep(def: WorkflowDef, s: StepName, prev: Option<StepState>, b: Body): StepState {
    match b
    case RunStarted(_) => Touch(def, s, prev, SPending)
    case StepScheduled(_, kind, due) =>
      var st := Touch(def, s, prev, SPending);
      st.(status := ScheduledStatus(kind), due := if due.Some? then due else st.due)
    case StepStarted(_) =>
      var st := Touch(def, s, prev, SRunning);
      st.(status := SRunning, attempt := st.attempt + 1)
    case StepCompleted(_, out) =>
      var st := Touch(def, s, prev, SCompleted);
      st.(status := SCompleted, output := if out != map[] then out else st.output)
    case StepFailed(_, reason, _) =>
      Touch(def, s, prev, SFailed).(status := SFailed, error := reason)
    case ApprovalRequested(_, index, _, _, _) =>
      var st := Touch(def, s, prev, SWaiting);
      st.(status := SWaiting,
          approval := if st.approval.None? then Some(ApprovalState(ChainOf(def, s), index, LinkPending, ""))
                      else Some(st.approval.value.(index := index, status := LinkPending)))
    case ApprovalGranted(_, _, who) =>
      var st := Touch(def, s, prev, SWaiting);
      if st.approval.None? then st
      else st.(approval := Some(st.approval.value.(status := LinkGranted, decidedBy := who)))
    case ApprovalRejected(_, _, who, reason) =>
      var st := Touch(def, s, prev, SWaiting);
      var st' := if st.approval.None? then st
                 else st.(approval := Some(st.approval.value.(status := LinkRejected, decidedBy := who)));
      st'.(status := SFailed, error := Rejection(reason))
    case _ => Touch(def, s, prev, SPending)
  }

  function Get(steps: map<StepName, StepState>, s: StepName): Option<StepState> {
    if s in steps then Some(steps[s]) else None
  }

  function StepsAfter(def: WorkflowDef, steps: map<StepName, StepState>, b: Body): map<StepName, StepState> {
    match StepOf(b)
    case Some(s) => steps[s := ApplyStep(def, s, Get(steps, s), b)]
    case None => steps
  }

  function StatusAfter(s: RunStatus, b: Body): RunStatus {
    match b
    case RunStarted(_) => RActive
    case RunCompleted(_) => RCompleted
    case RunFailed(_, _) => RFailed
    case RunCancelled(_) => RCancelled
    case _ => s
  }

  function Apply(def: WorkflowDef, run: RunState, e: Event): RunState {
    RunState(
      if e.body.TicketCreated? then e.body.workflow else run.workflow,
      if e.body.TicketCreated? then e.body.version else run.version,
      StatusAfter(run.status, e.body),
      run.failed || e.body.RunFailed? || e.body.RunFailing?,
      if e.body.RunStarted? then e.body.first else run.current,
      StepsAfter(def, run.steps, e.body),
      if e.body.StepCompleted? then run.output + e.body.output else run.output,
      if e.body.TicketCreated? && (run.createdAt == ZERO_TIME || e.at < run.createdAt) then e.at else run.createdAt,
      if e.at > run.updatedAt then e.at else run.updatedAt)
  }

  const EMPTY_RUN := RunState("", "", RUnset, false, "", map[], map[], ZERO_TIME, ZERO_TIME)

  function ApplyAll(def: WorkflowDef, run: RunState, log: Log): RunState
    decreases |log|
  {
    if log == [] then run
    else Apply(def, ApplyAll(def, run, log[..|log| - 1]), log[|log| - 1])
  }

  function Replay(def: WorkflowDef, log: Log): RunState {
    ApplyAll(def, EMPTY_RUN, log)
  }

  lemma ReplayAppend(def: WorkflowDef, log: Log, e: Event)
    ensures Replay(def, log + [e]) == Apply(def, Replay(def, log), e)
  {
    assert (log + [e])[..|log|] == log;
  }

  /** Replaying a prefix and then the rest is replaying the whole. */
  lemma {:induction false} ReplaySplit(def: WorkflowDef, run: RunState, a: Log, b: Log)
    ensures ApplyAll(def, run, a + b) == ApplyAll(def, ApplyAll(def, run, a), b)
    decreases |b|
  {
    if b == [] {
      assert a + b == a;
    } else {
      var b' := b[..|b| - 1];
      ReplaySplit(def, run, a, b');
      assert (a + b)[..|a + b| - 1] == a + b';
    }
  }

  // ---- the in-place replay -----------------------------------------------

  /** The run object a replay fills in. */
  class WorkflowRun {
    var workflow: string
    var version: string
    var status: RunStatus
    var failed: bool
    var current: StepName
    var steps: map<StepName, StepState>
    var output: Output
    var createdAt: Time
    var updatedAt: Time

    constructor ()
      ensures State() == EMPTY_RUN
    {
      workflow, version, status, failed, current := "", "", RUnset, false, "";
      steps, output, createdAt, updatedAt := map[], map[], ZERO_TIME, ZERO_TIME;
    }

    function State(): RunState
      reads this
    {
      RunState(workflow, version, status, failed, current, steps, output, createdAt, updatedAt)
    }

    /** `ensureStep`: the step's state, created with the given status if new. */
    method EnsureStep(name: StepName, def: WorkflowDef, st: StepStatus) returns (r: StepState)
      modifies this`steps
      ensures r == Touch(def, name, Get(old(steps), name), st)
      ensures steps == old(steps)[name := r]
    {
      if name !in steps {
        var kind := Task;
        var sd := Lookup(def, name);
        if sd.Some? { kind := sd.value.kind; }
        steps := steps[name := StepState(kind, st, 0, map[], NoReason, None, None)];
      }
      r := steps[name];
      assert name in old(steps) ==> old(steps)[name := r] == old(steps);
    }

    /** The task and timer cases of the replay switch. */
    method ApplyToStep(def: WorkflowDef, b: Body)
      requires b.StepScheduled? || b.StepStarted? || b.StepCompleted? || b.StepFailed?
      modifies this`steps
      ensures steps == StepsAfter(def, old(steps), b)
    {
      match b {
        case StepScheduled(s, kind, due) =>
          var st := EnsureStep(s, def, SPending);
          match kind {
            case Approval => st := st.(status := SWaiting);
            case Delay => st := st.(status := SWaiting);
            case _ => st := st.(status := SPending);
          }
          if due.Some? { st := st.(due := due); }
          steps := steps[s := st];
        case StepStarted(s) =>
          var st := EnsureStep(s, def, SRunning);
          steps := steps[s := st.(status := SRunning, attempt := st.attempt + 1)];
        case StepCompleted(s, out) =>
          var st := EnsureStep(s, def, SCompleted);
          st := st.(status := SCompleted);
          if out != map[] { st := st.(output := out); }
          steps := steps[s := st];
        case StepFailed(s, reason, _) =>
          var st := EnsureStep(s, def, SFailed);
          steps := steps[s := st.(status := SFailed, error := reason)];
      }
    }

    /** The approval cases of the replay switch. */
    method ApplyToApproval(def: WorkflowDef, b: Body)
      requires b.ApprovalRequested? || b.ApprovalGranted? || b.ApprovalRejected?
      modifies this`steps
      ensures steps == StepsAfter(def, old(steps), b)
    {
      match b {
        case ApprovalRequested(s, index, _, _, _) =>
          var st := EnsureStep(s, def, SWaiting);
          if st.approval == None {
            st := st.(approval := Some(ApprovalState(ChainOf(def, s), index, LinkPending, "")));
          } else {
            st := st.(approval := Some(st.approval.value.(index := index, status := LinkPending)));
          }
          steps := steps[s := st.(status := SWaiting)];
        case ApprovalGranted(s, _, who) =>
          var st := EnsureStep(s, def, SWaiting);
          if st.approval != None {
            steps := steps[s := st.(approval := Some(st.approval.value.(status := LinkGranted, decidedBy := who)))];
          }
        case ApprovalRejected(s, _, who, reason) =>
          var st := EnsureStep(s, def, SWaiting);
          if st.approval != None {
            st := st.(approval := Some(st.approval.value.(status := LinkRejected, decidedBy := who)));
          }
          steps := steps[s := st.(status := SFailed, error := Rejection(reason))];
      }
    }

    /** One event, in place. */
    method ApplyOne(def: WorkflowDef, e: Event)
      modifies this
      ensures State() == Apply(def, old(State()), e)
    {
      match e.body {
        case TicketCreated(wf, ver) =>
          workflow, version := wf, ver;
          if createdAt == ZERO_TIME || e.at < createdAt { createdAt := e.at; }
        case RunStarted(first) =>
          status, current := RActive, first;
          var _ := EnsureStep(first, def, SPending);
        case StepScheduled(_, _, _) => ApplyToStep(def, e.body);
        case StepStarted(_) => ApplyToStep(def, e.body);
        case StepCompleted(_, out) =>
          ApplyToStep(def, e.body);
          output := output + out;
        case StepFailed(_, _, _) => ApplyToStep(def, e.body);
        case ApprovalRequested(_, _, _, _, _) => ApplyToApproval(def, e.body);
        case ApprovalGranted(_, _, _) => ApplyToApproval(def, e.body);
        case ApprovalRejected(_, _, _, _) => ApplyToApproval(def, e.body);
        case RunCompleted(_) => status := RCompleted;
        case RunFailed(_, _) => status, failed := RFailed, true;
        case RunCancelled(_) => status := RCancelled;
        case RunFailing(_, _) => failed := true;
        case TimerFired(_) =>
        case SlaBreached(_, _) =>
        case TicketAssigned =>
      }
      if e.at > updatedAt { updatedAt := e.at; }
    }

    /** The replay loop computes the fold. */
    method ApplyEvents(def: WorkflowDef, log: Log)
      modifies this
      ensures State() == ApplyAll(def, old(State()), log)
    {
      for k := 0 to |log|
        invariant State() == ApplyAll(def, old(State()), log[..k])
      {
        assert log[..k + 1][..k] == log[..k];
        ApplyOne(def, log[k]);
      }
      assert log[..|log|] == log;
    }
  }

  // ---- closed forms ------------------------------------------------------

  function Starts(log: Log, s: StepName): nat {
    if log == [] then 0
    else Starts(log[..|log| - 1], s) + if log[|log| - 1].body == StepStarted(s) then 1 else 0
  }

  /** Attempt(s) is the number of STEP_STARTED events of s. */
  lemma {:induction false} AttemptIsStarts(def: WorkflowDef, log: Log, s: StepName)
    ensures s in Replay(def, log).steps ==> Replay(def, log).steps[s].attempt == Starts(log, s)
    ensures s !in Replay(def, log).steps ==> Starts(log, s) == 0
    decreases |log|
  {
    if log != [] { AttemptIsStarts(def, log[..|log| - 1], s); }
  }

  /** Failed holds exactly when a RUN_FAILING or RUN_FAILED occurred. */
  lemma {:induction false} FailedIff(def: WorkflowDef, log: Log)
    ensures Replay(def, log).failed <==>
              exists k :: 0 <= k < |log| && (log[k].body.RunFailed? || log[k].body.RunFailing?)
    decreases |log|
  {
    if log != [] {
      var init := log[..|log| - 1];
      FailedIff(def, init);
      assert forall k :: 0 <= k < |init| ==> init[k] == log[k];
    }
  }

  /** UpdatedAt is the latest event time (never before the zero time). */
  lemma {:induction false} UpdatedAtIsMax(def: WorkflowDef, log: Log)
    ensures forall k :: 0 <= k < |log| ==> log[k].at <= Replay(def, log).updatedAt
    ensures ZERO_TIME <= Replay(def, log).updatedAt
    ensures Replay(def, log).updatedAt == ZERO_TIME ||
              exists k :: 0 <= k < |log| && log[k].at == Replay(def, log).updatedAt
    decreases |log|
  {
    if log != [] {
      var init := log[..|log| - 1];
      UpdatedAtIsMax(def, init);
      assert forall k :: 0 <= k < |init| ==> init[k] == log[k];
    }
  }

  predicate Writes(e: Event, key: string) {
    e.body.StepCompleted? && key in e.body.output
  }

  /** The run's output at a key is the output of the last completion that wrote the key. */
  lemma {:induction false} OutputIsLastWrite(def: WorkflowDef, log: Log, key: string)
    ensures key in Replay(def, log).output <==> exists k :: 0 <= k < |log| && Writes(log[k], key)
    ensures forall k ::
              0 <= k < |log| && Writes(log[k], key) && (forall j :: k < j < |log| ==> !Writes(log[j], key)) ==>
              key in Replay(def, log).output && Replay(def, log).output[key] == log[k].body.output[key]
    decreases |log|
  {
    if log != [] {
      var n := |log| - 1;
      var init := log[..n];
      OutputIsLastWrite(def, init, key);
      assert forall k :: 0 <= k < n ==> init[k] == log[k];
      if Writes(log[n], key) {
      } else {
        forall k | 0 <= k < |log| && Writes(log[k], key) && (forall j :: k < j < |log| ==> !Writes(log[j], key))
          ensures key in Replay(def, log).output && Replay(def, log).output[key] == log[k].body.output[key]
        {
          assert k < n && Writes(init[k], key);
          assert forall j :: k < j < n ==> !Writes(init[j], key);
        }
      }
    }
  }

  // ---- locality ----------------------------------------------------------

  /** The events of a log that touch step s, in order. */
  function Only(log: Log, s: StepName): Log {
    if log == [] then []
    else Only(log[..|log| - 1], s) + if StepOf(log[|log| - 1].body) == Some(s) then [log[|log| - 1]] else []
  }

  lemma {:induction false} OnlySplit(a: Log, b: Log, s: StepName)
    ensures Only(a + b, s) == Only(a, s) + Only(b, s)
    decreases |b|
  {
    if b == [] {
      assert a + b == a;
    } else {
      var b' := b[..|b| - 1];
      OnlySplit(a, b', s);
      assert (a + b)[..|a + b| - 1] == a + b';
    }
  }

  /** Replaying only the events that mention s yields the same state of s. */
  lemma {:induction false} StepLocality(def: WorkflowDef, log: Log, s: StepName)
    ensures Get(Replay(def, log).steps, s) == Get(Replay(def, Only(log, s)).steps, s)
    decreases |log|
  {
    if log != [] {
      var init, e := log[..|log| - 1], log[|log| - 1];
      StepLocality(def, init, s);
      if StepOf(e.body) == Some(s) {
        ReplayAppend(def, Only(init, s), e);
      } else {
        assert Only(log, s) == Only(init, s);
      }
    }
  }

  /** Swapping adjacent events of different steps leaves every step state unchanged. */
  lemma SwapAdjacent(def: WorkflowDef, a: Log, x: Event, y: Event, b: Log)
    requires StepOf(x.body) != StepOf(y.body) || StepOf(x.body) == None
    ensures Replay(def, a + [x, y] + b).steps == Replay(def, a + [y, x] + b).steps
  {
    var l, m := a + [x, y] + b, a + [y, x] + b;
    forall s: StepName
      ensures Get(Replay(def, l).steps, s) == Get(Replay(def, m).steps, s)
    {
      StepLocality(def, l, s);
      StepLocality(def, m, s);
      OnlySplit(a + [x, y], b, s);
      OnlySplit(a + [y, x], b, s);
      OnlySplit(a, [x, y], s);
      OnlySplit(a, [y, x], s);
      OnlyPair(x, y, s);
    }
    SameSteps(Replay(def, l).steps, Replay(def, m).steps);
  }

  lemma OnlyPair(x: Event, y: Event, s: StepName)
    requires StepOf(x.body) != StepOf(y.body) || StepOf(x.body) == None
    ensures Only([x, y], s) == Only([y, x], s)
  {
    assert [x, y][..1] == [x] && [y, x][..1] == [y];
    assert [x][..0] == [] && [y][..0] == [];
  }

  lemma SameSteps(m: map<StepName, StepState>, n: map<StepName, StepState>)
    requires forall s: StepName :: Get(m, s) == Get(n, s)
    ensures m == n
  {
    forall s: StepName
      ensures s in m <==> s in n
      ensures s in m && s in n ==> m[s] == n[s]
    {
      assert Get(m, s) == Get(n, s);
    }
  }

  // ---- prefixes ----------------------------------------------------------

  predicate IsPrefix(a: Log, b: Log) {
    |a| <= |b| && a == b[..|a|]
  }

  /** Steps are never forgotten, and a step's kind is the declared one for good. */
  lemma {:induction false} StepsGrow(def: WorkflowDef, a: Log, b: Log)
    requires IsPrefix(a, b)
    ensures Replay(def, a).steps.Keys <= Replay(def, b).steps.Keys
    decreases |b|
  {
    if |a| == |b| {
      assert a == b;
    } else {
      StepsGrow(def, a, b[..|b| - 1]);
    }
  }

  lemma {:induction false} KindIsDeclared(def: WorkflowDef, log: Log, s: StepName)
    requires s in Replay(def, log).steps
    ensures Replay(def, log).steps[s].kind == KindOf(def, s)
    ensures Replay(def, log).steps[s].approval.Some? ==>
              Replay(def, log).steps[s].approval.value.chain == ChainOf(def, s)
    ensures match Lookup(def, s)
            case None => KindOf(def, s) == Task && ChainOf(def, s) == []
            case Some(sd) =>
              && KindOf(def, s) == sd.kind
              && (if sd.chain.Some? then sd.chain.value == ChainOf(def, s) else ChainOf(def, s) == [])
    decreases |log|
  {
    if log != [] && s in Replay(def, log[..|log| - 1]).steps {
      KindIsDeclared(def, log[..|log| - 1], s);
    }
  }
}
