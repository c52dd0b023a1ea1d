/** What replay derives for a step, field by field, from the events of the log alone: the last event that sets a field
    says what it is (engine/engine.go:310-380). */
module Derived {
  import opened Model
  import opened Replaying

  /** The fields of a step's state that some events set and all others keep. */
  datatype Field = FStatus | FDue | FOutput | FError | FRequest | FLink | FDecision

  /** This event sets the field of s. */
  predicate Sets(f: Field, b: Body, s: StepName) {
    match f
    case FStatus =>
      (b.StepScheduled? || b.StepStarted? || b.StepCompleted? || b.StepFailed? || b.ApprovalRequested?
       || b.ApprovalRejected?) && b.step == s
    case FDue => b.StepScheduled? && b.step == s && b.due.Some?
    case FOutput => b.StepCompleted? && b.step == s && b.output != map[]
    case FError => (b.StepFailed? || b.ApprovalRejected?) && b.step == s
    case FRequest => b.ApprovalRequested? && b.step == s
    case FLink => (b.ApprovalRequested? || b.ApprovalGranted? || b.ApprovalRejected?) && b.step == s
    case FDecision => (b.ApprovalGranted? || b.ApprovalRejected?) && b.step == s
  }

  /** The event at k is the last one to set the field. */
  predicate Last(f: Field, log: Log, s: StepName, k: nat) {
    k < |log| && Sets(f, log[k].body, s) && forall j :: k < j < |log| ==> !Sets(f, log[j].body, s)
  }

  predicate Never(f: Field, log: Log, s: StepName) {
    forall j :: 0 <= j < |log| ==> !Sets(f, log[j].body, s)
  }

  lemma LastBefore(f: Field, log: Log, s: StepName, k: nat)
    requires Last(f, log, s, k) && k < |log| - 1
    ensures Last(f, log[..|log| - 1], s, k) && !Sets(f, log[|log| - 1].body, s)
  {
  }

  lemma NeverBefore(f: Field, log: Log, s: StepName)
    requires Never(f, log, s) && log != []
    ensures Never(f, log[..|log| - 1], s) && !Sets(f, log[|log| - 1].body, s)
  {
  }

  /** Either nothing sets the field, or some event is the last to do so. */
  lemma {:induction false} LastOrNever(f: Field, log: Log, s: StepName)
    ensures Never(f, log, s) <==> !exists k: nat :: Last(f, log, s, k)
    decreases |log|
  {
    if log != [] {
      var n := |log| - 1;
      var init := log[..n];
      LastOrNever(f, init, s);
      assert forall j :: 0 <= j < n ==> init[j] == log[j];
      if Sets(f, log[n].body, s) {
        assert Last(f, log, s, n);
      } else if k: nat :| Last(f, init, s, k) {
        assert Last(f, log, s, k);
      }
    }
  }

  lemma OneLast(f: Field, log: Log, s: StepName, j: nat, k: nat)
    requires Last(f, log, s, j) && Last(f, log, s, k)
    ensures j == k
  {
  }

  // ---- the fields ----------------------------------------------------------

  lemma {:induction false} StatusIsLast(def: WorkflowDef, log: Log, s: StepName, k: nat)
    requires Last(FStatus, log, s, k)
    ensures s in Replay(def, log).steps
    ensures var b, st := log[k].body, Replay(def, log).steps[s].status;
            match b
            case StepScheduled(_, kind, _) => st == if kind == Approval || kind == Delay then SWaiting else SPending
            case StepStarted(_) => st == SRunning
            case StepCompleted(_, _) => st == SCompleted
            case ApprovalRequested(_, _, _, _, _) => st == SWaiting
            case _ => st == SFailed
    decreases |log|
  {
    if k < |log| - 1 {
      LastBefore(FStatus, log, s, k);
      StatusIsLast(def, log[..|log| - 1], s, k);
    }
  }

  /** The first event of s starts the run. */
  ghost predicate BornPending(log: Log, s: StepName) {
    exists k: nat :: BornAt(log, s, k)
  }

  predicate BornAt(log: Log, s: StepName, k: nat) {
    k < |log| && log[k].body == RunStarted(s) && forall j :: 0 <= j < k ==> StepOf(log[j].body) != Some(s)
  }

  lemma {:induction false} StateIff(def: WorkflowDef, log: Log, s: StepName)
    ensures s in Replay(def, log).steps <==> exists k :: 0 <= k < |log| && StepOf(log[k].body) == Some(s)
    decreases |log|
  {
    if log != [] {
      var init := log[..|log| - 1];
      StateIff(def, init, s);
      assert forall j :: 0 <= j < |init| ==> init[j] == log[j];
    }
  }

  /** Until an event sets its status, a step is pending exactly if the start of the run gave it its state. */
  lemma {:induction false} StatusAtFirst(def: WorkflowDef, log: Log, s: StepName)
    requires Never(FStatus, log, s)
    ensures s in Replay(def, log).steps && Replay(def, log).steps[s].status == SPending <==> BornPending(log, s)
    ensures s in Replay(def, log).steps && Replay(def, log).steps[s].status != SPending ==>
              Replay(def, log).steps[s].status == SWaiting
    decreases |log|
  {
    if log != [] {
      NeverBefore(FStatus, log, s);
      var n := |log| - 1;
      var init := log[..n];
      StatusAtFirst(def, init, s);
      StateIff(def, init, s);
      assert forall j :: 0 <= j < n ==> init[j] == log[j];
      if k: nat :| BornAt(init, s, k) { assert BornAt(log, s, k); }
      if k: nat :| BornAt(log, s, k) { assert k < n ==> BornAt(init, s, k); }
      if s !in Replay(def, init).steps && log[n].body == RunStarted(s) { assert BornAt(log, s, n); }
    }
  }

  lemma {:induction false} DueIsLast(def: WorkflowDef, log: Log, s: StepName, k: nat)
    requires Last(FDue, log, s, k)
    ensures s in Replay(def, log).steps && Replay(def, log).steps[s].due == log[k].body.due
    decreases |log|
  {
    if k < |log| - 1 {
      LastBefore(FDue, log, s, k);
      DueIsLast(def, log[..|log| - 1], s, k);
    }
  }

  lemma {:induction false} DueIsNone(def: WorkflowDef, log: Log, s: StepName)
    requires Never(FDue, log, s)
    ensures s in Replay(def, log).steps ==> Replay(def, log).steps[s].due == None
    decreases |log|
  {
    if log != [] {
      NeverBefore(FDue, log, s);
      DueIsNone(def, log[..|log| - 1], s);
    }
  }

  lemma {:induction false} StepOutputIsLast(def: WorkflowDef, log: Log, s: StepName, k: nat)
    requires Last(FOutput, log, s, k)
    ensures s in Replay(def, log).steps && Replay(def, log).steps[s].output == log[k].body.output
    decreases |log|
  {
    if k < |log| - 1 {
      LastBefore(FOutput, log, s, k);
      StepOutputIsLast(def, log[..|log| - 1], s, k);
    }
  }

  lemma {:induction false} StepOutputIsNone(def: WorkflowDef, log: Log, s: StepName)
    requires Never(FOutput, log, s)
    ensures s in Replay(def, log).steps ==> Replay(def, log).steps[s].output == map[]
    decreases |log|
  {
    if log != [] {
      NeverBefore(FOutput, log, s);
      StepOutputIsNone(def, log[..|log| - 1], s);
    }
  }

  lemma {:induction false} ErrorIsLast(def: WorkflowDef, log: Log, s: StepName, k: nat)
    requires Last(FError, log, s, k)
    ensures s in Replay(def, log).steps
    ensures Replay(def, log).steps[s].error ==
              if log[k].body.StepFailed? then log[k].body.reason else Rejection(log[k].body.text)
    decreases |log|
  {
    if k < |log| - 1 {
      LastBefore(FError, log, s, k);
      ErrorIsLast(def, log[..|log| - 1], s, k);
    }
  }

  lemma {:induction false} ErrorIsNone(def: WorkflowDef, log: Log, s: StepName)
    requires Never(FError, log, s)
    ensures s in Replay(def, log).steps ==> Replay(def, log).steps[s].error == NoReason
    decreases |log|
  {
    if log != [] {
      NeverBefore(FError, log, s);
      ErrorIsNone(def, log[..|log| - 1], s);
    }
  }

  /** The link in question is that of the last request; there is none before the first. */
  lemma {:induction false} LinkIndexIsLast(def: WorkflowDef, log: Log, s: StepName, k: nat)
    requires Last(FRequest, log, s, k)
    ensures s in Replay(def, log).steps && Replay(def, log).steps[s].approval.Some?
    ensures Replay(def, log).steps[s].approval.value.index == log[k].body.index
    decreases |log|
  {
    if k < |log| - 1 {
      LastBefore(FRequest, log, s, k);
      LinkIndexIsLast(def, log[..|log| - 1], s, k);
    }
  }

  lemma {:induction false} NoLinkYet(def: WorkflowDef, log: Log, s: StepName)
    requires Never(FRequest, log, s)
    ensures s in Replay(def, log).steps ==> Replay(def, log).steps[s].approval == None
    decreases |log|
  {
    if log != [] {
      NeverBefore(FRequest, log, s);
      NoLinkYet(def, log[..|log| - 1], s);
    }
  }

  /** Once a link was requested, the last request or decision says how it stands. */
  lemma {:induction false} LinkStatusIsLast(def: WorkflowDef, log: Log, s: StepName, j: nat, k: nat)
    requires j <= k && Last(FLink, log, s, k) && Sets(FRequest, log[j].body, s)
    ensures s in Replay(def, log).steps && Replay(def, log).steps[s].approval.Some?
    ensures var b, a := log[k].body, Replay(def, log).steps[s].approval.value;
            match b
            case ApprovalGranted(_, _, _) => a.status == LinkGranted
            case ApprovalRejected(_, _, _, _) => a.status == LinkRejected
            case _ => a.status == LinkPending
    decreases |log|
  {
    var init := log[..|log| - 1];
    if k < |log| - 1 {
      LastBefore(FLink, log, s, k);
      LinkStatusIsLast(def, init, s, j, k);
    } else if j < k {
      Asked(def, init, s, j);
    }
  }

  lemma {:induction false} Asked(def: WorkflowDef, log: Log, s: StepName, j: nat)
    requires j < |log| && Sets(FRequest, log[j].body, s)
    ensures s in Replay(def, log).steps && Replay(def, log).steps[s].approval.Some?
    decreases |log|
  {
    if j < |log| - 1 { Asked(def, log[..|log| - 1], s, j); }
  }

  /** The last decision after a request names who took it, through later requests. */
  lemma {:induction false} DeciderIsLast(def: WorkflowDef, log: Log, s: StepName, j: nat, k: nat)
    requires j < k && Last(FDecision, log, s, k) && Sets(FRequest, log[j].body, s)
    ensures s in Replay(def, log).steps && Replay(def, log).steps[s].approval.Some?
    ensures Replay(def, log).steps[s].approval.value.decidedBy == log[k].body.who
    decreases |log|
  {
    var init := log[..|log| - 1];
    if k < |log| - 1 {
      LastBefore(FDecision, log, s, k);
      DeciderIsLast(def, init, s, j, k);
    } else {
      Asked(def, init, s, j);
    }
  }

  lemma {:induction false} NoDecider(def: WorkflowDef, log: Log, s: StepName)
    requires Never(FDecision, log, s) && s in Replay(def, log).steps && Replay(def, log).steps[s].approval.Some?
    ensures Replay(def, log).steps[s].approval.value.decidedBy == ""
    decreases |log|
  {
    if log != [] {
      var init := log[..|log| - 1];
      NeverBefore(FDecision, log, s);
      if s in Replay(def, init).steps && Replay(def, init).steps[s].approval.Some? { NoDecider(def, init, s); }
    }
  }
}
