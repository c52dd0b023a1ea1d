/** Approval chains: a completed approval step was granted link by link, in order, each link by
    someone authorised for it, provided a grant is appended while the link it was checked
    against is still the current one (engine/engine.go:351-380, 597-675). Everything is said of one
    step; `ApprovalRace` says for which steps the proviso is needed. */
module Approvals {
  import opened Model
  import opened Replaying
  import opened Machine

  function Mark(def: WorkflowDef, s: StepName, n: nat, b: Body): nat {
    if b.ApprovalGranted? && b.step == s && b.index == n && Authorized(ChainOf(def, s), n, b.who) then n + 1 else n
  }

  /** How many links of the step's chain the log shows granted, in order and by authorised callers. */
  function ProgressOf(def: WorkflowDef, log: Log, s: StepName): nat {
    if log == [] then 0 else Mark(def, s, ProgressOf(def, log[..|log| - 1], s), log[|log| - 1].body)
  }

  predicate IsGrant(def: WorkflowDef, e: Event, s: StepName, i: nat) {
    e.body.ApprovalGranted? && e.body.step == s && e.body.index == i && Authorized(ChainOf(def, s), i, e.body.who)
  }

  /** Grants of links 0, 1, ..., m - 1 of step s, in that order, each by an authorised caller. */
  ghost predicate GrantedInOrder(def: WorkflowDef, log: Log, s: StepName, m: nat) {
    exists at: seq<nat> :: |at| == m && GrantsAt(def, log, s, at)
  }

  predicate GrantsAt(def: WorkflowDef, log: Log, s: StepName, at: seq<nat>) {
    && (forall i :: 0 <= i < |at| ==> at[i] < |log| && IsGrant(def, log[at[i]], s, i))
    && (forall i, j :: 0 <= i < j < |at| ==> at[i] < at[j])
  }

  lemma GrantsKept(def: WorkflowDef, log: Log, s: StepName, at: seq<nat>, n: nat)
    requires n <= |log| && GrantsAt(def, log[..n], s, at)
    ensures GrantsAt(def, log, s, at)
  {
    forall i | 0 <= i < |at| ensures IsGrant(def, log[at[i]], s, i) { assert log[..n][at[i]] == log[at[i]]; }
  }

  lemma {:induction false} ProgressMeans(def: WorkflowDef, log: Log, s: StepName)
    ensures GrantedInOrder(def, log, s, ProgressOf(def, log, s))
    decreases |log|
  {
    if log == [] {
      var none: seq<nat> := [];
      assert GrantsAt(def, log, s, none);
    } else {
      hide Authorized;
      var n := |log| - 1;
      ProgressMeans(def, log[..n], s);
      var m := ProgressOf(def, log[..n], s);
      var at: seq<nat> :| |at| == m && GrantsAt(def, log[..n], s, at);
      GrantsKept(def, log, s, at, n);
      if ProgressOf(def, log, s) != m {
        var more: seq<nat> := at + [n];
        assert GrantsAt(def, log, s, more);
      }
    }
  }

  // ---- what snapshots show -----------------------------------------------

  predicate LinkBacked(def: WorkflowDef, s: StepName, n: nat, a: ApprovalState) {
    && a.chain == ChainOf(def, s)
    && a.index < |a.chain|
    && (if a.status == LinkGranted then a.index + 1 else a.index) <= n
  }

  predicate StepBacked(def: WorkflowDef, s: StepName, n: nat, st: StepState) {
    st.kind == KindOf(def, s) && (st.approval.Some? ==> LinkBacked(def, s, n, st.approval.value))
  }

  /** The approval state of s in a snapshot is at a link of the chain, with the links before it granted. */
  predicate RunBacked(def: WorkflowDef, s: StepName, n: nat, run: RunState) {
    s in run.steps ==> StepBacked(def, s, n, run.steps[s])
  }

  predicate SnapshotBacked(def: WorkflowDef, s: StepName, n: nat, f: Frame) {
    match f
    case Dispatch(r) => RunBacked(def, s, n, r)
    case ScanSteps(r, _) => RunBacked(def, s, n, r)
    case ScanApprovals(r, _) => RunBacked(def, s, n, r)
    case AdvanceApproval(r, _) => RunBacked(def, s, n, r)
    case DispatchAfter(r) => RunBacked(def, s, n, r)
    case ScanAfter(r, _) => RunBacked(def, s, n, r)
    case _ => true
  }

  /** What a frame shows of s when n of its links were granted. */
  predicate FrameOk(def: WorkflowDef, s: StepName, n: nat, f: Frame) {
    && SnapshotBacked(def, s, n, f)
    && (f.FireTimer? && f.step == s ==> KindOf(def, s) == Delay)
    && ((f.ExecuteTask? || f.StartTask? || f.RunHandler?) && f.step == s ==> KindOf(def, s) == Task)
    && (f.CompleteStep? && f.step == s && KindOf(def, s) == Approval ==> 0 < |ChainOf(def, s)| <= n)
    && (f.Grant? && f.step == s ==> f.index <= n && Authorized(ChainOf(def, s), f.index, f.who))
  }

  predicate StackOk(def: WorkflowDef, s: StepName, n: nat, stack: seq<Frame>) {
    forall k :: 0 <= k < |stack| ==> FrameOk(def, s, n, stack[k])
  }

  lemma StackGrows(def: WorkflowDef, s: StepName, n: nat, m: nat, stack: seq<Frame>)
    requires StackOk(def, s, n, stack) && n <= m
    ensures StackOk(def, s, m, stack)
  {
  }

  /** A grant of s fits when the link it was checked against is still the current one. */
  predicate Fits(s: StepName, cur: RunState, f: Frame) {
    f.Grant? && f.step == s && s in cur.steps && cur.steps[s].approval.Some? ==>
      cur.steps[s].approval.value.index == f.index
  }

  /** What may be appended to a log whose replay is `cur`. */
  predicate Backed(def: WorkflowDef, s: StepName, n: nat, cur: RunState, b: Body) {
    StepOf(b) == Some(s) ==>
      && (b.StepCompleted? && KindOf(def, s) == Approval ==> 0 < |ChainOf(def, s)| <= n)
      && (b.ApprovalRequested? ==> b.index < |ChainOf(def, s)| && b.index <= n)
      && (b.ApprovalGranted? ==> Fits(s, cur, Grant(s, b.index, b.who)) && Authorized(ChainOf(def, s), b.index, b.who))
  }

  lemma BackedReplay(def: WorkflowDef, s: StepName, n: nat, cur: RunState, e: Event)
    requires RunBacked(def, s, n, cur) && Backed(def, s, n, cur, e.body)
    ensures RunBacked(def, s, Mark(def, s, n, e.body), Apply(def, cur, e))
  {
  }

  function Later(def: WorkflowDef, s: StepName, n: nat, a: Action): nat {
    if a.emit == [] then n else Mark(def, s, n, a.emit[0].body)
  }

  predicate Kept(def: WorkflowDef, s: StepName, n: nat, cur: RunState, a: Action) {
    && |a.emit| <= 1
    && (a.emit != [] ==> Backed(def, s, n, cur, a.emit[0].body))
    && (s in a.submit ==> KindOf(def, s) == Task)
    && StackOk(def, s, Later(def, s, n, a), a.push)
  }

  lemma ScanKeeps(def: WorkflowDef, i: Input, s: StepName, n: nat, cur: RunState, f: Frame)
    requires ScanFrame(f) && FrameOk(def, s, n, f)
    ensures Kept(def, s, n, cur, ActScan(i, f))
  {
  }

  lemma AdvanceKeeps(def: WorkflowDef, i: Input, s: StepName, n: nat, cur: RunState, f: Frame)
    requires AdvanceFrame(f) && FrameOk(def, s, n, f)
    ensures Kept(def, s, n, cur, ActAdvance(def, i, f))
  {
  }

  lemma TaskKeeps(def: WorkflowDef, i: Input, log: Log, s: StepName, n: nat, cur: RunState, f: Frame)
    requires TaskFrame(f) && FrameOk(def, s, n, f)
    ensures Kept(def, s, n, cur, ActTask(def, i, log, cur, f))
  {
    hide RunBacked;
  }

  lemma DecisionKeeps(def: WorkflowDef, i: Input, log: Log, s: StepName, n: nat, cur: RunState, f: Frame)
    requires f.Approve? || f.Grant? || f.AfterGrant? || f.DispatchAfter?
    requires FrameOk(def, s, n, f) && RunBacked(def, s, n, cur) && Fits(s, cur, f)
    ensures Kept(def, s, n, cur, ActHuman(def, i, log, cur, f))
  {
  }

  lemma EndingKeeps(def: WorkflowDef, i: Input, log: Log, s: StepName, n: nat, cur: RunState, f: Frame)
    requires f.Reject? || f.AppendRejected? || f.FailRejected? || f.Cancel? || f.AppendCancelled?
    ensures Kept(def, s, n, cur, ActHuman(def, i, log, cur, f))
  {
  }

  lemma EntryKeeps(def: WorkflowDef, i: Input, log: Log, s: StepName, n: nat, cur: RunState, f: Frame)
    requires EntryFrame(f) && FrameOk(def, s, n, f) && RunBacked(def, s, n, cur)
    ensures Kept(def, s, n, cur, ActEntry(def, i, log, cur, f))
  {
  }

  lemma ScheduleKeeps(def: WorkflowDef, i: Input, s: StepName, n: nat, cur: RunState, f: Frame)
    requires ScheduleFrame(f) || f.SlaLoop?
    ensures Kept(def, s, n, cur, if f.SlaLoop? then ActSla(def, i, f) else ActSchedule(def, i, f))
  {
  }

  lemma ActKeeps(def: WorkflowDef, i: Input, log: Log, s: StepName, n: nat, cur: RunState, f: Frame)
    requires FrameOk(def, s, n, f) && RunBacked(def, s, n, cur) && Fits(s, cur, f)
    ensures Kept(def, s, n, cur, Act(def, i, log, cur, f))
  {
    hide Kept, FrameOk, RunBacked, Fits;
    if EntryFrame(f) { EntryKeeps(def, i, log, s, n, cur, f); }
    else if f.SlaLoop? || ScheduleFrame(f) { ScheduleKeeps(def, i, s, n, cur, f); }
    else if ScanFrame(f) { ScanKeeps(def, i, s, n, cur, f); }
    else if AdvanceFrame(f) { AdvanceKeeps(def, i, s, n, cur, f); }
    else if TaskFrame(f) { TaskKeeps(def, i, log, s, n, cur, f); }
    else if f.Approve? || f.Grant? || f.AfterGrant? || f.DispatchAfter? { DecisionKeeps(def, i, log, s, n, cur, f); }
    else { EndingKeeps(def, i, log, s, n, cur, f); }
  }

  // ---- every interleaving in which the grants fit ------------------------

  ghost predicate SysOk(def: WorkflowDef, s: StepName, sys: Sys) {
    var n := ProgressOf(def, sys.log, s);
    && RunBacked(def, s, n, Replay(def, sys.log))
    && (forall t :: t in sys.threads ==> StackOk(def, s, n, sys.threads[t]))
    && (s in sys.queue ==> KindOf(def, s) == Task)
    && Complete(def, s, sys.log)
  }

  /** Each completion of s, an approval step, comes after in-order grants of its whole chain. */
  ghost predicate Complete(def: WorkflowDef, s: StepName, log: Log) {
    forall k :: 0 <= k < |log| && log[k].body.StepCompleted? && log[k].body.step == s && KindOf(def, s) == Approval ==>
      0 < |ChainOf(def, s)| <= ProgressOf(def, log[..k], s)
  }

  /** The move appends no grant of s, or one that fits. */
  predicate FitMove(def: WorkflowDef, s: StepName, sys: Sys, m: Move) {
    m.Run? && Busy(sys, m.tid) ==> Fits(s, Replay(def, sys.log), Top(sys, m.tid))
  }

  predicate FitMoves(def: WorkflowDef, s: StepName, ms: seq<Move>) {
    forall k :: 0 <= k < |ms| ==> FitMove(def, s, StepAll(def, NEW_RUN, ms[..k]), ms[k])
  }

  lemma ActionApplied(def: WorkflowDef, s: StepName, log: Log, a: Action)
    requires Kept(def, s, ProgressOf(def, log, s), Replay(def, log), a)
    requires RunBacked(def, s, ProgressOf(def, log, s), Replay(def, log)) && Complete(def, s, log)
    ensures var l := log + a.emit;
            && ProgressOf(def, l, s) == Later(def, s, ProgressOf(def, log, s), a)
            && RunBacked(def, s, ProgressOf(def, l, s), Replay(def, l)) && Complete(def, s, l)
  {
    hide RunBacked, StackOk, Backed, Replay, Complete, Mark, ProgressOf;
    if a.emit == [] {
      assert log + a.emit == log;
    } else {
      assert a.emit == [a.emit[0]];
      EventApplied(def, s, log, a.emit[0]);
    }
  }

  lemma EventApplied(def: WorkflowDef, s: StepName, log: Log, e: Event)
    requires RunBacked(def, s, ProgressOf(def, log, s), Replay(def, log)) && Complete(def, s, log)
    requires Backed(def, s, ProgressOf(def, log, s), Replay(def, log), e.body)
    ensures var l := log + [e];
            && ProgressOf(def, l, s) == Mark(def, s, ProgressOf(def, log, s), e.body)
            && RunBacked(def, s, ProgressOf(def, l, s), Replay(def, l)) && Complete(def, s, l)
  {
    hide RunBacked, Replay, Mark;
    var l := log + [e];
    assert l[..|log|] == log;
    ReplayAppend(def, log, e);
    BackedReplay(def, s, ProgressOf(def, log, s), Replay(def, log), e);
    assert forall k :: 0 <= k < |log| ==> l[..k] == log[..k] && l[k] == log[k];
  }

  lemma RunKeeps(def: WorkflowDef, s: StepName, sys: Sys, t: nat, i: Input)
    requires SysOk(def, s, sys) && Busy(sys, t) && Fits(s, Replay(def, sys.log), Top(sys, t))
    ensures SysOk(def, s, RunThread(def, sys, t, i))
  {
    hide RunBacked, Complete, Fits;
    var n, cur, f := ProgressOf(def, sys.log, s), Replay(def, sys.log), Top(sys, t);
    var a := Act(def, i, sys.log, cur, f);
    ActKeeps(def, i, sys.log, s, n, cur, f);
    ActionApplied(def, s, sys.log, a);
    var m := ProgressOf(def, sys.log + a.emit, s);
    var sys' := RunThread(def, sys, t, i);
    forall u | u in sys'.threads ensures StackOk(def, s, m, sys'.threads[u]) {
      if u in sys.threads { StackGrows(def, s, n, m, sys.threads[u]); }
    }
  }

  lemma StepKeeps(def: WorkflowDef, s: StepName, sys: Sys, m: Move)
    requires SysOk(def, s, sys) && FitMove(def, s, sys, m)
    ensures SysOk(def, s, Step(def, sys, m))
  {
    hide RunBacked, Complete, Fits, Act;
    match m {
      case Spawn(t, op) =>
        if !Busy(sys, t) && sys.log != [] && MayBegin(sys.log, sys.queue, op) {
          assert FrameOk(def, s, ProgressOf(def, sys.log, s), op);
        }
      case Run(t, i) =>
        if Busy(sys, t) { RunKeeps(def, s, sys, t, i); }
      case Abort(t, i) =>
      case CrashAll =>
    }
  }

  lemma NewRunOk(def: WorkflowDef, s: StepName)
    ensures SysOk(def, s, NEW_RUN)
  {
    assert FrameOk(def, s, 0, CreateEvent);
  }

  lemma {:induction false} AlwaysOk(def: WorkflowDef, s: StepName, ms: seq<Move>)
    requires FitMoves(def, s, ms)
    ensures SysOk(def, s, StepAll(def, NEW_RUN, ms))
    decreases |ms|
  {
    hide SysOk, FitMove, Step;
    if ms == [] {
      NewRunOk(def, s);
    } else {
      var n := |ms| - 1;
      assert forall k :: 0 <= k < n ==> ms[..n][..k] == ms[..k];
      AlwaysOk(def, s, ms[..n]);
      assert FitMove(def, s, StepAll(def, NEW_RUN, ms[..n]), ms[n]);
      StepKeeps(def, s, StepAll(def, NEW_RUN, ms[..n]), ms[n]);
    }
  }

  /** Each completion of s in this log comes after grants of its links 0, 1, ..., n - 1, in that order, each by a
      caller authorised for that link. */
  ghost predicate Respected(def: WorkflowDef, s: StepName, log: Log) {
    forall k :: 0 <= k < |log| && log[k].body.StepCompleted? && log[k].body.step == s ==>
      GrantedInOrder(def, log[..k], s, |ChainOf(def, s)|)
  }

  /** In every interleaving in which the grants of an approval step fit, its chain is respected. */
  lemma FitRespected(def: WorkflowDef, s: StepName, ms: seq<Move>)
    requires KindOf(def, s) == Approval && FitMoves(def, s, ms)
    ensures Respected(def, s, StepAll(def, NEW_RUN, ms).log)
  {
    var log := StepAll(def, NEW_RUN, ms).log;
    AlwaysOk(def, s, ms);
    forall k | 0 <= k < |log| && log[k].body.StepCompleted? && log[k].body.step == s
      ensures GrantedInOrder(def, log[..k], s, |ChainOf(def, s)|)
    {
      ProgressMeans(def, log[..k], s);
      var at: seq<nat> :| |at| == ProgressOf(def, log[..k], s) && GrantsAt(def, log[..k], s, at);
      assert GrantsAt(def, log[..k], s, at[..|ChainOf(def, s)|]);
    }
  }

  // ---- atomic grants -----------------------------------------------------

  /** A grant is fresh when the link it was checked against is still the pending one. */
  predicate Fresh(cur: RunState, f: Frame) {
    f.Grant? ==>
      && f.step in cur.steps && cur.steps[f.step].approval.Some?
      && cur.steps[f.step].approval.value.status == LinkPending
      && cur.steps[f.step].approval.value.index == f.index
  }

  /** The move appends no grant, or one whose check still holds: Approve's read, check and append are atomic. */
  predicate AtomicGrant(def: WorkflowDef, s: Sys, m: Move) {
    m.Run? && Busy(s, m.tid) ==> Fresh(Replay(def, s.log), Top(s, m.tid))
  }

  predicate AtomicGrants(def: WorkflowDef, ms: seq<Move>) {
    forall k :: 0 <= k < |ms| ==> AtomicGrant(def, StepAll(def, NEW_RUN, ms[..k]), ms[k])
  }

  lemma AtomicFits(def: WorkflowDef, s: StepName, ms: seq<Move>)
    requires AtomicGrants(def, ms)
    ensures FitMoves(def, s, ms)
  {
    forall k | 0 <= k < |ms| ensures FitMove(def, s, StepAll(def, NEW_RUN, ms[..k]), ms[k]) {
      assert AtomicGrant(def, StepAll(def, NEW_RUN, ms[..k]), ms[k]);
    }
  }

  /** In every interleaving with atomic grants the chain of every approval step is respected. */
  lemma ChainRespected(def: WorkflowDef, ms: seq<Move>, s: StepName)
    requires AtomicGrants(def, ms) && KindOf(def, s) == Approval
    ensures Respected(def, s, StepAll(def, NEW_RUN, ms).log)
  {
    AtomicFits(def, s, ms);
    FitRespected(def, s, ms);
  }

  /** ... and the replayed link index always stays inside the chain. */
  lemma IndexInChain(def: WorkflowDef, ms: seq<Move>, s: StepName)
    requires AtomicGrants(def, ms)
    ensures var steps := Replay(def, StepAll(def, NEW_RUN, ms).log).steps;
            s in steps && steps[s].approval.Some? ==>
              steps[s].approval.value.chain == ChainOf(def, s) && steps[s].approval.value.index < |ChainOf(def, s)|
  {
    AtomicFits(def, s, ms);
    AlwaysOk(def, s, ms);
  }
}
