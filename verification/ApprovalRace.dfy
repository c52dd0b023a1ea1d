/** Approve reads, checks and appends without holding anything (engine/engine.go:644-675). For which steps that is safe
    in every interleaving: those with at most one link, those whose first link names nobody, and those that no run ever
    asks an approval of. For every other approval step, threads that each checked the first link grant the whole
    chain. */
module ApprovalRace {
  import opened Model
  import opened Replaying
  import opened Machine
  import opened Moves
  import opened Threads
  import opened Approvals
  import opened Authority

  /** The state of a step's approval, if it has one. */
  function ApprovalIn(run: RunState, s: StepName): Option<ApprovalState> {
    if s in run.steps then run.steps[s].approval else None
  }

  /** The request of its first link asks a step for approval. */
  predicate Opens(b: Body, s: StepName) {
    b.ApprovalRequested? && b.step == s && b.index == 0
  }

  /** Some run asks for an approval of s. */
  ghost predicate Asks(def: WorkflowDef, s: StepName) {
    exists ms: seq<Move> :: ApprovalIn(Replay(def, StepAll(def, NEW_RUN, ms).log), s).Some?
  }

  /** The first link of the step's chain names nobody, or there is none. */
  predicate AsksNobody(def: WorkflowDef, s: StepName) {
    ChainOf(def, s) == [] || NameOn(ChainOf(def, s)[0]) == ""
  }

  /** Whoever the first link asks may decide it. */
  lemma Somebody(def: WorkflowDef, s: StepName) returns (who: string)
    requires !AsksNobody(def, s)
    ensures ChainOf(def, s) != [] && Authorized(ChainOf(def, s), 0, who)
  {
    who := NameOn(ChainOf(def, s)[0]);
  }

  // ---- the safe steps ----------------------------------------------------

  lemma {:induction false} NobodyGrants(def: WorkflowDef, s: StepName, log: Log)
    requires |ChainOf(def, s)| > 0 && NameOn(ChainOf(def, s)[0]) == ""
    ensures ProgressOf(def, log, s) == 0
  {
    if log != [] { NobodyGrants(def, s, log[..|log| - 1]); }
  }

  /** The only link a grant of such a step can have been checked against is the first. */
  lemma OnlyFirstFits(def: WorkflowDef, s: StepName, sys: Sys, m: Move)
    requires SysOk(def, s, sys)
    requires |ChainOf(def, s)| <= 1 || NameOn(ChainOf(def, s)[0]) == ""
    ensures FitMove(def, s, sys, m)
  {
    if m.Run? && Busy(sys, m.tid) {
      var f, n := Top(sys, m.tid), ProgressOf(def, sys.log, s);
      assert FrameOk(def, s, n, f);
      if |ChainOf(def, s)| > 1 { NobodyGrants(def, s, sys.log); }
    }
  }

  lemma {:induction false} OnlyFirst(def: WorkflowDef, s: StepName, ms: seq<Move>)
    requires |ChainOf(def, s)| <= 1 || NameOn(ChainOf(def, s)[0]) == ""
    ensures FitMoves(def, s, ms)
    decreases |ms|
  {
    hide FitMove, Step;
    if ms != [] {
      var n := |ms| - 1;
      OnlyFirst(def, s, ms[..n]);
      AlwaysOk(def, s, ms[..n]);
      OnlyFirstFits(def, s, StepAll(def, NEW_RUN, ms[..n]), ms[n]);
      forall k | 0 <= k < |ms| ensures FitMove(def, s, StepAll(def, NEW_RUN, ms[..k]), ms[k]) {
        if k < n { assert ms[..n][..k] == ms[..k] && ms[..n][k] == ms[k]; }
      }
    }
  }

  lemma NeverAskedFits(def: WorkflowDef, s: StepName, ms: seq<Move>)
    requires !Asks(def, s)
    ensures FitMoves(def, s, ms)
  {
    forall k | 0 <= k < |ms| ensures FitMove(def, s, StepAll(def, NEW_RUN, ms[..k]), ms[k]) {
      assert ApprovalIn(Replay(def, StepAll(def, NEW_RUN, ms[..k]).log), s).None?;
    }
  }

  // ---- one link of the chain ---------------------------------------------

  /** A snapshot shows the step at link j of its chain. */
  predicate AtLink(def: WorkflowDef, run: RunState, s: StepName, j: nat) {
    var a := ApprovalIn(run, s);
    a.Some? && a.value.chain == ChainOf(def, s) && a.value.index == j
  }

  predicate LinkIs(def: WorkflowDef, run: RunState, s: StepName, j: nat, status: LinkStatus) {
    AtLink(def, run, s, j) && ApprovalIn(run, s).value.status == status
  }

  lemma GrantApplies(def: WorkflowDef, log: Log, s: StepName, j: nat, e: Event)
    requires AtLink(def, Replay(def, log), s, j) && e.body.ApprovalGranted? && e.body.step == s
    ensures LinkIs(def, Replay(def, log + [e]), s, j, LinkGranted)
  {
    ReplayAppend(def, log, e);
  }

  lemma RequestApplies(def: WorkflowDef, log: Log, s: StepName, j: nat, e: Event)
    requires e.body.ApprovalRequested? && e.body.step == s && e.body.index == j
    ensures LinkIs(def, Replay(def, log + [e]), s, j, LinkPending)
  {
    if s in Replay(def, log).steps { KindIsDeclared(def, log, s); }
    ReplayAppend(def, log, e);
  }

  /** A new thread passes the check against the pending link i. */
  lemma Checked(def: WorkflowDef, m: Moment, t: nat, s: StepName, i: nat, who: string) returns (m': Moment)
    requires m.sys.log != [] && StackAt(m.sys, t) == []
    requires LinkIs(def, Replay(def, m.sys.log), s, i, LinkPending) && Authorized(ChainOf(def, s), i, who)
    ensures Worked(def, m, m', t) && m'.now == m.now
    ensures Stands(m', t, m.sys.log, m.sys.queue, [Grant(s, i, who)] + [])
  {
    var l, q, op := m.sys.log, m.sys.queue, Approve(s, who);
    assert MayDecide(Replay(def, l), s, who) && MayBegin(l, q, op);
    assert Replay(def, l).steps[s].approval.value.index == i;
    hide Worked, At, Replay, Authorized, MayDecide, MayBegin;
    var m1 := Spawned(def, m, t, op);
    AtStart(def, m.now, l, q, [op] + []);
    OnApprove(def, m.now, ConfigOf(m1.sys, t), l, q, s, who, []);
    m' := CameTo(def, m1, t, l, q, [Grant(s, i, who)] + []);
    WorkedOn(def, m, m1, m', t);
  }

  /** A grant that was checked against link i is appended while the step is at link j. */
  lemma GrantRuns(def: WorkflowDef, m: Moment, t: nat, s: StepName, i: nat, j: nat, who: string) returns (m': Moment)
    requires AtLink(def, Replay(def, m.sys.log), s, j) && StackAt(m.sys, t) == [Grant(s, i, who)] + []
    ensures Worked(def, m, m', t) && m'.now == m.now
    ensures LinkIs(def, Replay(def, m'.sys.log), s, j, LinkGranted)
    ensures var l := m.sys.log + [Event(m.now, ApprovalGranted(s, i, who))];
            var run := Replay(def, l);
            Stands(m', t, l, m.sys.queue, [AdvanceApproval(run, s)] + ([DispatchAfter(run)] + []))
  {
    var l0, q, e := m.sys.log, m.sys.queue, Event(m.now, ApprovalGranted(s, i, who));
    GrantApplies(def, l0, s, j, e);
    hide Worked, At, Replay, LinkIs;
    var c0, run := ConfigOf(m.sys, t), Replay(def, l0 + [e]);
    AtStart(def, m.now, l0, q, [Grant(s, i, who)] + []);
    OnGrant(def, m.now, c0, l0, q, s, i, who, []);
    OnAfterGrant(def, m.now, c0, l0 + [e], q, s, []);
    m' := CameTo(def, m, t, l0 + [e], q, [AdvanceApproval(run, s)] + ([DispatchAfter(run)] + []));
  }

  /** Before the last link the next one is requested. */
  lemma NextRequested(def: WorkflowDef, m: Moment, t: nat, run: RunState, s: StepName, j: nat, rest: seq<Frame>)
    returns (m': Moment, e: Event)
    requires LinkIs(def, run, s, j, LinkGranted) && j + 1 < |ChainOf(def, s)|
    requires StackAt(m.sys, t) == [AdvanceApproval(run, s)] + rest
    ensures Worked(def, m, m', t) && m'.now == m.now && e.body.ApprovalRequested?
    ensures m'.sys.log == m.sys.log + [e] && LinkIs(def, Replay(def, m'.sys.log), s, j + 1, LinkPending)
  {
    var l, q, f := m.sys.log, m.sys.queue, AdvanceApproval(run, s);
    e := Event(m.now, NextRequest(run.steps[s].approval.value, s));
    RequestApplies(def, l, s, j + 1, e);
    assert HasGrant(run, s) && run.steps[s].approval.value.index + 1 < |run.steps[s].approval.value.chain|;
    hide Worked, At, Replay, LinkIs;
    AtStart(def, m.now, l, q, [f] + rest);
    OnAdvanceApproval(def, m.now, ConfigOf(m.sys, t), l, q, run, s, rest);
    m' := CameTo(def, m, t, l + [e], q, rest);
  }

  /** With the last link the step completes. */
  lemma Completed(def: WorkflowDef, m: Moment, t: nat, run: RunState, s: StepName, j: nat, rest: seq<Frame>)
    returns (m': Moment)
    requires LinkIs(def, run, s, j, LinkGranted) && j + 1 == |ChainOf(def, s)|
    requires StackAt(m.sys, t) == [AdvanceApproval(run, s)] + rest
    ensures Worked(def, m, m', t) && m'.now == m.now
    ensures Stands(m', t, m.sys.log + [Event(m.now, StepCompleted(s, map[]))], m.sys.queue,
                   [Advance(run, s, true)] + rest)
  {
    var l, q, f := m.sys.log, m.sys.queue, AdvanceApproval(run, s);
    var c0, e := ConfigOf(m.sys, t), Event(m.now, StepCompleted(s, map[]));
    assert HasGrant(run, s) && run.steps[s].approval.value.index + 1 >= |run.steps[s].approval.value.chain|;
    hide Worked, At, Replay;
    AtStart(def, m.now, l, q, [f] + rest);
    OnAdvanceApproval(def, m.now, c0, l, q, run, s, rest);
    OnCompleteStep(def, m.now, c0, l, q, run, s, map[], rest);
    m' := CameTo(def, m, t, l + [e], q, [Advance(run, s, true)] + rest);
  }

  // ---- the whole chain by grants of one link -----------------------------

  /** From position n on, s is only granted at link i. */
  predicate OnlyLink(log: Log, s: StepName, i: nat, n: nat) {
    forall k :: n <= k < |log| && log[k].body.ApprovalGranted? && log[k].body.step == s ==> log[k].body.index == i
  }

  /** From position n on, the log only asks and grants. */
  predicate OnlyDecisions(log: Log, n: nat) {
    forall k :: n <= k < |log| ==> log[k].body.ApprovalRequested? || log[k].body.ApprovalGranted?
  }

  /** The threads from j to n hold a grant of link i each. */
  predicate Hold(sys: Sys, s: StepName, i: nat, who: string, j: nat, n: nat) {
    forall t: nat :: j <= t < n ==> StackAt(sys, t) == [Grant(s, i, who)] + []
  }

  /** Any number of new threads pass the check against the pending link i. */
  lemma {:induction false} Gathered(def: WorkflowDef, m: Moment, s: StepName, i: nat, who: string, a: nat, n: nat)
    returns (m': Moment)
    requires a <= n && m.sys.log != [] && Authorized(ChainOf(def, s), i, who)
    requires LinkIs(def, Replay(def, m.sys.log), s, i, LinkPending)
    requires forall t: nat :: a <= t < n ==> StackAt(m.sys, t) == []
    ensures Reaches(def, m, m') && m'.now == m.now && m'.sys.log == m.sys.log && m'.sys.queue == m.sys.queue
    ensures Hold(m'.sys, s, i, who, a, n)
    ensures forall t: nat :: t < a || t >= n ==> StackAt(m'.sys, t) == StackAt(m.sys, t)
    decreases n - a
  {
    hide LinkIs, Reaches, Authorized, StackAt, Replay;
    if a == n {
      Waits(def, m, m.now);
      m' := m;
    } else {
      var m1 := Checked(def, m, a, s, i, who);
      m' := Gathered(def, m1, s, i, who, a + 1, n);
      ReachesOn(def, m, m1, m');
    }
  }

  /** One thread after the other appends its grant of link i: replay takes them for grants of the links that are
      pending, up to the last. */
  lemma {:induction false} Granting(def: WorkflowDef, m: Moment, s: StepName, i: nat, who: string, j: nat, b: nat)
    returns (m': Moment)
    requires LinkIs(def, Replay(def, m.sys.log), s, j, LinkPending) && j < |ChainOf(def, s)|
    requires Hold(m.sys, s, i, who, b + j, b + |ChainOf(def, s)|)
    ensures Reaches(def, m, m') && m'.now == m.now && m.sys.log < m'.sys.log && OnlyLink(m'.sys.log, s, i, |m.sys.log|)
    ensures OnlyDecisions(m'.sys.log, |m.sys.log|)
    ensures var n, run := |ChainOf(def, s)|, Replay(def, m'.sys.log);
            && LinkIs(def, run, s, n - 1, LinkGranted)
            && StackAt(m'.sys, b + n - 1) == [AdvanceApproval(run, s)] + ([DispatchAfter(run)] + [])
            && forall t: nat :: t < b + j || t >= b + n ==> StackAt(m'.sys, t) == StackAt(m.sys, t)
    decreases |ChainOf(def, s)| - j
  {
    assert AtLink(def, Replay(def, m.sys.log), s, j);
    hide LinkIs, AtLink, Reaches, Replay, StackAt;
    m' := GrantRuns(def, m, b + j, s, i, j, who);
    if j + 1 < |ChainOf(def, s)| {
      var run := Replay(def, m'.sys.log);
      var m1 := m';
      var m2, e := NextRequested(def, m1, b + j, run, s, j, [DispatchAfter(run)] + []);
      ReachesOn(def, m, m1, m2);
      m' := Granting(def, m2, s, i, who, j + 1, b);
      ReachesOn(def, m, m2, m');
      Prefixes(m.sys.log, m1.sys.log, m2.sys.log, m'.sys.log, s, i, e);
    }
  }

  lemma Prefixes(l: Log, l1: Log, l2: Log, l': Log, s: StepName, i: nat, e: Event)
    requires |l1| == |l| + 1 && l < l1 && l2 == l1 + [e] && l2 < l' && e.body.ApprovalRequested?
    requires l1[|l|].body.ApprovalGranted? && l1[|l|].body.index == i
    requires OnlyLink(l', s, i, |l2|) && OnlyDecisions(l', |l2|)
    ensures l < l' && OnlyLink(l', s, i, |l|) && OnlyDecisions(l', |l|)
  {
    assert l'[|l|] == l2[|l|] == l1[|l|] && l'[|l| + 1] == l2[|l| + 1] == e;
    assert forall k :: 0 <= k < |l| ==> l'[k] == l2[k] == l1[k] == l[k];
  }

  /** In any state in which link i of a step is pending and `who` may decide it, new threads that all check that link
      can go on to complete the step without a grant of any later link. */
  lemma Bypass(def: WorkflowDef, m: Moment, s: StepName, i: nat, who: string) returns (m': Moment)
    requires m.sys.log != [] && Authorized(ChainOf(def, s), i, who)
    requires LinkIs(def, Replay(def, m.sys.log), s, i, LinkPending)
    ensures Reaches(def, m, m') && m.sys.log < m'.sys.log && OnlyLink(m'.sys.log, s, i, |m.sys.log|)
    ensures m'.sys.log[|m'.sys.log| - 1].body == StepCompleted(s, map[])
  {
    hide LinkIs, Reaches, Replay;
    var b := Unused(m.sys.threads.Keys);
    var n := |ChainOf(def, s)|;
    var m1 := Gathered(def, m, s, i, who, b + i, b + n);
    var m2 := Granting(def, m1, s, i, who, i, b);
    ReachesOn(def, m, m1, m2);
    var run := Replay(def, m2.sys.log);
    m' := Completed(def, m2, b + n - 1, run, s, n - 1, [DispatchAfter(run)] + []);
    ReachesOn(def, m, m2, m');
  }

  // ---- the first request of a step ---------------------------------------

  /** The snapshot of a frame shows no approval of s, and the frame is no grant of it. */
  predicate Unasked(s: StepName, f: Frame) {
    && (RunOf(f).Some? ==> ApprovalIn(RunOf(f).value, s).None?)
    && (f.Grant? ==> f.step != s)
  }

  predicate NoGrants(s: StepName, log: Log) {
    forall k :: 0 <= k < |log| && log[k].body.ApprovalGranted? ==> log[k].body.step != s
  }

  /** As long as no approval of s was asked for, nothing was granted and nobody is about to grant. */
  ghost predicate Untouched(def: WorkflowDef, s: StepName, sys: Sys) {
    ApprovalIn(Replay(def, sys.log), s).None? ==>
      && NoGrants(s, sys.log)
      && forall t, k :: t in sys.threads && 0 <= k < |sys.threads[t]| ==> Unasked(s, sys.threads[t][k])
  }

  /** The action appends no grant of s; the only request it can append is of the first link. */
  predicate Calm(def: WorkflowDef, s: StepName, a: Action) {
    && |a.emit| <= 1
    && (forall k :: 0 <= k < |a.push| ==> Unasked(s, a.push[k]))
    && (a.emit != [] && StepOf(a.emit[0].body) == Some(s) ==>
          !a.emit[0].body.ApprovalGranted? && (a.emit[0].body.ApprovalRequested? ==> a.emit[0].body.index == 0))
  }

  lemma EntryCalm(def: WorkflowDef, i: Input, log: Log, s: StepName, cur: RunState, f: Frame)
    requires EntryFrame(f) && Unasked(s, f) && ApprovalIn(cur, s).None?
    ensures Calm(def, s, ActEntry(def, i, log, cur, f))
  {
  }

  lemma ScheduleCalm(def: WorkflowDef, i: Input, s: StepName, f: Frame)
    requires (ScheduleFrame(f) || f.SlaLoop?) && Unasked(s, f)
    ensures Calm(def, s, if f.SlaLoop? then ActSla(def, i, f) else ActSchedule(def, i, f))
  {
  }

  lemma ScanCalm(def: WorkflowDef, i: Input, s: StepName, f: Frame)
    requires (ScanFrame(f) || AdvanceFrame(f)) && Unasked(s, f)
    ensures Calm(def, s, if ScanFrame(f) then ActScan(i, f) else ActAdvance(def, i, f))
  {
  }

  lemma TaskCalm(def: WorkflowDef, i: Input, log: Log, s: StepName, cur: RunState, f: Frame)
    requires TaskFrame(f) && Unasked(s, f) && ApprovalIn(cur, s).None?
    ensures Calm(def, s, ActTask(def, i, log, cur, f))
  {
  }

  lemma ApproveCalm(def: WorkflowDef, i: Input, log: Log, s: StepName, cur: RunState, f: Frame)
    requires (f.Approve? || f.Grant? || f.AfterGrant? || f.DispatchAfter?) && Unasked(s, f) && ApprovalIn(cur, s).None?
    ensures Calm(def, s, ActHuman(def, i, log, cur, f))
  {
  }

  lemma RejectCalm(def: WorkflowDef, i: Input, log: Log, s: StepName, cur: RunState, f: Frame)
    requires f.Reject? || f.AppendRejected? || f.FailRejected? || f.Cancel? || f.AppendCancelled?
    ensures Calm(def, s, ActHuman(def, i, log, cur, f))
  {
  }

  lemma ActCalm(def: WorkflowDef, i: Input, log: Log, s: StepName, cur: RunState, f: Frame)
    requires Unasked(s, f) && ApprovalIn(cur, s).None?
    ensures Calm(def, s, Act(def, i, log, cur, f))
  {
    hide Unasked, Calm, ActEntry, ActSla, ActSchedule, ActScan, ActAdvance, ActTask, ActHuman;
    if EntryFrame(f) { EntryCalm(def, i, log, s, cur, f); }
    else if f.SlaLoop? || ScheduleFrame(f) { ScheduleCalm(def, i, s, f); }
    else if ScanFrame(f) || AdvanceFrame(f) { ScanCalm(def, i, s, f); }
    else if TaskFrame(f) { TaskCalm(def, i, log, s, cur, f); }
    else if f.Approve? || f.Grant? || f.AfterGrant? || f.DispatchAfter? { ApproveCalm(def, i, log, s, cur, f); }
    else { RejectCalm(def, i, log, s, cur, f); }
  }

  /** Once asked for, an approval stays. */
  lemma AskedStays(def: WorkflowDef, s: StepName, log: Log, e: Event)
    requires ApprovalIn(Replay(def, log), s).Some?
    ensures ApprovalIn(Replay(def, log + [e]), s).Some?
  {
    ReplayAppend(def, log, e);
  }

  /** The first request of a step is of its first link, with nothing granted before. */
  ghost predicate FirstAsked(def: WorkflowDef, s: StepName, log: Log) {
    log != [] && NoGrants(s, log) && LinkIs(def, Replay(def, log), s, 0, LinkPending)
  }

  lemma EventAsks(def: WorkflowDef, s: StepName, log: Log, e: Event)
    requires ApprovalIn(Replay(def, log), s).None? && ApprovalIn(Replay(def, log + [e]), s).Some? && NoGrants(s, log)
    requires StepOf(e.body) == Some(s) && e.body.ApprovalRequested? ==> e.body.index == 0
    ensures FirstAsked(def, s, log + [e])
  {
    ReplayAppend(def, log, e);
    assert e.body.ApprovalRequested?;
    RequestApplies(def, log, s, 0, e);
  }

  lemma RunUntouched(def: WorkflowDef, s: StepName, sys: Sys, t: nat, i: Input)
    requires Untouched(def, s, sys) && Busy(sys, t) && ApprovalIn(Replay(def, sys.log), s).None?
    ensures var sys' := RunThread(def, sys, t, i);
            && Untouched(def, s, sys')
            && (ApprovalIn(Replay(def, sys'.log), s).Some? ==> FirstAsked(def, s, sys'.log))
  {
    var cur, f := Replay(def, sys.log), Top(sys, t);
    var a := Act(def, i, sys.log, cur, f);
    ActCalm(def, i, sys.log, s, cur, f);
    hide Act, LinkIs, ApprovalIn, Unasked, Replay, NoGrants, FirstAsked;
    EmitCalm(def, s, sys.log, a);
  }

  lemma EmitCalm(def: WorkflowDef, s: StepName, log: Log, a: Action)
    requires Calm(def, s, a) && NoGrants(s, log) && ApprovalIn(Replay(def, log), s).None?
    ensures NoGrants(s, log + a.emit)
    ensures ApprovalIn(Replay(def, log + a.emit), s).Some? ==> FirstAsked(def, s, log + a.emit)
  {
    hide LinkIs, ApprovalIn, Unasked, Replay;
    if a.emit == [] {
      assert log + a.emit == log;
    } else {
      assert log + a.emit == log + [a.emit[0]];
      if ApprovalIn(Replay(def, log + a.emit), s).Some? { EventAsks(def, s, log, a.emit[0]); }
    }
  }

  lemma StepUntouched(def: WorkflowDef, s: StepName, sys: Sys, m: Move)
    requires Untouched(def, s, sys)
    ensures var sys' := Step(def, sys, m);
            && Untouched(def, s, sys')
            && (ApprovalIn(Replay(def, sys.log), s).None? && ApprovalIn(Replay(def, sys'.log), s).Some? ==>
                  FirstAsked(def, s, sys'.log))
  {
    hide Act, ApprovalIn, LinkIs, Replay, MayFail, NoGrants;
    match m {
      case Run(t, i) =>
        if Busy(sys, t) {
          if ApprovalIn(Replay(def, sys.log), s).None? {
            RunUntouched(def, s, sys, t, i);
          } else {
            RunStays(def, s, sys, t, i);
          }
        }
      case Spawn(_, op) => if MayBegin(sys.log, sys.queue, op) { OperationUnasked(s, sys, op); }
      case Abort(_, _) =>
      case CrashAll =>
    }
  }

  lemma OperationUnasked(s: StepName, sys: Sys, op: Frame)
    requires MayBegin(sys.log, sys.queue, op)
    ensures Unasked(s, op)
  {
  }

  lemma RunStays(def: WorkflowDef, s: StepName, sys: Sys, t: nat, i: Input)
    requires Busy(sys, t) && ApprovalIn(Replay(def, sys.log), s).Some?
    ensures ApprovalIn(Replay(def, RunThread(def, sys, t, i).log), s).Some?
  {
    hide ApprovalIn, Act;
    var a := Act(def, i, sys.log, Replay(def, sys.log), Top(sys, t));
    StaysThrough(def, s, sys.log, a.emit);
  }

  lemma {:induction false} StaysThrough(def: WorkflowDef, s: StepName, log: Log, more: Log)
    requires ApprovalIn(Replay(def, log), s).Some?
    ensures ApprovalIn(Replay(def, log + more), s).Some?
    decreases |more|
  {
    hide ApprovalIn;
    if more == [] {
      assert log + more == log;
    } else {
      var init := more[..|more| - 1];
      StaysThrough(def, s, log, init);
      AskedStays(def, s, log + init, more[|more| - 1]);
      assert log + more == log + init + [more[|more| - 1]];
    }
  }

  /** A run that asks for an approval of s has asked for it a first time. */
  lemma {:induction false} FirstTime(def: WorkflowDef, s: StepName, ms: seq<Move>) returns (n: nat)
    ensures Untouched(def, s, StepAll(def, NEW_RUN, ms))
    ensures ApprovalIn(Replay(def, StepAll(def, NEW_RUN, ms).log), s).Some? ==>
              n <= |ms| && FirstAsked(def, s, StepAll(def, NEW_RUN, ms[..n]).log)
    decreases |ms|
  {
    n := |ms|;
    assert ms[..n] == ms;
    if ms != [] {
      var sys, m := StepAll(def, NEW_RUN, ms[..n - 1]), ms[n - 1];
      var j := FirstTime(def, s, ms[..n - 1]);
      StepUntouched(def, s, sys, m);
      if ApprovalIn(Replay(def, sys.log), s).Some? {
        n := j;
        assert ms[..|ms| - 1][..j] == ms[..j];
      }
    } else {
      assert Replay(def, NEW_RUN.log) == EMPTY_RUN;
    }
  }

  // ---- exactly the unsafe steps ------------------------------------------

  /** The chain of the step is respected in every interleaving. */
  ghost predicate AlwaysRespected(def: WorkflowDef, s: StepName) {
    forall ms: seq<Move> :: Respected(def, s, StepAll(def, NEW_RUN, ms).log)
  }

  lemma NoSecondGrant(def: WorkflowDef, s: StepName, l: Log, l': Log)
    requires NoGrants(s, l) && l < l' && OnlyLink(l', s, 0, |l|) && |ChainOf(def, s)| > 1
    ensures !GrantedInOrder(def, l'[..|l'| - 1], s, |ChainOf(def, s)|)
  {
    var past := l'[..|l'| - 1];
    forall at: seq<nat> | |at| == |ChainOf(def, s)| ensures !GrantsAt(def, past, s, at) {
      var k := at[1];
      if k < |past| {
        assert past[k] == l'[k] && (k < |l| ==> l[k] == l'[k]);
        assert !IsGrant(def, past[k], s, 1);
      }
    }
  }

  /** A step of several links, at its first request: its chain can be completed though no link but the first is
      granted. */
  lemma FirstBypassed(def: WorkflowDef, m: Moment, s: StepName) returns (m': Moment)
    requires FirstAsked(def, s, m.sys.log) && |ChainOf(def, s)| > 1 && !AsksNobody(def, s)
    ensures var log := m'.sys.log;
            && Reaches(def, m, m') && log != [] && log[|log| - 1].body == StepCompleted(s, map[])
            && OnlyLink(log, s, 0, 0) && !GrantedInOrder(def, log[..|log| - 1], s, |ChainOf(def, s)|)
  {
    hide LinkIs, Authorized, GrantedInOrder, AsksNobody, NoGrants, OnlyLink, Reaches, Replay;
    var who := Somebody(def, s);
    m' := Bypass(def, m, s, 0, who);
    NoSecondGrant(def, s, m.sys.log, m'.sys.log);
    FromTheStart(s, m.sys.log, m'.sys.log);
  }

  lemma FromTheStart(s: StepName, l: Log, l': Log)
    requires NoGrants(s, l) && l < l' && OnlyLink(l', s, 0, |l|)
    ensures OnlyLink(l', s, 0, 0)
  {
    forall k | 0 <= k < |l| ensures l'[k] == l[k] { }
  }

  lemma AskedFirst(def: WorkflowDef, s: StepName) returns (ms: seq<Move>)
    requires Asks(def, s)
    ensures FirstAsked(def, s, StepAll(def, NEW_RUN, ms).log)
  {
    hide ApprovalIn, FirstAsked, Untouched, Replay;
    var ms0: seq<Move> :| ApprovalIn(Replay(def, StepAll(def, NEW_RUN, ms0).log), s).Some?;
    var n := FirstTime(def, s, ms0);
    ms := ms0[..n];
  }

  /** A chain of several links whose first link asks somebody: some interleaving completes the step though no link but
      the first was ever granted. */
  lemma ChainBypassed(def: WorkflowDef, s: StepName) returns (ms: seq<Move>)
    requires |ChainOf(def, s)| > 1 && !AsksNobody(def, s) && Asks(def, s)
    ensures var log := StepAll(def, NEW_RUN, ms).log;
            && log != [] && log[|log| - 1].body == StepCompleted(s, map[]) && OnlyLink(log, s, 0, 0)
            && !GrantedInOrder(def, log[..|log| - 1], s, |ChainOf(def, s)|)
  {
    hide FirstAsked, GrantedInOrder, Asks, OnlyLink, StepAll, AsksNobody;
    var a := AskedFirst(def, s);
    var m := Moment(StepAll(def, NEW_RUN, a), 1);
    var m' := FirstBypassed(def, m, s);
    var b: seq<Move> :| Onward(b) && Within(b, m.now, m'.now) && StepAll(def, m.sys, b) == m'.sys;
    StepAllSplit(def, NEW_RUN, a, b);
    ms := a + b;
  }

  /** Without any assumption on how the threads interleave, the chain of an approval step is respected exactly when it
      has at most one link, or its first link names nobody, or no run ever asks for the approval. */
  lemma RespectedIff(def: WorkflowDef, s: StepName)
    requires KindOf(def, s) == Approval
    ensures AlwaysRespected(def, s) <==> |ChainOf(def, s)| <= 1 || AsksNobody(def, s) || !Asks(def, s)
  {
    if |ChainOf(def, s)| <= 1 || AsksNobody(def, s) || !Asks(def, s) {
      forall ms: seq<Move> ensures Respected(def, s, StepAll(def, NEW_RUN, ms).log) { SafeRespected(def, s, ms); }
    } else {
      hide Respected, Asks;
      var ms := ChainBypassed(def, s);
      NotRespected(def, s, StepAll(def, NEW_RUN, ms).log);
    }
  }

  lemma SafeRespected(def: WorkflowDef, s: StepName, ms: seq<Move>)
    requires KindOf(def, s) == Approval && (|ChainOf(def, s)| <= 1 || AsksNobody(def, s) || !Asks(def, s))
    ensures FitMoves(def, s, ms) && Respected(def, s, StepAll(def, NEW_RUN, ms).log)
  {
    hide Asks, FitMoves, Respected;
    if !Asks(def, s) { NeverAskedFits(def, s, ms); } else { OnlyFirst(def, s, ms); }
    FitRespected(def, s, ms);
  }

  lemma NotRespected(def: WorkflowDef, s: StepName, log: Log)
    requires log != [] && log[|log| - 1].body == StepCompleted(s, map[])
    requires !GrantedInOrder(def, log[..|log| - 1], s, |ChainOf(def, s)|)
    ensures !Respected(def, s, log)
  {
    assert log[|log| - 1].body.StepCompleted?;
  }
}
