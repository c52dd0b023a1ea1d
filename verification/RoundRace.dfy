/** When every round of an approval step takes its own grants in every interleaving (engine/engine.go:597-617,
    644-675): exactly for steps that no run comes to, steps whose first link names nobody, and steps of one link that a
    run can only begin with. On every other approval step some interleaving completes a round without its grants. */
module RoundRace {
  import opened Model
  import opened Replaying
  import opened Machine
  import opened Moves
  import opened Threads
  import opened Approvals
  import opened Authority
  import opened ApprovalRace
  import opened Rounds
  import opened Trails
  import opened Walks
  import Idempotence
  import Provenance
  import Reaching

  /** Every round of the step takes its own grants, in every interleaving. */
  ghost predicate AlwaysEachRound(def: WorkflowDef, s: StepName) {
    forall ms: seq<Move> :: EachRound(def, s, StepAll(def, NEW_RUN, ms).log)
  }

  /** ... in every interleaving on a clock that never goes back. */
  ghost predicate OnwardEachRound(def: WorkflowDef, s: StepName) {
    forall ms: seq<Move> :: Onward(ms) ==> EachRound(def, s, StepAll(def, NEW_RUN, ms).log)
  }

  /** Some run asks for the approval of s twice. */
  ghost predicate AsksTwice(def: WorkflowDef, s: StepName) {
    exists ms: seq<Move> :: Twice(StepAll(def, NEW_RUN, ms).log, s)
  }

  // ---- a grant follows its request -------------------------------------------

  /** An approval state, and every grant, follow a request of the first link. */
  ghost predicate Preceded(def: WorkflowDef, s: StepName, log: Log) {
    && (ApprovalIn(Replay(def, log), s).Some? ==> Opened(log, s))
    && forall k :: 0 <= k < |log| && log[k].body.ApprovalGranted? && log[k].body.step == s ==> Opened(log[..k], s)
  }

  lemma OpenedIn(log: Log, more: Log, s: StepName)
    requires Opened(log, s)
    ensures Opened(log + more, s)
  {
    OpenedGrows(log, log + more, s);
  }

  lemma PrecededAppend(def: WorkflowDef, s: StepName, log: Log, e: Event)
    requires Preceded(def, s, log)
    requires ApprovalIn(Replay(def, log), s).None? && StepOf(e.body) == Some(s) ==>
               !e.body.ApprovalGranted? && (e.body.ApprovalRequested? ==> e.body.index == 0)
    ensures Preceded(def, s, log + [e])
  {
    var l, n := log + [e], |log|;
    ReplayAppend(def, log, e);
    assert l[n] == e && l[..n] == log;
    if ApprovalIn(Replay(def, log), s).Some? {
      OpenedIn(log, [e], s);
    } else if ApprovalIn(Replay(def, l), s).Some? {
      assert Opens(l[n].body, s);
    }
    forall k | 0 <= k < n ensures l[k] == log[k] && l[..k] == log[..k] { }
  }

  lemma RunPreceded(def: WorkflowDef, s: StepName, sys: Sys, t: nat, i: Input)
    requires Preceded(def, s, sys.log) && Untouched(def, s, sys) && Busy(sys, t)
    ensures Preceded(def, s, RunThread(def, sys, t, i).log)
  {
    var cur, f := Replay(def, sys.log), Top(sys, t);
    var a := Act(def, i, sys.log, cur, f);
    ActModest(def, i, sys.log, cur, s, f);
    if ApprovalIn(cur, s).None? { ActCalm(def, i, sys.log, s, cur, f); }
    hide Act, Preceded, Replay, ApprovalIn;
    if a.emit == [] {
      assert sys.log + a.emit == sys.log;
    } else {
      assert a.emit == [a.emit[0]];
      PrecededAppend(def, s, sys.log, a.emit[0]);
    }
  }

  lemma {:induction false} AlwaysPreceded(def: WorkflowDef, s: StepName, ms: seq<Move>)
    ensures Preceded(def, s, StepAll(def, NEW_RUN, ms).log)
    decreases |ms|
  {
    hide Preceded, Untouched, Act, Replay;
    if ms == [] {
      NothingPreceded(def, s);
    } else {
      var init, m := ms[..|ms| - 1], ms[|ms| - 1];
      var sys := StepAll(def, NEW_RUN, init);
      AlwaysPreceded(def, s, init);
      var _ := FirstTime(def, s, init);
      if m.Run? && Busy(sys, m.tid) { RunPreceded(def, s, sys, m.tid, m.input); }
    }
  }

  lemma NothingPreceded(def: WorkflowDef, s: StepName)
    ensures Preceded(def, s, [])
  {
  }

  // ---- the safe steps --------------------------------------------------------

  /** Nobody completes a step that no run comes to, or of which nobody is asked first. */
  lemma NeverCompleted(def: WorkflowDef, s: StepName, ms: seq<Move>)
    requires KindOf(def, s) == Approval && (AsksNobody(def, s) || !Asks(def, s))
    ensures EachRound(def, s, StepAll(def, NEW_RUN, ms).log)
  {
    var log := StepAll(def, NEW_RUN, ms).log;
    hide EachRound, Asks, Respected, Preceded;
    SafeRespected(def, s, ms);
    Approvals.AlwaysOk(def, s, ms);
    forall k | 0 <= k < |log| && log[k].body.StepCompleted? && log[k].body.step == s ensures false {
      if AsksNobody(def, s) {
        NobodyCompletes(def, s, ms, k);
      } else {
        NothingGranted(def, s, ms, k);
      }
    }
    Vacuous(def, s, log);
  }

  lemma Vacuous(def: WorkflowDef, s: StepName, log: Log)
    requires forall k :: 0 <= k < |log| && log[k].body.StepCompleted? ==> log[k].body.step != s
    ensures EachRound(def, s, log)
  {
  }

  lemma {:induction false} NoProgress(def: WorkflowDef, s: StepName, log: Log)
    requires NoGrants(s, log)
    ensures ProgressOf(def, log, s) == 0
    decreases |log|
  {
    if log != [] {
      assert forall k :: 0 <= k < |log| - 1 ==> log[..|log| - 1][k] == log[k];
      NoProgress(def, s, log[..|log| - 1]);
    }
  }

  lemma NothingGranted(def: WorkflowDef, s: StepName, ms: seq<Move>, k: nat)
    requires !Asks(def, s) && k <= |StepAll(def, NEW_RUN, ms).log|
    ensures ProgressOf(def, StepAll(def, NEW_RUN, ms).log[..k], s) == 0
  {
    var log := StepAll(def, NEW_RUN, ms).log;
    assert ApprovalIn(Replay(def, log), s).None?;
    var _ := FirstTime(def, s, ms);
    assert NoGrants(s, log[..k]);
    NoProgress(def, s, log[..k]);
  }

  /** With one link and one request, every grant lies in the only round. */
  lemma OnlyRound(def: WorkflowDef, s: StepName, ms: seq<Move>)
    requires KindOf(def, s) == Approval && |ChainOf(def, s)| == 1 && !Twice(StepAll(def, NEW_RUN, ms).log, s)
    ensures EachRound(def, s, StepAll(def, NEW_RUN, ms).log)
  {
    var log := StepAll(def, NEW_RUN, ms).log;
    SafeRespected(def, s, ms);
    AlwaysPreceded(def, s, ms);
    forall k | 0 <= k < |log| && log[k].body.StepCompleted? && log[k].body.step == s
      ensures GrantedInRound(def, log[..k], s, 1)
    {
      assert GrantedInOrder(def, log[..k], s, 1);
      InOnlyRound(def, s, log, k);
    }
  }

  lemma InOnlyRound(def: WorkflowDef, s: StepName, log: Log, k: nat)
    requires k < |log| && !Twice(log, s) && Preceded(def, s, log) && GrantedInOrder(def, log[..k], s, 1)
    ensures GrantedInRound(def, log[..k], s, 1)
  {
    hide Authorized;
    var past := log[..k];
    var at: seq<nat> :| |at| == 1 && GrantsAt(def, past, s, at);
    var j := at[0];
    assert IsGrant(def, past[j], s, 0) && past[j] == log[j];
    var v :| 0 <= v < |log[..j]| && Opens(log[..j][v].body, s);
    assert log[v] == log[..j][v] == past[v];
    forall i | v < i < |past| ensures !Opens(past[i].body, s) {
      assert past[i] == log[i];
    }
    assert LastOpen(past, s, v) && AllAfter(at, v);
  }

  // ---- a step that is come to ------------------------------------------------

  /** An initial step that is an OnBreach target too was asked for approval and rejected. */
  lemma RejectedFirst(def: WorkflowDef) returns (m: Moment)
    requires Schedulable(def, def.initial) && KindOf(def, def.initial) == Approval && !AsksNobody(def, def.initial)
    ensures Reaches(def, START, m) && Running(def, m.sys.log) && Breached(m.sys.log) == {}
    ensures !StepActive(Replay(def, m.sys.log), def.initial)
  {
    hide Reaches, At, Worked, Running, Replay, StepActive, MayDecide, Schedulable, Before, StackAt, NameOn, LinkIs;
    var s, who := def.initial, RejectsAs(def);
    var m1 := Begins(def);
    var m2 := AsksFor(def, m1, 0, s);
    var l, q, op := m2.sys.log, m2.sys.queue, Reject(s, who, "");
    var e := Event(1, ApprovalRejected(s, 0, who, ""));
    RejectedState(def, who);
    StillRunning(def, l, e);
    var t := Idle(m2);
    assert MayBegin(l, q, op);
    var m3 := Spawned(def, m2, t, op);
    AtStart(def, m3.now, l, q, [op] + []);
    OnReject(def, m3.now, ConfigOf(m3.sys, t), l, q, s, who, "", []);
    OnAppendRejected(def, m3.now, ConfigOf(m3.sys, t), l, q, s, 0, who, "", []);
    m := CameTo(def, m3, t, l + [e], q, [FailRejected(s, "")] + []);
    JustReaches(def, m1, m2, 0);
    ReachesOn(def, START, m1, m2);
    JustReaches(def, m2, m3, t);
    ReachesOn(def, START, m2, m3);
    JustReaches(def, m3, m, t);
    ReachesOn(def, START, m3, m);
  }

  function RejectsAs(def: WorkflowDef): string
    requires !AsksNobody(def, def.initial)
  {
    NameOn(ChainOf(def, def.initial)[0])
  }

  lemma RejectedState(def: WorkflowDef, who: string)
    requires KindOf(def, def.initial) == Approval && !AsksNobody(def, def.initial) && who == RejectsAs(def)
    ensures var s := def.initial;
            var l := Reaching.Born(def) + [Event(1, FirstRequest(def, s))];
            var l' := l + [Event(1, ApprovalRejected(s, 0, who, ""))];
            && l != [] && MayDecide(Replay(def, l), s, who) && Replay(def, l).steps[s].approval.value.index == 0
            && Breached(l') == {} && !StepActive(Replay(def, l'), s)
  {
    Idempotence.ApprovalStates(def, who);
  }

  /** What a run can come to other than by beginning there, two threads come to at once. */
  lemma ComeTwice(def: WorkflowDef, s: StepName) returns (m: Moment, t: nat, u: nat)
    requires Comes(def, s) && KindOf(def, s) == Approval && !AsksNobody(def, s) && Schedulable(def, s)
    ensures Reaches(def, START, m) && Running(def, m.sys.log) && t != u && Before(m, t, s) && Before(m, u, s)
  {
    hide Reaches, Running, Before, Hop, Replay, StepActive, AsksNobody;
    if a :| Inside(def, a) && Hop(def, a, s) {
      var p :| Trail(def, p) && p[|p| - 1] == a;
      var m1, v := Arrives(def, p);
      m, t, u := GoesOn(def, m1, v, a, s);
      ReachesOn(def, START, m1, m);
    } else {
      var i := TargetIndex(def, s);
      var m1: Moment;
      if s == def.initial {
        m1 := RejectedFirst(def);
      } else {
        m1 := Begins(def);
        Unborn(def, s);
      }
      m, t, u := TargetComes(def, m1, i);
      ReachesOn(def, START, m1, m);
    }
  }

  // ---- exactly when a step is asked ------------------------------------------

  lemma ReachesMoves(def: WorkflowDef, m: Moment) returns (ms: seq<Move>)
    requires Reaches(def, START, m)
    ensures Onward(ms) && StepAll(def, NEW_RUN, ms) == m.sys
  {
    ms :| Onward(ms) && Within(ms, START.now, m.now) && StepAll(def, START.sys, ms) == m.sys;
  }

  lemma ApprovalSchedulable(def: WorkflowDef, s: StepName)
    requires KindOf(def, s) == Approval
    ensures Schedulable(def, s) <==> ChainOf(def, s) != []
  {
  }

  /** An approval step is asked in some run exactly when it has a chain and lies on a trail. */
  lemma AsksIff(def: WorkflowDef, s: StepName)
    requires KindOf(def, s) == Approval
    ensures Asks(def, s) <==> ChainOf(def, s) != [] && Inside(def, s)
  {
    ApprovalSchedulable(def, s);
    if Asks(def, s) { AskedInside(def, s); }
    if ChainOf(def, s) != [] && Inside(def, s) {
      hide Reaches, Running, Before, Inside, Trail, Schedulable;
      var m, t := InsideArrives(def, s);
      var m' := AsksFor(def, m, t, s);
      JustReaches(def, m, m', t);
      ReachesOn(def, START, m, m');
      var ms := ReachesMoves(def, m');
      LinkAsks(def, s, ms);
    }
  }

  lemma InsideArrives(def: WorkflowDef, s: StepName) returns (m: Moment, t: nat)
    requires Inside(def, s)
    ensures Reaches(def, START, m) && Before(m, t, s) && Running(def, m.sys.log)
  {
    hide Reaches, Before, Running;
    var p :| Trail(def, p) && p[|p| - 1] == s;
    m, t := Arrives(def, p);
  }

  lemma LinkAsks(def: WorkflowDef, s: StepName, ms: seq<Move>)
    requires LinkIs(def, Replay(def, StepAll(def, NEW_RUN, ms).log), s, 0, LinkPending)
    ensures Asks(def, s)
  {
  }

  lemma AskedInside(def: WorkflowDef, s: StepName)
    requires Asks(def, s) && KindOf(def, s) == Approval
    ensures ChainOf(def, s) != [] && Inside(def, s)
  {
    var ms: seq<Move> :| ApprovalIn(Replay(def, StepAll(def, NEW_RUN, ms).log), s).Some?;
    var log := StepAll(def, NEW_RUN, ms).log;
    Trails.AlwaysInside(def, ms);
    Provenance.KnownIsReplayed(def, log);
    if ChainOf(def, s) == [] {
      OnlyFirst(def, s, ms);
      Approvals.AlwaysOk(def, s, ms);
    }
  }

  /** An approval step whose first link asks somebody is asked twice in some run exactly when a run can come to it other
      than by beginning there. */
  lemma AsksTwiceIff(def: WorkflowDef, s: StepName)
    requires KindOf(def, s) == Approval && !AsksNobody(def, s)
    ensures AsksTwice(def, s) <==> Comes(def, s)
  {
    ApprovalSchedulable(def, s);
    if ms: seq<Move> :| Twice(StepAll(def, NEW_RUN, ms).log, s) {
      if !Comes(def, s) { AskedOnce(def, s, ms); }
    }
    if Comes(def, s) {
      hide Reaches, Running, Before, Comes, Schedulable, AsksNobody, Twice, StackAt;
      var m, t, u := ComeTwice(def, s);
      var m1 := AsksFor(def, m, t, s);
      BothBefore(m, m1, u, s);
      var m2 := AsksFor(def, m1, u, s);
      JustReaches(def, m, m1, t);
      JustReaches(def, m1, m2, u);
      ReachesOn(def, START, m, m1);
      ReachesOn(def, START, m1, m2);
      TwiceOpened(def, s, m.sys.log, m1.sys.log, m2.sys.log, m.now, m1.now);
      var ms := ReachesMoves(def, m2);
    }
  }

  lemma TwiceOpened(def: WorkflowDef, s: StepName, l: Log, l1: Log, l2: Log, now: Time, now1: Time)
    requires ChainOf(def, s) != [] && l1 == l + [Event(now, FirstRequest(def, s))]
    requires l2 == l1 + [Event(now1, FirstRequest(def, s))]
    ensures Twice(l2, s)
  {
    assert Opens(l2[|l|].body, s) && Opens(l2[|l1|].body, s);
  }

  // ---- the unsafe steps ------------------------------------------------------

  ghost predicate Broken(def: WorkflowDef, s: StepName) {
    exists ms: seq<Move> :: Onward(ms) && !EachRound(def, s, StepAll(def, NEW_RUN, ms).log)
  }

  lemma Breaks(def: WorkflowDef, s: StepName, m: Moment)
    requires Reaches(def, START, m) && !EachRound(def, s, m.sys.log)
    ensures Broken(def, s)
  {
    hide EachRound;
    var ms := ReachesMoves(def, m);
  }

  /** Since s was asked last, at position n, only its first link was granted. */
  lemma OneLinkGranted(def: WorkflowDef, s: StepName, l: Log, n: nat)
    requires n < |l| && Opens(l[n].body, s) && OnlyLink(l, s, 0, n) && |ChainOf(def, s)| > 1
    ensures !GrantedInRound(def, l, s, |ChainOf(def, s)|)
  {
    hide Authorized;
    forall v: nat, at: seq<nat> | LastOpen(l, s, v) && |at| == |ChainOf(def, s)| && GrantsAt(def, l, s, at)
      ensures !AllAfter(at, v)
    {
      assert v >= n && IsGrant(def, l[at[1]], s, 1);
    }
  }

  /** Several links: once asked, threads that all checked the first link complete the round. */
  lemma ManyLinksBreak(def: WorkflowDef, s: StepName)
    requires KindOf(def, s) == Approval && Inside(def, s) && !AsksNobody(def, s) && |ChainOf(def, s)| > 1
    ensures Broken(def, s)
  {
    hide Reaches, Running, Before, Inside, Schedulable, AsksNobody, LinkIs, Authorized, EachRound, GrantedInRound,
         OnlyLink, Replay, StackAt;
    var who := Somebody(def, s);
    ApprovalSchedulable(def, s);
    var m, t := InsideArrives(def, s);
    var m1 := AsksFor(def, m, t, s);
    JustReaches(def, m, m1, t);
    ReachesOn(def, START, m, m1);
    RoundBypassed(def, s, m.sys.log, m1, m.now, who);
  }

  lemma RoundBypassed(def: WorkflowDef, s: StepName, l: Log, m: Moment, now: Time, who: string)
    requires |ChainOf(def, s)| > 1 && Authorized(ChainOf(def, s), 0, who) && Reaches(def, START, m)
    requires m.sys.log == l + [Event(now, FirstRequest(def, s))]
    requires LinkIs(def, Replay(def, m.sys.log), s, 0, LinkPending)
    ensures Broken(def, s)
  {
    hide Reaches, LinkIs, Authorized, EachRound, GrantedInRound, OnlyLink, Replay;
    var m' := Bypass(def, m, s, 0, who);
    ReachesOn(def, START, m, m');
    FirstLinkOnly(def, s, l, m.sys.log, m'.sys.log, now);
    NotEachRound(def, s, m'.sys.log);
    Breaks(def, s, m');
  }

  lemma FirstLinkOnly(def: WorkflowDef, s: StepName, l: Log, l1: Log, l2: Log, now: Time)
    requires |ChainOf(def, s)| > 1 && l1 == l + [Event(now, FirstRequest(def, s))] && l1 < l2
    requires OnlyLink(l2, s, 0, |l1|)
    ensures !GrantedInRound(def, l2[..|l2| - 1], s, |ChainOf(def, s)|)
  {
    var past := l2[..|l2| - 1];
    assert past[|l|] == l2[|l|] == l1[|l|];
    assert forall k :: 0 <= k < |past| ==> past[k] == l2[k];
    OneLinkGranted(def, s, past, |l|);
  }

  /** One link, and two threads before the step: one asks, a third grants and takes its snapshot, the other asks again,
      and the snapshot completes the new round. */
  lemma OneLinkBreaks(def: WorkflowDef, s: StepName)
    requires KindOf(def, s) == Approval && Comes(def, s) && !AsksNobody(def, s) && |ChainOf(def, s)| == 1
    ensures Broken(def, s)
  {
    ApprovalSchedulable(def, s);
    hide Reaches, Running, Before, Comes, Schedulable, AsksNobody, LinkIs, Authorized, EachRound, GrantedInRound,
         Replay, StackAt;
    var m, t, u := ComeTwice(def, s);
    var m1 := AsksFor(def, m, t, s);
    JustReaches(def, m, m1, t);
    ReachesOn(def, START, m, m1);
    BothBefore(m, m1, u, s);
    var m2, v := Snapshot(def, m1, s, u);
    ReachesOn(def, START, m1, m2);
    var run := Replay(def, m2.sys.log);
    var m3 := AsksFor(def, m2, u, s);
    JustReaches(def, m2, m3, u);
    ReachesOn(def, START, m2, m3);
    var m4 := Completed(def, m3, v, run, s, 0, [DispatchAfter(run)] + []);
    JustReaches(def, m3, m4, v);
    ReachesOn(def, START, m3, m4);
    OpenedLast(def, s, m2.sys.log, m3.sys.log, m2.now);
    assert m4.sys.log[..|m4.sys.log| - 1] == m3.sys.log;
    NotEachRound(def, s, m4.sys.log);
    Breaks(def, s, m4);
  }

  lemma OpenedLast(def: WorkflowDef, s: StepName, l: Log, l1: Log, now: Time)
    requires |ChainOf(def, s)| == 1 && l1 == l + [Event(now, FirstRequest(def, s))]
    ensures !GrantedInRound(def, l1, s, |ChainOf(def, s)|)
  {
    NoneInRound(def, s, l1, l1);
  }

  /** A new thread grants the only link and holds the snapshot from after that; the thread u waits. */
  lemma Snapshot(def: WorkflowDef, m: Moment, s: StepName, u: nat) returns (m': Moment, v: nat)
    requires Running(def, m.sys.log) && !AsksNobody(def, s) && |ChainOf(def, s)| == 1 && Before(m, u, s)
    requires LinkIs(def, Replay(def, m.sys.log), s, 0, LinkPending)
    ensures Reaches(def, m, m') && Running(def, m'.sys.log) && Before(m', u, s) && u != v
    ensures var run := Replay(def, m'.sys.log);
            && LinkIs(def, run, s, 0, LinkGranted)
            && StackAt(m'.sys, v) == [AdvanceApproval(run, s)] + ([DispatchAfter(run)] + [])
  {
    hide Reaches, Running, AsksNobody, Authorized, Replay, StackAt;
    var who := Somebody(def, s);
    var l, e := m.sys.log, Event(m.now, ApprovalGranted(s, 0, who));
    StillRunning(def, l, e);
    Plain(def, l, s, who);
    v := Idle(m);
    var m1 := Checked(def, m, v, s, 0, who);
    m' := GrantRuns(def, m1, v, s, 0, 0, who);
    ReachesOn(def, m, m1, m');
  }

  // ---- the exact condition ---------------------------------------------------

  /** Exactly the definitions in which every round of the step takes its own grants, however the threads interleave. */
  lemma EachRoundIff(def: WorkflowDef, s: StepName)
    requires KindOf(def, s) == Approval
    ensures AlwaysEachRound(def, s) <==>
              AsksNobody(def, s) || !Inside(def, s) || (|ChainOf(def, s)| == 1 && !Comes(def, s))
    ensures OnwardEachRound(def, s) <==> AlwaysEachRound(def, s)
  {
    hide EachRound, Asks, Inside, Comes;
    AsksIff(def, s);
    if AsksNobody(def, s) || !Inside(def, s) || (|ChainOf(def, s)| == 1 && !Comes(def, s)) {
      forall ms: seq<Move> ensures EachRound(def, s, StepAll(def, NEW_RUN, ms).log) {
        if AsksNobody(def, s) || !Asks(def, s) {
          NeverCompleted(def, s, ms);
        } else {
          AskedOnce(def, s, ms);
          OnlyRound(def, s, ms);
        }
      }
    } else {
      if |ChainOf(def, s)| == 1 { OneLinkBreaks(def, s); } else { ManyLinksBreak(def, s); }
      var ms: seq<Move> :| Onward(ms) && !EachRound(def, s, StepAll(def, NEW_RUN, ms).log);
      Counterexample(def, s, ms);
    }
  }

  lemma Counterexample(def: WorkflowDef, s: StepName, ms: seq<Move>)
    requires Onward(ms) && !EachRound(def, s, StepAll(def, NEW_RUN, ms).log)
    ensures !AlwaysEachRound(def, s) && !OnwardEachRound(def, s)
  {
    hide EachRound;
    var log := StepAll(def, NEW_RUN, ms).log;
    assert !EachRound(def, s, log) && log == StepAll(def, NEW_RUN, ms).log;
  }

  /** The same condition by what the runs ask. */
  lemma EachRoundIffAsked(def: WorkflowDef, s: StepName)
    requires KindOf(def, s) == Approval
    ensures AlwaysEachRound(def, s) <==>
              AsksNobody(def, s) || !Asks(def, s) || (|ChainOf(def, s)| == 1 && !AsksTwice(def, s))
  {
    hide AlwaysEachRound, OnwardEachRound, Asks, AsksTwice, Inside, Comes;
    EachRoundIff(def, s);
    AsksIff(def, s);
    if !AsksNobody(def, s) { AsksTwiceIff(def, s); }
  }

  /** For a first step with a chain: nobody is asked, or the chain has one link and no trail comes back. */
  lemma InitialEachRoundIff(def: WorkflowDef)
    requires KindOf(def, def.initial) == Approval && ChainOf(def, def.initial) != []
    ensures AlwaysEachRound(def, def.initial) <==>
              AsksNobody(def, def.initial) || (|ChainOf(def, def.initial)| == 1 && !Comes(def, def.initial))
  {
    hide AlwaysEachRound, OnwardEachRound, Inside, Comes;
    EachRoundIff(def, def.initial);
    InsideIff(def, def.initial);
  }

  /** The weaker property, that chains are respected, has its condition on the definition, too. */
  lemma RespectedOnTrailsIff(def: WorkflowDef, s: StepName)
    requires KindOf(def, s) == Approval
    ensures AlwaysRespected(def, s) <==> |ChainOf(def, s)| <= 1 || AsksNobody(def, s) || !Inside(def, s)
  {
    hide AlwaysRespected, Asks, Inside;
    RespectedIff(def, s);
    AsksIff(def, s);
  }

  /** For a first step with a chain: it has one link, or its first link names nobody. */
  lemma InitialRespectedIff(def: WorkflowDef)
    requires KindOf(def, def.initial) == Approval && ChainOf(def, def.initial) != []
    ensures AlwaysRespected(def, def.initial) <==> |ChainOf(def, def.initial)| == 1 || AsksNobody(def, def.initial)
  {
    hide AlwaysRespected, Inside;
    RespectedOnTrailsIff(def, def.initial);
    InsideIff(def, def.initial);
  }

  /** A workflow that starts with an approval of one link and comes back to it: its chain is always respected, and yet a
      round is completed without a grant of its own. */
  lemma StaleRound(def: WorkflowDef) returns (ms: seq<Move>)
    requires KindOf(def, def.initial) == Approval && |ChainOf(def, def.initial)| == 1 && !AsksNobody(def, def.initial)
    requires SuccessorOf(def, def.initial, true) == def.initial != ""
    ensures AlwaysRespected(def, def.initial)
    ensures Onward(ms) && !EachRound(def, def.initial, StepAll(def, NEW_RUN, ms).log)
  {
    hide AlwaysRespected, EachRound;
    InitialRespectedIff(def);
    RootInside(def, def.initial);
    assert Hop(def, def.initial, def.initial);
    OneLinkBreaks(def, def.initial);
    ms :| Onward(ms) && !EachRound(def, def.initial, StepAll(def, NEW_RUN, ms).log);
  }
}
