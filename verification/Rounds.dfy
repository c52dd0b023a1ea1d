/** Approval chains, round by round: each time a step is asked for approval again, its whole chain is granted again
    before it completes (engine/engine.go:519-535, 597-617, 644-675). That holds of atomic operations without
    escalations; an activation that advances an old snapshot of the step breaks it. */
module Rounds {
  import opened Model
  import opened Replaying
  import opened Machine
  import opened Approvals
  import opened ApprovalRace
  import Atomic
  import Token

  function RoundAfter(def: WorkflowDef, s: StepName, r: Option<nat>, b: Body): Option<nat> {
    if Opens(b, s) then Some(0)
    else if r.Some? then Some(Mark(def, s, r.value, b))
    else None
  }

  /** How many links were granted in the current round, in order and by authorised callers; nothing before the first. */
  function RoundOf(def: WorkflowDef, log: Log, s: StepName): Option<nat> {
    if log == [] then None else RoundAfter(def, s, RoundOf(def, log[..|log| - 1], s), log[|log| - 1].body)
  }

  predicate LastOpen(log: Log, s: StepName, v: nat) {
    v < |log| && Opens(log[v].body, s) && forall k :: v < k < |log| ==> !Opens(log[k].body, s)
  }

  predicate AllAfter(at: seq<nat>, v: nat) {
    forall i :: 0 <= i < |at| ==> v < at[i]
  }

  /** Grants of links 0, 1, ..., m - 1 of step s, in that order, each by an authorised caller, all after the last
      request of the first link. */
  ghost predicate GrantedInRound(def: WorkflowDef, log: Log, s: StepName, m: nat) {
    exists v: nat, at: seq<nat> :: LastOpen(log, s, v) && |at| == m && GrantsAt(def, log, s, at) && AllAfter(at, v)
  }

  lemma {:induction false} RoundMeans(def: WorkflowDef, log: Log, s: StepName)
    ensures RoundOf(def, log, s).Some? ==> GrantedInRound(def, log, s, RoundOf(def, log, s).value)
    decreases |log|
  {
    if log != [] && RoundOf(def, log, s).Some? {
      var n := |log| - 1;
      RoundMeans(def, log[..n], s);
      if Opens(log[n].body, s) {
        var none: seq<nat> := [];
        assert LastOpen(log, s, n) && GrantsAt(def, log, s, none) && AllAfter(none, n);
      } else {
        RoundGoesOn(def, log, s, RoundOf(def, log[..n], s).value);
      }
    }
  }

  lemma RoundGoesOn(def: WorkflowDef, log: Log, s: StepName, m: nat)
    requires log != [] && GrantedInRound(def, log[..|log| - 1], s, m) && !Opens(log[|log| - 1].body, s)
    ensures GrantedInRound(def, log, s, Mark(def, s, m, log[|log| - 1].body))
  {
    hide Authorized;
    var n := |log| - 1;
    var past := log[..n];
    var v: nat, at: seq<nat> :| LastOpen(past, s, v) && |at| == m && GrantsAt(def, past, s, at) && AllAfter(at, v);
    GrantsKept(def, log, s, at, n);
    forall k | 0 <= k < n ensures past[k] == log[k] { }
    assert LastOpen(log, s, v);
    if Mark(def, s, m, log[n].body) != m {
      var more: seq<nat> := at + [n];
      assert GrantsAt(def, log, s, more) && AllAfter(more, v);
    }
  }

  // ---- atomic operations -------------------------------------------------

  /** The replayed link is backed by grants of the current round. */
  predicate RoundBacked(def: WorkflowDef, s: StepName, r: Option<nat>, cur: RunState) {
    var a := ApprovalIn(cur, s);
    a.Some? ==>
      && a.value.chain == ChainOf(def, s) && r.Some?
      && (if a.value.status == LinkGranted then a.value.index + 1 else a.value.index) <= r.value
  }

  predicate Completes(f: Frame, s: StepName) {
    f.CompleteStep? && f.step == s
  }

  /** What the frame on top, and no other, may do. */
  predicate TopOk(def: WorkflowDef, s: StepName, r: Option<nat>, f: Frame) {
    Completes(f, s) ==> r.Some? && |ChainOf(def, s)| <= r.value
  }

  predicate StackOk(def: WorkflowDef, s: StepName, r: Option<nat>, stack: seq<Frame>) {
    (stack != [] ==> TopOk(def, s, r, stack[0])) && forall k :: 1 <= k < |stack| ==> !Completes(stack[k], s)
  }

  /** What may be appended to a log whose replay is `cur`. */
  predicate Sits(def: WorkflowDef, s: StepName, r: Option<nat>, cur: RunState, b: Body) {
    StepOf(b) == Some(s) ==>
      && (b.ApprovalRequested? ==> b.index == 0 || (r.Some? && b.index <= r.value))
      && (b.ApprovalGranted? ==>
            ApprovalIn(cur, s).Some? && ApprovalIn(cur, s).value.index == b.index
            && Authorized(ChainOf(def, s), b.index, b.who))
      && (b.StepCompleted? ==> r.Some? && |ChainOf(def, s)| <= r.value)
  }

  lemma SitsReplay(def: WorkflowDef, s: StepName, r: Option<nat>, cur: RunState, e: Event)
    requires RoundBacked(def, s, r, cur) && Sits(def, s, r, cur, e.body)
    ensures RoundBacked(def, s, RoundAfter(def, s, r, e.body), Apply(def, cur, e))
  {
  }

  /** What is known of the frame on top: the single token, and a grant that is fresh and authorised. */
  predicate Knows(def: WorkflowDef, s: StepName, tok: Option<StepName>, cur: RunState, f: Frame) {
    && Token.Holds(def, tok, cur.steps, f)
    && Approvals.Fresh(cur, f)
    && (f.Grant? && f.step == s ==> Authorized(ChainOf(def, s), f.index, f.who))
  }

  predicate Good(def: WorkflowDef, s: StepName, r: Option<nat>, cur: RunState, a: Action) {
    && |a.emit| <= 1
    && (a.emit != [] ==> Sits(def, s, r, cur, a.emit[0].body))
    && (a.emit == [] ==> StackOk(def, s, r, a.push))
    && (a.emit != [] ==> forall k :: 0 <= k < |a.push| ==> !Completes(a.push[k], s))
  }

  lemma EntryGood(def: WorkflowDef, i: Input, log: Log, s: StepName, r: Option<nat>, cur: RunState, f: Frame)
    requires EntryFrame(f)
    ensures Good(def, s, r, cur, ActEntry(def, i, log, cur, f))
  {
  }

  lemma ScheduleGood(def: WorkflowDef, i: Input, s: StepName, r: Option<nat>, cur: RunState, f: Frame)
    requires ScheduleFrame(f) || f.SlaLoop?
    ensures Good(def, s, r, cur, if f.SlaLoop? then ActSla(def, i, f) else ActSchedule(def, i, f))
  {
  }

  lemma ScanGood(def: WorkflowDef, i: Input, s: StepName, r: Option<nat>, cur: RunState, f: Frame)
    requires ScanFrame(f)
    ensures Good(def, s, r, cur, ActScan(i, f))
  {
  }

  lemma AdvanceGood(def: WorkflowDef, i: Input, s: StepName, r: Option<nat>, tok: Option<StepName>, cur: RunState,
        f: Frame)
    requires AdvanceFrame(f) && KindOf(def, s) == Approval && Knows(def, s, tok, cur, f)
    requires RoundBacked(def, s, r, cur) && TopOk(def, s, r, f)
    ensures Good(def, s, r, cur, ActAdvance(def, i, f))
  {
  }

  lemma TaskGood(def: WorkflowDef, i: Input, log: Log, s: StepName, r: Option<nat>, tok: Option<StepName>,
        cur: RunState, f: Frame)
    requires TaskFrame(f) && KindOf(def, s) == Approval && Knows(def, s, tok, cur, f)
    ensures Good(def, s, r, cur, ActTask(def, i, log, cur, f))
  {
  }

  lemma HumanGood(def: WorkflowDef, i: Input, log: Log, s: StepName, r: Option<nat>, tok: Option<StepName>,
        cur: RunState, f: Frame)
    requires HumanFrame(f) && Knows(def, s, tok, cur, f)
    ensures Good(def, s, r, cur, ActHuman(def, i, log, cur, f))
  {
  }

  lemma ActGood(def: WorkflowDef, i: Input, log: Log, s: StepName, r: Option<nat>, tok: Option<StepName>, cur: RunState,
        f: Frame)
    requires KindOf(def, s) == Approval && Knows(def, s, tok, cur, f)
    requires RoundBacked(def, s, r, cur) && TopOk(def, s, r, f)
    ensures Good(def, s, r, cur, Act(def, i, log, cur, f))
  {
    hide Good, Knows, RoundBacked, TopOk, ActEntry, ActSla, ActSchedule, ActScan, ActAdvance, ActTask, ActHuman;
    if EntryFrame(f) { EntryGood(def, i, log, s, r, cur, f); }
    else if f.SlaLoop? || ScheduleFrame(f) { ScheduleGood(def, i, s, r, cur, f); }
    else if ScanFrame(f) { ScanGood(def, i, s, r, cur, f); }
    else if AdvanceFrame(f) { AdvanceGood(def, i, s, r, tok, cur, f); }
    else if TaskFrame(f) { TaskGood(def, i, log, s, r, tok, cur, f); }
    else { HumanGood(def, i, log, s, r, tok, cur, f); }
  }

  // ---- every run ---------------------------------------------------------

  ghost predicate Counted(def: WorkflowDef, s: StepName, log: Log) {
    forall k :: 0 <= k < |log| && log[k].body.StepCompleted? && log[k].body.step == s ==>
      RoundOf(def, log[..k], s).Some? && |ChainOf(def, s)| <= RoundOf(def, log[..k], s).value
  }

  ghost predicate RunOk(def: WorkflowDef, s: StepName, c: Config) {
    var r := RoundOf(def, c.log, s);
    RoundBacked(def, s, r, Replay(def, c.log)) && StackOk(def, s, r, c.stack) && Counted(def, s, c.log)
  }

  lemma LogAfter(def: WorkflowDef, s: StepName, log: Log, e: Event)
    requires var r := RoundOf(def, log, s);
             RoundBacked(def, s, r, Replay(def, log)) && Sits(def, s, r, Replay(def, log), e.body)
    requires Counted(def, s, log)
    ensures var l := log + [e];
            && RoundOf(def, l, s) == RoundAfter(def, s, RoundOf(def, log, s), e.body)
            && RoundBacked(def, s, RoundOf(def, l, s), Replay(def, l)) && Counted(def, s, l)
  {
    hide RoundBacked, Sits, Counted, RoundAfter, Replay, Apply;
    RoundAppend(def, s, log, e);
    ReplayAppend(def, log, e);
    SitsReplay(def, s, RoundOf(def, log, s), Replay(def, log), e);
    if e.body.StepCompleted? && e.body.step == s {
      SitsCounts(def, s, RoundOf(def, log, s), Replay(def, log), e.body);
    }
    CountedAppend(def, s, log, e);
  }

  lemma RoundAppend(def: WorkflowDef, s: StepName, log: Log, e: Event)
    ensures RoundOf(def, log + [e], s) == RoundAfter(def, s, RoundOf(def, log, s), e.body)
  {
    assert (log + [e])[..|log|] == log;
  }

  lemma SitsCounts(def: WorkflowDef, s: StepName, r: Option<nat>, cur: RunState, b: Body)
    requires Sits(def, s, r, cur, b) && b.StepCompleted? && b.step == s
    ensures r.Some? && |ChainOf(def, s)| <= r.value
  {
  }

  lemma CountedAppend(def: WorkflowDef, s: StepName, log: Log, e: Event)
    requires Counted(def, s, log)
    requires var r := RoundOf(def, log, s);
             e.body.StepCompleted? && e.body.step == s ==> r.Some? && |ChainOf(def, s)| <= r.value
    ensures Counted(def, s, log + [e])
  {
    hide RoundOf;
    var l := log + [e];
    forall k | 0 <= k < |l| && l[k].body.StepCompleted? && l[k].body.step == s
      ensures RoundOf(def, l[..k], s).Some? && |ChainOf(def, s)| <= RoundOf(def, l[..k], s).value
    {
      if k < |log| { assert l[..k] == log[..k]; } else { assert l[..k] == log; }
    }
  }

  lemma WorkKeeps(def: WorkflowDef, s: StepName, tok: Option<StepName>, c: Config, i: Input)
    requires KindOf(def, s) == Approval && RunOk(def, s, c)
    requires c.stack != [] && Knows(def, s, tok, Replay(def, c.log), c.stack[0])
    ensures RunOk(def, s, Next(def, i, c))
  {
    var cur, r := Replay(def, c.log), RoundOf(def, c.log, s);
    var a := Act(def, i, c.log, cur, c.stack[0]);
    ActGood(def, i, c.log, s, r, tok, cur, c.stack[0]);
    hide Act, RoundBacked, Knows, Counted, StackOk, Replay, Completes;
    if a.emit == [] {
      assert c.log + a.emit == c.log;
      StackAfter(def, s, r, r, c.stack, a.push);
    } else {
      assert c.log + a.emit == c.log + [a.emit[0]];
      LogAfter(def, s, c.log, a.emit[0]);
      NoneCompletes(def, s, RoundOf(def, c.log + a.emit, s), a.push);
      StackAfter(def, s, r, RoundOf(def, c.log + a.emit, s), c.stack, a.push);
    }
  }

  lemma NoneCompletes(def: WorkflowDef, s: StepName, r: Option<nat>, push: seq<Frame>)
    requires forall k :: 0 <= k < |push| ==> !Completes(push[k], s)
    ensures StackOk(def, s, r, push)
  {
  }

  lemma StackAfter(def: WorkflowDef, s: StepName, r: Option<nat>, r': Option<nat>, stack: seq<Frame>, push: seq<Frame>)
    requires stack != [] && StackOk(def, s, r, stack) && StackOk(def, s, r', push)
    ensures StackOk(def, s, r', push + stack[1..])
  {
    var s' := push + stack[1..];
    forall k | |push| <= k < |s'| ensures !Completes(s'[k], s) { assert s'[k] == stack[k - |push| + 1]; }
  }

  lemma TopKnows(def: WorkflowDef, s: StepName, ds: seq<Deed>)
    requires Token.NoEscalation(def) && Token.AllOrderly(def, ds) && DoAll(def, IDLE, ds).stack != []
    ensures var c := DoAll(def, IDLE, ds);
            Knows(def, s, Token.TokenOf(c.log), Replay(def, c.log), c.stack[0])
  {
    hide Token.Holds, Token.Sound, Token.Only, Token.Walked, Token.BelowOk, Approvals.Fresh, Authorized;
    Token.AlwaysOk(def, ds);
    Atomic.Embeds(def, ds);
    var c, sys := DoAll(def, IDLE, ds), StepAll(def, NEW_RUN, Atomic.Shadows(def, ds));
    if c.stack[0].Grant? {
      AtomicFits(def, s, Atomic.Shadows(def, ds));
      Approvals.AlwaysOk(def, s, Atomic.Shadows(def, ds));
      TopGrant(def, s, c, sys);
    } else {
      NoGrant(Replay(def, c.log), c.stack[0]);
    }
  }

  lemma NoGrant(cur: RunState, f: Frame)
    requires !f.Grant?
    ensures Approvals.Fresh(cur, f)
  {
  }

  lemma TopGrant(def: WorkflowDef, s: StepName, c: Config, sys: Sys)
    requires Atomic.Mirrors(def, c, sys) && SysOk(def, s, sys) && c.stack != [] && c.stack[0].Grant?
    ensures Approvals.Fresh(Replay(def, c.log), c.stack[0])
    ensures c.stack[0].step == s ==> Authorized(ChainOf(def, s), c.stack[0].index, c.stack[0].who)
  {
    assert c.log != [];
    Atomic.MirrorsStack(def, c, sys);
    assert FrameOk(def, s, ProgressOf(def, sys.log, s), sys.threads[0][0]);
  }

  lemma DoKeeps(def: WorkflowDef, s: StepName, ds: seq<Deed>, d: Deed)
    requires Token.NoEscalation(def) && Token.AllOrderly(def, ds) && KindOf(def, s) == Approval
    requires RunOk(def, s, DoAll(def, IDLE, ds))
    ensures RunOk(def, s, Do(def, DoAll(def, IDLE, ds), d))
  {
    var c := DoAll(def, IDLE, ds);
    hide Act, RoundBacked, Counted, Knows, DoAll;
    if d.Work? && c.stack != [] {
      TopKnows(def, s, ds);
      WorkKeeps(def, s, Token.TokenOf(c.log), c, d.input);
    }
  }

  lemma {:induction false} AlwaysOk(def: WorkflowDef, s: StepName, ds: seq<Deed>)
    requires Token.NoEscalation(def) && Token.AllOrderly(def, ds) && KindOf(def, s) == Approval
    ensures RunOk(def, s, DoAll(def, IDLE, ds))
    decreases |ds|
  {
    hide Do, RunOk, Token.Orderly;
    if ds == [] {
      NothingOk(def, s);
    } else {
      var n := |ds| - 1;
      assert forall k :: 0 <= k < n ==> ds[..n][..k] == ds[..k] && ds[..n][k] == ds[k];
      AlwaysOk(def, s, ds[..n]);
      DoKeeps(def, s, ds[..n], ds[n]);
    }
  }

  lemma NothingOk(def: WorkflowDef, s: StepName)
    ensures RunOk(def, s, IDLE)
  {
  }

  /** Each completion of s in this log comes after grants of its whole chain since the step was last asked for
      approval. */
  ghost predicate EachRound(def: WorkflowDef, s: StepName, log: Log) {
    forall k :: 0 <= k < |log| && log[k].body.StepCompleted? && log[k].body.step == s ==>
      GrantedInRound(def, log[..k], s, |ChainOf(def, s)|)
  }

  /** A completion without grants of its round breaks the property. */
  lemma NotEachRound(def: WorkflowDef, s: StepName, log: Log)
    requires log != [] && log[|log| - 1].body == StepCompleted(s, map[])
    requires !GrantedInRound(def, log[..|log| - 1], s, |ChainOf(def, s)|)
    ensures !EachRound(def, s, log)
  {
    assert log[|log| - 1].body.StepCompleted?;
  }

  /** Nothing was granted since the last request, with which `past` ends. */
  lemma NoneInRound(def: WorkflowDef, s: StepName, past: Log, log: Log)
    requires past != [] && Opens(past[|past| - 1].body, s) && past <= log && ChainOf(def, s) != []
    requires forall k :: |past| <= k < |log| && log[k].body.ApprovalGranted? ==> log[k].body.step != s
    ensures !GrantedInRound(def, log, s, |ChainOf(def, s)|)
  {
    hide Authorized;
    forall v: nat, at: seq<nat> | LastOpen(log, s, v) && |at| == |ChainOf(def, s)| && GrantsAt(def, log, s, at)
      ensures !AllAfter(at, v)
    {
      assert log[|past| - 1] == past[|past| - 1];
      assert v >= |past| - 1 && IsGrant(def, log[at[0]], s, 0);
    }
  }

  /** Under atomic operations without escalations every round of an approval step takes its own grants. */
  lemma RoundsRespected(def: WorkflowDef, ds: seq<Deed>, s: StepName)
    requires Token.NoEscalation(def) && Token.AllOrderly(def, ds) && KindOf(def, s) == Approval
    ensures EachRound(def, s, DoAll(def, IDLE, ds).log)
  {
    var log := DoAll(def, IDLE, ds).log;
    AlwaysOk(def, s, ds);
    forall k | 0 <= k < |log| && log[k].body.StepCompleted? && log[k].body.step == s
      ensures GrantedInRound(def, log[..k], s, |ChainOf(def, s)|)
    {
      RoundMeans(def, log[..k], s);
      Fewer(def, log[..k], s, |ChainOf(def, s)|, RoundOf(def, log[..k], s).value);
    }
  }

  lemma Fewer(def: WorkflowDef, log: Log, s: StepName, n: nat, m: nat)
    requires n <= m && GrantedInRound(def, log, s, m)
    ensures GrantedInRound(def, log, s, n)
  {
    var v: nat, at: seq<nat> :| LastOpen(log, s, v) && |at| == m && GrantsAt(def, log, s, at) && AllAfter(at, v);
    assert GrantsAt(def, log, s, at[..n]) && AllAfter(at[..n], v);
  }
}
