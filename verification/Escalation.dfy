/** SLA flags under atomic operations (engine/sla.go): with distinct names, and an OnBreach step that can be jumped to
    only on the last SLA, each SLA is flagged at most once, however often the checks re-enter themselves. */
module Escalation {
  import opened Model
  import opened Replaying
  import opened Machine
  import opened Moves
  import opened InitialStep

  predicate IsFlag(b: Body, name: string) {
    b.SlaBreached? && b.sla == name
  }

  predicate FlaggedOnce(log: Log) {
    forall j, k :: 0 <= j < k < |log| && log[j].body.SlaBreached? ==> !IsFlag(log[k].body, log[j].body.sla)
  }

  predicate DistinctNames(def: WorkflowDef) {
    forall i, j :: 0 <= i < j < |def.slas| ==> def.slas[i].name != def.slas[j].name
  }

  /** Some run can jump to the step on a breach: it can be scheduled, and is not an initial step that stays active. */
  predicate CanJump(def: WorkflowDef, s: StepName) {
    s != "" && Schedulable(def, s) && (s == def.initial ==> CanRest(def, s))
  }

  predicate OnlyLastJumps(def: WorkflowDef) {
    forall i :: 0 <= i < |def.slas| - 1 ==> !CanJump(def, def.slas[i].onBreach)
  }

  /** The names of the first k SLAs. */
  function Names(def: WorkflowDef, k: nat): set<string> {
    set i | 0 <= i < |def.slas| && i < k :: def.slas[i].name
  }

  /** A jump that will come to nothing. */
  predicate Stalled(def: WorkflowDef, f: Frame) {
    || (f.JumpTo? && (!Schedulable(def, f.step) || StepActive(f.run, f.step)))
    || (f.ScheduleStep? && !Schedulable(def, f.step))
  }

  /** A loop on top, or under a jump that comes to nothing, has seen every flag there is, or passed its SLA; any other
      loop is at its end. */
  predicate LoopOk(def: WorkflowDef, flags: set<string>, stack: seq<Frame>, k: nat)
    requires k < |stack|
  {
    var f := stack[k];
    f.SlaLoop? ==>
      && (f.run.status == RActive || f.run.status == RWaiting)
      && (f.k < |def.slas| ==> (k == 0 || (k == 1 && Stalled(def, stack[0]))) && flags <= f.breached + Names(def, f.k))
  }

  predicate LoopsOk(def: WorkflowDef, flags: set<string>, stack: seq<Frame>) {
    forall k :: 0 <= k < |stack| ==> LoopOk(def, flags, stack, k)
  }

  function FlagsAfter(flags: set<string>, a: Action): set<string> {
    if a.emit != [] && a.emit[0].body.SlaBreached? then flags + {a.emit[0].body.sla} else flags
  }

  predicate Good(def: WorkflowDef, flags: set<string>, f: Frame, a: Action) {
    && |a.emit| <= 1
    && (a.emit != [] && a.emit[0].body.SlaBreached? ==> f.SlaLoop? && a.emit[0].body.sla !in flags)
    && LoopsOk(def, FlagsAfter(flags, a), a.push)
    && (Stalled(def, f) ==> a.emit == [] && (a.push == [] || (|a.push| == 1 && Stalled(def, a.push[0]))))
  }

  lemma EntryGood(def: WorkflowDef, i: Input, log: Log, cur: RunState, f: Frame)
    requires EntryFrame(f)
    ensures Good(def, Breached(log), f, ActEntry(def, i, log, cur, f))
  {
  }

  lemma SlaGood(def: WorkflowDef, i: Input, flags: set<string>, f: Frame)
    requires f.SlaLoop? && DistinctNames(def) && OnlyLastJumps(def) && LoopOk(def, flags, [f], 0)
    requires !CanRest(def, def.initial) ==> RunLodged(def, f.run)
    ensures Good(def, flags, f, ActSla(def, i, f))
  {
    if f.k < |def.slas| {
      var name := def.slas[f.k].name;
      assert name !in Names(def, f.k);
      assert Names(def, f.k + 1) == Names(def, f.k) + {name};
      if f.k + 1 < |def.slas| && def.slas[f.k].onBreach != "" {
        assert Stalled(def, JumpTo(f.run, def.slas[f.k].onBreach));
      }
    }
  }

  lemma ScheduleGood(def: WorkflowDef, i: Input, flags: set<string>, f: Frame)
    requires ScheduleFrame(f)
    ensures Good(def, flags, f, ActSchedule(def, i, f))
  {
  }

  lemma ScanGood(def: WorkflowDef, i: Input, flags: set<string>, f: Frame)
    requires ScanFrame(f)
    ensures Good(def, flags, f, ActScan(i, f))
  {
  }

  lemma AdvanceGood(def: WorkflowDef, i: Input, flags: set<string>, f: Frame)
    requires AdvanceFrame(f)
    ensures Good(def, flags, f, ActAdvance(def, i, f))
  {
  }

  lemma TaskGood(def: WorkflowDef, i: Input, log: Log, cur: RunState, flags: set<string>, f: Frame)
    requires TaskFrame(f)
    ensures Good(def, flags, f, ActTask(def, i, log, cur, f))
  {
  }

  lemma HumanGood(def: WorkflowDef, i: Input, log: Log, cur: RunState, flags: set<string>, f: Frame)
    requires HumanFrame(f)
    ensures Good(def, flags, f, ActHuman(def, i, log, cur, f))
  {
  }

  lemma ActGood(def: WorkflowDef, i: Input, log: Log, cur: RunState, f: Frame)
    requires DistinctNames(def) && OnlyLastJumps(def) && LoopOk(def, Breached(log), [f], 0)
    requires f.SlaLoop? && !CanRest(def, def.initial) ==> RunLodged(def, f.run)
    ensures Good(def, Breached(log), f, Act(def, i, log, cur, f))
  {
    var flags := Breached(log);
    if EntryFrame(f) { EntryGood(def, i, log, cur, f); }
    else if f.SlaLoop? { SlaGood(def, i, flags, f); }
    else if ScheduleFrame(f) { ScheduleGood(def, i, flags, f); }
    else if ScanFrame(f) { ScanGood(def, i, flags, f); }
    else if AdvanceFrame(f) { AdvanceGood(def, i, flags, f); }
    else if TaskFrame(f) { TaskGood(def, i, log, cur, flags, f); }
    else { HumanGood(def, i, log, cur, flags, f); }
  }

  predicate RunOk(def: WorkflowDef, c: Config) {
    FlaggedOnce(c.log) && LoopsOk(def, Breached(c.log), c.stack)
  }

  lemma WorkKeeps(def: WorkflowDef, c: Config, i: Input)
    requires DistinctNames(def) && OnlyLastJumps(def) && RunOk(def, c) && c.stack != []
    requires !CanRest(def, def.initial) ==> ConfigLodged(def, c)
    ensures RunOk(def, Next(def, i, c))
  {
    assert LoopOk(def, Breached(c.log), c.stack, 0);
    var a := Act(def, i, c.log, Replay(def, c.log), c.stack[0]);
    ActGood(def, i, c.log, Replay(def, c.log), c.stack[0]);
    StackAfter(def, Breached(c.log), c.stack, a);
    if a.emit == [] {
      assert c.log + a.emit == c.log;
    } else {
      assert a.emit == [a.emit[0]];
      BreachedAppend(c.log, a.emit[0]);
      OnceMore(c.log, a.emit[0]);
    }
    assert Breached(c.log + a.emit) == FlagsAfter(Breached(c.log), a);
  }

  lemma OnceMore(log: Log, e: Event)
    requires FlaggedOnce(log) && (e.body.SlaBreached? ==> e.body.sla !in Breached(log))
    ensures FlaggedOnce(log + [e])
  {
    var l := log + [e];
    assert forall k :: 0 <= k < |log| ==> l[k] == log[k];
    forall j | 0 <= j < |log| && log[j].body.SlaBreached? ensures log[j].body.sla in Breached(log) { }
  }

  lemma StackAfter(def: WorkflowDef, flags: set<string>, stack: seq<Frame>, a: Action)
    requires stack != [] && LoopsOk(def, flags, stack) && Good(def, flags, stack[0], a)
    ensures LoopsOk(def, FlagsAfter(flags, a), a.push + stack[1..])
  {
    var s' := a.push + stack[1..];
    forall k | 0 <= k < |s'| ensures LoopOk(def, FlagsAfter(flags, a), s', k) {
      if k < |a.push| {
        assert LoopOk(def, FlagsAfter(flags, a), a.push, k);
      } else {
        var j := k - |a.push| + 1;
        assert s'[k] == stack[j] && LoopOk(def, flags, stack, j);
      }
    }
  }

  /** An operation that fails leaves the loops below. */
  lemma ErrorKeeps(def: WorkflowDef, flags: set<string>, stack: seq<Frame>)
    requires stack != [] && LoopsOk(def, flags, stack)
    ensures LoopsOk(def, flags, Failover(stack[0]) + stack[1..])
  {
    StackAfter(def, flags, stack, Go(Failover(stack[0])));
  }

  lemma DoKeeps(def: WorkflowDef, c: Config, d: Deed)
    requires DistinctNames(def) && OnlyLastJumps(def) && RunOk(def, c)
    requires !CanRest(def, def.initial) ==> ConfigLodged(def, c)
    ensures RunOk(def, Do(def, c, d))
  {
    hide ConfigLodged, Act, FlaggedOnce, DistinctNames, OnlyLastJumps;
    if d.Work? && c.stack != [] { WorkKeeps(def, c, d.input); }
    if d.StoreError? && c.stack != [] {
      hide LoopsOk;
      ErrorKeeps(def, Breached(c.log), c.stack);
    }
  }

  /** Each SLA is flagged at most once. */
  lemma {:induction false} SlaFlaggedOnce(def: WorkflowDef, ds: seq<Deed>)
    requires DistinctNames(def) && OnlyLastJumps(def)
    ensures FlaggedOnce(DoAll(def, IDLE, ds).log)
    ensures RunOk(def, DoAll(def, IDLE, ds))
    decreases |ds|
  {
    hide ConfigLodged, CanRest, DistinctNames, OnlyLastJumps, Do;
    if ds != [] {
      var init := ds[..|ds| - 1];
      SlaFlaggedOnce(def, init);
      if !CanRest(def, def.initial) { InitialStays(def, init); }
      DoKeeps(def, DoAll(def, IDLE, init), ds[|ds| - 1]);
    }
  }
}
