/** Atomic operations are a special interleaving: every run of one stack is a run of the threads in which only one
    thread ever works and every grant is checked against the link that is still pending. What holds of the
    interleavings therefore holds of atomic operations, crashes included. */
module Atomic {
  import opened Model
  import opened Replaying
  import opened Machine
  import Approvals
  import Provenance

  // ---- a grant is appended where it was checked --------------------------

  /** Only Approve hands on a grant, on top, and before any other append. */
  predicate GrantsFresh(cur: RunState, a: Action) {
    |a.emit| <= 1
    && forall k :: 0 <= k < |a.push| && a.push[k].Grant? ==> k == 0 && a.emit == [] && Approvals.Fresh(cur, a.push[0])
  }

  lemma EntryGrants(def: WorkflowDef, i: Input, log: Log, cur: RunState, f: Frame)
    requires EntryFrame(f)
    ensures GrantsFresh(cur, ActEntry(def, i, log, cur, f))
  {
  }

  lemma ScheduleGrants(def: WorkflowDef, i: Input, cur: RunState, f: Frame)
    requires ScheduleFrame(f) || f.SlaLoop?
    ensures GrantsFresh(cur, if f.SlaLoop? then ActSla(def, i, f) else ActSchedule(def, i, f))
  {
  }

  lemma ScanGrants(def: WorkflowDef, i: Input, cur: RunState, f: Frame)
    requires ScanFrame(f) || AdvanceFrame(f)
    ensures GrantsFresh(cur, if ScanFrame(f) then ActScan(i, f) else ActAdvance(def, i, f))
  {
  }

  lemma TaskGrants(def: WorkflowDef, i: Input, log: Log, cur: RunState, f: Frame)
    requires TaskFrame(f)
    ensures GrantsFresh(cur, ActTask(def, i, log, cur, f))
  {
  }

  lemma HumanGrants(def: WorkflowDef, i: Input, log: Log, cur: RunState, f: Frame)
    requires HumanFrame(f)
    ensures GrantsFresh(cur, ActHuman(def, i, log, cur, f))
  {
  }

  lemma ActGrants(def: WorkflowDef, i: Input, log: Log, cur: RunState, f: Frame)
    ensures GrantsFresh(cur, Act(def, i, log, cur, f))
  {
    if EntryFrame(f) { EntryGrants(def, i, log, cur, f); }
    else if f.SlaLoop? || ScheduleFrame(f) { ScheduleGrants(def, i, cur, f); }
    else if ScanFrame(f) || AdvanceFrame(f) { ScanGrants(def, i, cur, f); }
    else if TaskFrame(f) { TaskGrants(def, i, log, cur, f); }
    else { HumanGrants(def, i, log, cur, f); }
  }

  predicate StackFresh(cur: RunState, stack: seq<Frame>) {
    forall k :: 0 <= k < |stack| && stack[k].Grant? ==> k == 0 && Approvals.Fresh(cur, stack[0])
  }

  lemma NextFresh(def: WorkflowDef, i: Input, c: Config)
    requires StackFresh(Replay(def, c.log), c.stack)
    ensures StackFresh(Replay(def, Next(def, i, c).log), Next(def, i, c).stack)
  {
    if c.stack != [] {
      var cur := Replay(def, c.log);
      var a := Act(def, i, c.log, cur, c.stack[0]);
      ActGrants(def, i, c.log, cur, c.stack[0]);
      var s' := a.push + c.stack[1..];
      forall k | |a.push| <= k < |s'| ensures !s'[k].Grant? {
        assert s'[k] == c.stack[k - |a.push| + 1];
      }
      if a.emit == [] { assert c.log + a.emit == c.log; }
    }
  }

  // ---- the interleaving that mirrors a run -------------------------------

  /** What may be begun before the run has a log: its creation, and operations that find nothing. */
  predicate Opening(f: Frame) {
    f.CreateEvent? || f.Refresh? || f.Approve? || f.Reject? || f.Cancel?
  }

  function StackOf(s: Sys): seq<Frame> {
    if 0 in s.threads then s.threads[0] else []
  }

  ghost predicate Mirrors(def: WorkflowDef, c: Config, s: Sys) {
    && StackFresh(Replay(def, c.log), c.stack)
    && if c.log == [] then
         s == NEW_RUN && c.queue == multiset{} && |c.stack| <= 1 && (c.stack != [] ==> Opening(c.stack[0]))
       else
         s.log == c.log && s.queue == c.queue && StackOf(s) == c.stack
  }

  /** The move of thread 0, if any, that mirrors a deed. */
  function Shadow(c: Config, d: Deed): seq<Move> {
    if c.log == [] then
      (if d.Work? && c.stack == [CreateEvent] then [Run(0, d.input)] else [])
    else
      match d
      case Begin(op) => [Spawn(0, op)]
      case Work(i) => [Run(0, i)]
      case StoreError(i) => [Abort(0, i)]
      case Crash => [CrashAll]
  }

  function Shadows(def: WorkflowDef, ds: seq<Deed>): seq<Move>
    decreases |ds|
  {
    if ds == [] then [] else Shadows(def, ds[..|ds| - 1]) + Shadow(DoAll(def, IDLE, ds[..|ds| - 1]), ds[|ds| - 1])
  }

  lemma OpeningAct(def: WorkflowDef, i: Input, cur: RunState, f: Frame)
    requires Opening(f)
    ensures Act(def, i, [], cur, f) ==
              if f.CreateEvent? then Emit(i.now, TicketCreated(def.name, def.version), [CreateStart]) else Go([])
  {
  }

  lemma OpeningNext(def: WorkflowDef, c: Config, i: Input)
    requires c.log == [] && |c.stack| == 1 && Opening(c.stack[0])
    ensures Next(def, i, c) == if c.stack[0].CreateEvent?
                               then Config([Event(i.now, TicketCreated(def.name, def.version))], c.queue, [CreateStart])
                               else Config([], c.queue, [])
  {
    hide Act;
    OpeningAct(def, i, Replay(def, []), c.stack[0]);
    assert c.stack[1..] == [];
  }

  /** The thread of CreateTicket appends its first event. */
  lemma FirstMove(def: WorkflowDef, i: Input)
    ensures Step(def, NEW_RUN, Run(0, i)) ==
              Sys([Event(i.now, TicketCreated(def.name, def.version))], multiset{}, map[0 := [CreateStart]], [], {})
    ensures Approvals.AtomicGrant(def, NEW_RUN, Run(0, i))
  {
    hide Act;
    OpeningAct(def, i, Replay(def, []), CreateEvent);
    assert [CreateEvent][1..] == [] && [CreateStart] + [] == [CreateStart];
    assert NEW_RUN.threads[0 := [CreateStart]] == map[0 := [CreateStart]];
    var e := Event(i.now, TicketCreated(def.name, def.version));
    var none: multiset<StepName> := multiset{};
    assert [] + [e] == [e] && none + none == none;
  }

  /** Before the first event: only CreateTicket's append is mirrored. */
  lemma OpeningMirrors(def: WorkflowDef, c: Config, d: Deed, s: Sys)
    requires Mirrors(def, c, s) && c.log == []
    ensures var ms := Shadow(c, d);
            Mirrors(def, Do(def, c, d), if ms == [] then s else Step(def, s, ms[0]))
            && (ms != [] ==> Approvals.AtomicGrant(def, s, ms[0]))
  {
    hide Act, Replay;
    if d.Work? && c.stack != [] {
      OpeningNext(def, c, d.input);
      FirstMove(def, d.input);
      if c.stack[0].CreateEvent? { assert c.stack == [CreateEvent]; }
    }
  }

  lemma RunningMirrors(def: WorkflowDef, c: Config, d: Deed, s: Sys)
    requires Mirrors(def, c, s) && c.log != []
    ensures Mirrors(def, Do(def, c, d), Step(def, s, Shadow(c, d)[0]))
    ensures Approvals.AtomicGrant(def, s, Shadow(c, d)[0])
  {
    match d {
      case Begin(op) => hide Replay, Act;
      case Work(i) => WorkMirrors(def, c, i, s);
      case StoreError(i) => ErrorMirrors(def, c, i, s);
      case Crash => hide Replay, Act;
    }
  }

  lemma WorkMirrors(def: WorkflowDef, c: Config, i: Input, s: Sys)
    requires Mirrors(def, c, s) && c.log != []
    ensures Mirrors(def, Next(def, i, c), Step(def, s, Run(0, i)))
    ensures Approvals.AtomicGrant(def, s, Run(0, i))
  {
    hide Replay, Act;
    NextFresh(def, i, c);
  }

  lemma ErrorMirrors(def: WorkflowDef, c: Config, i: Input, s: Sys)
    requires Mirrors(def, c, s) && c.log != []
    ensures Mirrors(def, Do(def, c, StoreError(i)), Step(def, s, Abort(0, i)))
  {
    hide Replay, MayFail;
  }

  lemma AtomicOn(def: WorkflowDef, ms: seq<Move>, m: Move)
    requires Approvals.AtomicGrants(def, ms) && Approvals.AtomicGrant(def, StepAll(def, NEW_RUN, ms), m)
    ensures Approvals.AtomicGrants(def, ms + [m])
    ensures StepAll(def, NEW_RUN, ms + [m]) == Step(def, StepAll(def, NEW_RUN, ms), m)
  {
    var all := ms + [m];
    assert all[..|ms|] == ms;
    forall k | 0 <= k < |all| ensures Approvals.AtomicGrant(def, StepAll(def, NEW_RUN, all[..k]), all[k]) {
      assert all[..k] == ms[..k];
      assert ms[..|ms|] == ms;
    }
  }

  lemma DeedMirrors(def: WorkflowDef, c: Config, d: Deed, ms: seq<Move>)
    requires Mirrors(def, c, StepAll(def, NEW_RUN, ms)) && Approvals.AtomicGrants(def, ms)
    ensures Mirrors(def, Do(def, c, d), StepAll(def, NEW_RUN, ms + Shadow(c, d)))
    ensures Approvals.AtomicGrants(def, ms + Shadow(c, d))
  {
    hide Mirrors, Do, Step, StepAll, Approvals.AtomicGrants, Approvals.AtomicGrant;
    var s, more := StepAll(def, NEW_RUN, ms), Shadow(c, d);
    if c.log == [] { OpeningMirrors(def, c, d, s); } else { RunningMirrors(def, c, d, s); }
    if more == [] {
      assert ms + more == ms;
    } else {
      AtomicOn(def, ms, more[0]);
      assert more == [more[0]];
    }
  }

  /** Every run of atomic operations is an interleaving with atomic grants. */
  lemma {:induction false} Embeds(def: WorkflowDef, ds: seq<Deed>)
    ensures Mirrors(def, DoAll(def, IDLE, ds), StepAll(def, NEW_RUN, Shadows(def, ds)))
    ensures Approvals.AtomicGrants(def, Shadows(def, ds))
    decreases |ds|
  {
    hide Do, Step, Shadow;
    if ds != [] {
      hide Mirrors, StepAll, Approvals.AtomicGrants;
      var n := |ds| - 1;
      Embeds(def, ds[..n]);
      DeedMirrors(def, DoAll(def, IDLE, ds[..n]), ds[n], Shadows(def, ds[..n]));
    }
  }

  /** The log of a run of atomic operations is the log of an interleaving with atomic grants. */
  lemma LogIsInterleaved(def: WorkflowDef, ds: seq<Deed>)
    ensures exists ms :: Approvals.AtomicGrants(def, ms) && StepAll(def, NEW_RUN, ms).log == DoAll(def, IDLE, ds).log
  {
    Embeds(def, ds);
    assert StepAll(def, NEW_RUN, Shadows(def, ds)).log == DoAll(def, IDLE, ds).log;
  }

  // ---- what follows for atomic operations --------------------------------

  /** Approvals need no hypothesis: an approval step only completes after its whole chain was granted in order. */
  lemma ChainRespected(def: WorkflowDef, ds: seq<Deed>, s: StepName)
    requires KindOf(def, s) == Approval
    ensures Approvals.Respected(def, s, DoAll(def, IDLE, ds).log)
  {
    Embeds(def, ds);
    Approvals.ChainRespected(def, Shadows(def, ds), s);
  }

  /** Only tasks are ever queued. */
  lemma QueueHoldsTasks(def: WorkflowDef, ds: seq<Deed>, s: StepName)
    requires s in DoAll(def, IDLE, ds).queue
    ensures KindOf(def, s) == Task
  {
    Embeds(def, ds);
    Approvals.AtomicFits(def, s, Shadows(def, ds));
    Approvals.AlwaysOk(def, s, Shadows(def, ds));
  }

  /** A queued step has a state. */
  lemma QueueIsKnown(def: WorkflowDef, ds: seq<Deed>, s: StepName)
    requires s in DoAll(def, IDLE, ds).queue
    ensures s in Replay(def, DoAll(def, IDLE, ds).log).steps
  {
    Embeds(def, ds);
    Provenance.AlwaysOk(def, Shadows(def, ds));
    Provenance.KnownIsReplayed(def, DoAll(def, IDLE, ds).log);
  }

  /** The only TICKET_CREATED of a run names its definition. */
  predicate Names(def: WorkflowDef, a: Action) {
    && |a.emit| <= 1
    && (a.emit != [] && a.emit[0].body.TicketCreated? ==> a.emit[0].body == TicketCreated(def.name, def.version))
  }

  lemma ActNames(def: WorkflowDef, i: Input, log: Log, cur: RunState, f: Frame)
    ensures Names(def, Act(def, i, log, cur, f))
  {
    ActGrants(def, i, log, cur, f);
    if EntryFrame(f) { EntryNames(def, i, log, cur, f); }
    else if f.SlaLoop? || ScheduleFrame(f) { ScheduleNames(def, i, f); }
    else if ScanFrame(f) || AdvanceFrame(f) { ScanNames(def, i, f); }
    else if TaskFrame(f) { TaskNames(def, i, log, cur, f); }
    else { HumanNames(def, i, log, cur, f); }
  }

  lemma EntryNames(def: WorkflowDef, i: Input, log: Log, cur: RunState, f: Frame)
    requires EntryFrame(f)
    ensures Names(def, ActEntry(def, i, log, cur, f))
  {
  }

  lemma ScheduleNames(def: WorkflowDef, i: Input, f: Frame)
    requires ScheduleFrame(f) || f.SlaLoop?
    ensures Names(def, if f.SlaLoop? then ActSla(def, i, f) else ActSchedule(def, i, f))
  {
  }

  lemma ScanNames(def: WorkflowDef, i: Input, f: Frame)
    requires ScanFrame(f) || AdvanceFrame(f)
    ensures Names(def, if ScanFrame(f) then ActScan(i, f) else ActAdvance(def, i, f))
  {
  }

  lemma TaskNames(def: WorkflowDef, i: Input, log: Log, cur: RunState, f: Frame)
    requires TaskFrame(f)
    ensures Names(def, ActTask(def, i, log, cur, f))
  {
  }

  lemma HumanNames(def: WorkflowDef, i: Input, log: Log, cur: RunState, f: Frame)
    requires HumanFrame(f)
    ensures Names(def, ActHuman(def, i, log, cur, f))
  {
  }

  predicate NamedIn(def: WorkflowDef, log: Log) {
    log != [] ==> Replay(def, log).workflow == def.name && Replay(def, log).version == def.version
  }

  lemma WorkNames(def: WorkflowDef, c: Config, i: Input, s: Sys)
    requires Mirrors(def, c, s) && NamedIn(def, c.log)
    ensures NamedIn(def, Next(def, i, c).log)
  {
    if c.stack != [] {
      var f, cur := c.stack[0], Replay(def, c.log);
      var a := Act(def, i, c.log, cur, f);
      ActNames(def, i, c.log, cur, f);
      if a.emit == [] {
        assert c.log + a.emit == c.log;
      } else {
        assert a.emit == [a.emit[0]];
        ReplayAppend(def, c.log, a.emit[0]);
        if c.log == [] { OpeningAct(def, i, cur, f); }
      }
    }
  }

  lemma NothingNamed(def: WorkflowDef)
    ensures NamedIn(def, [])
  {
  }

  /** Replay finds the run's definition by the name and version the run was created with. */
  lemma {:induction false} ReplayNamesDefinition(def: WorkflowDef, ds: seq<Deed>)
    ensures NamedIn(def, DoAll(def, IDLE, ds).log)
    decreases |ds|
  {
    hide Mirrors, NamedIn, Act, Replay;
    if ds == [] {
      NothingNamed(def);
    } else {
      var c, d := DoAll(def, IDLE, ds[..|ds| - 1]), ds[|ds| - 1];
      ReplayNamesDefinition(def, ds[..|ds| - 1]);
      Embeds(def, ds[..|ds| - 1]);
      match d {
        case Begin(op) =>
        case Work(i) => WorkNames(def, c, i, StepAll(def, NEW_RUN, Shadows(def, ds[..|ds| - 1])));
        case StoreError(i) =>
        case Crash =>
      }
    }
  }

  /** Replayed steps are declared, when the initial step is. */
  lemma ReplayedStepIsDeclared(def: WorkflowDef, ds: seq<Deed>, s: StepName)
    requires Declared(def, def.initial) && s in Replay(def, DoAll(def, IDLE, ds).log).steps
    ensures Declared(def, s)
  {
    Embeds(def, ds);
    Provenance.ReplayedStepIsReachable(def, Shadows(def, ds), s);
  }

  /** With a well-formed definition no activation of an atomic operation gets stuck. */
  lemma NothingGoesWrong(def: WorkflowDef, ds: seq<Deed>, k: nat)
    requires WellFormed(def) && k < |DoAll(def, IDLE, ds).stack|
    ensures !Provenance.Stuck(def, DoAll(def, IDLE, ds).stack[k])
  {
    hide Provenance.Stuck, WellFormed;
    Embeds(def, ds);
    var c, s := DoAll(def, IDLE, ds), StepAll(def, NEW_RUN, Shadows(def, ds));
    if c.log == [] {
      OpeningNotStuck(def, c.stack[0]);
    } else {
      MirrorsStack(def, c, s);
      Provenance.NothingGoesWrong(def, Shadows(def, ds), 0, k);
    }
  }

  lemma OpeningNotStuck(def: WorkflowDef, f: Frame)
    requires Opening(f)
    ensures !Provenance.Stuck(def, f)
  {
  }

  lemma MirrorsStack(def: WorkflowDef, c: Config, s: Sys)
    requires Mirrors(def, c, s) && c.log != [] && c.stack != []
    ensures 0 in s.threads && s.threads[0] == c.stack
  {
  }
}
