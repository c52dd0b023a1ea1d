/** Loops of instant delays are the only reason a dispatch does not return: with one, the calls of a single dispatch
    nest without bound at a standing clock (engine/engine.go:426-449, 551-595). `Engines.Engine.Dispatch` is the other
    half: without one it terminates on every log. */
module Divergence {
  import opened Model
  import opened Replaying
  import opened Machine
  import opened Moves
  import opened Settling
  import opened Resting
  import opened Reaching
  import opened Idempotence

  /** A due delay of a live run whose SLAs are flagged. */
  ghost predicate Armed(def: WorkflowDef, now: Time, log: Log, s: StepName) {
    && log != [] && Live(def, log) && Flagged(def, now, log)
    && s in Replay(def, log).steps && TimerDue(Replay(def, log).steps[s], now)
  }

  /** The loop of CheckSLA passes over SLAs that are flagged or not overdue. */
  lemma {:induction false} SlasPass(def: WorkflowDef, now: Time, c0: Config, log: Log, q: multiset<StepName>,
        run: RunState, k: nat, rest: seq<Frame>)
    requires k <= |def.slas| && At(def, now, c0, log, q, [SlaLoop(run, Breached(log), k, now)] + rest)
    requires Overdue(def, now, run.createdAt) <= Breached(log)
    ensures At(def, now, c0, log, q, rest)
    decreases |def.slas| - k
  {
    if k == |def.slas| {
      OnSlaEnd(def, now, c0, log, q, run, Breached(log), now, rest);
    } else {
      if run.createdAt + def.slas[k].duration < now { assert def.slas[k].name in Overdue(def, now, run.createdAt); }
      OnSlaSkip(def, now, c0, log, q, run, Breached(log), k, now, rest);
      SlasPass(def, now, c0, log, q, run, k + 1, rest);
    }
  }

  /** A dispatch comes to fire an armed delay. */
  lemma DispatchFires(def: WorkflowDef, now: Time, c0: Config, log: Log, q: multiset<StepName>, s: StepName,
        rest: seq<Frame>)
    requires Armed(def, now, log, s) && At(def, now, c0, log, q, [Refresh] + rest)
    ensures exists more: seq<Frame> ::
              |more| == 2 && At(def, now, c0, log, q, [FireTimer(Replay(def, log), s)] + (more + rest))
  {
    hide At;
    var run := Replay(def, log);
    var keys := run.steps.Keys;
    var rest2 := [ScanSteps(run, keys)] + ([ScanApprovals(run, keys)] + rest);
    OnRefresh(def, now, c0, log, q, rest);
    OnDispatch(def, now, c0, log, q, run, rest);
    OnCheckSla(def, now, c0, log, q, run, rest2);
    if !SlaOff(def, run) { SlasPass(def, now, c0, log, q, run, 0, rest2); }
    OnScanTimer(def, now, c0, log, q, false, run, keys, s, [ScanApprovals(run, keys)] + rest);
    var more := [Scan(false, run, keys - {s}), ScanApprovals(run, keys)];
    Pair(more[0], more[1], rest);
    assert more == [more[0], more[1]];
  }

  /** The log after firing s and scheduling its successor t. */
  function Fired(def: WorkflowDef, now: Time, log: Log, s: StepName, t: StepName): Log {
    log + [Event(now, TimerFired(s))] + [Event(now, StepCompleted(s, map[]))] + [Event(now, ScheduledBody(def, t, now))]
  }

  lemma FiringArms(def: WorkflowDef, now: Time, log: Log, s: StepName)
    requires Armed(def, now, log, s) && InstantNext(def, s).Some?
    ensures Armed(def, now, Fired(def, now, log, s, InstantNext(def, s).value), InstantNext(def, s).value)
  {
    var t := InstantNext(def, s).value;
    var l1 := log + [Event(now, TimerFired(s))];
    var l2 := l1 + [Event(now, StepCompleted(s, map[]))];
    var e := Event(now, ScheduledBody(def, t, now));
    ReplayAppend(def, log, Event(now, TimerFired(s)));
    ReplayAppend(def, l1, Event(now, StepCompleted(s, map[])));
    ReplayAppend(def, l2, e);
    BreachedAppend(log, Event(now, TimerFired(s)));
    BreachedAppend(l1, Event(now, StepCompleted(s, map[])));
    BreachedAppend(l2, e);
    KindIsDeclared(def, l2 + [e], t);
  }

  lemma FiringSchedules(def: WorkflowDef, now: Time, c0: Config, log: Log, q: multiset<StepName>, run: RunState,
        s: StepName, rest: seq<Frame>)
    requires InstantNext(def, s).Some? && At(def, now, c0, log, q, [FireTimer(run, s)] + rest)
    ensures At(def, now, c0, Fired(def, now, log, s, InstantNext(def, s).value), q, [Refresh] + rest)
  {
    hide At;
    var t := InstantNext(def, s).value;
    var l1 := log + [Event(now, TimerFired(s))];
    var l2 := l1 + [Event(now, StepCompleted(s, map[]))];
    OnFireTimer(def, now, c0, log, q, run, s, rest);
    OnCompleteStep(def, now, c0, l1, q, run, s, map[], rest);
    OnAdvance(def, now, c0, l2, q, run, s, true, rest);
    OnScheduleStep(def, now, c0, l2, q, t, ThenDispatch, rest);
    OnEmitScheduled(def, now, c0, l2, q, t, now, ThenDispatch, rest);
  }

  lemma NeverStops(def: WorkflowDef, s: StepName)
    requires !Stops(def, s)
    ensures InstantNext(def, s).Some? && !Stops(def, InstantNext(def, s).value)
  {
    if InstantNext(def, s).None? {
      assert Ends(def, s, 0);
    } else if k: nat :| Ends(def, InstantNext(def, s).value, k) {
      assert Ends(def, s, k + 1);
    }
  }

  /** Each turn of the loop nests one dispatch deeper. */
  lemma {:induction false} Deepens(def: WorkflowDef, now: Time, c0: Config, log: Log, q: multiset<StepName>,
        s: StepName, rest: seq<Frame>, n: nat)
    requires Armed(def, now, log, s) && !Stops(def, s) && At(def, now, c0, log, q, [Refresh] + rest)
    ensures exists l: Log, stack: seq<Frame> :: At(def, now, c0, l, q, stack) && |stack| >= n + |rest|
    decreases n
  {
    if n <= 1 {
      assert |[Refresh] + rest| >= n + |rest|;
    } else {
      DispatchFires(def, now, c0, log, q, s, rest);
      var more: seq<Frame> :| |more| == 2 && At(def, now, c0, log, q, [FireTimer(Replay(def, log), s)] + (more + rest));
      NeverStops(def, s);
      FiringSchedules(def, now, c0, log, q, Replay(def, log), s, more + rest);
      FiringArms(def, now, log, s);
      var t := InstantNext(def, s).value;
      Deepens(def, now, c0, Fired(def, now, log, s, t), q, t, more + rest, n - 2);
    }
  }

  /** The calls of one dispatch can nest n deep, the clock standing still. */
  ghost predicate Nests(def: WorkflowDef, now: Time, log: Log, q: multiset<StepName>, n: nat) {
    exists l: Log, stack: seq<Frame> :: At(def, now, Config(log, q, [Refresh]), l, q, stack) && |stack| >= n
  }

  ghost predicate Diverges(def: WorkflowDef, now: Time, log: Log, q: multiset<StepName>) {
    forall n: nat :: Nests(def, now, log, q, n)
  }

  /** An armed delay on a loop of instant delays makes the next dispatch diverge. */
  lemma InstantLoopDiverges(def: WorkflowDef, now: Time, log: Log, q: multiset<StepName>, s: StepName)
    requires Armed(def, now, log, s) && !Stops(def, s)
    ensures Diverges(def, now, log, q)
  {
    var c0 := Config(log, q, [Refresh]);
    AtStart(def, now, log, q, [Refresh]);
    assert [Refresh] + [] == [Refresh];
    forall n: nat ensures Nests(def, now, log, q, n) {
      Deepens(def, now, c0, log, q, s, [], n);
    }
  }

  // ---- a ticket whose creation diverges ----------------------------------

  /** The log of CreateTicket when it comes to dispatch the run. */
  function Created(def: WorkflowDef): Log
    requires Schedulable(def, def.initial)
  {
    Born(def) + Scheduling(def, def.initial, 1) + [Event(1, TicketAssigned)]
  }

  lemma CreatedReached(def: WorkflowDef)
    requires Schedulable(def, def.initial)
    ensures Reached(def, 1, Created(def), multiset{}, [Refresh] + [])
  {
    hide Reached, At, Schedulable, Scheduling;
    var stack := [ScheduleStep(def.initial, ThenAssign)] + [];
    var c0 := Config(Born(def), multiset{}, stack);
    BornReached(def);
    AtStart(def, 1, Born(def), multiset{}, stack);
    Schedules(def, 1, c0, Born(def), multiset{}, def.initial, ThenAssign, []);
    OnCreateAssign(def, 1, c0, Born(def) + Scheduling(def, def.initial, 1), multiset{}, []);
    Came(def, 1, Born(def), multiset{}, stack, Created(def), multiset{}, [Refresh] + []);
  }

  lemma CreatedArmed(def: WorkflowDef)
    requires Instant(def, def.initial) && Overdue(def, 1, 1) == {}
    ensures Armed(def, 1, Created(def), def.initial)
  {
    var e, f := Event(1, ScheduledBody(def, def.initial, 1)), Event(1, TicketAssigned);
    BornState(def);
    assert Born(def) + Scheduling(def, def.initial, 1) == Born(def) + [e];
    ReplayAppend(def, Born(def), e);
    ReplayAppend(def, Born(def) + [e], f);
  }

  /** Some run comes to a dispatch that diverges. */
  ghost predicate Hangs(def: WorkflowDef) {
    exists now: Time, log: Log ::
      Reachable(def, Config(log, multiset{}, [Refresh])) && Diverges(def, now, log, multiset{})
  }

  /** A workflow that begins on a loop of instant delays, with no SLA overdue at once: CreateTicket itself comes to a
      dispatch that diverges. */
  lemma CreationDiverges(def: WorkflowDef)
    requires Instant(def, def.initial) && !Stops(def, def.initial) && Overdue(def, 1, 1) == {}
    ensures Reachable(def, Config(Created(def), multiset{}, [Refresh]))
    ensures Diverges(def, 1, Created(def), multiset{})
    ensures Hangs(def)
  {
    hide Diverges, Armed, Stops;
    CreatedReached(def);
    ReachedReachable(def, 1, Created(def), multiset{}, [Refresh] + []);
    assert [Refresh] + [] == [Refresh];
    CreatedArmed(def);
    InstantLoopDiverges(def, 1, Created(def), multiset{}, def.initial);
  }

  // ---- any definition that does not settle -------------------------------

  /** Every SLA flagged, in order. */
  function AllFlagged(slas: seq<SlaDef>): Log {
    if slas == [] then []
    else AllFlagged(slas[..|slas| - 1]) + [Event(1, SlaBreached(slas[|slas| - 1].name, ""))]
  }

  lemma {:induction false} AllFlaggedState(def: WorkflowDef, k: nat)
    requires k <= |def.slas|
    ensures var l := Born(def) + AllFlagged(def.slas[..k]);
            && Replay(def, l).status == RActive && l[0] == Born(def)[0]
            && forall j :: 0 <= j < k ==> def.slas[j].name in Breached(l)
    decreases k
  {
    BornState(def);
    hide Replay, Breached;
    if k == 0 {
      assert Born(def) + AllFlagged(def.slas[..0]) == Born(def);
    } else {
      var l, e := Born(def) + AllFlagged(def.slas[..k - 1]), Event(1, SlaBreached(def.slas[k - 1].name, ""));
      AllFlaggedState(def, k - 1);
      assert def.slas[..k][..k - 1] == def.slas[..k - 1];
      assert Born(def) + AllFlagged(def.slas[..k]) == l + [e];
      FlagAdds(def, l, e);
    }
  }

  lemma FlagAdds(def: WorkflowDef, l: Log, e: Event)
    requires e.body.SlaBreached? && l != []
    ensures Replay(def, l + [e]).status == Replay(def, l).status && (l + [e])[0] == l[0]
    ensures Breached(l + [e]) == Breached(l) + {e.body.sla}
  {
    ReplayAppend(def, l, e);
    BreachedAppend(l, e);
  }

  /** A started run whose SLAs are all flagged and in which a delay is scheduled. */
  function Waiting(def: WorkflowDef, t: StepName): Log {
    Born(def) + AllFlagged(def.slas) + [Event(1, ScheduledBody(def, t, 1))]
  }

  lemma WaitingArmed(def: WorkflowDef, t: StepName)
    requires Instant(def, t)
    ensures Armed(def, 1, Waiting(def, t), t) && Waiting(def, t)[0].body == TicketCreated(def.name, def.version)
  {
    var l, e := Born(def) + AllFlagged(def.slas), Event(1, ScheduledBody(def, t, 1));
    AllFlaggedState(def, |def.slas|);
    assert def.slas[..|def.slas|] == def.slas;
    ReplayAppend(def, l, e);
    BreachedAppend(l, e);
    KindIsDeclared(def, l + [e], t);
  }

  /** A definition that does not settle has a log of its own whose dispatch diverges: the hypothesis of termination is
      needed. */
  lemma SettlesIsNeeded(def: WorkflowDef)
    requires !Settles(def)
    ensures exists now: Time, log: Log ::
              log != [] && log[0].body == TicketCreated(def.name, def.version) && Diverges(def, now, log, multiset{})
  {
    hide Diverges, Armed, Stops;
    var s: StepName :| !Stops(def, s);
    NeverStops(def, s);
    var t := InstantNext(def, s).value;
    WaitingArmed(def, t);
    InstantLoopDiverges(def, 1, Waiting(def, t), multiset{}, t);
  }
}
