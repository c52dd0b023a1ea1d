/** The engine: one object over the logs, the task queues and the registered definitions (engine/engine.go,
    engine/sla.go). The drivers are recursive as in the source; each is proved to terminate, to act as its frame of
    the machine does, and to leave the run at rest. `c0` and `rest` are where the machine started and the activations
    waiting below. */
module Engines {
  import opened Model
  import opened Replaying
  import opened Machine
  import opened Settling
  import opened Moves
  import opened Resting
  import opened Backoff
  import opened Authority

  type Logs = map<RunId, Log>
  type Queues = map<RunId, multiset<StepName>>
  type Definitions = map<RunId, WorkflowDef>

  datatype Ticket = Ticket(workflow: string, version: string)

  /** Two maps about the same runs differ at most at r. */
  ghost predicate OnlyAt<T>(m: map<RunId, T>, n: map<RunId, T>, r: RunId) {
    m.Keys == n.Keys && forall x :: x in m && x != r ==> n[x] == m[x]
  }

  /** The runs were swept at `now`, but for those left: a run that loads ends as a dispatch of that run alone may leave
      it; a run that does not load, or was left, is as it was. */
  ghost predicate SweptBut(loads: Definitions, now: Time, l0: Logs, q0: Queues, l1: Logs, q1: Queues, left: set<RunId>)
  {
    && l0.Keys == l1.Keys == q0.Keys == q1.Keys
    && forall r :: r in l0 ==>
         if r in left || r !in loads then l1[r] == l0[r] && q1[r] == q0[r]
         else Swept(loads[r], now, l0[r], q0[r], l1[r], q1[r])
  }

  /** A map that gained r, and then differs at most at r. */
  ghost predicate Grew<T>(m: map<RunId, T>, n: map<RunId, T>, r: RunId) {
    n.Keys == m.Keys + {r} && forall x :: x in m && x != r ==> n[x] == m[x]
  }

  lemma GrewThen<T>(m: map<RunId, T>, v: T, n: map<RunId, T>, r: RunId)
    requires OnlyAt(m[r := v], n, r)
    ensures Grew(m, n, r)
  {
  }

  lemma Untouched<T>(m: map<RunId, T>, r: RunId)
    ensures OnlyAt(m, m, r)
  {
  }

  lemma SameRuns(loads: Definitions, now: Time, l0: Logs, q0: Queues, l1: Logs, q1: Queues, left: set<RunId>)
    requires SweptBut(loads, now, l0, q0, l1, q1, left)
    ensures l0.Keys == l1.Keys == q0.Keys == q1.Keys
  {
    hide Swept;
  }

  ghost predicate Emptied(q: Queues) {
    forall r :: r in q ==> q[r] == multiset{}
  }

  /** The queue of every live run holds exactly its pending tasks that are due. */
  ghost predicate QueuesReady(loads: Definitions, now: Time, l: Logs, q: Queues) {
    forall r, s :: r in loads && r in l && r in q && Live(loads[r], l[r]) ==>
      (s in q[r] <==> KindOf(loads[r], s) == Task && PendingIn(l[r], s) && DueBy(l[r], s, now))
  }

  lemma SweptReady(loads: Definitions, now: Time, l0: Logs, q0: Queues, l1: Logs, q1: Queues)
    requires SweptBut(loads, now, l0, q0, l1, q1, {}) && Emptied(q0)
    ensures QueuesReady(loads, now, l1, q1)
  {
    hide Swept, Live, ReadyIn, PendingIn, DueBy, KindOf;
    forall r, s | r in loads && r in l1 && r in q1 && Live(loads[r], l1[r])
      ensures s in q1[r] <==> KindOf(loads[r], s) == Task && PendingIn(l1[r], s) && DueBy(l1[r], s, now)
    {
      SweptQueue(loads[r], now, l0[r], l1[r], q1[r], s);
      ReadyIff(loads[r], now, l1[r], s);
    }
  }

  /** In every run that was swept, pending tasks were queued if they were due, and else left as they were. */
  ghost predicate AllTimely(loads: Definitions, now: Time, l0: Logs, q0: Queues, l1: Logs, q1: Queues, left: set<RunId>)
    requires l0.Keys == l1.Keys == q0.Keys == q1.Keys
  {
    forall r :: r in l0 && r in loads && r !in left ==> Timely(loads[r], now, l0[r], q0[r], l1[r], q1[r])
  }

  lemma SweptOnTime(loads: Definitions, now: Time, l0: Logs, q0: Queues, l1: Logs, q1: Queues, left: set<RunId>)
    requires SweptBut(loads, now, l0, q0, l1, q1, left)
    ensures l0.Keys == l1.Keys == q0.Keys == q1.Keys && AllTimely(loads, now, l0, q0, l1, q1, left)
  {
    hide Swept, Timely;
    forall r | r in l0 && r in loads && r !in left ensures Timely(loads[r], now, l0[r], q0[r], l1[r], q1[r]) {
      SweptTimely(loads[r], now, l0[r], q0[r], l1[r], q1[r]);
    }
  }

  lemma SweptOn(loads: Definitions, now: Time, l0: Logs, q0: Queues, l1: Logs, q1: Queues, l2: Logs, q2: Queues,
        left: set<RunId>, r: RunId)
    requires SweptBut(loads, now, l0, q0, l1, q1, left) && r in left && r in l0
    requires OnlyAt(l1, l2, r) && OnlyAt(q1, q2, r)
    requires if r in loads then Swept(loads[r], now, l1[r], q1[r], l2[r], q2[r]) else l2[r] == l1[r] && q2[r] == q1[r]
    ensures SweptBut(loads, now, l0, q0, l2, q2, left - {r})
  {
    hide Swept;
  }

  class Engine {
    var clock: Time
    var logs: Logs
    var queues: Queues
    var tickets: map<RunId, Ticket>
    var workflows: map<(string, string), WorkflowDef>
    /** The definition each run was created with. */
    ghost var defs: Definitions

    constructor (now: Time)
      ensures Valid() && Calm() && logs == map[] && workflows == map[]
    {
      clock, logs, queues, tickets, workflows, defs := now, map[], map[], map[], map[], map[];
    }

    /** Every run is where atomic operations can bring it; what is registered is the definition it was created with. */
    ghost predicate Valid()
      reads this
    {
      && logs.Keys == queues.Keys
      && (forall r :: r in logs ==> RunValid(r))
      && (forall k :: k in workflows ==> (workflows[k].name, workflows[k].version) == k)
    }

    ghost predicate RunValid(r: RunId)
      reads this
    {
      && r in logs && r in queues && r in tickets && r in defs
      && logs[r] != [] && tickets[r] == Ticket(defs[r].name, defs[r].version)
      && (DefFor(r).Some? ==> DefFor(r).value == defs[r])
      && Reachable(defs[r], Config(logs[r], queues[r], []))
    }

    /** No registered definition has a loop of instant delays: dispatching comes to an end. */
    ghost predicate Calm()
      reads `workflows
    {
      forall k :: k in workflows ==> Settles(workflows[k])
    }

    /** The definition the run r loads. */
    function DefFor(r: RunId): Option<WorkflowDef>
      reads `tickets, `workflows
    {
      if r in tickets && (tickets[r].workflow, tickets[r].version) in workflows
      then Some(workflows[(tickets[r].workflow, tickets[r].version)]) else None
    }

    /** The run exists and loads def. */
    ghost predicate Runs(r: RunId, def: WorkflowDef)
      reads this
    {
      r in logs && r in queues && logs[r] != [] && DefFor(r) == Some(def) && Settles(def)
    }

    lemma Paired()
      requires Valid()
      ensures logs.Keys == queues.Keys
    {
    }

    /** The runs that load, with their definitions. */
    ghost function Loads(): Definitions
      reads `logs, `tickets, `workflows
    {
      map r | r in logs && DefFor(r).Some? :: DefFor(r).value
    }

    /** What a valid engine says of a run. */
    lemma RunFacts(r: RunId)
      requires Valid() && r in logs
      ensures r in queues && r in defs && logs[r] != [] && Reachable(defs[r], Config(logs[r], queues[r], []))
      ensures DefFor(r).Some? ==> DefFor(r).value == defs[r]
      ensures Replay(defs[r], logs[r]).workflow == defs[r].name && Replay(defs[r], logs[r]).version == defs[r].version
      ensures DefFor(r) == if (defs[r].name, defs[r].version) in workflows then Some(defs[r]) else None
      ensures (defs[r].name, defs[r].version) in workflows ==> workflows[(defs[r].name, defs[r].version)] == defs[r]
      ensures Calm() && DefFor(r).Some? ==> Runs(r, defs[r])
    {
      hide Reachable, Settles, Replay;
      assert RunValid(r);
      RunLoaded(defs[r], logs[r], queues[r]);
    }

    /** An operation on one run that leaves it reachable keeps the engine valid. */
    twostate lemma OneRun(r: RunId)
      requires old(Valid()) && r in old(logs) && r in old(queues)
      requires OnlyAt(old(logs), logs, r) && OnlyAt(old(queues), queues, r)
      requires unchanged(`tickets) && unchanged(`workflows) && unchanged(`defs)
      requires logs[r] != [] && Reachable(defs[r], Config(logs[r], queues[r], []))
      ensures Valid()
    {
      hide Reachable, Settles;
      forall x | x in logs ensures RunValid(x) {
        assert old(RunValid(x));
      }
    }

    // ---- log and queue ---------------------------------------------------

    method Append(r: RunId, e: Event)
      requires r in logs
      modifies `logs
      ensures OnlyAt(old(logs), logs, r) && logs[r] == old(logs)[r] + [e]
    {
      logs := logs[r := logs[r] + [e]];
    }

    method Submit(r: RunId, s: StepName)
      requires r in queues
      modifies `queues
      ensures OnlyAt(old(queues), queues, r) && queues[r] == old(queues)[r] + multiset{s}
    {
      queues := queues[r := queues[r] + multiset{s}];
    }

    /** `GetRun`: replays the history of a run. */
    method GetRun(r: RunId) returns (run: Option<RunState>)
      ensures run ==
              if r in logs && logs[r] != [] && DefFor(r).Some? then Some(Replay(DefFor(r).value, logs[r])) else None
    {
      if r !in logs || logs[r] == [] { return None; }
      var def := DefFor(r);
      if def.None? { return None; }
      var w := new WorkflowRun();
      w.ApplyEvents(def.value, logs[r]);
      run := Some(w.State());
    }

    // ---- scheduleStep ----------------------------------------------------

    method ScheduleStep(r: RunId, def: WorkflowDef, s: StepName, ghost then_: After, ghost c0: Config,
          ghost rest: seq<Frame>)
      returns (ok: bool)
      requires r in logs && r in queues
      requires At(def, clock, c0, logs[r], queues[r], [Frame.ScheduleStep(s, then_)] + rest)
      modifies `logs
      ensures OnlyAt(old(logs), logs, r)
      ensures ok == Schedulable(def, s)
      ensures ok ==> logs[r] == old(logs)[r] + Scheduling(def, s, clock)
      ensures ok ==> At(def, clock, c0, logs[r], queues[r], [AfterFrame(then_)] + rest)
      ensures !ok ==> logs == old(logs) && At(def, clock, c0, logs[r], queues[r], rest)
    {
      hide At, Kept, Grown, Fed, Done, Rests, Falls, Sweeping, Continues, Narrows, Quiet, DueIn, ReadyIn, Level, Load,
           Settles, Replay, Timely;
      OnScheduleStep(def, clock, c0, logs[r], queues[r], s, then_, rest);
      var sd := Lookup(def, s);
      if sd.None? { return false; }
      var now := clock;
      var due := None;
      match sd.value.kind {
        case Delay =>
          if sd.value.delay.None? { return false; }
          due := Some(now + sd.value.delay.value);
        case Approval =>
          if sd.value.chain.None? || sd.value.chain.value == [] { return false; }
          var first := sd.value.chain.value[0];
          OnRequestFirst(def, now, c0, logs[r], queues[r], s, now, then_, rest);
          Append(r, Event(now, ApprovalRequested(s, 0, first.role, first.user, |sd.value.chain.value|)));
        case _ =>
      }
      OnEmitScheduled(def, now, c0, logs[r], queues[r], s, now, then_, rest);
      Append(r, Event(now, StepScheduled(s, sd.value.kind, due)));
      ok := true;
    }

    // ---- dispatch --------------------------------------------------------

    /** Dispatching a fresh snapshot leaves a live run with nothing to do; a run with nothing to do keeps its log. */
    method Dispatch(r: RunId, run: RunState, def: WorkflowDef, ghost c0: Config, ghost rest: seq<Frame>)
      requires Runs(r, def) && run == Replay(def, logs[r])
      requires At(def, clock, c0, logs[r], queues[r], [Frame.Dispatch(run)] + rest)
      modifies `logs, `queues
      ensures OnlyAt(old(logs), logs, r) && OnlyAt(old(queues), queues, r)
      ensures Runs(r, def) && At(def, clock, c0, logs[r], queues[r], rest)
      ensures Kept(def, clock, old(logs)[r], old(queues)[r], logs[r], queues[r])
      ensures Live(def, logs[r]) ==> Quiet(def, clock, logs[r], queues[r])
      ensures DueIn(def, clock, old(logs)[r]) == {} && Flagged(def, clock, old(logs)[r]) ==> logs == old(logs)
      ensures !Live(def, old(logs)[r]) ==> logs == old(logs) && queues == old(queues)
      ensures Timely(def, clock, old(logs)[r], old(queues)[r], logs[r], queues[r])
      decreases Level(def, logs[r]), Load(def, DueIn(def, clock, logs[r])), 4
    {
      hide At, Kept, Grown, Fed, Done, Rests, Falls, Sweeping, Continues, Narrows, Quiet, DueIn, ReadyIn, Level, Load,
           Settles, Replay, Timely;
      ghost var l0, q0 := logs[r], queues[r];
      Same(def, clock, l0, q0);
      OnDispatch(def, clock, c0, l0, q0, run, rest);
      if run.status == RCompleted || run.status == RFailed || run.status == RCancelled {
        KeptTimely(def, clock, l0, q0, l0, q0);
        return;
      }
      ghost var rest2 := [ScanApprovals(run, run.steps.Keys)] + rest;
      CheckSla(r, run, def, c0, [ScanSteps(run, run.steps.Keys)] + rest2);
      SweepStart(def, clock, l0, q0, logs[r], queues[r]);
      VisitSteps(r, run, def, l0, q0, c0, rest2);
      SweepTurn(def, clock, l0, logs[r], queues[r]);
      VisitApprovals(r, run, def, l0, q0, c0, rest);
      KeptTimely(def, clock, l0, q0, logs[r], queues[r]);
    }

    /** `CheckSLA`: flags every overdue SLA of a started run, escalating through `JumpTo`. */
    method CheckSla(r: RunId, run: RunState, def: WorkflowDef, ghost c0: Config, ghost rest: seq<Frame>)
      requires Runs(r, def) && run == Replay(def, logs[r]) && !Terminal(run.status)
      requires At(def, clock, c0, logs[r], queues[r], [Frame.CheckSla(run)] + rest)
      modifies `logs, `queues
      ensures OnlyAt(old(logs), logs, r) && OnlyAt(old(queues), queues, r)
      ensures Runs(r, def) && At(def, clock, c0, logs[r], queues[r], rest)
      ensures Kept(def, clock, old(logs)[r], old(queues)[r], logs[r], queues[r])
      ensures Rests(def, clock, old(logs)[r], logs[r], queues[r])
      ensures Live(def, logs[r]) ==> Flagged(def, clock, logs[r])
      ensures Flagged(def, clock, old(logs)[r]) ==> logs == old(logs) && queues == old(queues)
      decreases Level(def, logs[r]), Load(def, DueIn(def, clock, logs[r])), 2
    {
      hide At, Kept, Grown, Fed, Done, Rests, Falls, Sweeping, Continues, Narrows, Quiet, DueIn, ReadyIn, Level, Load,
           Settles, Replay, Timely, Passed;
      ghost var l0, q0 := logs[r], queues[r];
      Same(def, clock, l0, q0);
      OnCheckSla(def, clock, c0, l0, q0, run, rest);
      if def.slas == [] { return; }
      if run.status != RActive && run.status != RWaiting { return; }
      var breached := BreachedNames(r);
      var now := clock;
      PassedNone(def, run, now, l0);
      for k := 0 to |def.slas|
        invariant OnlyAt(old(logs), logs, r) && OnlyAt(old(queues), queues, r) && Runs(r, def)
        invariant At(def, now, c0, logs[r], queues[r], [SlaLoop(run, breached, k, now)] + rest)
        invariant Kept(def, clock, l0, q0, logs[r], queues[r]) && Rests(def, now, l0, logs[r], queues[r])
        invariant Passed(def, run, now, k, logs[r])
        invariant Overdue(def, now, run.createdAt) <= breached ==> logs == old(logs) && queues == old(queues)
      {
        ghost var l1, q1 := logs[r], queues[r];
        var sla := def.slas[k];
        if sla.name in breached || now <= run.createdAt + sla.duration {
          KeptMeans(def, clock, l0, q0, l1, q1);
          Same(def, now, l1, q1);
          PassedOn(def, run, now, k, l1, q1, l1, q1);
          OnSlaSkip(def, now, c0, l1, q1, run, breached, k, now, rest);
          continue;
        }
        FlagSla(r, run, def, breached, k, l0, q0, c0, rest);
        PassedOn(def, run, now, k, l1, q1, logs[r], queues[r]);
        assert sla.name in Overdue(def, now, run.createdAt);
      }
      OnSlaEnd(def, now, c0, logs[r], queues[r], run, breached, now, rest);
      PassedAll(def, l0, q0, now, logs[r], queues[r]);
    }

    /** The k-th SLA is overdue and not in the `breached` the loop started with: flag it, and escalate. */
    method FlagSla(r: RunId, run: RunState, def: WorkflowDef, breached: set<string>, k: nat, ghost l0: Log,
          ghost q0: multiset<StepName>, ghost c0: Config, ghost rest: seq<Frame>)
      requires Runs(r, def) && k < |def.slas| && Live(def, l0) && breached == Breached(l0)
      requires def.slas[k].name !in breached && clock > run.createdAt + def.slas[k].duration
      requires Kept(def, clock, l0, q0, logs[r], queues[r]) && Rests(def, clock, l0, logs[r], queues[r])
      requires At(def, clock, c0, logs[r], queues[r], [SlaLoop(run, breached, k, clock)] + rest)
      modifies `logs, `queues
      ensures OnlyAt(old(logs), logs, r) && OnlyAt(old(queues), queues, r)
      ensures Runs(r, def) && At(def, clock, c0, logs[r], queues[r], [SlaLoop(run, breached, k + 1, clock)] + rest)
      ensures Kept(def, clock, old(logs)[r], old(queues)[r], logs[r], queues[r])
      ensures Kept(def, clock, l0, q0, logs[r], queues[r]) && Rests(def, clock, l0, logs[r], queues[r])
      ensures def.slas[k].name in Breached(logs[r])
      decreases Level(def, l0), Load(def, DueIn(def, clock, l0)), 1
    {
      hide At, Kept, Grown, Fed, Done, Rests, Falls, Sweeping, Continues, Narrows, Quiet, DueIn, ReadyIn, Level, Load,
           Settles, Replay, Timely;
      var sla := def.slas[k];
      ghost var l1, q1 := logs[r], queues[r];
      OnSlaFlag(def, clock, c0, l1, q1, run, breached, k, clock, rest);
      FlagRests(def, clock, l1, q1, Event(clock, SlaBreached(sla.name, run.current)));
      Append(r, Event(clock, SlaBreached(sla.name, run.current)));
      ghost var l2, q2 := logs[r], queues[r];
      KeptThen(def, clock, l0, q0, l1, q1, l2, q2);
      RestsThen(def, clock, l0, l1, q1, l2, q2);
      FlagDrops(def, clock, l0, q0, l2, q2, k);
      if sla.onBreach != "" {
        JumpTo(r, run, def, sla.onBreach, c0, [SlaLoop(run, breached, k + 1, clock)] + rest);
        KeptThen(def, clock, l0, q0, l2, q2, logs[r], queues[r]);
        KeptThen(def, clock, l1, q1, l2, q2, logs[r], queues[r]);
        RestsThen(def, clock, l0, l2, q2, logs[r], queues[r]);
        KeptMeans(def, clock, l2, q2, logs[r], queues[r]);
      }
    }

    /** The names of the SLAs the history flags. */
    method BreachedNames(r: RunId) returns (names: set<string>)
      requires r in logs
      ensures names == Breached(logs[r])
    {
      names := {};
      var events := logs[r];
      for k := 0 to |events|
        invariant names == Breached(events[..k])
      {
        assert events[..k + 1] == events[..k] + [events[k]];
        BreachedAppend(events[..k], events[k]);
        match events[k].body {
          case SlaBreached(sla, _) => names := names + {sla};
          case _ =>
        }
      }
      assert events[..|events|] == events;
    }

    method JumpTo(r: RunId, run: RunState, def: WorkflowDef, s: StepName, ghost c0: Config, ghost rest: seq<Frame>)
      requires Runs(r, def)
      requires At(def, clock, c0, logs[r], queues[r], [Frame.JumpTo(run, s)] + rest)
      modifies `logs, `queues
      ensures OnlyAt(old(logs), logs, r) && OnlyAt(old(queues), queues, r)
      ensures Runs(r, def) && At(def, clock, c0, logs[r], queues[r], rest)
      ensures Kept(def, clock, old(logs)[r], old(queues)[r], logs[r], queues[r])
      ensures Rests(def, clock, old(logs)[r], logs[r], queues[r])
      decreases Level(def, logs[r]), Load(def, DueIn(def, clock, logs[r])) + Gain(def, s), 6
    {
      hide At, Kept, Grown, Fed, Done, Rests, Falls, Sweeping, Continues, Narrows, Quiet, DueIn, ReadyIn, Level, Load,
           Settles, Replay, Timely;
      Same(def, clock, logs[r], queues[r]);
      OnJumpTo(def, clock, c0, logs[r], queues[r], run, s, rest);
      if s in run.steps {
        var st := run.steps[s].status;
        if st == SPending || st == SRunning || st == SWaiting { return; }
      }
      ScheduleAndDispatch(r, def, s, c0, rest);
    }

    /** The tail of `jumpTo` and `advance`: schedule a step, then dispatch what the log says now. */
    method ScheduleAndDispatch(r: RunId, def: WorkflowDef, s: StepName, ghost c0: Config, ghost rest: seq<Frame>)
      requires Runs(r, def)
      requires At(def, clock, c0, logs[r], queues[r], [Frame.ScheduleStep(s, ThenDispatch)] + rest)
      modifies `logs, `queues
      ensures OnlyAt(old(logs), logs, r) && OnlyAt(old(queues), queues, r)
      ensures Runs(r, def) && At(def, clock, c0, logs[r], queues[r], rest)
      ensures Kept(def, clock, old(logs)[r], old(queues)[r], logs[r], queues[r])
      ensures Rests(def, clock, old(logs)[r], logs[r], queues[r])
      decreases Level(def, logs[r]), Load(def, DueIn(def, clock, logs[r])) + Gain(def, s), 5
    {
      hide At, Kept, Grown, Fed, Done, Rests, Falls, Sweeping, Continues, Narrows, Quiet, DueIn, ReadyIn, Level, Load,
           Settles, Replay, Timely;
      ghost var l0, q0 := logs[r], queues[r];
      Same(def, clock, l0, q0);
      var ok := ScheduleStep(r, def, s, ThenDispatch, c0, rest);
      if !ok { return; }
      ghost var l1, q1 := logs[r], queues[r];
      SchedulingRests(def, clock, l0, q0, s);
      KeptMeans(def, clock, l0, q0, l1, q1);
      LoadWith(def, DueIn(def, clock, l0), DueIn(def, clock, l1), s);
      OnRefresh(def, clock, c0, l1, q1, rest);
      var run := GetRun(r);
      Dispatch(r, run.value, def, c0, rest);
      KeptThen(def, clock, l0, q0, l1, q1, logs[r], queues[r]);
      QuietRests(def, clock, l0, logs[r], queues[r]);
    }

    /** The first loop of `dispatch`: submits ready tasks and fires timers that are due. */
    method VisitSteps(r: RunId, run: RunState, def: WorkflowDef, ghost l0: Log, ghost q0: multiset<StepName>,
          ghost c0: Config, ghost rest: seq<Frame>)
      requires Runs(r, def) && run == Replay(def, l0) && Live(def, l0) && Kept(def, clock, l0, q0, logs[r], queues[r])
      requires At(def, clock, c0, logs[r], queues[r], [ScanSteps(run, run.steps.Keys)] + rest)
      requires Sweeping(def, clock, l0, logs[r], queues[r], run.steps.Keys, false)
      modifies `logs, `queues
      ensures OnlyAt(old(logs), logs, r) && OnlyAt(old(queues), queues, r)
      ensures Runs(r, def) && At(def, clock, c0, logs[r], queues[r], rest)
      ensures Kept(def, clock, l0, q0, logs[r], queues[r])
      ensures DueIn(def, clock, l0) == {} ==> logs == old(logs)
      ensures Sweeping(def, clock, l0, logs[r], queues[r], {}, false)
      decreases Level(def, l0), Load(def, DueIn(def, clock, l0)), 3
    {
      hide At, Kept, Grown, Fed, Done, Rests, Falls, Sweeping, Continues, Narrows, Quiet, DueIn, ReadyIn, Level, Load,
           Settles, Replay, Timely;
      var todo := run.steps.Keys;
      while todo != {}
        invariant todo <= run.steps.Keys
        invariant OnlyAt(old(logs), logs, r) && OnlyAt(old(queues), queues, r) && Runs(r, def)
        invariant At(def, clock, c0, logs[r], queues[r], [Scan(false, run, todo)] + rest)
        invariant Kept(def, clock, l0, q0, logs[r], queues[r])
        invariant DueIn(def, clock, l0) == {} ==> logs == old(logs)
        invariant Sweeping(def, clock, l0, logs[r], queues[r], todo, false)
        decreases todo
      {
        var s :| s in todo;
        VisitStep(r, run, def, s, todo, l0, q0, c0, rest);
        todo := todo - {s};
      }
      OnScanEnd(def, clock, c0, logs[r], queues[r], ScanSteps(run, todo), rest);
    }

    /** One turn of that loop. */
    method VisitStep(r: RunId, run: RunState, def: WorkflowDef, s: StepName, ghost todo: set<StepName>, ghost l0: Log,
          ghost q0: multiset<StepName>, ghost c0: Config, ghost rest: seq<Frame>)
      requires Runs(r, def) && run == Replay(def, l0) && Live(def, l0) && Kept(def, clock, l0, q0, logs[r], queues[r])
      requires s in todo && todo <= run.steps.Keys
      requires At(def, clock, c0, logs[r], queues[r], [Scan(false, run, todo)] + rest)
      requires Sweeping(def, clock, l0, logs[r], queues[r], todo, false)
      modifies `logs, `queues
      ensures OnlyAt(old(logs), logs, r) && OnlyAt(old(queues), queues, r)
      ensures Runs(r, def) && At(def, clock, c0, logs[r], queues[r], [Scan(false, run, todo - {s})] + rest)
      ensures Kept(def, clock, l0, q0, logs[r], queues[r])
      ensures DueIn(def, clock, l0) == {} ==> logs == old(logs)
      ensures Sweeping(def, clock, l0, logs[r], queues[r], todo - {s}, false)
      decreases Level(def, l0), Load(def, DueIn(def, clock, l0)), 2
    {
      hide At, Kept, Grown, Fed, Done, Rests, Falls, Sweeping, Continues, Narrows, Quiet, DueIn, ReadyIn, Level, Load,
           Settles, Replay, Timely, KindOf, Scan;
      var st := run.steps[s];
      Visited(def, clock, l0, s);
      ghost var l2, q2 := logs[r], queues[r];
      if st.kind == Task && st.status == SPending && (st.due.None? || st.due.value <= clock) {
        OnScanTask(def, clock, c0, l2, q2, false, run, todo, s, rest);
        SweepSubmit(def, clock, l0, l2, q2, todo, s);
        Submit(r, s);
        MoreQueued(def, clock, l0, q0, l2, q2, s);
      } else if st.kind == Delay && st.status == SWaiting && st.due.Some? && st.due.value <= clock {
        OnScanTimer(def, clock, c0, l2, q2, false, run, todo, s, rest);
        KeptMeans(def, clock, l0, q0, l2, q2);
        FireLoad(def, clock, l0, l2, q2, todo, s, false);
        FireTimer(r, run, def, s, c0, [Scan(false, run, todo - {s})] + rest);
        KeptThen(def, clock, l0, q0, l2, q2, logs[r], queues[r]);
        SweepOn(def, clock, l0, l2, q2, logs[r], queues[r], todo, s, false);
      } else {
        OnScanNothing(def, clock, c0, l2, q2, false, run, todo, s, rest);
        SweepPast(def, clock, l0, l2, q2, todo, s, false);
      }
    }

    /** The second loop of `dispatch`: advances the approvals that wait. */
    method VisitApprovals(r: RunId, run: RunState, def: WorkflowDef, ghost l0: Log, ghost q0: multiset<StepName>,
          ghost c0: Config, ghost rest: seq<Frame>)
      requires Runs(r, def) && run == Replay(def, l0) && Live(def, l0) && Kept(def, clock, l0, q0, logs[r], queues[r])
      requires At(def, clock, c0, logs[r], queues[r], [ScanApprovals(run, run.steps.Keys)] + rest)
      requires Sweeping(def, clock, l0, logs[r], queues[r], run.steps.Keys, true)
      modifies `logs, `queues
      ensures OnlyAt(old(logs), logs, r) && OnlyAt(old(queues), queues, r)
      ensures Runs(r, def) && At(def, clock, c0, logs[r], queues[r], rest)
      ensures Kept(def, clock, l0, q0, logs[r], queues[r])
      ensures DueIn(def, clock, l0) == {} ==> logs == old(logs)
      ensures Live(def, logs[r]) ==> Quiet(def, clock, logs[r], queues[r])
      decreases Level(def, l0), Load(def, DueIn(def, clock, l0)), 3
    {
      hide At, Kept, Grown, Fed, Done, Rests, Falls, Sweeping, Continues, Narrows, Quiet, DueIn, ReadyIn, Level, Load,
           Settles, Replay, Timely;
      var todo := run.steps.Keys;
      while todo != {}
        invariant todo <= run.steps.Keys
        invariant OnlyAt(old(logs), logs, r) && OnlyAt(old(queues), queues, r) && Runs(r, def)
        invariant At(def, clock, c0, logs[r], queues[r], [ScanApprovals(run, todo)] + rest)
        invariant Kept(def, clock, l0, q0, logs[r], queues[r])
        invariant DueIn(def, clock, l0) == {} ==> logs == old(logs)
        invariant Sweeping(def, clock, l0, logs[r], queues[r], todo, true)
        decreases todo
      {
        var s :| s in todo;
        VisitApproval(r, run, def, s, todo, l0, q0, c0, rest);
        todo := todo - {s};
      }
      OnScanEnd(def, clock, c0, logs[r], queues[r], ScanApprovals(run, todo), rest);
      SweepEnd(def, clock, l0, logs[r], queues[r]);
    }

    /** One turn of that loop. */
    method VisitApproval(r: RunId, run: RunState, def: WorkflowDef, s: StepName, ghost todo: set<StepName>,
          ghost l0: Log, ghost q0: multiset<StepName>, ghost c0: Config, ghost rest: seq<Frame>)
      requires Runs(r, def) && run == Replay(def, l0) && Live(def, l0) && Kept(def, clock, l0, q0, logs[r], queues[r])
      requires s in todo && todo <= run.steps.Keys
      requires At(def, clock, c0, logs[r], queues[r], [ScanApprovals(run, todo)] + rest)
      requires Sweeping(def, clock, l0, logs[r], queues[r], todo, true)
      modifies `logs, `queues
      ensures OnlyAt(old(logs), logs, r) && OnlyAt(old(queues), queues, r)
      ensures Runs(r, def) && At(def, clock, c0, logs[r], queues[r], [ScanApprovals(run, todo - {s})] + rest)
      ensures Kept(def, clock, l0, q0, logs[r], queues[r])
      ensures DueIn(def, clock, l0) == {} ==> logs == old(logs)
      ensures Sweeping(def, clock, l0, logs[r], queues[r], todo - {s}, true)
      decreases Level(def, l0), Load(def, DueIn(def, clock, l0)), 2
    {
      hide At, Kept, Grown, Fed, Done, Rests, Falls, Sweeping, Continues, Narrows, Quiet, DueIn, ReadyIn, Level, Load,
           Settles, Replay, Timely, KindOf;
      var st := run.steps[s];
      Visited(def, clock, l0, s);
      ghost var l2, q2 := logs[r], queues[r];
      Same(def, clock, l2, q2);
      OnScanApproval(def, clock, c0, l2, q2, run, todo, s, rest);
      if st.kind == Approval && st.status == SWaiting && st.approval.Some? {
        KeptMeans(def, clock, l0, q0, l2, q2);
        if s in DueIn(def, clock, l0) { FireLoad(def, clock, l0, l2, q2, todo, s, true); }
        AdvanceApproval(r, run, def, s, c0, [ScanApprovals(run, todo - {s})] + rest);
        KeptThen(def, clock, l0, q0, l2, q2, logs[r], queues[r]);
        if s in DueIn(def, clock, l0) {
          SweepOn(def, clock, l0, l2, q2, logs[r], queues[r], todo, s, true);
        } else {
          SweepPast(def, clock, l0, l2, q2, todo, s, true);
        }
      } else {
        SweepPast(def, clock, l0, l2, q2, todo, s, true);
      }
    }

    // ---- advance, fireTimer, advanceApproval -----------------------------

    method FireTimer(r: RunId, run: RunState, def: WorkflowDef, s: StepName, ghost c0: Config, ghost rest: seq<Frame>)
      requires Runs(r, def)
      requires At(def, clock, c0, logs[r], queues[r], [Frame.FireTimer(run, s)] + rest)
      modifies `logs, `queues
      ensures OnlyAt(old(logs), logs, r) && OnlyAt(old(queues), queues, r)
      ensures Runs(r, def) && At(def, clock, c0, logs[r], queues[r], rest)
      ensures Grown(def, old(logs)[r], old(queues)[r], logs[r], queues[r])
      ensures KindOf(def, s) != Task ==> Kept(def, clock, old(logs)[r], old(queues)[r], logs[r], queues[r])
      ensures Falls(def, clock, old(logs)[r], logs[r], queues[r], s)
      decreases Level(def, logs[r]), Load(def, DueIn(def, clock, logs[r]) - {s}) + Weight(def, s), 1
    {
      hide At, Kept, Grown, Fed, Done, Rests, Falls, Sweeping, Continues, Narrows, Quiet, DueIn, ReadyIn, Level, Load,
           Settles, Replay, Timely;
      ghost var l0, q0 := logs[r], queues[r];
      FiredRests(def, clock, l0, q0, s);
      OnFireTimer(def, clock, c0, logs[r], queues[r], run, s, rest);
      Append(r, Event(clock, TimerFired(s)));
      OnCompleteStep(def, clock, c0, logs[r], queues[r], run, s, map[], rest);
      Append(r, Event(clock, StepCompleted(s, map[])));
      FinishStep(r, run, def, s, l0, c0, rest);
    }

    /** After the STEP_COMPLETED of a step that was due: advance. */
    method FinishStep(r: RunId, run: RunState, def: WorkflowDef, s: StepName, ghost l0: Log, ghost c0: Config,
          ghost rest: seq<Frame>)
      requires Runs(r, def) && Done(def, clock, l0, queues[r], logs[r], s)
      requires At(def, clock, c0, logs[r], queues[r], [Frame.Advance(run, s, true)] + rest)
      modifies `logs, `queues
      ensures OnlyAt(old(logs), logs, r) && OnlyAt(old(queues), queues, r)
      ensures Runs(r, def) && At(def, clock, c0, logs[r], queues[r], rest)
      ensures Grown(def, l0, old(queues)[r], logs[r], queues[r])
      ensures KindOf(def, s) != Task ==> Kept(def, clock, l0, old(queues)[r], logs[r], queues[r])
      ensures Falls(def, clock, l0, logs[r], queues[r], s)
      decreases Level(def, l0), Load(def, DueIn(def, clock, l0) - {s}) + Weight(def, s), 0
    {
      hide At, Kept, Grown, Fed, Done, Rests, Falls, Sweeping, Continues, Narrows, Quiet, DueIn, ReadyIn, Level, Load,
           Settles, Replay, Timely;
      ghost var l1, q1 := logs[r], queues[r];
      DoneMeans(def, clock, l0, q1, l1, s);
      GrownMeans(def, l0, q1, l1, q1);
      WeightIsGain(def, s);
      LoadMonotone(def, DueIn(def, clock, l1), DueIn(def, clock, l0) - {s});
      Advance(r, run, def, s, true, c0, rest);
      KeptGrows(def, clock, l1, q1, logs[r], queues[r]);
      GrownThen(def, l0, q1, l1, q1, logs[r], queues[r]);
      if KindOf(def, s) != Task { KeptThen(def, clock, l0, q1, l1, q1, logs[r], queues[r]); }
      FallsThen(def, clock, l0, q1, l1, logs[r], queues[r], s);
    }

    /** `advance`: schedules the successor of a finished step, or ends the run. */
    method Advance(r: RunId, run: RunState, def: WorkflowDef, s: StepName, succeeded: bool, ghost c0: Config,
          ghost rest: seq<Frame>)
      requires Runs(r, def)
      requires At(def, clock, c0, logs[r], queues[r], [Frame.Advance(run, s, succeeded)] + rest)
      modifies `logs, `queues
      ensures OnlyAt(old(logs), logs, r) && OnlyAt(old(queues), queues, r)
      ensures Runs(r, def) && At(def, clock, c0, logs[r], queues[r], rest)
      ensures Kept(def, clock, old(logs)[r], old(queues)[r], logs[r], queues[r])
      ensures Rests(def, clock, old(logs)[r], logs[r], queues[r])
      decreases Level(def, logs[r]), Load(def, DueIn(def, clock, logs[r])) + GainAfter(def, s, succeeded), 6
    {
      hide At, Kept, Grown, Fed, Done, Rests, Falls, Sweeping, Continues, Narrows, Quiet, DueIn, ReadyIn, Level, Load,
           Settles, Replay, Timely;
      OnAdvance(def, clock, c0, logs[r], queues[r], run, s, succeeded, rest);
      var next := "";
      var sd := Lookup(def, s);
      if sd.Some? { next := if succeeded then sd.value.next else sd.value.onError; }
      if next == "" {
        EndingRests(def, clock, logs[r], queues[r], Event(clock, EndingBody(run, s, succeeded)));
        if succeeded && !run.failed {
          Append(r, Event(clock, RunCompleted(s)));
        } else {
          Append(r, Event(clock, RunFailed(s, if s in run.steps then run.steps[s].error else NoReason)));
        }
        return;
      }
      ScheduleAndDispatch(r, def, next, c0, rest);
    }

    /** `advanceApproval`: requests the next link of a granted approval, or completes the step. */
    method AdvanceApproval(r: RunId, run: RunState, def: WorkflowDef, s: StepName, ghost c0: Config,
          ghost rest: seq<Frame>)
      requires Runs(r, def)
      requires At(def, clock, c0, logs[r], queues[r], [Frame.AdvanceApproval(run, s)] + rest)
      modifies `logs, `queues
      ensures OnlyAt(old(logs), logs, r) && OnlyAt(old(queues), queues, r)
      ensures Runs(r, def) && At(def, clock, c0, logs[r], queues[r], rest)
      ensures Grown(def, old(logs)[r], old(queues)[r], logs[r], queues[r])
      ensures !HasGrant(run, s) || KindOf(def, s) != Task ==>
                Kept(def, clock, old(logs)[r], old(queues)[r], logs[r], queues[r])
      ensures HasGrant(run, s) && KindOf(def, s) == Approval ==> Falls(def, clock, old(logs)[r], logs[r], queues[r], s)
      ensures !HasGrant(run, s) ==> logs == old(logs) && queues == old(queues)
      decreases Level(def, logs[r]),
                if HasGrant(run, s) then Load(def, DueIn(def, clock, logs[r]) - {s}) + Weight(def, s) else 0, 1
    {
      hide At, Kept, Grown, Fed, Done, Rests, Falls, Sweeping, Continues, Narrows, Quiet, DueIn, ReadyIn, Level, Load,
           Settles, Replay, Timely;
      Same(def, clock, logs[r], queues[r]);
      KeptGrows(def, clock, logs[r], queues[r], logs[r], queues[r]);
      OnAdvanceApproval(def, clock, c0, logs[r], queues[r], run, s, rest);
      if s !in run.steps || run.steps[s].approval.None? { return; }
      var a := run.steps[s].approval.value;
      if a.status != LinkGranted { return; }
      if a.index + 1 < |a.chain| {
        var next := a.index + 1;
        var link := a.chain[next];
        RequestRests(def, clock, logs[r], queues[r], Event(clock, NextRequest(a, s)));
        Append(r, Event(clock, ApprovalRequested(s, next, link.role, link.user, |a.chain|)));
        return;
      }
      ghost var l0 := logs[r];
      DoneRests(def, clock, logs[r], queues[r], s, map[]);
      OnCompleteStep(def, clock, c0, logs[r], queues[r], run, s, map[], rest);
      Append(r, Event(clock, StepCompleted(s, map[])));
      FinishStep(r, run, def, s, l0, c0, rest);
    }

    // ---- executeTask, handleTaskFailure, failStep ------------------------

    /** `failStep`: marks the run as failing, then takes the error branch. */
    method FailStep(r: RunId, run: RunState, def: WorkflowDef, s: StepName, reason: Reason, ghost c0: Config,
          ghost rest: seq<Frame>)
      requires Runs(r, def) && s in run.steps
      requires At(def, clock, c0, logs[r], queues[r], [Frame.FailStep(run, s, reason)] + rest)
      modifies `logs, `queues
      ensures OnlyAt(old(logs), logs, r) && OnlyAt(old(queues), queues, r)
      ensures Runs(r, def) && At(def, clock, c0, logs[r], queues[r], rest)
      ensures old(logs)[r] + Failing(clock, s, reason, run.steps[s].attempt) <= logs[r]
    {
      hide At, Kept, Grown, Fed, Done, Rests, Falls, Sweeping, Continues, Narrows, Quiet, DueIn, ReadyIn, Level, Load,
           Settles, Replay, Timely, Reachable;
      ghost var l0 := logs[r];
      OnFailStep(def, clock, c0, logs[r], queues[r], run, s, reason, rest);
      Append(r, Event(clock, StepFailed(s, reason, run.steps[s].attempt)));
      OnMarkFailing(def, clock, c0, logs[r], queues[r], run, s, reason, rest);
      Append(r, Event(clock, RunFailing(s, reason)));
      ghost var l1, q1 := logs[r], queues[r];
      assert l1 == l0 + Failing(clock, s, reason, run.steps[s].attempt);
      Advance(r, run, def, s, false, c0, rest);
      KeptMeans(def, clock, l1, q1, logs[r], queues[r]);
    }

    /** `handleTaskFailure`: re-schedules the step while attempts are left, else fails it. */
    method HandleTaskFailure(r: RunId, run: RunState, def: WorkflowDef, s: StepName, sd: StepDef, reason: Reason,
          ghost start: nat, ghost c0: Config, ghost rest: seq<Frame>)
      requires Runs(r, def) && s in run.steps && Lookup(def, s) == Some(sd)
      requires At(def, clock, c0, logs[r], queues[r], [Frame.HandleFailure(run, s, reason, start)] + rest)
      modifies `logs, `queues
      ensures OnlyAt(old(logs), logs, r) && OnlyAt(old(queues), queues, r)
      ensures Runs(r, def) && At(def, clock, c0, logs[r], queues[r], rest)
      ensures FailureLeft(sd, clock, s, reason, run.steps[s].attempt, old(logs)[r], logs[r])
      ensures MayRetry(sd, run.steps[s].attempt) && Live(def, logs[r]) ==> Quiet(def, clock, logs[r], queues[r])
      ensures MayRetry(sd, run.steps[s].attempt) && sd.kind == Task && sd.retry.delay > 0 ==>
                queues[r][s] == old(queues)[r][s]
    {
      hide At, Kept, Grown, Fed, Done, Rests, Falls, Sweeping, Continues, Narrows, Quiet, DueIn, ReadyIn, Level, Load,
           Settles, Replay, Timely, Reachable, FailureLeft, Failing, RetryBody;
      var st := run.steps[s];
      ghost var l0 := logs[r];
      OnHandleFailure(def, clock, c0, logs[r], queues[r], run, s, reason, start, rest);
      var maxAttempts := sd.retry.maxAttempts;
      if maxAttempts <= 0 { maxAttempts := 1; }
      if st.attempt < maxAttempts {
        Append(r, Event(clock, StepFailed(s, reason, st.attempt)));
        Retry(r, def, s, sd, start, c0, rest);
        RetryLeft(sd, clock, s, reason, st.attempt, l0, logs[r]);
        return;
      }
      FailStep(r, run, def, s, reason, c0, rest);
      ErrorLeft(sd, clock, s, reason, st.attempt, l0, logs[r]);
    }

    /** The end of the retry branch: schedules the step again, after its backoff, and dispatches. */
    method Retry(r: RunId, def: WorkflowDef, s: StepName, sd: StepDef, ghost start: nat, ghost c0: Config,
          ghost rest: seq<Frame>)
      requires Runs(r, def) && Lookup(def, s) == Some(sd)
      requires At(def, clock, c0, logs[r], queues[r], [Frame.Reschedule(s, start)] + rest)
      modifies `logs, `queues
      ensures OnlyAt(old(logs), logs, r) && OnlyAt(old(queues), queues, r)
      ensures Runs(r, def) && At(def, clock, c0, logs[r], queues[r], rest)
      ensures var due := if sd.retry.delay > 0 then Some(clock + sd.retry.delay) else None;
              old(logs)[r] + [Event(clock, StepScheduled(s, Task, due))] <= logs[r]
      ensures Live(def, logs[r]) ==> Quiet(def, clock, logs[r], queues[r])
      ensures sd.kind == Task && sd.retry.delay > 0 ==> queues[r][s] == old(queues)[r][s]
    {
      hide At, Kept, Grown, Fed, Done, Rests, Falls, Sweeping, Continues, Narrows, Quiet, DueIn, ReadyIn, Level, Load,
           Settles, Replay, Timely, Reachable, PendingIn, DueBy, RetryBody, KindOf;
      var due := None;
      if sd.retry.delay > 0 { due := Some(clock + sd.retry.delay); }
      RetryIs(def, s, sd, clock);
      OnReschedule(def, clock, c0, logs[r], queues[r], s, start, rest);
      ghost var l0 := logs[r];
      Append(r, Event(clock, StepScheduled(s, Task, due)));
      ghost var l1, q1 := logs[r], queues[r];
      OnRefresh(def, clock, c0, l1, q1, rest);
      var again := GetRun(r);
      Dispatch(r, again.value, def, c0, rest);
      KeptMeans(def, clock, l1, q1, logs[r], queues[r]);
      if due.Some? {
        Armed(l0, s, clock, due.value, clock);
        StaysQueued(def, clock, l1, q1, logs[r], queues[r], s);
      }
    }

    /** The part of `executeTask` after the run and its definition were read. */
    method RunTask(r: RunId, run: RunState, def: WorkflowDef, s: StepName, outcome: Outcome, ghost c0: Config)
      requires Runs(r, def) && run == Replay(def, logs[r]) && s in run.steps
      requires At(def, clock, c0, logs[r], queues[r], [Frame.ExecuteTask(s)])
      modifies `logs, `queues
      ensures OnlyAt(old(logs), logs, r) && OnlyAt(old(queues), queues, r)
      ensures Runs(r, def) && At(def, clock, c0, logs[r], queues[r], [])
      ensures TaskLeft(def, clock, s, outcome, old(logs)[r], logs[r]) && old(logs)[r] <= logs[r]
      ensures BacksOff(def, s, outcome, old(logs)[r]) ==> queues[r][s] == old(queues)[r][s]
    {
      hide At, Kept, Grown, Fed, Done, Rests, Falls, Sweeping, Continues, Narrows, Quiet, DueIn, ReadyIn, Level, Load,
           Settles, Replay, Timely, Reachable, TaskLeft, FailureLeft, Failing;
      assert [Frame.ExecuteTask(s)] + [] == [Frame.ExecuteTask(s)];
      OnExecuteTask(def, clock, c0, logs[r], queues[r], s, []);
      OnStartTask(def, clock, outcome, c0, logs[r], queues[r], run, s, []);
      var sd := Lookup(def, s);
      ghost var l0 := logs[r];
      if sd.None? {
        TaskUnknown(def, clock, s, outcome, l0);
        return;
      }
      if outcome.NoHandler? {
        AttemptIsStarts(def, l0, s);
        FailStep(r, run, def, s, NoHandlerFor(sd.value.task), c0, []);
        TaskUnhandled(def, clock, s, l0, logs[r]);
        return;
      }
      StartCounts(def, l0, Event(clock, StepStarted(s)));
      Append(r, Event(clock, StepStarted(s)));
      RunHandler(r, run, def, s, sd.value, outcome, |l0|, c0);
      TaskHandled(def, clock, s, outcome, l0, logs[r]);
    }

    /** The handler ran: record what it did. */
    method RunHandler(r: RunId, run: RunState, def: WorkflowDef, s: StepName, sd: StepDef, outcome: Outcome,
          ghost start: nat, ghost c0: Config)
      requires Runs(r, def) && s in Replay(def, logs[r]).steps && Lookup(def, s) == Some(sd) && !outcome.NoHandler?
      requires At(def, clock, c0, logs[r], queues[r], [Frame.RunHandler(run, s, start)] + [])
      modifies `logs, `queues
      ensures OnlyAt(old(logs), logs, r) && OnlyAt(old(queues), queues, r)
      ensures Runs(r, def) && At(def, clock, c0, logs[r], queues[r], [])
      ensures outcome.Succeeds? ==> old(logs)[r] + [Event(clock, StepCompleted(s, outcome.output))] <= logs[r]
      ensures outcome.Fails? ==>
                FailureLeft(sd, clock, s, Said(outcome.reason), Starts(old(logs)[r], s), old(logs)[r], logs[r])
      ensures outcome.Fails? && MayRetry(sd, Starts(old(logs)[r], s)) && sd.kind == Task && sd.retry.delay > 0 ==>
                queues[r][s] == old(queues)[r][s]
    {
      hide At, Kept, Grown, Fed, Done, Rests, Falls, Sweeping, Continues, Narrows, Quiet, DueIn, ReadyIn, Level, Load,
           Settles, Replay, Timely, Reachable;
      ghost var l1, q1 := logs[r], queues[r];
      OnRunHandler(def, clock, outcome, c0, l1, q1, run, s, start, []);
      match outcome {
        case Succeeds(out) =>
          OnCompleteStep(def, clock, c0, l1, q1, run, s, out, []);
          Append(r, Event(clock, StepCompleted(s, out)));
          ghost var l2, q2 := logs[r], queues[r];
          Advance(r, run, def, s, true, c0, []);
          KeptMeans(def, clock, l2, q2, logs[r], queues[r]);
        case Fails(reason) =>
          OnTaskFailed(def, clock, c0, l1, q1, run, s, Said(reason), start, []);
          AttemptIsStarts(def, l1, s);
          var again := GetRun(r);
          HandleTaskFailure(r, again.value, def, s, sd, Said(reason), start, c0, []);
      }
    }

    // ---- Approve, dispatchAfter ------------------------------------------

    /** `dispatchAfter`: submits pending tasks, whatever their due time, and fires due timers of the snapshot. */
    method DispatchAfter(r: RunId, run: RunState, def: WorkflowDef, ghost c0: Config)
      requires Runs(r, def)
      requires At(def, clock, c0, logs[r], queues[r], [Frame.DispatchAfter(run)])
      modifies `logs, `queues
      ensures OnlyAt(old(logs), logs, r) && OnlyAt(old(queues), queues, r)
      ensures Runs(r, def) && At(def, clock, c0, logs[r], queues[r], [])
      ensures Grown(def, old(logs)[r], old(queues)[r], logs[r], queues[r])
      ensures !Terminal(run.status) ==>
                forall s :: s in run.steps && run.steps[s].kind == Task && run.steps[s].status == SPending ==>
                  s in queues[r]
    {
      hide At, Kept, Grown, Fed, Done, Rests, Falls, Sweeping, Continues, Narrows, Quiet, DueIn, ReadyIn, Level, Load,
           Settles, Replay, Timely, Reachable;
      assert [Frame.DispatchAfter(run)] + [] == [Frame.DispatchAfter(run)];
      ghost var l0, q0 := logs[r], queues[r];
      Same(def, clock, l0, q0);
      KeptGrows(def, clock, l0, q0, l0, q0);
      OnDispatchAfter(def, clock, c0, l0, q0, run, []);
      if run.status == RCompleted || run.status == RFailed || run.status == RCancelled { return; }
      var todo := run.steps.Keys;
      while todo != {}
        invariant todo <= run.steps.Keys
        invariant OnlyAt(old(logs), logs, r) && OnlyAt(old(queues), queues, r) && Runs(r, def)
        invariant At(def, clock, c0, logs[r], queues[r], [Scan(true, run, todo)] + [])
        invariant Grown(def, l0, q0, logs[r], queues[r])
        invariant forall s :: s in run.steps && run.steps[s].kind == Task && run.steps[s].status == SPending ==>
                    s in todo || s in queues[r]
        decreases todo
      {
        var s :| s in todo;
        VisitAfter(r, run, def, s, todo, l0, q0, c0);
        todo := todo - {s};
      }
      OnScanEnd(def, clock, c0, logs[r], queues[r], ScanAfter(run, todo), []);
    }

    /** One turn of that loop. */
    method VisitAfter(r: RunId, run: RunState, def: WorkflowDef, s: StepName, ghost todo: set<StepName>, ghost l0: Log,
          ghost q0: multiset<StepName>, ghost c0: Config)
      requires Runs(r, def) && s in todo && s in run.steps && Grown(def, l0, q0, logs[r], queues[r])
      requires At(def, clock, c0, logs[r], queues[r], [Scan(true, run, todo)] + [])
      modifies `logs, `queues
      ensures OnlyAt(old(logs), logs, r) && OnlyAt(old(queues), queues, r)
      ensures Runs(r, def) && At(def, clock, c0, logs[r], queues[r], [Scan(true, run, todo - {s})] + [])
      ensures Grown(def, l0, q0, logs[r], queues[r]) && old(queues)[r] <= queues[r]
      ensures run.steps[s].kind == Task && run.steps[s].status == SPending ==> s in queues[r]
    {
      hide At, Kept, Grown, Fed, Done, Rests, Falls, Sweeping, Continues, Narrows, Quiet, DueIn, ReadyIn, Level, Load,
           Settles, Replay, Timely, Reachable, Scan;
      var st := run.steps[s];
      ghost var l2, q2 := logs[r], queues[r];
      if st.kind == Task && st.status == SPending {
        OnScanTask(def, clock, c0, l2, q2, true, run, todo, s, []);
        Submit(r, s);
        MoreGrown(def, l0, q0, l2, q2, s);
      } else if st.kind == Delay && st.status == SWaiting && st.due.Some? && st.due.value <= clock {
        OnScanTimer(def, clock, c0, l2, q2, true, run, todo, s, []);
        FireTimer(r, run, def, s, c0, [Scan(true, run, todo - {s})] + []);
        GrownThen(def, l0, q0, l2, q2, logs[r], queues[r]);
        GrownMeans(def, l2, q2, logs[r], queues[r]);
      } else {
        OnScanNothing(def, clock, c0, l2, q2, true, run, todo, s, []);
      }
    }

    // ---- the operations --------------------------------------------------

    method SetClock(now: Time)
      requires Valid()
      modifies `clock
      ensures Valid() && clock == now && (old(Calm()) ==> Calm())
    {
      clock := now;
    }

    /** No run was created with another definition of the same name and version. */
    ghost predicate Fixed(def: WorkflowDef)
      reads `defs
    {
      forall r :: r in defs && defs[r].name == def.name && defs[r].version == def.version ==> defs[r] == Registered(def)
    }

    /** `RegisterWorkflow`. It may replace a definition that has runs; those are then no longer described by Valid. */
    method RegisterWorkflow(def: WorkflowDef) returns (ok: bool)
      requires Valid()
      modifies `workflows
      ensures Fixed(def) || !ok ==> Valid()
      ensures old(Calm()) && Settles(Registered(def)) ==> Calm()
      ensures ok == Registrable(def)
      ensures workflows == if ok then old(workflows)[(def.name, def.version) := Registered(def)] else old(workflows)
      ensures ok ==>
                var w := workflows[(def.name, def.version)];
                w == def.(initial := w.initial) && def.steps != []
                && w.initial == if def.initial == "" then def.steps[0].name else def.initial
    {
      hide Reachable, Settles;
      RegistrableIff(def);
      if def.name == "" || def.version == "" { return false; }
      var w := def;
      if w.initial == "" && |w.steps| > 0 { w := w.(initial := w.steps[0].name); }
      if Lookup(w, w.initial).None? { return false; }
      workflows := workflows[(w.name, w.version) := w];
      ok := true;
    }

    /** The process stops: the queues are lost, the logs are not. */
    method Restart()
      requires Valid()
      modifies `queues
      ensures Valid() && (old(Calm()) ==> Calm())
      ensures queues == map r | r in old(queues) :: multiset{}
      ensures Emptied(queues)
    {
      hide Reachable, Settles;
      queues := map r | r in queues :: multiset{};
      forall r | r in logs ensures RunValid(r) {
        assert old(RunValid(r));
        ReachableStep(defs[r], Config(logs[r], old(queues)[r], []), Crash);
      }
    }

    /** `CreateTicket`; `r` is the identifier drawn for the run. The result is the run before its first dispatch. */
    method CreateTicket(r: RunId, name: string, version: string) returns (run: Option<RunState>)
      requires Valid() && Calm() && r !in logs
      modifies `logs, `queues, `tickets, `defs
      ensures Valid() && Calm()
      ensures (name, version) !in workflows ==> run == None && logs == old(logs) && queues == old(queues)
      ensures (name, version) in workflows ==> Added(r, workflows[(name, version)], run)
    {
      hide At, Kept, Grown, Fed, Done, Rests, Falls, Sweeping, Continues, Narrows, Quiet, DueIn, ReadyIn, Level, Load,
           Settles, Replay, Timely, Reachable, Valid, Calm, Created;
      var def := LoadWorkflow(name, version);
      if def.None? { return None; }
      Known(name, version);
      run := AddTicket(r, def.value);
    }

    /** The run r was added for `def`, and no other run changed. */
    twostate predicate Added(r: RunId, new def: WorkflowDef, new run: Option<RunState>)
      reads this
    {
      && Grew(old(logs), logs, r) && Grew(old(queues), queues, r) && defs == old(defs)[r := def]
      && Created(def, clock, logs[r], queues[r], run)
    }

    /** The ticket row, and room for the run. */
    method SaveTicket(r: RunId, def: WorkflowDef)
      modifies `logs, `queues, `tickets, `defs
      ensures tickets == old(tickets)[r := Ticket(def.name, def.version)] && defs == old(defs)[r := def]
      ensures logs == old(logs)[r := []] && queues == old(queues)[r := multiset{}]
    {
      tickets, defs := tickets[r := Ticket(def.name, def.version)], defs[r := def];
      logs, queues := logs[r := []], queues[r := multiset{}];
    }

    method AddTicket(r: RunId, def: WorkflowDef) returns (run: Option<RunState>)
      requires Valid() && r !in logs && logs.Keys == queues.Keys
      requires (def.name, def.version) in workflows && workflows[(def.name, def.version)] == def && Settles(def)
      modifies `logs, `queues, `tickets, `defs
      ensures Valid() && Added(r, def, run)
    {
      hide At, Kept, Grown, Fed, Done, Rests, Falls, Sweeping, Continues, Narrows, Quiet, DueIn, ReadyIn, Level, Load,
           Settles, Replay, Timely, Reachable, Valid, Calm, Created, OnlyAt, Grew;
      SaveTicket(r, def);
      run := OpenRun(r, def);
      GrewThen(old(logs), [], logs, r);
      GrewThen(old(queues), multiset{}, queues, r);
      NewTicket(r, def);
    }

    /** TICKET_CREATED and RUN_STARTED, then the first step. */
    method OpenRun(r: RunId, def: WorkflowDef) returns (run: Option<RunState>)
      requires r in logs && r in queues && logs[r] == [] && queues[r] == multiset{} && DefFor(r) == Some(def)
      requires Settles(def)
      modifies `logs, `queues
      ensures OnlyAt(old(logs), logs, r) && OnlyAt(old(queues), queues, r) && logs[r] != []
      ensures Reachable(def, Config(logs[r], queues[r], [])) && Created(def, clock, logs[r], queues[r], run)
    {
      hide At, Kept, Grown, Fed, Done, Rests, Falls, Sweeping, Continues, Narrows, Quiet, DueIn, ReadyIn, Level, Load,
           Settles, Replay, Timely, Reachable, Performed, Birth, Schedulable, Live;
      ghost var c0 := Config([], multiset{}, [CreateEvent]);
      AtStart(def, clock, [], multiset{}, [CreateEvent]);
      assert [CreateEvent] + [] == [CreateEvent];
      OnCreateEvent(def, clock, c0, logs[r], queues[r], []);
      Append(r, Event(clock, TicketCreated(def.name, def.version)));
      OnCreateStart(def, clock, c0, logs[r], queues[r], []);
      Append(r, Event(clock, RunStarted(def.initial)));
      assert logs[r] == Opening(def, clock);
      run := StartRun(r, def, c0);
      NewRun(def, clock, logs[r], queues[r]);
    }

    /** Adding one reachable run keeps the engine valid. */
    twostate lemma NewTicket(r: RunId, new def: WorkflowDef)
      requires old(Valid()) && r !in old(logs)
      requires unchanged(`workflows) && r in logs && r in queues && logs[r] != []
      requires Grew(old(logs), logs, r) && Grew(old(queues), queues, r)
      requires defs == old(defs)[r := def] && tickets == old(tickets)[r := Ticket(def.name, def.version)]
      requires (def.name, def.version) in workflows && workflows[(def.name, def.version)] == def
      requires Reachable(def, Config(logs[r], queues[r], []))
      ensures Valid()
    {
      hide Reachable;
      forall x | x in logs ensures RunValid(x) {
        if x != r { assert old(RunValid(x)); }
      }
    }

    /** The rest of `CreateTicket`: schedule the first step, note the assignment, dispatch. */
    method StartRun(r: RunId, def: WorkflowDef, ghost c0: Config) returns (run: Option<RunState>)
      requires Runs(r, def) && logs[r] == Opening(def, clock)
      requires At(def, clock, c0, logs[r], queues[r], [Frame.ScheduleStep(def.initial, ThenAssign)] + [])
      modifies `logs, `queues
      ensures OnlyAt(old(logs), logs, r) && OnlyAt(old(queues), queues, r)
      ensures logs[r] != [] && At(def, clock, c0, logs[r], queues[r], [])
      ensures if Schedulable(def, def.initial)
              then Birth(def, clock) <= logs[r] && run == Some(Replay(def, Birth(def, clock)))
                   && (Live(def, logs[r]) ==> Quiet(def, clock, logs[r], queues[r]))
              else run == None && logs[r] == Opening(def, clock)
    {
      hide At, Kept, Grown, Fed, Done, Rests, Falls, Sweeping, Continues, Narrows, Quiet, DueIn, ReadyIn, Level, Load,
           Settles, Replay, Timely, Reachable, Valid, Calm;
      var ok := ScheduleStep(r, def, def.initial, ThenAssign, c0, []);
      if !ok { return None; }
      OnCreateAssign(def, clock, c0, logs[r], queues[r], []);
      Append(r, Event(clock, TicketAssigned));
      assert logs[r] == Birth(def, clock);
      ghost var l1, q1 := logs[r], queues[r];
      OnRefresh(def, clock, c0, l1, q1, []);
      run := GetRun(r);
      Dispatch(r, run.value, def, c0, []);
      KeptMeans(def, clock, l1, q1, logs[r], queues[r]);
    }

    lemma Known(name: string, version: string)
      requires Valid() && (name, version) in workflows
      ensures workflows[(name, version)].name == name && workflows[(name, version)].version == version
      ensures Calm() ==> Settles(workflows[(name, version)])
      ensures logs.Keys == queues.Keys
    {
    }

    method LoadWorkflow(name: string, version: string) returns (def: Option<WorkflowDef>)
      ensures def == if (name, version) in workflows then Some(workflows[(name, version)]) else None
    {
      if (name, version) in workflows { def := Some(workflows[(name, version)]); } else { def := None; }
    }

    /** How the operations begin: replay the run, then load its definition a second time, by the names in the run.
        The second load never fails. */
    method LoadRun(r: RunId) returns (run: Option<RunState>, def: Option<WorkflowDef>)
      requires Valid()
      ensures run.Some? == def.Some? == (r in logs && DefFor(r).Some?)
      ensures run.Some? ==>
                && r in queues && r in defs && logs[r] != [] && def == DefFor(r) == Some(defs[r])
                && run.value == Replay(defs[r], logs[r])
                && Reachable(defs[r], Config(logs[r], queues[r], [])) && (Calm() ==> Runs(r, defs[r]))
      ensures r in logs ==> r in queues
    {
      hide Reachable, Settles, Replay, Valid, Calm;
      Paired();
      def := None;
      run := GetRun(r);
      if r in logs { RunFacts(r); }
      if run.Some? { def := LoadWorkflow(run.value.workflow, run.value.version); }
    }

    /** `executeTask`, for a task taken off the queue. */
    method ExecuteTask(r: RunId, s: StepName, outcome: Outcome)
      requires Valid() && Calm() && r in logs && r in queues && s in queues[r]
      modifies `logs, `queues
      ensures Valid() && Calm() && OnlyAt(old(logs), logs, r) && OnlyAt(old(queues), queues, r)
      ensures DefFor(r).None? ==> logs == old(logs) && queues[r] == old(queues)[r] - multiset{s}
      ensures DefFor(r).Some? ==>
                var def, l0 := DefFor(r).value, old(logs)[r];
                && Performed(def, clock, l0, old(queues)[r], Frame.ExecuteTask(s), logs[r], queues[r])
                && TaskLeft(def, clock, s, outcome, l0, logs[r])
                && (BacksOff(def, s, outcome, l0) ==> queues[r][s] == old(queues)[r][s] - 1)
    {
      hide At, Kept, Grown, Fed, Done, Rests, Falls, Sweeping, Continues, Narrows, Quiet, DueIn, ReadyIn, Level, Load,
           Settles, Replay, Timely, Reachable, Valid, Calm;
      ghost var l0, q0 := logs[r], queues[r];
      RunFacts(r);
      TaskLoaded(defs[r], l0, q0, s);
      queues := queues[r := queues[r] - multiset{s}];
      OneRun(r);
      var run, def := LoadRun(r);
      if run.None? || def.None? { return; }
      ghost var op := Frame.ExecuteTask(s);
      AtStart(def.value, clock, l0, queues[r], [op]);
      RunTask(r, run.value, def.value, s, outcome, Config(l0, queues[r], [op]));
      Performs(def.value, clock, l0, q0, op, logs[r], queues[r]);
      OneRun(r);
    }

    /** `Approve`: grants the pending link to a caller authorised for it, then advances. */
    method Approve(r: RunId, s: StepName, who: string) returns (ok: bool)
      requires Valid() && Calm()
      modifies `logs, `queues
      ensures Valid() && Calm() && OnlyAt(old(logs), logs, r) && OnlyAt(old(queues), queues, r)
      ensures ok == (r in old(logs) && DefFor(r).Some? && Decides(Replay(DefFor(r).value, old(logs)[r]), s, who))
      ensures !ok ==> logs == old(logs) && queues == old(queues)
      ensures ok ==>
                var def, l0 := DefFor(r).value, old(logs)[r];
                var index := Replay(def, l0).steps[s].approval.value.index;
                && Performed(def, clock, l0, old(queues)[r], Frame.Approve(s, who), logs[r], queues[r])
                && l0 + [Event(clock, ApprovalGranted(s, index, who))] <= logs[r]
    {
      hide At, Kept, Grown, Fed, Done, Rests, Falls, Sweeping, Continues, Narrows, Quiet, DueIn, ReadyIn, Level, Load,
           Settles, Replay, Timely, Reachable, Valid, Calm;
      var got, def := LoadRun(r);
      if got.None? || def.None? { return false; }
      var run := got.value;
      MayDecideIff(run, s, who);
      if s !in run.steps || run.steps[s].approval.None? { return false; }
      var a := run.steps[s].approval.value;
      if a.status != LinkPending { return false; }
      if !Authorized(a.chain, a.index, who) { return false; }
      ghost var l0, q0, op := logs[r], queues[r], Frame.Approve(s, who);
      ghost var c0 := Config(l0, q0, [op]);
      AtStart(def.value, clock, l0, q0, [op]);
      assert [op] + [] == [op];
      OnApprove(def.value, clock, c0, l0, q0, s, who, []);
      OnGrant(def.value, clock, c0, l0, q0, s, a.index, who, []);
      Append(r, Event(clock, ApprovalGranted(s, a.index, who)));
      ghost var l1, q1 := logs[r], queues[r];
      AfterGrant(r, def.value, s, c0);
      GrownMeans(def.value, l1, q1, logs[r], queues[r]);
      Performs(def.value, clock, l0, q0, op, logs[r], queues[r]);
      OneRun(r);
      ok := true;
    }

    /** The rest of `Approve`: one fresh snapshot for both the chain and what is ready now. */
    method AfterGrant(r: RunId, def: WorkflowDef, s: StepName, ghost c0: Config)
      requires Runs(r, def)
      requires At(def, clock, c0, logs[r], queues[r], [Frame.AfterGrant(s)] + [])
      modifies `logs, `queues
      ensures OnlyAt(old(logs), logs, r) && OnlyAt(old(queues), queues, r)
      ensures Runs(r, def) && At(def, clock, c0, logs[r], queues[r], [])
      ensures Grown(def, old(logs)[r], old(queues)[r], logs[r], queues[r])
    {
      hide At, Kept, Grown, Fed, Done, Rests, Falls, Sweeping, Continues, Narrows, Quiet, DueIn, ReadyIn, Level, Load,
           Settles, Replay, Timely, Reachable, Valid, Calm;
      ghost var l0, q0 := logs[r], queues[r];
      OnAfterGrant(def, clock, c0, l0, q0, s, []);
      var run := GetRun(r);
      assert [Frame.DispatchAfter(run.value)] + [] == [Frame.DispatchAfter(run.value)];
      AdvanceApproval(r, run.value, def, s, c0, [Frame.DispatchAfter(run.value)] + []);
      ghost var l1, q1 := logs[r], queues[r];
      DispatchAfter(r, run.value, def, c0);
      GrownThen(def, l0, q0, l1, q1, logs[r], queues[r]);
    }

    /** `Reject`: an authorised rejection of the pending link fails the run. */
    method Reject(r: RunId, s: StepName, who: string, why: string) returns (ok: bool)
      requires Valid()
      modifies `logs
      ensures Valid() && (old(Calm()) ==> Calm())
      ensures ok == (r in old(logs) && DefFor(r).Some? && Decides(Replay(DefFor(r).value, old(logs)[r]), s, who))
      ensures !ok ==> logs == old(logs)
      ensures ok ==>
                var index := Replay(DefFor(r).value, old(logs)[r]).steps[s].approval.value.index;
                logs == old(logs)[r := old(logs)[r] + [Event(clock, ApprovalRejected(s, index, who, why))]
                                                    + [Event(clock, RunFailed(s, ApprovalRejection(why)))]]
                && Replay(DefFor(r).value, logs[r]).status == RFailed
    {
      hide At, Kept, Grown, Fed, Done, Rests, Falls, Sweeping, Continues, Narrows, Quiet, DueIn, ReadyIn, Level, Load,
           Settles, Replay, Timely, Reachable, Valid, Calm;
      var got, _ := LoadRun(r);
      if got.None? { return false; }
      var run := got.value;
      MayDecideIff(run, s, who);
      if s !in run.steps || run.steps[s].approval.None? { return false; }
      var a := run.steps[s].approval.value;
      if a.status != LinkPending { return false; }
      if !Authorized(a.chain, a.index, who) { return false; }
      ghost var def, l0, q0 := defs[r], logs[r], queues[r];
      RejectPerforms(def, clock, l0, q0, s, who, why);
      Append(r, Event(clock, ApprovalRejected(s, a.index, who, why)));
      Append(r, Event(clock, RunFailed(s, ApprovalRejection(why))));
      Performs(def, clock, l0, q0, Frame.Reject(s, who, why), logs[r], queues[r]);
      OneRun(r);
      ok := true;
    }

    /** `Cancel`: ends a run that has not ended. */
    method Cancel(r: RunId, why: string) returns (ok: bool)
      requires Valid()
      modifies `logs
      ensures Valid() && (old(Calm()) ==> Calm())
      ensures ok == (r in old(logs) && DefFor(r).Some?)
      ensures logs == if ok && Live(DefFor(r).value, old(logs)[r])
                      then old(logs)[r := old(logs)[r] + [Event(clock, RunCancelled(why))]] else old(logs)
      ensures ok ==> !Live(DefFor(r).value, logs[r])
    {
      hide At, Kept, Grown, Fed, Done, Rests, Falls, Sweeping, Continues, Narrows, Quiet, DueIn, ReadyIn, Level, Load,
           Settles, Replay, Timely, Reachable, Valid, Calm;
      var got, _ := LoadRun(r);
      if got.None? { return false; }
      var run := got.value;
      ok := true;
      if run.status == RCompleted || run.status == RFailed || run.status == RCancelled { return; }
      ghost var def, l0, q0, op := defs[r], logs[r], queues[r], Frame.Cancel(why);
      ghost var c0 := Config(l0, q0, [op]);
      AtStart(def, clock, l0, q0, [op]);
      assert [op] + [] == [op];
      OnCancel(def, clock, c0, l0, q0, why, []);
      OnAppendCancelled(def, clock, c0, l0, q0, why, []);
      EndingRests(def, clock, l0, q0, Event(clock, RunCancelled(why)));
      Append(r, Event(clock, RunCancelled(why)));
      Performs(def, clock, l0, q0, op, logs[r], queues[r]);
      OneRun(r);
    }

    // ---- sweep and Recover -----------------------------------------------

    /** The dispatch of one loaded run by a sweep or a recovery. */
    method DispatchRun(r: RunId, run: RunState, def: WorkflowDef)
      requires Valid() && Runs(r, def) && r in defs && defs[r] == def && run == Replay(def, logs[r])
      requires Reachable(def, Config(logs[r], queues[r], []))
      modifies `logs, `queues
      ensures Valid() && OnlyAt(old(logs), logs, r) && OnlyAt(old(queues), queues, r)
      ensures Swept(def, clock, old(logs)[r], old(queues)[r], logs[r], queues[r])
    {
      hide At, Kept, Grown, Fed, Done, Rests, Falls, Sweeping, Continues, Narrows, Quiet, DueIn, ReadyIn, Level, Load,
           Settles, Replay, Timely, Reachable, Valid, Calm, Swept;
      ghost var l0, q0 := logs[r], queues[r];
      ghost var c0 := Config(l0, q0, [Refresh]);
      AtStart(def, clock, l0, q0, [Refresh]);
      assert [Refresh] + [] == [Refresh];
      OnRefresh(def, clock, c0, l0, q0, []);
      Dispatch(r, run, def, c0, []);
      Performs(def, clock, l0, q0, Refresh, logs[r], queues[r]);
      SweptBy(def, clock, l0, q0, logs[r], queues[r]);
      OneRun(r);
    }

    /** `sweep`: dispatches every run that loads, in any order. Whatever the order and the other runs, each run ends
        as a dispatch of that run alone, at the same time, may leave it. */
    method Sweep()
      requires Valid() && Calm()
      modifies `logs, `queues
      ensures Valid() && Calm()
      ensures SweptBut(old(Loads()), clock, old(logs), old(queues), logs, queues, {})
      ensures old(logs).Keys == logs.Keys == old(queues).Keys == queues.Keys
      ensures AllTimely(old(Loads()), clock, old(logs), old(queues), logs, queues, {})
    {
      hide At, Kept, Grown, Fed, Done, Rests, Falls, Sweeping, Continues, Narrows, Quiet, DueIn, ReadyIn, Level, Load,
           Settles, Replay, Timely, Reachable, Valid, Calm, Swept, Runs, SweptBut, OnlyAt, AllTimely;
      ghost var loads := Loads();
      SweptNone(loads);
      var todo := logs.Keys;
      while todo != {}
        invariant Valid() && Calm() && todo <= old(logs.Keys) && loads == old(Loads())
        invariant SweptBut(loads, clock, old(logs), old(queues), logs, queues, todo)
        decreases todo
      {
        var r :| r in todo;
        var _ := SweepRun(r, loads, old(logs), old(queues), todo);
        todo := todo - {r};
      }
      SweptOnTime(loads, clock, old(logs), old(queues), logs, queues, {});
    }

    lemma SweptNone(loads: Definitions)
      requires Valid()
      ensures SweptBut(loads, clock, logs, queues, logs, queues, logs.Keys)
    {
      hide Swept, Reachable;
    }

    /** One turn of the sweep: a run that does not load is skipped. */
    method SweepRun(r: RunId, ghost loads: Definitions, ghost l0: Logs, ghost q0: Queues, ghost left: set<RunId>)
      returns (ok: bool)
      requires Valid() && Calm() && r in left && r in l0 && SweptBut(loads, clock, l0, q0, logs, queues, left)
      requires DefFor(r) == if r in loads then Some(loads[r]) else None
      modifies `logs, `queues
      ensures Valid() && Calm() && ok == (r in loads)
      ensures SweptBut(loads, clock, l0, q0, logs, queues, left - {r})
    {
      hide At, Kept, Grown, Fed, Done, Rests, Falls, Sweeping, Continues, Narrows, Quiet, DueIn, ReadyIn, Level, Load,
           Settles, Replay, Timely, Reachable, Valid, Calm, Swept, Runs, SweptBut, OnlyAt, AllTimely;
      ghost var l1, q1 := logs, queues;
      SameRuns(loads, clock, l0, q0, logs, queues, left);
      var run, def := LoadRun(r);
      ok := run.Some?;
      if run.Some? && def.Some? {
        DispatchRun(r, run.value, def.value);
      } else {
        Untouched(l1, r);
        Untouched(q1, r);
      }
      SweptOn(loads, clock, l0, q0, l1, q1, logs, queues, left, r);
    }

    /** `Recover`: as a sweep, but it returns at the first run that does not load, so that it succeeds exactly when
        all do; the branch that would skip a run without a definition is never taken. */
    method Recover() returns (ok: bool, ghost left: set<RunId>)
      requires Valid() && Calm()
      modifies `logs, `queues
      ensures Valid() && Calm()
      ensures SweptBut(old(Loads()), clock, old(logs), old(queues), logs, queues, left)
      ensures old(logs).Keys == logs.Keys == old(queues).Keys == queues.Keys
      ensures AllTimely(old(Loads()), clock, old(logs), old(queues), logs, queues, left)
      ensures ok <==> old(logs.Keys) <= old(Loads()).Keys
      ensures ok ==> left == {}
      ensures ok && old(Emptied(queues)) ==> QueuesReady(old(Loads()), clock, logs, queues)
    {
      hide At, Kept, Grown, Fed, Done, Rests, Falls, Sweeping, Continues, Narrows, Quiet, DueIn, ReadyIn, Level, Load,
           Settles, Replay, Timely, Reachable, Valid, Calm, Swept, Runs, SweptBut, OnlyAt, AllTimely, Emptied,
           QueuesReady;
      ghost var loads := Loads();
      SweptNone(loads);
      var todo := logs.Keys;
      left := todo;
      while todo != {}
        invariant Valid() && Calm() && todo <= old(logs.Keys) && left == todo && loads == old(Loads())
        invariant old(logs.Keys) - todo <= loads.Keys
        invariant SweptBut(loads, clock, old(logs), old(queues), logs, queues, todo)
        decreases todo
      {
        var r :| r in todo;
        ok := SweepRun(r, loads, old(logs), old(queues), todo);
        todo := todo - {r};
        left := todo;
        if !ok {
          SweptOnTime(loads, clock, old(logs), old(queues), logs, queues, left);
          return;
        }
      }
      ok := true;
      SweptOnTime(loads, clock, old(logs), old(queues), logs, queues, left);
      if old(Emptied(queues)) { SweptReady(loads, clock, old(logs), old(queues), logs, queues); }
    }
  }
}
