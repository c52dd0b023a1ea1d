/** The compiler from the authoring shape of a workflow to its definition (engine/dsl/dsl.go). Duration syntax is a
    parameter: `parse` is any partial function from text to durations. */
module Dsl {
  import opened Model
  import opened Replaying
  import opened Machine
  import opened Settling
  import opened Resting
  import opened Divergence
  import Provenance

  datatype Step = Step(
    name: StepName, kind: string, task: string, next: StepName, onError: StepName, assignTo: string,
    approval: Option<seq<Approver>>, delay: string, retries: int, retry: string)

  datatype Sla = Sla(name: string, duration: string, onBreach: StepName)

  datatype Workflow = Workflow(
    name: string, version: string, description: string, initial: StepName, steps: seq<Step>, slas: seq<Sla>)

  type Parser = string -> Option<Duration>

  datatype Error =
    | NameAndVersionRequired
    | NoSteps
    | EmptyStepName
    | DuplicateStep(step: StepName)
    | BadStep(step: StepName)
    | NextNotFound(step: StepName)
    | OnErrorNotFound(step: StepName)
    | BadSlaDuration(sla: string)
    | OnBreachNotFound(sla: string)

  datatype Result<+T> = Ok(value: T) | Err(error: Error)

  // ---- steps -------------------------------------------------------------

  /** The step has what its kind needs, and the kind is known. */
  predicate StepCompiles(parse: Parser, s: Step) {
    || ((s.kind == "task" || s.kind == "") && s.task != "")
    || (s.kind == "approval" && s.approval.Some? && s.approval.value != [])
    || (s.kind == "delay" && s.delay != "" && parse(s.delay).Some?)
  }

  /** `sd` is what `s` means, field by field. A delay step keeps nothing of a task, a chain or a retry; other steps keep
      no delay. */
  predicate StepMeans(parse: Parser, s: Step, sd: StepDef) {
    && sd.name == s.name && sd.next == s.next && sd.onError == s.onError && sd.assignTo == s.assignTo
    && if s.kind == "delay" then
         && sd.kind == Delay && sd.delay.Some? && sd.delay == parse(s.delay)
         && sd.task == "" && sd.chain == None && sd.retry.maxAttempts == 0 && sd.retry.delay == 0
       else
         && sd.kind == (if s.kind == "approval" then Approval else Task) && sd.delay == None
         && sd.task == s.task && sd.chain == s.approval && sd.retry.maxAttempts == s.retries
         && (s.retry != "" && parse(s.retry).Some? ==> Some(sd.retry.delay) == parse(s.retry))
         && (s.retry == "" || parse(s.retry).None? ==> sd.retry.delay == 0)
  }

  /** `parseDelay`: a retry delay that does not parse is none. */
  function ParseDelay(parse: Parser, s: string): Duration {
    if s != "" && parse(s).Some? then parse(s).value else 0
  }

  /** `compileStep`; None when the step lacks what its kind needs, or has an unknown kind. */
  method CompileStep(parse: Parser, s: Step) returns (r: Option<StepDef>)
    ensures r.Some? <==> StepCompiles(parse, s)
    ensures r.Some? ==> StepMeans(parse, s, r.value)
  {
    var kind := Task;
    if s.kind == "task" || s.kind == "" {
      if s.task == "" { return None; }
    } else if s.kind == "approval" {
      kind := Approval;
      if s.approval.None? || |s.approval.value| == 0 { return None; }
    } else if s.kind == "delay" {
      if s.delay == "" { return None; }
      var d := parse(s.delay);
      if d.None? { return None; }
      return Some(StepDef(s.name, Delay, "", None, d, s.next, s.onError, s.assignTo, RetryPolicy(0, 0)));
    } else {
      return None;
    }
    var chain := None;
    if s.approval.Some? {
      var links := CopyChain(s.approval.value);
      chain := Some(links);
    }
    r := Some(StepDef(s.name, kind, s.task, chain, None, s.next, s.onError, s.assignTo,
                      RetryPolicy(s.retries, ParseDelay(parse, s.retry))));
  }

  /** The loop over the links. */
  method CopyChain(links: seq<Approver>) returns (chain: seq<Approver>)
    ensures chain == links
  {
    chain := [];
    for k := 0 to |links|
      invariant chain == links[..k]
    {
      chain := chain + [Approver(links[k].role, links[k].user)];
    }
  }

  /** `stepByName`. */
  method StepByName(steps: seq<StepDef>, name: StepName) returns (r: Option<StepDef>)
    ensures r == FindStep(steps, name)
  {
    for k := 0 to |steps|
      invariant FindStep(steps, name) == FindStep(steps[k..], name)
    {
      if steps[k].name == name { return Some(steps[k]); }
      assert steps[k..][1..] == steps[k + 1..];
    }
    r := None;
  }

  // ---- what compiles -----------------------------------------------------

  predicate Names(steps: seq<Step>, name: StepName) {
    exists k :: 0 <= k < |steps| && steps[k].name == name
  }

  predicate RefOk(steps: seq<Step>, name: StepName) {
    name == "" || Names(steps, name)
  }

  predicate StepsCompile(parse: Parser, steps: seq<Step>) {
    && (forall k :: 0 <= k < |steps| ==> steps[k].name != "" && StepCompiles(parse, steps[k]))
    && (forall j, k :: 0 <= j < k < |steps| ==> steps[j].name != steps[k].name)
  }

  predicate SlaCompiles(parse: Parser, steps: seq<Step>, sla: Sla) {
    parse(sla.duration).Some? && RefOk(steps, sla.onBreach)
  }

  /** The workflows that compile. Nothing is asked of `initial`. */
  predicate Compiles(parse: Parser, w: Workflow) {
    && w.name != "" && w.version != "" && w.steps != []
    && StepsCompile(parse, w.steps)
    && (forall k :: 0 <= k < |w.steps| ==> RefOk(w.steps, w.steps[k].next) && RefOk(w.steps, w.steps[k].onError))
    && (forall k :: 0 <= k < |w.slas| ==> SlaCompiles(parse, w.steps, w.slas[k]))
  }

  /** `def` is what `w` means. */
  predicate Means(parse: Parser, w: Workflow, def: WorkflowDef) {
    && def.name == w.name && def.version == w.version && def.description == w.description && w.steps != []
    && def.initial == (if w.initial == "" then w.steps[0].name else w.initial)
    && StepsMean(parse, w.steps, def.steps)
    && SlasMean(parse, w.slas, def.slas)
  }

  predicate StepsMean(parse: Parser, steps: seq<Step>, defs: seq<StepDef>) {
    |defs| == |steps| && forall k :: 0 <= k < |steps| ==> StepMeans(parse, steps[k], defs[k])
  }

  predicate SlasMean(parse: Parser, slas: seq<Sla>, defs: seq<SlaDef>) {
    |defs| == |slas| && forall k :: 0 <= k < |slas| ==>
      && defs[k].name == slas[k].name && parse(slas[k].duration) == Some(defs[k].duration)
      && defs[k].onBreach == slas[k].onBreach
  }

  /** The workflow has the fault the error names. */
  predicate Faulty(parse: Parser, w: Workflow, e: Error) {
    match e
    case NameAndVersionRequired => w.name == "" || w.version == ""
    case NoSteps => w.steps == []
    case EmptyStepName => Names(w.steps, "")
    case DuplicateStep(s) => exists j, k :: 0 <= j < k < |w.steps| && w.steps[j].name == s && w.steps[k].name == s
    case BadStep(s) => exists k :: 0 <= k < |w.steps| && w.steps[k].name == s && !StepCompiles(parse, w.steps[k])
    case NextNotFound(s) => exists k :: 0 <= k < |w.steps| && w.steps[k].name == s && !RefOk(w.steps, w.steps[k].next)
    case OnErrorNotFound(s) =>
      exists k :: 0 <= k < |w.steps| && w.steps[k].name == s && !RefOk(w.steps, w.steps[k].onError)
    case BadSlaDuration(s) => exists k :: 0 <= k < |w.slas| && w.slas[k].name == s && parse(w.slas[k].duration).None?
    case OnBreachNotFound(s) =>
      exists k :: 0 <= k < |w.slas| && w.slas[k].name == s && !RefOk(w.steps, w.slas[k].onBreach)
  }

  /** What a step means is one definition. */
  lemma MeansOne(parse: Parser, s: Step, sd: StepDef, sd': StepDef)
    requires StepMeans(parse, s, sd) && StepMeans(parse, s, sd')
    ensures sd == sd'
  {
  }

  /** So is what a workflow means. */
  lemma OneMeaning(parse: Parser, w: Workflow, def: WorkflowDef, def': WorkflowDef)
    requires Means(parse, w, def) && Means(parse, w, def')
    ensures def == def'
  {
    forall k | 0 <= k < |def.steps| ensures def.steps[k] == def'.steps[k] {
      MeansOne(parse, w.steps[k], def.steps[k], def'.steps[k]);
    }
    hide StepMeans;
    assert def.steps == def'.steps && def.slas == def'.slas;
  }

  /** A compiled step has what its kind needs. */
  lemma CompiledStep(parse: Parser, s: Step, sd: StepDef)
    requires StepCompiles(parse, s) && StepMeans(parse, s, sd)
    ensures sd.name == s.name && sd.next == s.next && sd.onError == s.onError
    ensures sd.kind == Delay <==> s.kind == "delay"
    ensures sd.kind == Delay ==> sd.delay.Some? && sd.delay == parse(s.delay)
    ensures sd.kind == Approval ==> sd.chain.Some? && sd.chain.value != []
  {
  }

  lemma MeantNames(parse: Parser, steps: seq<Step>, defs: seq<StepDef>, name: StepName)
    requires StepsMean(parse, steps, defs)
    ensures FindStep(defs, name).Some? <==> Names(steps, name)
  {
    FindStepIsFirst(defs, name);
    if FindStep(defs, name).Some? {
      var k :| 0 <= k < |defs| && defs[k].name == name;
      assert StepMeans(parse, steps[k], defs[k]);
    }
    if k :| 0 <= k < |steps| && steps[k].name == name {
      assert StepMeans(parse, steps[k], defs[k]);
    }
  }

  // ---- Compile -----------------------------------------------------------

  /** `Compile`: succeeds exactly on the workflows that compile, with the definition they mean; otherwise it names a
      fault the workflow has. */
  method Compile(parse: Parser, w: Workflow) returns (r: Result<WorkflowDef>)
    ensures r.Ok? <==> Compiles(parse, w)
    ensures r.Ok? ==> Means(parse, w, r.value)
    ensures r.Err? ==> Faulty(parse, w, r.error)
  {
    if w.name == "" || w.version == "" { return Err(NameAndVersionRequired); }
    if |w.steps| == 0 { return Err(NoSteps); }
    var initial := w.initial;
    if initial == "" { initial := w.steps[0].name; }
    var built := CompileSteps(parse, w.steps);
    if built.Err? { return Err(built.error); }
    var bad := CheckReferences(parse, w.steps, built.value);
    if bad.Some? { return Err(bad.value); }
    var slas := CompileSlas(parse, w.steps, built.value, w.slas);
    if slas.Err? { return Err(slas.error); }
    r := Ok(WorkflowDef(w.name, w.version, w.description, initial, built.value, slas.value));
  }

  /** The first loop of `Compile`. */
  method CompileSteps(parse: Parser, steps: seq<Step>) returns (r: Result<seq<StepDef>>)
    ensures r.Ok? <==> StepsCompile(parse, steps)
    ensures r.Ok? ==> StepsMean(parse, steps, r.value)
    ensures r.Err? ==>
              forall w: Workflow {:trigger Faulty(parse, w, r.error)} :: w.steps == steps ==> Faulty(parse, w, r.error)
  {
    hide StepMeans, StepCompiles;
    var seen: set<StepName> := {};
    var out := [];
    for k := 0 to |steps|
      invariant StepsMean(parse, steps[..k], out) && StepsCompile(parse, steps[..k])
      invariant forall n :: n in seen <==> Names(steps[..k], n)
    {
      var s := steps[k];
      var init := steps[..k];
      assert steps[..k + 1] == init + [s];
      if s.name == "" { return Err(EmptyStepName); }
      if s.name in seen {
        var j :| 0 <= j < k && init[j].name == s.name;
        assert steps[j].name == steps[k].name;
        return Err(DuplicateStep(s.name));
      }
      seen := seen + {s.name};
      var sd := CompileStep(parse, s);
      if sd.None? { return Err(BadStep(s.name)); }
      out := out + [sd.value];
      forall n ensures n in seen <==> Names(steps[..k + 1], n) {
        if i :| 0 <= i < k && init[i].name == n { assert steps[..k + 1][i].name == n; }
        assert steps[..k + 1][k] == s;
      }
    }
    assert steps[..|steps|] == steps;
    r := Ok(out);
  }

  lemma StepMeant(parse: Parser, steps: seq<Step>, defs: seq<StepDef>, k: nat)
    requires StepsMean(parse, steps, defs) && k < |steps|
    ensures |defs| == |steps| && StepMeans(parse, steps[k], defs[k])
    ensures defs[k].name == steps[k].name && defs[k].next == steps[k].next && defs[k].onError == steps[k].onError
  {
  }

  lemma RefFaulty(parse: Parser, steps: seq<Step>, k: nat)
    requires k < |steps|
    ensures !RefOk(steps, steps[k].next) ==>
              forall w: Workflow {:trigger Faulty(parse, w, NextNotFound(steps[k].name))} ::
                w.steps == steps ==> Faulty(parse, w, NextNotFound(steps[k].name))
    ensures !RefOk(steps, steps[k].onError) ==>
              forall w: Workflow {:trigger Faulty(parse, w, OnErrorNotFound(steps[k].name))} ::
                w.steps == steps ==> Faulty(parse, w, OnErrorNotFound(steps[k].name))
  {
  }

  /** The second loop: Next and OnError name steps. */
  method CheckReferences(parse: Parser, steps: seq<Step>, defs: seq<StepDef>) returns (bad: Option<Error>)
    requires StepsMean(parse, steps, defs)
    ensures bad.None? <==>
              forall k :: 0 <= k < |steps| ==> RefOk(steps, steps[k].next) && RefOk(steps, steps[k].onError)
    ensures bad.Some? ==>
              forall w: Workflow {:trigger Faulty(parse, w, bad.value)} ::
                w.steps == steps ==> Faulty(parse, w, bad.value)
  {
    for k := 0 to |defs|
      invariant forall i :: 0 <= i < k ==> RefOk(steps, steps[i].next) && RefOk(steps, steps[i].onError)
    {
      hide StepMeans, StepsMean, Faulty, RefOk;
      StepMeant(parse, steps, defs, k);
      bad := CheckStep(parse, steps, defs, k);
      if bad.Some? { return; }
    }
    bad := None;
  }

  /** One turn of that loop. */
  method CheckStep(parse: Parser, steps: seq<Step>, defs: seq<StepDef>, k: nat) returns (bad: Option<Error>)
    requires StepsMean(parse, steps, defs) && k < |defs| == |steps|
    ensures bad.None? <==> RefOk(steps, steps[k].next) && RefOk(steps, steps[k].onError)
    ensures bad.Some? ==>
              forall w: Workflow {:trigger Faulty(parse, w, bad.value)} ::
                w.steps == steps ==> Faulty(parse, w, bad.value)
  {
    hide StepMeans, StepsMean, FindStep, Faulty;
    var s := defs[k];
    StepMeant(parse, steps, defs, k);
    RefFaulty(parse, steps, k);
    MeantNames(parse, steps, defs, s.next);
    MeantNames(parse, steps, defs, s.onError);
    var next := StepByName(defs, s.next);
    if s.next != "" && next.None? { return Some(NextNotFound(s.name)); }
    var onError := StepByName(defs, s.onError);
    if s.onError != "" && onError.None? { return Some(OnErrorNotFound(s.name)); }
    bad := None;
  }

  /** The third loop. */
  method CompileSlas(parse: Parser, steps: seq<Step>, defs: seq<StepDef>, slas: seq<Sla>)
    returns (r: Result<seq<SlaDef>>)
    requires StepsMean(parse, steps, defs)
    ensures r.Ok? <==> forall k :: 0 <= k < |slas| ==> SlaCompiles(parse, steps, slas[k])
    ensures r.Ok? ==> SlasMean(parse, slas, r.value)
    ensures r.Err? ==>
              forall w: Workflow {:trigger Faulty(parse, w, r.error)} ::
                w.steps == steps && w.slas == slas ==> Faulty(parse, w, r.error)
  {
    var out := [];
    for k := 0 to |slas|
      invariant SlasMean(parse, slas[..k], out)
      invariant forall i :: 0 <= i < k ==> SlaCompiles(parse, steps, slas[i])
    {
      var sla := slas[k];
      var d := parse(sla.duration);
      if d.None? { return Err(BadSlaDuration(sla.name)); }
      MeantNames(parse, steps, defs, sla.onBreach);
      var target := StepByName(defs, sla.onBreach);
      if sla.onBreach != "" && target.None? { return Err(OnBreachNotFound(sla.name)); }
      out := out + [SlaDef(sla.name, d.value, sla.onBreach)];
    }
    assert slas[..|slas|] == slas;
    r := Ok(out);
  }

  // ---- what compiled workflows are worth ---------------------------------

  /** A compiled step is the only one of its name, and is found under it. */
  lemma CompiledLookup(parse: Parser, w: Workflow, def: WorkflowDef, k: nat)
    requires Compiles(parse, w) && Means(parse, w, def) && k < |w.steps|
    ensures Lookup(def, w.steps[k].name).Some? && StepMeans(parse, w.steps[k], Lookup(def, w.steps[k].name).value)
  {
    Found(parse, w.steps, def.steps, k);
  }

  lemma Found(parse: Parser, steps: seq<Step>, defs: seq<StepDef>, k: nat)
    requires StepsCompile(parse, steps) && StepsMean(parse, steps, defs) && k < |steps|
    ensures FindStep(defs, steps[k].name) == Some(defs[k]) && StepMeans(parse, steps[k], defs[k])
  {
    hide StepMeans, FindStep;
    var name := steps[k].name;
    FindStepIsFirst(defs, name);
    StepMeant(parse, steps, defs, k);
    assert FindStep(defs, name).Some?;
    var j :| 0 <= j < |defs| && defs[j] == FindStep(defs, name).value && defs[j].name == name;
    StepMeant(parse, steps, defs, j);
    assert steps[j].name == steps[k].name;
  }

  /** What compiles is well-formed exactly when its initial step is declared: what RegisterWorkflow checks. */
  lemma CompiledWellFormed(parse: Parser, w: Workflow, def: WorkflowDef)
    requires Compiles(parse, w) && Means(parse, w, def)
    ensures Registered(def) == def
    ensures WellFormed(def) <==> Declared(def, def.initial)
  {
    hide StepMeans;
    assert w.steps[0].name != "";
    forall k | 0 <= k < |def.steps| ensures StepWellFormed(def, def.steps[k]) {
      CompiledStep(parse, w.steps[k], def.steps[k]);
      assert RefOk(w.steps, w.steps[k].next) && RefOk(w.steps, w.steps[k].onError);
      MeantNames(parse, w.steps, def.steps, def.steps[k].next);
      MeantNames(parse, w.steps, def.steps, def.steps[k].onError);
    }
    forall k | 0 <= k < |def.slas| ensures def.slas[k].onBreach != "" ==> Declared(def, def.slas[k].onBreach) {
      assert SlaCompiles(parse, w.steps, w.slas[k]);
      MeantNames(parse, w.steps, def.steps, def.slas[k].onBreach);
    }
  }

  /** A workflow that compiles and registers does not go wrong: in no interleaving does an activation miss a step, a
      delay, a chain or a step state. */
  lemma CompiledNeverStuck(parse: Parser, w: Workflow, def: WorkflowDef, ms: seq<Move>, t: nat, k: nat)
    requires Compiles(parse, w) && Means(parse, w, def) && Declared(def, def.initial)
    requires t in StepAll(def, NEW_RUN, ms).threads && k < |StepAll(def, NEW_RUN, ms).threads[t]|
    ensures !Provenance.Stuck(def, StepAll(def, NEW_RUN, ms).threads[t][k])
  {
    CompiledWellFormed(parse, w, def);
    Provenance.NothingGoesWrong(def, ms, t, k);
  }

  /** Delays of positive length settle; so do workflows without delay steps. */
  lemma CompiledSettles(parse: Parser, w: Workflow, def: WorkflowDef)
    requires Compiles(parse, w) && Means(parse, w, def)
    requires forall k :: 0 <= k < |w.steps| && w.steps[k].kind == "delay" && parse(w.steps[k].delay).Some? ==>
               parse(w.steps[k].delay).value > 0
    ensures Settles(def)
  {
    forall k | 0 <= k < |def.steps| && def.steps[k].kind == Delay && def.steps[k].delay.Some?
      ensures def.steps[k].delay.value > 0
    {
      CompiledStep(parse, w.steps[k], def.steps[k]);
    }
    PositiveDelaysSettle(def);
  }

  /** The compiler accepts a delay of no length that leads to itself; creating a ticket of it need not end. */
  lemma ZeroDelayCompiles(parse: Parser)
    requires parse("0s") == Some(0)
    ensures exists w: Workflow, def: WorkflowDef ::
              Compiles(parse, w) && Means(parse, w, def) && WellFormed(def) && !Settles(def) && Hangs(def)
  {
    var s := Step("wait", "delay", "", "wait", "", "", None, "0s", 0, "");
    var w := Workflow("loop", "1", "", "wait", [s], []);
    var sd := StepDef("wait", Delay, "", None, Some(0), "wait", "", "", RetryPolicy(0, 0));
    var def := WorkflowDef("loop", "1", "", "wait", [sd], []);
    assert StepCompiles(parse, s) && StepMeans(parse, s, sd);
    assert w.steps[0].name == "wait";
    assert Compiles(parse, w) && Means(parse, w, def);
    CompiledWellFormed(parse, w, def);
    forall k: nat ensures !Ends(def, "wait", k) { LoopNeverEnds(def, k); }
    assert !Stops(def, "wait");
    assert Instant(def, def.initial) && Overdue(def, 1, 1) == {};
    CreationDiverges(def);
    hide Hangs, Stops;
  }

  lemma {:induction false} LoopNeverEnds(def: WorkflowDef, k: nat)
    requires InstantNext(def, "wait") == Some("wait")
    ensures !Ends(def, "wait", k)
    decreases k
  {
    if k > 0 { LoopNeverEnds(def, k - 1); }
  }
}
