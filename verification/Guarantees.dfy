/** What every run of a valid engine obeys: the theorems about atomic operations, said of the engine's own state. */
module Guarantees {
  import opened Model
  import opened Replaying
  import opened Machine
  import opened Engines
  import Approvals
  import Atomic
  import Ending
  import Provenance

  /** Every log of the engine is that of an interleaving of threads with atomic grants. */
  lemma RunIsInterleaved(e: Engine, r: RunId)
    requires e.Valid() && r in e.logs
    ensures exists ms :: Approvals.AtomicGrants(e.defs[r], ms) && StepAll(e.defs[r], NEW_RUN, ms).log == e.logs[r]
  {
    e.RunFacts(r);
    var ds: seq<Deed> :| DoAll(e.defs[r], IDLE, ds) == Config(e.logs[r], e.queues[r], []);
    Atomic.LogIsInterleaved(e.defs[r], ds);
  }

  /** In every log of the engine nothing completes the run after it failed; every completed approval step was granted
      link by link, in order, by callers authorised for their links; and every scheduled step is declared. */
  lemma RunObeys(e: Engine, r: RunId)
    requires e.Valid() && r in e.logs
    ensures Ending.Sticky(e.logs[r])
    ensures forall s :: KindOf(e.defs[r], s) == Approval ==> Approvals.Respected(e.defs[r], s, e.logs[r])
    ensures forall k :: 0 <= k < |e.logs[r]| && e.logs[r][k].body.StepScheduled? ==>
              Declared(e.defs[r], e.logs[r][k].body.step)
  {
    RunIsInterleaved(e, r);
    e.RunFacts(r);
    var def := e.defs[r];
    var ms :| Approvals.AtomicGrants(def, ms) && StepAll(def, NEW_RUN, ms).log == e.logs[r];
    forall s | KindOf(def, s) == Approval ensures Approvals.Respected(def, s, e.logs[r]) {
      Approvals.ChainRespected(def, ms, s);
    }
    forall k | 0 <= k < |e.logs[r]| && e.logs[r][k].body.StepScheduled?
      ensures Declared(def, e.logs[r][k].body.step)
    {
      Provenance.ScheduledHasCause(def, ms, k);
    }
    var ds: seq<Deed> :| DoAll(def, IDLE, ds) == Config(e.logs[r], e.queues[r], []);
    Ending.FailureIsSticky(def, ds);
  }
}
