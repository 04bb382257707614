/** The pipeline walkthrough (components/SystemFlow.tsx): ten stages lit in
    turn by a timer while the simulation runs; the stages before the lit
    one show as processed. */
module Flow {
  /** The stage ids, in pipeline order. */
  const StageIds: seq<string> := ["inputs", "connectivity", "sync", "video", "audio",
                                   "compositor", "sports", "social", "output", "cloud"]
  const StageCount: nat := 10
  const TickMs: nat := 1800

  lemma StageIdsShape()
    ensures |StageIds| == StageCount
    ensures forall i, j :: 0 <= i < j < |StageIds| ==> StageIds[i] != StageIds[j]
  {
  }

  /** One timer tick: the next stage, wrapping after the last. */
  function Advance(step: nat): (r: nat)
    ensures r < StageCount
    ensures step + 1 < StageCount ==> r == step + 1
    ensures step + 1 == StageCount ==> r == 0
  {
    (step + 1) % StageCount
  }

  /** `n` ticks in a row. */
  function Advanced(step: nat, n: nat): nat
    decreases n
  {
    if n == 0 then step else Advanced(Advance(step), n - 1)
  }

  lemma {:induction false} AdvancedIsModular(step: nat, n: nat)
    requires step < StageCount
    ensures Advanced(step, n) == (step + n) % StageCount
    decreases n
  {
    if n > 0 {
      AdvancedIsModular(Advance(step), n - 1);
      assert Advance(step) + (n - 1) == step + n || step + 1 == StageCount;
      if step + 1 == StageCount {
        assert (step + n) % StageCount == (n - 1) % StageCount by {
          assert step + n == (n - 1) + StageCount;
        }
      }
    }
  }

  /** Ten ticks bring the walkthrough back to the stage it started on. */
  lemma TenTicksCycle(step: nat)
    requires step < StageCount
    ensures Advanced(step, StageCount) == step
  {
    AdvancedIsModular(step, StageCount);
  }

  datatype StageLook = Active | Processed | Pending

  /** How stage `idx` is drawn while `step` is lit. */
  function Look(step: nat, idx: nat): (r: StageLook)
    ensures r == Active <==> idx == step
    ensures r == Processed <==> idx < step
    ensures r == Pending <==> idx > step
  {
    if step == idx then Active else if step > idx then Processed else Pending
  }

  /** How many of the first `n` stages are drawn as processed. */
  function ProcessedAmong(step: nat, n: nat): nat
    decreases n
  {
    if n == 0 then 0 else ProcessedAmong(step, n - 1) + (if Look(step, n - 1) == Processed then 1 else 0)
  }

  lemma {:induction false} ProcessedAmongCounts(step: nat, n: nat)
    ensures ProcessedAmong(step, n) == if n <= step then n else step
    decreases n
  {
    if n > 0 {
      ProcessedAmongCounts(step, n - 1);
    }
  }

  /** Exactly one stage is lit, and exactly `step` stages are processed. */
  lemma OneActiveStage(step: nat)
    requires step < StageCount
    ensures forall idx :: 0 <= idx < StageCount && Look(step, idx) == Active ==> idx == step
    ensures Look(step, step) == Active
    ensures ProcessedAmong(step, StageCount) == step
  {
    ProcessedAmongCounts(step, StageCount);
  }

  class SystemFlow {
    var activeStep: nat
    var isSimulating: bool

    ghost predicate Valid()
      reads this
    {
      activeStep < StageCount
    }

    constructor ()
      ensures Valid() && activeStep == 0 && isSimulating
    {
      activeStep := 0;
      isSimulating := true;
    }

    /** The interval fires; it is only installed while simulating. */
    method IntervalFires()
      requires Valid()
      modifies this
      ensures Valid() && isSimulating == old(isSimulating)
      ensures activeStep == if old(isSimulating) then Advance(old(activeStep)) else old(activeStep)
    {
      if isSimulating {
        activeStep := Advance(activeStep);
      }
    }

    /** HALT SIMULATION / EXECUTE FLOW: the lit stage stays where it is. */
    method ToggleSimulation()
      requires Valid()
      modifies this
      ensures Valid() && isSimulating == !old(isSimulating) && activeStep == old(activeStep)
    {
      isSimulating := !isSimulating;
    }
  }

}
