/** The boot sequencer behind the splash screen (splash/SplashViewModel.kt):
    four phases run one after the other, each moving the progress from its
    start value to its end value by linear interpolation over its duration,
    then `Ready`; an exception ends the attempt with `Error`.

    The wall clock is an input: a `PhaseClock` lists the readings of
    `System.currentTimeMillis()` one run of a phase makes. The exception is
    an input too: a `Fault` names how many phases completed before it was
    thrown. The ghost field `emitted` records every value written to the
    state flow, in order. */
module Splash {
  import opened Types
  import opened Boot

  /** One `runPhase(phase, duration, startProgress, endProgress)` call. */
  datatype PhasePlan = PhasePlan(phase: BootPhase, duration: nat, start: real, end: real)

  /** The four calls `startBootProcess` makes, in order. */
  const Plan: seq<PhasePlan> := [
    PhasePlan(CoreBoot, 1500, 0.0, 0.25),
    PhasePlan(AudioDspHardening, 2000, 0.25, 0.5),
    PhasePlan(VideoEngineSync, 2500, 0.5, 0.85),
    PhasePlan(AiCopilotValidation, 1500, 0.85, 1.0)]

  const UnknownBootError: string := "Unknown boot error"

  /** The state flow's value before anything runs. */
  const InitialState: BootState := Initializing(0.0, CoreBoot)

  predicate ValidPlan(p: PhasePlan) {
    p.duration > 0 && p.start <= p.end
  }

  /** The plan runs every phase once, in declaration order; each range is
      non-empty and starts where the previous one ended, from 0 to 1. */
  lemma PlanCoversUnitInterval()
    ensures |Plan| == |Phases|
    ensures forall k :: 0 <= k < |Plan| ==> Plan[k].phase == Phases[k] && ValidPlan(Plan[k])
    ensures forall k :: 0 <= k < |Plan| ==> 0.0 <= Plan[k].start && Plan[k].end <= 1.0
    ensures Plan[0].start == 0.0 && Plan[|Plan| - 1].end == 1.0
    ensures forall k :: 0 <= k < |Plan| - 1 ==> Plan[k].end == Plan[k + 1].start
  {
  }

  // ---------------------------------------------------------------------
  // Progress within a phase

  /** Kotlin's `coerceIn(lo, hi)`. */
  function Clamp(x: real, lo: real, hi: real): (r: real)
    requires lo <= hi
    ensures lo <= r <= hi
    ensures lo <= x <= hi ==> r == x
    ensures x < lo ==> r == lo
    ensures x > hi ==> r == hi
  {
    if x < lo then lo else if x > hi then hi else x
  }

  /** The progress shown `elapsed` milliseconds into phase `p`. */
  function Progress(p: PhasePlan, elapsed: int): (r: real)
    requires ValidPlan(p)
    ensures p.start <= r <= p.end
  {
    Clamp(p.start + (p.end - p.start) * ((elapsed as real) / (p.duration as real)), p.start, p.end)
  }

  lemma ScaleMonotone(c: real, a: real, b: real)
    requires c >= 0.0 && a <= b
    ensures c * a <= c * b
  {
  }

  lemma ShareMonotone(a: real, b: real, d: real)
    requires a <= b && d > 0.0
    ensures a / d <= b / d
  {
    assert b / d - a / d == (b - a) / d;
  }

  lemma ClampMonotone(x: real, y: real, lo: real, hi: real)
    requires x <= y && lo <= hi
    ensures Clamp(x, lo, hi) <= Clamp(y, lo, hi)
  {
  }

  /** Later readings never show less progress. */
  lemma ProgressMonotone(p: PhasePlan, e1: int, e2: int)
    requires ValidPlan(p) && e1 <= e2
    ensures Progress(p, e1) <= Progress(p, e2)
  {
    var d := p.duration as real;
    var x1, x2 := (e1 as real) / d, (e2 as real) / d;
    ShareMonotone(e1 as real, e2 as real, d);
    ScaleMonotone(p.end - p.start, x1, x2);
    ClampMonotone(p.start + (p.end - p.start) * x1, p.start + (p.end - p.start) * x2, p.start, p.end);
  }

  /** A reading at or before the phase's start time shows the start value. */
  lemma ProgressBeforeStart(p: PhasePlan, elapsed: int)
    requires ValidPlan(p) && elapsed <= 0
    ensures Progress(p, elapsed) == p.start
  {
    var d, e := p.duration as real, elapsed as real;
    ShareMonotone(e, 0.0, d);
    ScaleMonotone(p.end - p.start, e / d, 0.0);
  }

  /** A reading a full duration or more after the start shows the end value. */
  lemma ProgressAfterDuration(p: PhasePlan, elapsed: int)
    requires ValidPlan(p) && elapsed >= p.duration
    ensures Progress(p, elapsed) == p.end
  {
    var d, e := p.duration as real, elapsed as real;
    ShareMonotone(d, e, d);
    ScaleMonotone(p.end - p.start, 1.0, e / d);
  }

  /** Half way through the duration the progress is half way through the
      range. */
  lemma ProgressMidpoint(p: PhasePlan, elapsed: int)
    requires ValidPlan(p) && 2 * elapsed == p.duration
    ensures Progress(p, elapsed) == (p.start + p.end) / 2.0
  {
    var d, e := p.duration as real, elapsed as real;
    assert e / d == 0.5 by {
      assert 2.0 * e == d;
    }
  }

  // ---------------------------------------------------------------------
  // One phase

  /** The clock readings of one `runPhase`: `start` is read first; on each
      pass of the loop the condition reads `checks[i]` and the body reads
      `samples[i]`; the condition's reading `stop` ends the loop. */
  datatype PhaseClock = PhaseClock(start: int, checks: seq<int>, samples: seq<int>, stop: int)

  /** The readings describe a run that ends: every condition reading but the
      last is before the deadline `start + duration`, the last is not. */
  predicate EndsPhase(p: PhasePlan, c: PhaseClock) {
    |c.checks| == |c.samples|
    && (forall i :: 0 <= i < |c.checks| ==> c.checks[i] < c.start + p.duration)
    && c.stop >= c.start + p.duration
  }

  /** The reading the loop condition makes on its `i`-th evaluation. */
  function ConditionReading(c: PhaseClock, i: nat): int {
    if i < |c.checks| then c.checks[i] else c.stop
  }

  /** The loop body's emissions, one per pass. */
  function Samples(p: PhasePlan, c: PhaseClock): (s: seq<BootState>)
    requires ValidPlan(p)
    ensures |s| == |c.samples|
    ensures forall i :: 0 <= i < |s| ==> s[i] == Initializing(Progress(p, c.samples[i] - c.start), p.phase)
  {
    seq(|c.samples|, i requires 0 <= i < |c.samples| => Initializing(Progress(p, c.samples[i] - c.start), p.phase))
  }

  /** Everything one `runPhase` writes to the state flow. */
  function PhaseEmissions(p: PhasePlan, c: PhaseClock): seq<BootState>
    requires ValidPlan(p)
  {
    [Initializing(p.start, p.phase)] + Samples(p, c) + [Initializing(p.end, p.phase)]
  }

  /** A phase opens at its start value and closes pinned at its end value;
      in between it shows one interpolated value per loop pass. */
  lemma PhaseEmissionsShape(p: PhasePlan, c: PhaseClock)
    requires ValidPlan(p)
    ensures |PhaseEmissions(p, c)| == |c.samples| + 2
    ensures PhaseEmissions(p, c)[0] == Initializing(p.start, p.phase)
    ensures PhaseEmissions(p, c)[|c.samples| + 1] == Initializing(p.end, p.phase)
    ensures forall i :: 0 <= i < |c.samples| ==>
      PhaseEmissions(p, c)[i + 1] == Initializing(Progress(p, c.samples[i] - c.start), p.phase)
    ensures forall i :: 0 <= i < |c.samples| + 2 ==>
      PhaseEmissions(p, c)[i].Initializing? && PhaseEmissions(p, c)[i].phase == p.phase
      && p.start <= PhaseEmissions(p, c)[i].progress <= p.end
  {
    var e := PhaseEmissions(p, c);
    forall i | 0 <= i < |c.samples|
      ensures e[i + 1] == Samples(p, c)[i]
    {
    }
  }

  /** One state followed by another does not go backwards: neither in
      progress nor in phase order. */
  predicate Advances(a: BootState, b: BootState) {
    a.Initializing? && b.Initializing? ==> a.progress <= b.progress && Ordinal(a.phase) <= Ordinal(b.phase)
  }

  predicate StepsForward(e: seq<BootState>) {
    forall i :: 0 <= i < |e| - 1 ==> Advances(e[i], e[i + 1])
  }

  predicate NonDecreasing(s: seq<int>) {
    forall i, j :: 0 <= i <= j < |s| ==> s[i] <= s[j]
  }

  /** With a clock that never runs backwards, the progress a phase shows
      never goes backwards. */
  lemma PhaseStepsForward(p: PhasePlan, c: PhaseClock)
    requires ValidPlan(p) && NonDecreasing(c.samples)
    ensures StepsForward(PhaseEmissions(p, c))
  {
    var e := PhaseEmissions(p, c);
    PhaseEmissionsShape(p, c);
    forall i | 0 <= i < |e| - 1
      ensures Advances(e[i], e[i + 1])
    {
      if 0 < i < |e| - 2 {
        ProgressMonotone(p, c.samples[i - 1] - c.start, c.samples[i] - c.start);
      }
    }
  }

  lemma StepsForwardJoin(a: seq<BootState>, b: seq<BootState>)
    requires StepsForward(a) && StepsForward(b)
    requires a != [] && b != [] ==> Advances(a[|a| - 1], b[0])
    ensures StepsForward(a + b)
  {
    var e := a + b;
    forall i | 0 <= i < |e| - 1
      ensures Advances(e[i], e[i + 1])
    {
      if i + 1 < |a| {
        assert e[i] == a[i] && e[i + 1] == a[i + 1];
      } else if i >= |a| {
        assert e[i] == b[i - |a|] && e[i + 1] == b[i - |a| + 1];
      }
    }
  }

  // ---------------------------------------------------------------------
  // One attempt

  /** The exception an attempt may meet: none, or one thrown once
      `completed` phases have finished (four: before `Ready` is set),
      carrying its message if it has one. */
  datatype Fault = NoFault | FaultAfter(completed: nat, message: Option<string>)

  predicate Raises(f: Fault, k: nat) {
    f.FaultAfter? && f.completed == k
  }

  /** The catch block's state: the exception's message, or the fallback. */
  function ErrorState(message: Option<string>): (s: BootState)
    ensures s.Error?
    ensures message.Some? ==> s.message == message.value
    ensures message.None? ==> s.message == UnknownBootError
  {
    Error(if message.Some? then message.value else UnknownBootError)
  }

  /** Where an attempt ends. */
  function Outcome(f: Fault): BootState {
    if f.FaultAfter? && f.completed <= |Plan| then ErrorState(f.message) else Ready
  }

  predicate ClocksEndPhases(clocks: seq<PhaseClock>) {
    |clocks| == |Plan| && forall k :: 0 <= k < |Plan| ==> EndsPhase(Plan[k], clocks[k])
  }

  /** What an attempt writes from the `k`-th phase on. */
  function AttemptFrom(k: nat, clocks: seq<PhaseClock>, f: Fault): seq<BootState>
    requires k <= |Plan| && |clocks| == |Plan|
    decreases |Plan| - k
  {
    PlanCoversUnitInterval();
    if Raises(f, k) then [ErrorState(f.message)]
    else if k == |Plan| then [Ready]
    else PhaseEmissions(Plan[k], clocks[k]) + AttemptFrom(k + 1, clocks, f)
  }

  /** One step of `AttemptFrom`: the exception's state, or phase `k`
      followed by the rest. */
  lemma AttemptFromUnfold(k: nat, clocks: seq<PhaseClock>, f: Fault)
    requires k < |Plan| && |clocks| == |Plan|
    ensures ValidPlan(Plan[k])
    ensures Raises(f, k) ==> AttemptFrom(k, clocks, f) == [ErrorState(f.message)] && Outcome(f) == ErrorState(f.message)
    ensures !Raises(f, k) ==>
      AttemptFrom(k, clocks, f) == PhaseEmissions(Plan[k], clocks[k]) + AttemptFrom(k + 1, clocks, f)
  {
    PlanCoversUnitInterval();
  }

  /** Everything one run of `startBootProcess` writes to the state flow. */
  function Attempt(clocks: seq<PhaseClock>, f: Fault): seq<BootState>
    requires |clocks| == |Plan|
  {
    AttemptFrom(0, clocks, f)
  }

  /** The emissions of the first `n` phases, run in order. */
  function Completed(clocks: seq<PhaseClock>, n: nat): seq<BootState>
    requires n <= |Plan| && |clocks| == |Plan|
  {
    PlanCoversUnitInterval();
    if n == 0 then [] else Completed(clocks, n - 1) + PhaseEmissions(Plan[n - 1], clocks[n - 1])
  }

  lemma CompletedStep(clocks: seq<PhaseClock>, n: nat)
    requires n < |Plan| && |clocks| == |Plan|
    ensures Completed(clocks, n + 1) == Completed(clocks, n) + PhaseEmissions(Plan[n], clocks[n])
  {
  }

  /** The phase an attempt stops before: the fault's, or after all four. */
  function StopsAt(f: Fault): nat {
    if f.FaultAfter? && f.completed <= |Plan| then f.completed else |Plan|
  }

  /** Moving one block from the front of the rest to the end of the prefix
      keeps the whole. */
  lemma ShiftBlock(done: seq<BootState>, done': seq<BootState>, rest: seq<BootState>,
                   rest': seq<BootState>, block: seq<BootState>, whole: seq<BootState>)
    requires rest == block + rest' && done' == done + block && done' + rest' == whole
    ensures done + rest == whole
  {
  }

  lemma {:induction false} AttemptFromSplit(k: nat, clocks: seq<PhaseClock>, f: Fault)
    requires k <= StopsAt(f) && |clocks| == |Plan|
    ensures Completed(clocks, k) + AttemptFrom(k, clocks, f) == Completed(clocks, StopsAt(f)) + [Outcome(f)]
    decreases |Plan| - k
  {
    if k < StopsAt(f) {
      AttemptFromUnfold(k, clocks, f);
      CompletedStep(clocks, k);
      AttemptFromSplit(k + 1, clocks, f);
      ShiftBlock(Completed(clocks, k), Completed(clocks, k + 1), AttemptFrom(k, clocks, f),
                 AttemptFrom(k + 1, clocks, f), PhaseEmissions(Plan[k], clocks[k]),
                 Completed(clocks, StopsAt(f)) + [Outcome(f)]);
    } else if k < |Plan| {
      AttemptFromUnfold(k, clocks, f);
    }
  }

  /** The phases run in order, each in full, up to the fault; then the
      attempt writes exactly one final state: `Ready`, or `Error`, after
      which no later phase runs. */
  lemma AttemptRunsPhasesInOrder(clocks: seq<PhaseClock>, f: Fault)
    requires |clocks| == |Plan|
    ensures Attempt(clocks, f) == Completed(clocks, StopsAt(f)) + [Outcome(f)]
    ensures f.NoFault? ==> Outcome(f) == Ready
    ensures f.FaultAfter? && f.completed <= |Plan| ==> Outcome(f) == ErrorState(f.message)
  {
    AttemptFromSplit(0, clocks, f);
  }

  /** Unless the exception comes first, an attempt starts again from zero
      in the first phase, whatever state it was started from. */
  lemma AttemptStartsAtZero(clocks: seq<PhaseClock>, f: Fault)
    requires |clocks| == |Plan|
    ensures !Raises(f, 0) ==> Attempt(clocks, f)[0] == Initializing(0.0, CoreBoot)
    ensures Raises(f, 0) ==> Attempt(clocks, f) == [ErrorState(f.message)]
  {
  }

  /** With a clock that never runs backwards, an attempt never shows less
      progress or an earlier phase than before. */
  lemma {:induction false} AttemptFromStepsForward(k: nat, clocks: seq<PhaseClock>, f: Fault)
    requires k <= |Plan| && |clocks| == |Plan|
    requires forall j :: 0 <= j < |Plan| ==> NonDecreasing(clocks[j].samples)
    ensures StepsForward(AttemptFrom(k, clocks, f))
    ensures AttemptFrom(k, clocks, f) != []
    ensures AttemptFrom(k, clocks, f)[0].Initializing? ==>
      k < |Plan| && AttemptFrom(k, clocks, f)[0] == Initializing(Plan[k].start, Plan[k].phase)
    decreases |Plan| - k
  {
    PlanCoversUnitInterval();
    if !Raises(f, k) && k < |Plan| {
      var pe := PhaseEmissions(Plan[k], clocks[k]);
      var rest := AttemptFrom(k + 1, clocks, f);
      AttemptFromStepsForward(k + 1, clocks, f);
      PhaseStepsForward(Plan[k], clocks[k]);
      PhaseEmissionsShape(Plan[k], clocks[k]);
      assert pe[|pe| - 1] == Initializing(Plan[k].end, Plan[k].phase);
      assert Advances(pe[|pe| - 1], rest[0]);
      StepsForwardJoin(pe, rest);
      assert (pe + rest)[0] == pe[0];
    }
  }

  /** From the initial state on, with a clock that never runs backwards,
      the screen never shows less progress or an earlier phase. */
  lemma BootStepsForward(clocks: seq<PhaseClock>, f: Fault)
    requires |clocks| == |Plan|
    requires forall j :: 0 <= j < |Plan| ==> NonDecreasing(clocks[j].samples)
    ensures StepsForward([InitialState] + Attempt(clocks, f))
  {
    AttemptFromStepsForward(0, clocks, f);
    PlanCoversUnitInterval();
    StepsForwardJoin([InitialState], Attempt(clocks, f));
  }

  /** Every progress value an attempt shows is within 0..1. */
  lemma AttemptNormalised(clocks: seq<PhaseClock>, f: Fault)
    requires |clocks| == |Plan|
    ensures forall i :: 0 <= i < |Attempt(clocks, f)| ==> NormalisedProgress(Attempt(clocks, f)[i])
  {
    AttemptRunsPhasesInOrder(clocks, f);
    CompletedNormalised(clocks, StopsAt(f));
  }

  lemma {:induction false} CompletedNormalised(clocks: seq<PhaseClock>, n: nat)
    requires n <= |Plan| && |clocks| == |Plan|
    ensures forall i :: 0 <= i < |Completed(clocks, n)| ==> NormalisedProgress(Completed(clocks, n)[i])
  {
    PlanCoversUnitInterval();
    if n > 0 {
      CompletedNormalised(clocks, n - 1);
      PhaseEmissionsShape(Plan[n - 1], clocks[n - 1]);
    }
  }

  // ---------------------------------------------------------------------
  // The view model

  class SplashViewModel {
    var bootState: BootState
    ghost var emitted: seq<BootState>

    /** The state flow starts at `Initializing(0, CORE_BOOT)`, and `init`
        starts the boot process. */
    constructor (clocks: seq<PhaseClock>, f: Fault)
      requires ClocksEndPhases(clocks)
      ensures emitted == [InitialState] + Attempt(clocks, f)
      ensures bootState == Outcome(f)
    {
      bootState := InitialState;
      emitted := [InitialState];
      new;
      StartBootProcess(clocks, f);
    }

    /** `runPhase(phase, duration, startProgress, endProgress)`. */
    method RunPhase(p: PhasePlan, c: PhaseClock)
      requires ValidPlan(p) && EndsPhase(p, c)
      modifies this
      ensures bootState == Initializing(p.end, p.phase)
      ensures emitted == old(emitted) + PhaseEmissions(p, c)
    {
      bootState := Initializing(p.start, p.phase);
      emitted := emitted + [bootState];
      var startTime := c.start;
      var i := 0;
      while ConditionReading(c, i) < startTime + p.duration
        invariant 0 <= i <= |c.checks|
        invariant emitted == old(emitted) + [Initializing(p.start, p.phase)] + Samples(p, c)[..i]
        decreases |c.checks| - i
      {
        var elapsed := c.samples[i] - startTime;
        var progress := p.start + (p.end - p.start) * ((elapsed as real) / (p.duration as real));
        bootState := Initializing(Clamp(progress, p.start, p.end), p.phase);
        assert bootState == Samples(p, c)[i] by {
          assert Clamp(progress, p.start, p.end) == Progress(p, elapsed);
        }
        emitted := emitted + [bootState];
        assert Samples(p, c)[..i + 1] == Samples(p, c)[..i] + [Samples(p, c)[i]];
        i := i + 1;
      }
      assert Samples(p, c)[..i] == Samples(p, c);
      bootState := Initializing(p.end, p.phase);
      emitted := emitted + [bootState];
    }

    /** The catch block. */
    method Fail(message: Option<string>)
      modifies this
      ensures bootState == ErrorState(message)
      ensures emitted == old(emitted) + [bootState]
    {
      bootState := Error(if message.Some? then message.value else UnknownBootError);
      emitted := emitted + [bootState];
    }

    /** One `runPhase` call of the `try` block, unless the exception is
        thrown before it, in which case the catch block runs instead. */
    method PhaseOrCatch(k: nat, clocks: seq<PhaseClock>, f: Fault) returns (caught: bool)
      requires k < |Plan| && ClocksEndPhases(clocks)
      modifies this
      ensures caught <==> Raises(f, k)
      ensures caught ==> bootState == Outcome(f) && emitted == old(emitted) + AttemptFrom(k, clocks, f)
      ensures !caught ==> emitted + AttemptFrom(k + 1, clocks, f) == old(emitted) + AttemptFrom(k, clocks, f)
    {
      AttemptFromUnfold(k, clocks, f);
      if Raises(f, k) {
        Fail(f.message);
        return true;
      }
      ghost var before := emitted;
      RunPhase(Plan[k], clocks[k]);
      assert emitted == before + PhaseEmissions(Plan[k], clocks[k]);
      return false;
    }

    /** `startBootProcess`: the four phases, then `Ready`; the exception
        `f` leaves the remaining phases unrun. */
    method StartBootProcess(clocks: seq<PhaseClock>, f: Fault)
      requires ClocksEndPhases(clocks)
      modifies this
      ensures emitted == old(emitted) + Attempt(clocks, f)
      ensures bootState == Outcome(f)
    {
      ghost var total := emitted + Attempt(clocks, f);
      var caught := PhaseOrCatch(0, clocks, f);
      if caught {
        return;
      }
      assert emitted + AttemptFrom(1, clocks, f) == total;
      caught := PhaseOrCatch(1, clocks, f);
      if caught {
        return;
      }
      assert emitted + AttemptFrom(2, clocks, f) == total;
      caught := PhaseOrCatch(2, clocks, f);
      if caught {
        return;
      }
      assert emitted + AttemptFrom(3, clocks, f) == total;
      caught := PhaseOrCatch(3, clocks, f);
      if caught {
        return;
      }
      assert emitted + AttemptFrom(4, clocks, f) == total;
      Finish(clocks, f);
    }

    /** The end of the `try` block, once all four phases have run: `Ready`,
        unless the exception is thrown there. */
    method Finish(clocks: seq<PhaseClock>, f: Fault)
      requires |clocks| == |Plan|
      requires !Raises(f, 0) && !Raises(f, 1) && !Raises(f, 2) && !Raises(f, 3)
      modifies this
      ensures emitted == old(emitted) + AttemptFrom(|Plan|, clocks, f)
      ensures bootState == Outcome(f)
    {
      if Raises(f, |Plan|) {
        Fail(f.message);
      } else {
        bootState := Ready;
        emitted := emitted + [Ready];
      }
    }

    /** `retry`: starts the boot process again, whatever the current state. */
    method Retry(clocks: seq<PhaseClock>, f: Fault)
      requires ClocksEndPhases(clocks)
      modifies this
      ensures emitted == old(emitted) + Attempt(clocks, f)
      ensures bootState == Outcome(f)
    {
      StartBootProcess(clocks, f);
    }
  }
}
