/** The sampler's CPU and RAM correction steps, and how they behave on the plant total = baseline + load. */
module Feedback {
  import opened Prelude
  import CpuLoad

  function Magnitude(v: real): real {
    if v < 0.0 then -v else v
  }

  // ---- CPU ----

  datatype Knobs = Knobs(gain: real, toleranceMc: real, toleranceFrac: real)

  function Tolerance(k: Knobs, target: real): real {
    Greater(k.toleranceMc, k.toleranceFrac * target)
  }

  /** The stress level one correction step asks for, or None when it leaves the load alone. */
  function CpuRequest(k: Knobs, running: bool, target: real, stress: real, actual: real): Option<real> {
    if !running || target <= 0.0 then None
    else
      var error := target - actual;
      if Magnitude(error) <= Tolerance(k, target) then None
      else
        var next := Greater(0.0, stress + Times(k.gain, error));
        if next <= 0.0 && stress <= 0.0 then None else Some(next)
  }

  /** The load state after one correction step. */
  ghost function Adjusted(k: Knobs, running: bool, target: real, actual: real, cores: nat, sliceMs: nat,
                          s: CpuLoad.State): CpuLoad.State {
    match CpuRequest(k, running, target, s.requested, actual)
    case None => s
    case Some(next) => CpuLoad.Step(cores, sliceMs, s, CpuLoad.Start(next))
  }

  method AdjustCpu(load: CpuLoad.CpuLoad, k: Knobs, running: bool, target: real, actual: real)
    modifies load`requested, load`running, load`remembered
    ensures load.Current() == Adjusted(k, running, target, actual, load.cores, load.sliceMs, old(load.Current()))
  {
    if !running || target <= 0.0 {
      return;
    }
    var tolerance := Tolerance(k, target);
    var error := target - actual;
    if Magnitude(error) <= tolerance {
      return;
    }
    var stress := load.requested;
    var next := Greater(0.0, stress + Times(k.gain, error));
    if next <= 0.0 && stress <= 0.0 {
      return;
    }
    var _ := load.StartCpu(next);
  }

  /** A stopped worker, or one with no target, is left alone by both loops. */
  lemma {:induction false} IdleIsLeftAlone(k: Knobs, running: bool, target: real, actual: real, cores: nat,
                                           sliceMs: nat,
                                           s: CpuLoad.State, buffer: nat)
    requires !running || target <= 0.0
    ensures Adjusted(k, running, target, actual, cores, sliceMs, s) == s
    ensures RamRequest(running, target, buffer, actual) == None
  {
  }

  ghost predicate Sound(k: Knobs) {
    0.0 < k.gain <= 1.0 && k.toleranceMc > 0.0
  }

  /** The gap between target and measured total when the load is exactly `stress`. */
  function Gap(target: real, baseline: real, stress: real): real {
    target - (baseline + stress)
  }

  function PlantRequest(k: Knobs, target: real, baseline: real, stress: real): Option<real> {
    CpuRequest(k, true, target, stress, baseline + stress)
  }

  function PlantStep(k: Knobs, target: real, baseline: real, stress: real): real {
    match PlantRequest(k, target, baseline, stress)
    case None => stress
    case Some(next) => next
  }

  function PlantAfter(k: Knobs, target: real, baseline: real, stress: real, n: nat): real
    decreases n
  {
    if n == 0 then stress else PlantAfter(k, target, baseline, PlantStep(k, target, baseline, stress), n - 1)
  }

  /** A step that is not clamped at zero shrinks the gap by exactly the factor 1 - gain. */
  lemma {:induction false} GapShrinks(k: Knobs, target: real, baseline: real, stress: real)
    requires Sound(k) && PlantRequest(k, target, baseline, stress).Some?
    requires stress + Times(k.gain, Gap(target, baseline, stress)) >= 0.0
    ensures var gap := Gap(target, baseline, stress);
            Gap(target, baseline, PlantStep(k, target, baseline, stress)) == Times(1.0 - k.gain, gap)
  {
    var gap := Gap(target, baseline, stress);
    assert Times(1.0 - k.gain, gap) == gap - Times(k.gain, gap);
  }

  lemma GainBounds(gain: real, gap: real)
    requires 0.0 < gain <= 1.0
    ensures gap >= 0.0 ==> 0.0 <= Times(gain, gap) <= gap
    ensures gap <= 0.0 ==> gap <= Times(gain, gap) <= 0.0
  {
  }

  /** No step overshoots: the gap keeps its sign, clamped or not. */
  lemma {:induction false} GapKeepsSign(k: Knobs, target: real, baseline: real, stress: real)
    requires Sound(k) && stress >= 0.0
    ensures var gap, next := Gap(target, baseline, stress),
            Gap(target, baseline, PlantStep(k, target, baseline, stress));
            (gap >= 0.0 ==> 0.0 <= next <= gap) && (gap <= 0.0 ==> gap <= next <= 0.0)
    ensures PlantStep(k, target, baseline, stress) >= 0.0
  {
    GainBounds(k.gain, Gap(target, baseline, stress));
    hide Times;
  }

  /** Each real correction closes more than gain times the tolerance, unless it switches the load off. */
  lemma GapCloses(k: Knobs, target: real, baseline: real, stress: real)
    requires Sound(k) && stress >= 0.0 && PlantRequest(k, target, baseline, stress).Some?
    ensures var next := PlantStep(k, target, baseline, stress);
            || next == 0.0
            || Magnitude(Gap(target, baseline, next)) <=
                 Magnitude(Gap(target, baseline, stress)) - Times(k.gain, Tolerance(k, target))
  {
    var gap := Gap(target, baseline, stress);
    var size := Magnitude(gap);
    TimesOrder(k.gain, Tolerance(k, target), size);
    GainBounds(k.gain, gap);
    assert Times(k.gain, -gap) == -Times(k.gain, gap);
    hide Times, Tolerance;
  }

  /** At rest with the load off, nothing more can be given up. */
  lemma OffAndOverTarget(k: Knobs, target: real, baseline: real)
    requires Sound(k) && Gap(target, baseline, 0.0) <= 0.0
    ensures PlantRequest(k, target, baseline, 0.0).None?
  {
    GainBounds(k.gain, Gap(target, baseline, 0.0));
    hide Times;
  }

  lemma {:induction false} SettlesWithin(k: Knobs, target: real, baseline: real, stress: real, budget: nat)
    returns (n: nat)
    requires Sound(k) && stress >= 0.0 && target > 0.0
    requires Magnitude(Gap(target, baseline, stress)) <= Times(Times(k.gain, Tolerance(k, target)), budget as real)
    ensures n <= budget + 1
    ensures PlantRequest(k, target, baseline, PlantAfter(k, target, baseline, stress, n)).None?
    ensures PlantAfter(k, target, baseline, stress, n) >= 0.0
    decreases budget
  {
    var quantum := Times(k.gain, Tolerance(k, target));
    assert Times(quantum, 0.0) == 0.0;
    if PlantRequest(k, target, baseline, stress).None? {
      n := 0;
    } else {
      var next := PlantStep(k, target, baseline, stress);
      GapKeepsSign(k, target, baseline, stress);
      GapCloses(k, target, baseline, stress);
      RequestMeansGap(k, target, baseline, stress);
      if next == 0.0 {
        SwitchedOff(k, target, baseline, stress);
        n := 1;
        assert PlantAfter(k, target, baseline, next, 0) == next;
      } else {
        TimesPlus(quantum, budget as real, -1.0);
        assert Times(quantum, -1.0) == -quantum;
        hide Times, PlantRequest, Tolerance, PlantStep;
        assert budget > 0;
        var m := SettlesWithin(k, target, baseline, next, budget - 1);
        n := m + 1;
      }
    }
  }

  lemma RequestMeansGap(k: Knobs, target: real, baseline: real, stress: real)
    requires Sound(k) && PlantRequest(k, target, baseline, stress).Some?
    ensures Magnitude(Gap(target, baseline, stress)) > Tolerance(k, target) > 0.0
  {
  }

  lemma SwitchedOff(k: Knobs, target: real, baseline: real, stress: real)
    requires Sound(k) && stress >= 0.0 && PlantRequest(k, target, baseline, stress).Some?
    requires PlantStep(k, target, baseline, stress) == 0.0
    ensures PlantRequest(k, target, baseline, 0.0).None?
  {
    var gap := Gap(target, baseline, stress);
    GainBounds(k.gain, gap);
    GapKeepsSign(k, target, baseline, stress);
    RequestMeansGap(k, target, baseline, stress);
    if gap > 0.0 {
      PositiveProduct(k.gain, gap);
    } else {
      OffAndOverTarget(k, target, baseline);
    }
  }

  lemma PositiveProduct(a: real, b: real)
    requires a > 0.0 && b > 0.0
    ensures Times(a, b) > 0.0
  {
  }

  /** On a load that generates exactly what is asked for, the loop comes to rest in finitely many steps, inside
      the deadband or with the load off. */
  lemma ExactLoadSettles(k: Knobs, target: real, baseline: real, stress: real) returns (n: nat)
    requires Sound(k) && stress >= 0.0 && target > 0.0
    ensures var rest := PlantAfter(k, target, baseline, stress, n);
            && PlantRequest(k, target, baseline, rest).None?
            && (Magnitude(Gap(target, baseline, rest)) <= Tolerance(k, target) ||
                 (rest == 0.0 && Gap(target, baseline, rest) < 0.0))
  {
    var quantum := Times(k.gain, Tolerance(k, target));
    var size := Magnitude(Gap(target, baseline, stress));
    PositiveProduct(k.gain, Tolerance(k, target));
    Divided(size, quantum);
    CpuLoad.CeilingBounds(size / quantum);
    var budget: nat := CpuLoad.AtLeastOne(CpuLoad.Ceiling(size / quantum));
    TimesOrder(quantum, size / quantum, budget as real);
    assert Times(quantum, size / quantum) == size;
    n := SettlesWithin(k, target, baseline, stress, budget);
    RestMeans(k, target, baseline, PlantAfter(k, target, baseline, stress, n));
  }

  lemma RestMeans(k: Knobs, target: real, baseline: real, rest: real)
    requires Sound(k) && target > 0.0 && rest >= 0.0
    requires PlantRequest(k, target, baseline, rest).None?
    ensures Magnitude(Gap(target, baseline, rest)) <= Tolerance(k, target) ||
            (rest == 0.0 && Gap(target, baseline, rest) < 0.0)
  {
    var gap := Gap(target, baseline, rest);
    if Magnitude(gap) > Tolerance(k, target) && gap > 0.0 {
      PositiveProduct(k.gain, gap);
    }
    hide Times, Tolerance;
  }

  predicate InRange(m: real, cores: nat) {
    5.0 <= m <= cores as real * 1000.0
  }

  /** A step of a running worker that changes nothing, in any state that calls of the load can leave, finds a
      small error, or a load that is off and still over target, or works outside the range the quantisation
      bound covers. */
  lemma {:induction false} QuietStepMeansSmallError(k: Knobs, target: real, actual: real, cores: nat, sliceMs: nat,
                                                    s: CpuLoad.State)
    requires Sound(k) && target > 0.0 && CpuLoad.Consistent(cores, sliceMs, s)
    requires Adjusted(k, true, target, actual, cores, sliceMs, s) == s
    ensures SmallError(k, target, actual, cores, s)
  {
    var error := target - actual;
    var next := Greater(0.0, s.requested + Times(k.gain, error));
    if Magnitude(error) > Tolerance(k, target) {
      if next <= 0.0 && s.requested <= 0.0 {
        if error > 0.0 {
          PositiveProduct(k.gain, error);
        }
      } else if InRange(s.requested, cores) && InRange(next, cores) {
        hide CpuLoad.CommandFor, Times;
        assert CpuLoad.CommandFor(s.requested, cores, sliceMs) == CpuLoad.CommandFor(next, cores, sliceMs);
        NudgeBound(k.gain, s.requested, next, error, cores, sliceMs);
      }
    }
  }

  ghost predicate SmallError(k: Knobs, target: real, actual: real, cores: nat, s: CpuLoad.State)
    requires k.gain > 0.0
  {
    var error := target - actual;
    || Magnitude(error) <= Tolerance(k, target)
    || (s.requested == 0.0 && error < 0.0)
    || !InRange(s.requested, cores)
    || !InRange(Greater(0.0, s.requested + Times(k.gain, error)), cores)
    || (|s.running| == 1 && Magnitude(error) <= 10.0 * s.running[0].workers as real / k.gain)
  }

  lemma NudgeBound(gain: real, current: real, next: real, error: real, cores: nat, sliceMs: nat)
    requires gain > 0.0 && InRange(current, cores) && InRange(next, cores) &&
             next == Greater(0.0, current + Times(gain, error))
    requires CpuLoad.CommandFor(current, cores, sliceMs) == CpuLoad.CommandFor(next, cores, sliceMs)
    ensures CpuLoad.CommandFor(current, cores, sliceMs).Some?
    ensures Magnitude(error) <= 10.0 * CpuLoad.CommandFor(current, cores, sliceMs).value.workers as real / gain
  {
    hide CpuLoad.CommandFor;
    CpuLoad.SkippedNudgeIsSmall(current, next, gain, error, cores, sliceMs);
    CpuLoad.QuantisationError(current, cores, sliceMs);
  }

  // ---- RAM ----

  const PAGE: nat := 4096
  const MIB: real := 1048576.0
  const RAM_TOLERANCE: real := 0.5

  /** Bytes mapped for a request: truncated, then whole pages; below one page nothing is mapped. */
  function BufferFor(mb: real): nat {
    if mb <= 0.0 then 0
    else
      var bytes := (mb * MIB).Floor;
      if bytes < PAGE then 0 else (bytes + PAGE - 1) / PAGE * PAGE
  }

  function Megabytes(bytes: nat): real {
    bytes as real / MIB
  }

  function RamRequest(running: bool, target: real, buffer: nat, actual: real): Option<real> {
    if !running || target <= 0.0 then None
    else if Magnitude(target - actual) <= RAM_TOLERANCE then None
    else Some(Greater(0.0, Megabytes(buffer) + (target - actual)))
  }

  /** `mapped` is the buffer's length in bytes, 0 when there is none; `resident` what has been touched. */
  class RamLoad {
    var mapped: nat
    var resident: nat

    constructor ()
      ensures mapped == 0 && resident == 0
    {
      mapped, resident := 0, 0;
    }

    /** Drop the old buffer, map a new one and write a byte to each of its pages. */
    method StartRam(mb: real)
      modifies this
      ensures mapped == BufferFor(mb) && resident == mapped
    {
      mapped, resident := 0, 0;
      if mb <= 0.0 {
        return;
      }
      var bytes := (mb * MIB).Floor;
      if bytes < PAGE {
        return;
      }
      var pages := (bytes + PAGE - 1) / PAGE;
      for i := 0 to pages
        invariant mapped == 0 && resident == i * PAGE
      {
        resident := resident + PAGE;
      }
      mapped := pages * PAGE;
    }

    method AdjustRam(running: bool, target: real, actual: real)
      modifies this
      ensures var request := RamRequest(running, target, old(mapped), actual);
              if request.None? then mapped == old(mapped) && resident == old(resident)
              else mapped == BufferFor(request.value) && resident == mapped
    {
      if !running || target <= 0.0 || Magnitude(target - actual) <= RAM_TOLERANCE {
        return;
      }
      StartRam(Greater(0.0, Megabytes(mapped) + (target - actual)));
    }
  }

  function RamPlantStep(target: real, baseline: real, buffer: nat): nat {
    match RamRequest(true, target, buffer, baseline + Megabytes(buffer))
    case None => buffer
    case Some(mb) => BufferFor(mb)
  }

  /** Rounding to whole pages misses the request by at most one page. */
  lemma BufferWithinPage(mb: real)
    requires mb >= 0.0
    ensures -(PAGE as real) <= BufferFor(mb) as real - mb * MIB <= PAGE as real
  {
    if mb > 0.0 {
      var bytes := (mb * MIB).Floor;
      assert bytes as real <= mb * MIB < bytes as real + 1.0;
      if bytes >= PAGE {
        RoundUpBounds(bytes);
      }
    }
  }

  /** The buffer is the least whole number of pages that covers the whole bytes asked for; below one page there is
      none. */
  lemma {:induction false} BufferIsWholePages(mb: real)
    requires mb >= 0.0
    ensures var bytes, buffer := (mb * MIB).Floor, BufferFor(mb);
            && buffer % PAGE == 0
            && (bytes < PAGE ==> buffer == 0)
            && (bytes >= PAGE ==> bytes <= buffer < bytes + PAGE)
  {
    var bytes := (mb * MIB).Floor;
    if mb > 0.0 && bytes >= PAGE {
      RoundUpBounds(bytes);
    }
  }

  lemma RoundUpBounds(bytes: nat)
    ensures bytes <= (bytes + PAGE - 1) / PAGE * PAGE < bytes + PAGE
  {
  }

  /** From below the target, one correction lands within a page of it, and no later step resizes again. */
  lemma {:induction false} RamSettlesInOneStep(target: real, baseline: real, buffer: nat)
    requires target > 0.0 && baseline <= target
    ensures var next := RamPlantStep(target, baseline, buffer);
            && (RamRequest(true, target, buffer, baseline + Megabytes(buffer)).Some? ==>
                  Magnitude(target - (baseline + Megabytes(next))) <= PAGE as real / MIB)
            && RamRequest(true, target, next, baseline + Megabytes(next)).None?
            && RamPlantStep(target, baseline, next) == next
  {
    if RamRequest(true, target, buffer, baseline + Megabytes(buffer)).Some? {
      BufferWithinPage(target - baseline);
    }
  }

  /** One correction always suffices unless the baseline alone exceeds the target beyond the deadband; then
      every step asks again for an empty buffer. */
  lemma {:induction false} RamRestsExactlyWhen(target: real, baseline: real, buffer: nat)
    requires target > 0.0
    ensures var next := RamPlantStep(target, baseline, buffer);
            RamRequest(true, target, next, baseline + Megabytes(next)).None? <==> baseline <= target + RAM_TOLERANCE
  {
    if baseline <= target {
      RamSettlesInOneStep(target, baseline, buffer);
    } else {
      assert Megabytes(0) == 0.0;
      assert Megabytes(buffer) >= 0.0;
    }
  }
}
