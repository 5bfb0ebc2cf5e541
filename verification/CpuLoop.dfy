/** The CPU correction loop on the commands it really runs: total = baseline + what the stress processes generate. */
module CpuLoop {
  import opened Prelude
  import opened CpuLoad
  import opened Feedback

  /** A pod with its knobs: everything a correction step reads besides the load state. */
  datatype Pod = Pod(knobs: Knobs, target: real, baseline: real, cores: nat, sliceMs: nat)

  function LoadOf(running: seq<Command>): real {
    if running == [] then 0.0 else LoadOf(running[1..]) + Generated(running[0])
  }

  /** One correction step that measures what is really generated. */
  ghost function Next(p: Pod, s: State): State {
    Adjusted(p.knobs, true, p.target, p.baseline + LoadOf(s.running), p.cores, p.sliceMs, s)
  }

  ghost predicate Settled(p: Pod, s: State) {
    Next(p, s) == s
  }

  ghost function LoopAfter(p: Pod, s: State, n: nat): State
    decreases n
  {
    if n == 0 then s else LoopAfter(p, Next(p, s), n - 1)
  }

  ghost predicate RestsAfter(p: Pod, s: State, n: nat) {
    Settled(p, LoopAfter(p, s, n))
  }

  ghost predicate EventuallySettles(p: Pod, s: State) {
    exists n: nat :: RestsAfter(p, s, n)
  }

  ghost predicate Sensible(p: Pod) {
    Sound(p.knobs) && p.target > 0.0 && p.cores >= 1
  }

  // ---- what a request generates ----

  function GeneratedFor(p: Pod, r: real): real {
    LoadOf(Processes(CommandFor(r, p.cores, p.sliceMs)))
  }

  /** What is missing when the command for r runs. */
  function Missing(p: Pod, r: real): real {
    p.target - p.baseline - GeneratedFor(p, r)
  }

  lemma LoadOfCommand(c: Option<Command>)
    ensures LoadOf(Processes(c)) == if c.Some? then Generated(c.value) else 0.0
  {
  }

  lemma ConsistentLoad(p: Pod, s: State)
    requires Consistent(p.cores, p.sliceMs, s)
    ensures LoadOf(s.running) == GeneratedFor(p, s.requested)
  {
  }

  /** Below 5 millicores every request is the same command: one worker at one percent. */
  lemma TinyRequest(p: Pod, r: real)
    requires p.cores >= 1 && 0.0 < r < 5.0
    ensures CommandFor(r, p.cores, p.sliceMs) == CommandFor(1.0, p.cores, p.sliceMs)
    ensures GeneratedFor(p, r) == 10.0
  {
    TinyCommand(p, r);
    TinyCommand(p, 1.0);
    hide CommandFor;
    LoadOfCommand(CommandFor(r, p.cores, p.sliceMs));
  }

  lemma TinyCommand(p: Pod, r: real)
    requires p.cores >= 1 && 0.0 < r < 5.0
    ensures CommandFor(r, p.cores, p.sliceMs) == Some(Command(1, 1, if p.sliceMs > 0 then Some(p.sliceMs) else None))
  {
    assert Ceiling(r / 1000.0) == 1;
    assert Round(r / 10.0) == 0;
  }

  lemma SaturatedRequest(p: Pod, r: real)
    requires p.cores >= 1 && r >= p.cores as real * 1000.0
    ensures CommandFor(r, p.cores, p.sliceMs) == CommandFor(p.cores as real * 1000.0, p.cores, p.sliceMs)
    ensures GeneratedFor(p, r) <= p.cores as real * 1000.0
    ensures GeneratedFor(p, r) >= p.cores as real * 1000.0 - 5.0 * p.cores as real
  {
    var top := p.cores as real * 1000.0;
    ClampedRequests(r, p.cores, p.sliceMs);
    QuantisationError(top, p.cores, p.sliceMs);
    hide CommandFor;
    var c := CommandFor(top, p.cores, p.sliceMs).value;
    LoadOfCommand(Some(c));
    FullLoad(c, p.cores);
  }

  lemma FullLoad(c: Command, cores: nat)
    requires c.workers <= cores && c.load <= 100
    ensures Generated(c) <= cores as real * 1000.0
  {
    ProductOfNats(c.workers, c.load, 100);
    assert Generated(c) == 10.0 * (c.workers * c.load) as real;
  }

  lemma ProductOfNats(k: nat, m: nat, n: nat)
    requires m <= n
    ensures k * m <= k * n
  {
  }

  /** `w` workers are enough for requests up to r, or are all there are. */
  ghost predicate Carries(p: Pod, w: nat, r: real) {
    1 <= w <= p.cores && (r <= w as real * 1000.0 || w == p.cores)
  }

  lemma InRangeBounds(p: Pod, w: nat, r: real)
    requires Carries(p, w, r) && 5.0 <= r <= p.cores as real * 1000.0
    ensures -5.0 * w as real <= GeneratedFor(p, r) - r <= 5.0 * w as real
  {
    QuantisationError(r, p.cores, p.sliceMs);
    hide CommandFor;
    var c := CommandFor(r, p.cores, p.sliceMs);
    LoadOfCommand(c);
    assert c.value.workers <= w;
    hide Generated, LoadOf;
  }

  /** Rounding misses by at most five millicores per worker. */
  lemma GeneratedBounds(p: Pod, w: nat, r: real)
    requires Carries(p, w, r) && r >= 0.0
    ensures r == 0.0 ==> GeneratedFor(p, r) == 0.0
    ensures 0.0 < r < 5.0 ==> GeneratedFor(p, r) == 10.0
    ensures r >= 5.0 ==> GeneratedFor(p, r) <= r + 5.0 * w as real
    ensures r >= 5.0 ==> GeneratedFor(p, r) >= Least(r, p.cores as real * 1000.0) - 5.0 * w as real
  {
    if r == 0.0 {
      NoRequest(p);
    } else if r < 5.0 {
      TinyRequest(p, r);
    } else if r <= p.cores as real * 1000.0 {
      InRangeBounds(p, w, r);
    } else {
      SaturatedRequest(p, r);
      assert w <= p.cores;
    }
    hide GeneratedFor;
  }

  lemma NoRequest(p: Pod)
    ensures GeneratedFor(p, 0.0) == 0.0
  {
    LoadOfCommand(None);
  }

  // ---- one step ----

  /** The deadband is wide enough for w workers: what a step may overshoot by fits across it. */
  ghost predicate CoversRounding(p: Pod, w: nat) {
    var tolerance := Tolerance(p.knobs, p.target);
    2.0 * tolerance - Times(p.knobs.gain, tolerance) >= 10.0 * w as real
  }

  /** A step that changes something had an error outside the deadband and runs another command. */
  lemma ChangingStep(p: Pod, s: State)
    requires Sensible(p) && Consistent(p.cores, p.sliceMs, s) && !Settled(p, s)
    ensures var e := Missing(p, s.requested);
            var next := Greater(0.0, s.requested + Times(p.knobs.gain, e));
            && Magnitude(e) > Tolerance(p.knobs, p.target) && (next > 0.0 || s.requested > 0.0)
            && Consistent(p.cores, p.sliceMs, Next(p, s)) && Next(p, s).requested == next
            && (s.requested > 0.0 ==>
                 CommandFor(next, p.cores, p.sliceMs) != CommandFor(s.requested, p.cores, p.sliceMs))
  {
    ConsistentLoad(p, s);
    hide CommandFor, Times, LoadOf, Tolerance;
  }

  lemma GainOf(p: Pod, e: real)
    requires Sensible(p)
    ensures var t, d := Tolerance(p.knobs, p.target), Times(p.knobs.gain, e);
            && t > 0.0 && 0.0 < Times(p.knobs.gain, t) <= t
            && (e > t ==> Times(p.knobs.gain, t) < d <= e && e - d >= t - Times(p.knobs.gain, t))
            && (e < -t ==> e <= d < -Times(p.knobs.gain, t) && d - e >= t - Times(p.knobs.gain, t))
  {
    var t, g := Tolerance(p.knobs, p.target), p.knobs.gain;
    GainBounds(g, t);
    PositiveProduct(g, t);
    if e > t {
      GainStep(g, t, e);
    }
    if e < -t {
      GainStep(g, t, -e);
      assert Times(g, -e) == -Times(g, e);
    }
  }

  lemma GainStep(g: real, t: real, e: real)
    requires 0.0 < g <= 1.0 && e > t
    ensures Times(g, t) < Times(g, e) && e - Times(g, e) >= t - Times(g, t)
    ensures e >= 0.0 ==> Times(g, e) <= e
  {
    TimesPlus(g, t, e - t);
    PositiveProduct(g, e - t);
    GainBounds(g, e - t);
    GainBounds(g, e);
  }

  /** A step up does not pass the far side of the deadband, and moves by at least gain times tolerance. */
  lemma {:induction false} StepUp(p: Pod, w: nat, s: State)
    requires Sensible(p) && Consistent(p.cores, p.sliceMs, s) && !Settled(p, s)
    requires CoversRounding(p, w) && Carries(p, w, s.requested) && Carries(p, w, Next(p, s).requested)
    requires Missing(p, s.requested) > 0.0
    ensures var next, t := Next(p, s).requested, Tolerance(p.knobs, p.target);
            && Missing(p, next) >= -t
            && next >= s.requested + Times(p.knobs.gain, t)
            && s.requested < p.cores as real * 1000.0
  {
    var r, e := s.requested, Missing(p, s.requested);
    ChangingStep(p, s);
    GainOf(p, e);
    var next := Next(p, s).requested;
    hide CommandFor, Times, LoadOf, Tolerance, Next, Settled;
    if r >= p.cores as real * 1000.0 {
      SaturatedRequest(p, r);
      SaturatedRequest(p, next);
    }
    if 0.0 < r && next < 5.0 {
      TinyRequest(p, r);
      TinyRequest(p, next);
    }
    GeneratedBounds(p, w, r);
    GeneratedBounds(p, w, next);
    hide GeneratedFor;
  }

  /** The same downwards, unless the step switches the load off: then there is nothing left to do. */
  lemma {:induction false} StepDown(p: Pod, w: nat, s: State)
    requires Sensible(p) && Consistent(p.cores, p.sliceMs, s) && !Settled(p, s)
    requires CoversRounding(p, w) && Carries(p, w, s.requested) && Carries(p, w, Next(p, s).requested)
    requires Missing(p, s.requested) < 0.0
    ensures var next, t := Next(p, s).requested, Tolerance(p.knobs, p.target);
            && s.requested > 0.0
            && Missing(p, next) <= t
            && (next > 0.0 ==> next <= s.requested - Times(p.knobs.gain, t))
  {
    var r, e := s.requested, Missing(p, s.requested);
    ChangingStep(p, s);
    GainOf(p, e);
    var next := Next(p, s).requested;
    hide CommandFor, Times, LoadOf, Tolerance, Next, Settled;
    if next >= p.cores as real * 1000.0 {
      SaturatedRequest(p, r);
      SaturatedRequest(p, next);
    }
    if 0.0 < next && r < 5.0 {
      TinyRequest(p, r);
      TinyRequest(p, next);
    }
    GeneratedBounds(p, w, r);
    GeneratedBounds(p, w, next);
    hide GeneratedFor;
  }

  /** With the load off and nothing missing beyond the deadband the loop is at rest. */
  lemma OffIsSettled(p: Pod, s: State)
    requires Sensible(p) && Consistent(p.cores, p.sliceMs, s) && s.requested == 0.0
    requires Missing(p, 0.0) <= Tolerance(p.knobs, p.target)
    ensures Settled(p, s)
  {
    if !Settled(p, s) {
      ChangingStep(p, s);
      GainOf(p, Missing(p, 0.0));
      hide Times, Tolerance, CommandFor, LoadOf;
    }
  }

  // ---- the whole loop ----

  /** w workers are all there are, or enough for the present request and for what is wanted. */
  ghost predicate Within(p: Pod, w: nat, r: real) {
    && 1 <= w <= p.cores
    && (w == p.cores || (r <= w as real * 1000.0 && p.target - p.baseline + 5.0 * w as real <= w as real * 1000.0))
  }

  lemma StepStaysWithin(p: Pod, w: nat, s: State)
    requires Sensible(p) && Consistent(p.cores, p.sliceMs, s) && Within(p, w, s.requested)
    ensures Consistent(p.cores, p.sliceMs, Next(p, s)) && Within(p, w, Next(p, s).requested)
    ensures Carries(p, w, s.requested) && Carries(p, w, Next(p, s).requested)
  {
    if !Settled(p, s) {
      ChangingStep(p, s);
      GainOf(p, Missing(p, s.requested));
      GeneratedBounds(p, w, s.requested);
      hide CommandFor, Times, LoadOf, Tolerance, Next, Settled, GeneratedFor;
    }
  }

  /** From below the far side of the deadband the request only rises, and it cannot rise past every core. */
  lemma {:induction false} ClimbSettles(p: Pod, w: nat, s: State, budget: nat) returns (n: nat)
    requires Sensible(p) && Consistent(p.cores, p.sliceMs, s) && Within(p, w, s.requested) && CoversRounding(p, w)
    requires Missing(p, s.requested) >= -Tolerance(p.knobs, p.target)
    requires p.cores as real * 1000.0 - s.requested <=
             Times(Times(p.knobs.gain, Tolerance(p.knobs, p.target)), budget as real)
    ensures RestsAfter(p, s, n)
    decreases budget
  {
    var quantum := Times(p.knobs.gain, Tolerance(p.knobs, p.target));
    if Settled(p, s) {
      n := 0;
    } else {
      var next := Next(p, s);
      ChangingStep(p, s);
      GainOf(p, 0.0);
      StepStaysWithin(p, w, s);
      StepUp(p, w, s);
      OneLess(quantum, budget);
      hide Times, CommandFor, Tolerance, Next, Settled, Missing, Within, Consistent, CoversRounding;
      assert budget > 0;
      var m := ClimbSettles(p, w, next, budget - 1);
      n := m + 1;
    }
  }

  /** From above the near side it only falls, until it is at rest or off. */
  lemma {:induction false} FallSettles(p: Pod, w: nat, s: State, budget: nat) returns (n: nat)
    requires Sensible(p) && Consistent(p.cores, p.sliceMs, s) && Within(p, w, s.requested) && CoversRounding(p, w)
    requires Missing(p, s.requested) <= Tolerance(p.knobs, p.target)
    requires s.requested <= Times(Times(p.knobs.gain, Tolerance(p.knobs, p.target)), budget as real)
    ensures RestsAfter(p, s, n)
    decreases budget
  {
    var quantum := Times(p.knobs.gain, Tolerance(p.knobs, p.target));
    if Settled(p, s) {
      n := 0;
    } else {
      var next := Next(p, s);
      ChangingStep(p, s);
      GainOf(p, 0.0);
      StepStaysWithin(p, w, s);
      StepDown(p, w, s);
      OneLess(quantum, budget);
      hide Times, CommandFor, Tolerance, Next, Settled, Missing, Within, CoversRounding;
      if next.requested <= 0.0 {
        OffIsSettled(p, next);
        assert LoopAfter(p, next, 0) == next;
        n := 1;
      } else {
        assert budget > 0;
        var m := FallSettles(p, w, next, budget - 1);
        n := m + 1;
      }
    }
  }

  lemma OneLess(quantum: real, budget: nat)
    ensures Times(quantum, budget as real) == Times(quantum, budget as real - 1.0) + quantum
    ensures Times(quantum, 0.0) == 0.0
  {
    TimesPlus(quantum, budget as real - 1.0, 1.0);
  }

  lemma EnoughBudget(quantum: real, size: real) returns (budget: nat)
    requires quantum > 0.0
    ensures size <= Times(quantum, budget as real)
  {
    Divided(size, quantum);
    CeilingBounds(size / quantum);
    budget := AtLeastOne(Ceiling(size / quantum));
    TimesOrder(quantum, size / quantum, budget as real);
    assert Times(quantum, size / quantum) == size;
  }

  /** When the deadband covers the rounding of w workers, the loop comes to rest after finitely many steps, from
      any state that calls of the load can leave. */
  lemma {:induction false} CpuSettles(p: Pod, w: nat, s: State)
    requires Sensible(p) && Consistent(p.cores, p.sliceMs, s) && Within(p, w, s.requested) && CoversRounding(p, w)
    ensures EventuallySettles(p, s)
  {
    var quantum := Times(p.knobs.gain, Tolerance(p.knobs, p.target));
    GainOf(p, 0.0);
    hide Times, CommandFor, Tolerance, Next, Settled, Missing, Within, Consistent, CoversRounding;
    if Missing(p, s.requested) >= 0.0 {
      var budget := EnoughBudget(quantum, p.cores as real * 1000.0 - s.requested);
      var n := ClimbSettles(p, w, s, budget);
    } else {
      var budget := EnoughBudget(quantum, s.requested);
      var n := FallSettles(p, w, s, budget);
    }
  }

  lemma {:induction false} LoopStaysConsistent(p: Pod, s: State, n: nat)
    requires Sensible(p) && Consistent(p.cores, p.sliceMs, s)
    ensures Consistent(p.cores, p.sliceMs, LoopAfter(p, s, n))
    decreases n
  {
    if n > 0 {
      if !Settled(p, s) {
        ChangingStep(p, s);
      }
      hide Next, Consistent;
      LoopStaysConsistent(p, Next(p, s), n - 1);
    }
  }

  /** Where the loop rests the error is small, or nothing more can be done about it. */
  lemma {:induction false} RestIsClose(p: Pod, s: State, n: nat)
    requires Sensible(p) && Consistent(p.cores, p.sliceMs, s) && RestsAfter(p, s, n)
    ensures var rest := LoopAfter(p, s, n);
            SmallError(p.knobs, p.target, p.baseline + LoadOf(rest.running), p.cores, rest)
  {
    var rest := LoopAfter(p, s, n);
    LoopStaysConsistent(p, s, n);
    hide Consistent, CommandFor, LoopAfter, LoadOf, SmallError;
    QuietStepMeansSmallError(p.knobs, p.target, p.baseline + LoadOf(rest.running), p.cores, p.sliceMs, rest);
  }

  // ---- the knobs the worker ships with ----

  const DEFAULT_KNOBS := Knobs(0.6, 15.0, 0.05)

  /** What reconfiguring leaves: everything stopped, then the load seeded at the full target. */
  ghost function Seeded(p: Pod): State {
    Step(p.cores, p.sliceMs, IDLE, Start(p.target))
  }

  lemma SeededIs(p: Pod)
    requires Sensible(p)
    ensures Consistent(p.cores, p.sliceMs, Seeded(p)) && Seeded(p).requested == p.target
  {
    hide CommandFor;
  }

  lemma WorkersForTarget(p: Pod) returns (w: nat)
    requires Sensible(p) && p.baseline >= 0.0
    ensures Within(p, w, p.target)
    ensures w as real <= p.target / 995.0 + 1.0 && (p.target <= 995.0 ==> w == 1)
  {
    CeilingBounds(p.target / 995.0);
    w := AtLeastOne(Ceiling(p.target / 995.0));
    if w > p.cores {
      w := p.cores;
    }
  }

  /** With the default knobs a reconfigured worker always settles: on any machine, at any target, under any
      baseline. */
  lemma {:induction false} DefaultKnobsSettle(p: Pod)
    requires Sensible(p) && p.knobs == DEFAULT_KNOBS && p.baseline >= 0.0
    ensures EventuallySettles(p, Seeded(p))
  {
    SeededIs(p);
    var w := WorkersForTarget(p);
    DefaultsCover(p, w);
    hide Consistent, Within, CoversRounding, EventuallySettles;
    CpuSettles(p, w, Seeded(p));
  }

  lemma DefaultsCover(p: Pod, w: nat)
    requires p.knobs == DEFAULT_KNOBS && p.target > 0.0 && 1 <= w && w as real <= p.target / 995.0 + 1.0
    requires p.target <= 995.0 ==> w == 1
    ensures CoversRounding(p, w)
  {
    var t := Tolerance(p.knobs, p.target);
    assert Times(0.6, t) == 0.6 * t;
    assert t >= 15.0 && t >= 0.05 * p.target;
  }

  // ---- a deadband that is too small ----

  /** Two states that lead to each other: the loop never rests. */
  ghost predicate Cycles(p: Pod, s: State, other: State) {
    s != other && Next(p, s) == other && Next(p, other) == s
  }

  lemma {:induction false} CyclesForEver(p: Pod, s: State, other: State, n: nat)
    requires Cycles(p, s, other)
    ensures !RestsAfter(p, s, n)
    decreases n
  {
    if n > 0 {
      hide Next;
      CyclesForEver(p, other, s, n - 1);
    }
  }

  lemma CyclingNeverSettles(p: Pod, s: State, other: State)
    requires Cycles(p, s, other)
    ensures !EventuallySettles(p, s)
  {
    hide Cycles, RestsAfter;
    forall n: nat
      ensures !RestsAfter(p, s, n)
    {
      CyclesForEver(p, s, other, n);
    }
  }

  /** The state in which a request runs. */
  function Running(p: Pod, r: real): State {
    var c := CommandFor(r, p.cores, p.sliceMs);
    State(AtLeastZero(r), Of(c), Processes(c))
  }

  /** At full gain, with both errors outside the deadband, two requests whose commands miss the wanted load by
      as much as they lie apart trade places. */
  lemma TwoRequestsTrade(p: Pod, low: real, high: real)
    requires Sensible(p) && p.knobs.gain == 1.0 && 0.0 < low < high
    requires Missing(p, low) == high - low == -Missing(p, high)
    requires high - low > Tolerance(p.knobs, p.target)
    requires CommandFor(low, p.cores, p.sliceMs) != CommandFor(high, p.cores, p.sliceMs)
    ensures Cycles(p, Running(p, low), Running(p, high)) && Consistent(p.cores, p.sliceMs, Running(p, low))
  {
    ConsistentLoad(p, Running(p, low));
    ConsistentLoad(p, Running(p, high));
    assert Times(1.0, high - low) == high - low && Times(1.0, low - high) == low - high;
    hide CommandFor, Times, LoadOf, Tolerance;
  }

  /** 98.5 and 99.5 percent of every core round to 98 and to 100. */
  lemma NearlyFull(p: Pod)
    requires 1 <= p.cores <= 66
    ensures var c := p.cores as real;
            && CommandFor(985.0 * c, p.cores, p.sliceMs) != CommandFor(995.0 * c, p.cores, p.sliceMs)
            && GeneratedFor(p, 985.0 * c) == 980.0 * c && GeneratedFor(p, 995.0 * c) == 1000.0 * c
  {
    NearlyFullLoad(p, 985.0 * p.cores as real, 98.5, 98);
    NearlyFullLoad(p, 995.0 * p.cores as real, 99.5, 100);
    hide CommandFor, GeneratedFor;
  }

  lemma NearlyFullLoad(p: Pod, r: real, percent: real, load: nat)
    requires 1 <= p.cores <= 66 && 98.5 <= percent <= 99.5 && r == 10.0 * p.cores as real * percent
    requires load == Round(percent) && 1 <= load <= 100
    ensures var command := CommandFor(r, p.cores, p.sliceMs);
            command.Some? && command.value.load == load && GeneratedFor(p, r) == 10.0 * p.cores as real * load as real
  {
    NearlyFullCommand(p.cores, p.sliceMs, r, percent, load);
    hide CommandFor, Round;
    LoadOfCommand(CommandFor(r, p.cores, p.sliceMs));
    hide LoadOf, Processes;
  }

  lemma NearlyFullCommand(cores: nat, sliceMs: nat, r: real, percent: real, load: nat)
    requires 1 <= cores <= 66 && 98.5 <= percent <= 99.5 && r == 10.0 * cores as real * percent
    requires load == Round(percent) && 1 <= load <= 100
    ensures var command := CommandFor(r, cores, sliceMs);
            command.Some? && command.value.workers == cores && command.value.load == load
  {
    PercentOf(cores as real, percent, r);
    CeilingIs(r / 1000.0, cores);
    CommandIs(r, cores, sliceMs);
    hide CommandFor, Ceiling, Round;
  }

  lemma PercentOf(c: real, percent: real, r: real)
    requires 1.0 <= c <= 66.0 && 98.5 <= percent <= 99.5 && r == 10.0 * c * percent
    ensures c - 1.0 < r / 1000.0 <= c
    ensures r / (10.0 * c) == percent
  {
    assert r == Times(c, 10.0 * percent) == Times(10.0 * c, percent);
    assert Times(c, 985.0) == 985.0 * c && Times(c, 1000.0) == 1000.0 * c;
    TimesOrder(c, 985.0, 10.0 * percent);
    TimesOrder(c, 10.0 * percent, 1000.0);
    Quotient(10.0 * c, percent, r);
    hide Times;
  }

  lemma CommandIs(r: real, cores: nat, sliceMs: nat)
    requires 0.0 < r <= cores as real * 1000.0 && Ceiling(r / 1000.0) == cores >= 1
    ensures var command := CommandFor(r, cores, sliceMs);
            command.Some? && command.value.workers == cores
            && command.value.load == Clamp(Round(r / (10.0 * cores as real)), 1, 100)
  {
    hide Ceiling, Round;
  }

  lemma CeilingIs(v: real, n: int)
    requires n as real - 1.0 < v <= n as real
    ensures Ceiling(v) == n
  {
    CeilingBounds(v);
    hide Ceiling;
  }

  /** At full gain on up to 66 cores, any deadband below ten millicores per core lets some pod swing for ever:
      it takes a target with room for 990 millicores per core. */
  lemma {:induction false} SmallDeadbandCycles(p: Pod)
    requires Sensible(p) && p.knobs.gain == 1.0 && p.cores <= 66
    requires Tolerance(p.knobs, p.target) < 10.0 * p.cores as real
    requires p.target - p.baseline == 990.0 * p.cores as real
    ensures var s := Running(p, 985.0 * p.cores as real);
            Consistent(p.cores, p.sliceMs, s) && !EventuallySettles(p, s)
  {
    var c := p.cores as real;
    NearlyFull(p);
    hide CommandFor, Tolerance, GeneratedFor;
    TwoRequestsTrade(p, 985.0 * c, 995.0 * c);
    CyclingNeverSettles(p, Running(p, 985.0 * c), Running(p, 995.0 * c));
    hide Cycles, Running, Consistent, EventuallySettles;
  }

  /** At full gain the floor is exact: every baseline and every state settles if and only if the deadband is at
      least ten millicores per core. */
  lemma {:induction false} FullGainSettlesExactlyWhen(knobs: Knobs, target: real, cores: nat, sliceMs: nat)
    requires Sound(knobs) && knobs.gain == 1.0 && 1 <= cores <= 66 && target >= 990.0 * cores as real
    ensures Tolerance(knobs, target) >= 10.0 * cores as real <==>
            forall baseline, s | baseline >= 0.0 && Consistent(cores, sliceMs, s) ::
              EventuallySettles(Pod(knobs, target, baseline, cores, sliceMs), s)
  {
    assert Times(1.0, Tolerance(knobs, target)) == Tolerance(knobs, target);
    hide CommandFor, Tolerance, EventuallySettles, Consistent, Times;
    if Tolerance(knobs, target) >= 10.0 * cores as real {
      forall baseline, s | baseline >= 0.0 && Consistent(cores, sliceMs, s)
        ensures EventuallySettles(Pod(knobs, target, baseline, cores, sliceMs), s)
      {
        CpuSettles(Pod(knobs, target, baseline, cores, sliceMs), cores, s);
      }
    } else {
      var p := Pod(knobs, target, target - 990.0 * cores as real, cores, sliceMs);
      SmallDeadbandCycles(p);
    }
  }

  /** A pod that never settles from a fresh start: target 15 on one core, deadband 4, full gain. It swings between
      one percent and two percent of the core. */
  lemma {:induction false} SwingsFromIdle()
    ensures var p := Pod(Knobs(1.0, 4.0, 0.0), 15.0, 0.0, 1, 40);
            && Sensible(p) && !EventuallySettles(p, Seeded(p))
            && GeneratedFor(p, 15.0) == 20.0 && GeneratedFor(p, 10.0) == 10.0
  {
    var p := Pod(Knobs(1.0, 4.0, 0.0), 15.0, 0.0, 1, 40);
    OnePercentSteps(p);
    SeededIs(p);
    hide CommandFor, GeneratedFor;
    TwoRequestsTrade(p, 10.0, 15.0);
    CyclesBack(p, Running(p, 10.0), Running(p, 15.0));
    CyclingNeverSettles(p, Running(p, 15.0), Running(p, 10.0));
    assert Seeded(p) == Running(p, 15.0);
  }

  lemma CyclesBack(p: Pod, s: State, other: State)
    requires Cycles(p, s, other)
    ensures Cycles(p, other, s)
  {
  }

  lemma OnePercentSteps(p: Pod)
    requires p.cores == 1 && p.sliceMs == 40
    ensures CommandFor(15.0, 1, 40) == Some(Command(1, 2, Some(40)))
    ensures CommandFor(10.0, 1, 40) == Some(Command(1, 1, Some(40)))
    ensures GeneratedFor(p, 15.0) == 20.0 && GeneratedFor(p, 10.0) == 10.0
  {
    assert Ceiling(0.015) == 1 && Ceiling(0.01) == 1 && Round(1.5) == 2 && Round(1.0) == 1;
    LoadOfCommand(Some(Command(1, 2, Some(40))));
    LoadOfCommand(Some(Command(1, 1, Some(40))));
  }
}
