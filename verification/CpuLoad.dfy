/** The worker's CPU load: quantised stress commands, and skipping a respawn that would change nothing. */
module CpuLoad {
  import opened Prelude

  /** workers busy `load` percent each; `slice` is the duty-cycle slice when one is passed. */
  datatype Command = Command(workers: nat, load: nat, slice: Option<nat>)

  function Ceiling(v: real): int {
    -((-v).Floor)
  }

  /** Rounding to nearest with ties to the even neighbour. */
  function Round(v: real): int {
    var below := v.Floor;
    var rest := v - below as real;
    if rest < 0.5 || (rest == 0.5 && below % 2 == 0) then below else below + 1
  }

  function Clamp(v: int, lo: int, hi: int): int {
    if v < lo then lo else if v > hi then hi else v
  }

  function AtLeastOne(v: int): nat {
    if v < 1 then 1 else v
  }

  function Least(a: real, b: real): real {
    if a <= b then a else b
  }

  function AtLeastZero(m: real): real {
    if m > 0.0 then m else 0.0
  }

  /** The fewest workers that can carry the request, each with an integer load. */
  function CommandFor(millicores: real, cores: nat, sliceMs: nat): Option<Command> {
    if millicores <= 0.0 then None
    else
      var m := Least(millicores, cores as real * 1000.0);
      var workers: nat := AtLeastOne(Ceiling(m / 1000.0));
      var load: nat := Clamp(Round(m / (10.0 * workers as real)), 1, 100);
      Some(Command(workers, load, if sliceMs > 0 && load < 100 then Some(sliceMs) else None))
  }

  /** What a command generates, in millicores. */
  function Generated(c: Command): real {
    10.0 * c.workers as real * c.load as real
  }

  // ---- the state ----

  datatype Remembered = Unset | Of(command: Option<Command>)

  /** `requested` is the millicores behind the remembered command; `running` the live stress processes. */
  datatype State = State(requested: real, remembered: Remembered, running: seq<Command>)

  function Processes(c: Option<Command>): seq<Command> {
    if c.Some? then [c.value] else []
  }

  datatype Call = Start(millicores: real) | StopAll

  const IDLE := State(0.0, Unset, [])

  ghost function Step(cores: nat, sliceMs: nat, s: State, call: Call): State {
    match call
    case StopAll => IDLE
    case Start(m) =>
      var wanted := AtLeastZero(m);
      var command := CommandFor(wanted, cores, sliceMs);
      if s.remembered == Of(command) then s else State(wanted, Of(command), Processes(command))
  }

  ghost function After(cores: nat, sliceMs: nat, calls: seq<Call>): State {
    if calls == [] then IDLE else Step(cores, sliceMs, After(cores, sliceMs, calls[..|calls| - 1]), calls[|calls| - 1])
  }

  ghost predicate Consistent(cores: nat, sliceMs: nat, s: State) {
    s.requested >= 0.0 &&
    match s.remembered
    case Unset => s == IDLE
    case Of(command) => command == CommandFor(s.requested, cores, sliceMs) && s.running == Processes(command)
  }

  class CpuLoad {
    const cores: nat
    const sliceMs: nat
    var requested: real
    var remembered: Remembered
    var running: seq<Command>

    ghost function Current(): State
      reads this
    {
      State(requested, remembered, running)
    }

    constructor (cores: nat, sliceMs: nat)
      ensures this.cores == cores && this.sliceMs == sliceMs && Current() == IDLE
    {
      this.cores, this.sliceMs, requested, remembered, running := cores, sliceMs, 0.0, Unset, [];
    }

    /** Kill the stress processes only. The remembered command is left for the caller to replace. */
    method StopCpu()
      modifies this`requested, this`running
      ensures Current() == State(0.0, old(remembered), [])
    {
      running, requested := [], 0.0;
    }

    /** Replace the load; a request that quantises to the remembered command is skipped. */
    method StartCpu(millicores: real) returns (changed: bool)
      modifies this`requested, this`running, this`remembered
      ensures Current() == Step(cores, sliceMs, old(Current()), Start(millicores))
      ensures changed <==> old(remembered) != Of(CommandFor(AtLeastZero(millicores), cores, sliceMs))
    {
      var wanted := AtLeastZero(millicores);
      var command := CommandFor(wanted, cores, sliceMs);
      if remembered == Of(command) {
        return false;
      }
      StopCpu();
      remembered := Of(command);
      requested := wanted;
      if command.Some? {
        running := running + [command.value];
      }
      changed := true;
    }

    method StopCurrent()
      modifies this`requested, this`running, this`remembered
      ensures Current() == IDLE
    {
      running, requested, remembered := [], 0.0, Unset;
    }

    method Replay(calls: seq<Call>)
      requires Current() == IDLE
      modifies this`requested, this`running, this`remembered
      ensures Current() == After(cores, sliceMs, calls)
    {
      for k := 0 to |calls|
        invariant Current() == After(cores, sliceMs, calls[..k])
      {
        assert calls[..k + 1][..k] == calls[..k];
        match calls[k]
        case StopAll => StopCurrent();
        case Start(m) => var _ := StartCpu(m);
      }
      assert calls[..|calls|] == calls;
    }
  }

  // ---- skipping is unobservable ----

  lemma {:induction false} HistoryConsistent(cores: nat, sliceMs: nat, calls: seq<Call>)
    ensures Consistent(cores, sliceMs, After(cores, sliceMs, calls))
  {
    hide CommandFor;
    if calls != [] {
      HistoryConsistent(cores, sliceMs, calls[..|calls| - 1]);
    }
  }

  /** The simple machine that always kills and respawns. */
  ghost function Respawned(cores: nat, sliceMs: nat, calls: seq<Call>): seq<Command> {
    if calls == [] || calls[|calls| - 1].StopAll? then []
    else Processes(CommandFor(AtLeastZero(calls[|calls| - 1].millicores), cores, sliceMs))
  }

  /** After any history the remembered command is unset or belongs to the remembered request, at most one
      stress process runs, and the processes are those of the machine that never skips. */
  lemma {:induction false} SkippingIsUnobservable(cores: nat, sliceMs: nat, calls: seq<Call>)
    ensures Consistent(cores, sliceMs, After(cores, sliceMs, calls))
    ensures |After(cores, sliceMs, calls).running| <= 1
    ensures After(cores, sliceMs, calls).running == Respawned(cores, sliceMs, calls)
  {
    hide CommandFor;
    HistoryConsistent(cores, sliceMs, calls);
    if calls != [] {
      HistoryConsistent(cores, sliceMs, calls[..|calls| - 1]);
    }
  }

  // ---- quantisation ----

  lemma CeilingBounds(v: real)
    ensures Ceiling(v) as real - 1.0 < v <= Ceiling(v) as real
  {
  }

  lemma RoundBounds(v: real)
    ensures v - 0.5 <= Round(v) as real <= v + 0.5
  {
  }

  lemma WorkersFor(m: real, cores: nat) returns (w: nat)
    requires 0.0 < m <= cores as real * 1000.0
    ensures w == Ceiling(m / 1000.0) && w >= 1
    ensures (w as real - 1.0) * 1000.0 < m <= w as real * 1000.0
    ensures w <= cores
  {
    CeilingBounds(m / 1000.0);
    w := Ceiling(m / 1000.0);
  }

  lemma LoadFor(m: real, w: nat) returns (load: int)
    requires 5.0 <= m && w >= 1 && (w as real - 1.0) * 1000.0 < m <= w as real * 1000.0
    ensures load == Clamp(Round(m / (10.0 * w as real)), 1, 100)
    ensures 1 <= load <= 100
    ensures -5.0 * w as real <= 10.0 * w as real * load as real - m <= 5.0 * w as real
  {
    ShareInPercent(m, w);
    load := RoundedShare(m, 10.0 * w as real);
    hide Clamp, Round;
  }

  lemma RoundedShare(m: real, n: real) returns (load: int)
    requires n > 0.0 && 0.5 <= m / n <= 100.0
    ensures load == Clamp(Round(m / n), 1, 100) && 1 <= load <= 100
    ensures -0.5 * n <= n * load as real - m <= 0.5 * n
  {
    var share := m / n;
    load := Clamp(Round(share), 1, 100);
    ClampedRound(share);
    hide Clamp, Round;
    Divided(m, n);
    ScaledError(n, load as real, share, m);
  }

  lemma ShareInPercent(m: real, w: nat)
    requires 5.0 <= m && w >= 1 && (w as real - 1.0) * 1000.0 < m <= w as real * 1000.0
    ensures 0.5 <= m / (10.0 * w as real) <= 100.0
  {
    if w == 1 {
      assert m / 10.0 <= 100.0;
    } else {
      ShareBounds(m, w);
    }
  }

  lemma ClampedRound(share: real)
    requires 0.5 <= share <= 100.0
    ensures 1 <= Clamp(Round(share), 1, 100) <= 100
    ensures -0.5 <= Clamp(Round(share), 1, 100) as real - share <= 0.5
  {
    RoundBounds(share);
  }

  lemma ScaledError(n: real, load: real, share: real, m: real)
    requires n > 0.0 && n * share == m && -0.5 <= load - share <= 0.5
    ensures -0.5 * n <= n * load - m <= 0.5 * n
  {
    assert Times(n, load) == n * load && Times(n, share) == m;
    assert Times(n, 0.5) == 0.5 * n && Times(n, -0.5) == -0.5 * n;
    hide Times;
    TimesOrder(n, share + -0.5, load);
    TimesOrder(n, load, share + 0.5);
    TimesPlus(n, share, -0.5);
    TimesPlus(n, share, 0.5);
  }

  lemma ShareBounds(m: real, w: nat)
    requires w >= 2 && (w as real - 1.0) * 1000.0 < m <= w as real * 1000.0
    ensures 1.0 <= m / (10.0 * w as real) <= 100.0
  {
    var n := 10.0 * w as real;
    Divided(m, n);
    Cancel(n, 1.0, m / n);
    Cancel(n, m / n, 100.0);
  }

  /** In range, the command uses the fewest workers that can carry the request and generates within five
      millicores per worker of it. */
  lemma {:induction false} QuantisationError(m: real, cores: nat, sliceMs: nat)
    requires 5.0 <= m <= cores as real * 1000.0
    ensures CommandFor(m, cores, sliceMs).Some?
    ensures var c := CommandFor(m, cores, sliceMs).value;
            && 1 <= c.workers <= cores && 1 <= c.load <= 100
            && (c.workers as real - 1.0) * 1000.0 < m <= c.workers as real * 1000.0
            && -5.0 * c.workers as real <= Generated(c) - m <= 5.0 * c.workers as real
  {
    var w := WorkersFor(m, cores);
    var load := LoadFor(m, w);
  }

  /** Outside that range the request is first clamped: tiny requests still run one worker at one percent,
      large ones saturate every core. */
  lemma {:induction false} ClampedRequests(m: real, cores: nat, sliceMs: nat)
    requires cores >= 1
    ensures CommandFor(m, cores, sliceMs).None? <==> m <= 0.0
    ensures 0.0 < m < 5.0 ==> Generated(CommandFor(m, cores, sliceMs).value) == 10.0
    ensures m > cores as real * 1000.0 ==>
            CommandFor(m, cores, sliceMs) == CommandFor(cores as real * 1000.0, cores, sliceMs)
  {
    if 0.0 < m < 5.0 {
      var w := WorkersFor(m, cores);
      RoundBounds(m / 10.0);
    }
  }

  /** The duty-cycle slice is passed exactly when one is set and the workers are not busy all the time. */
  lemma {:induction false} SliceExactlyWhen(m: real, cores: nat, sliceMs: nat)
    requires m > 0.0
    ensures var c := CommandFor(m, cores, sliceMs);
            c.Some? && c.value.slice == if sliceMs > 0 && c.value.load < 100 then Some(sliceMs) else None
  {
    hide Ceiling, Round;
  }

  /** A correction that is skipped because it quantises to the running command was small. */
  lemma {:induction false} SkippedNudgeIsSmall(current: real, next: real, gain: real, error: real, cores: nat,
                                               sliceMs: nat)
    requires 5.0 <= current <= cores as real * 1000.0 && 5.0 <= next <= cores as real * 1000.0
    requires gain > 0.0 && next == current + gain * error
    requires CommandFor(current, cores, sliceMs) == CommandFor(next, cores, sliceMs)
    ensures var bound := 10.0 * CommandFor(current, cores, sliceMs).value.workers as real / gain;
            -bound <= error <= bound
  {
    hide *;
    QuantisationError(current, cores, sliceMs);
    QuantisationError(next, cores, sliceMs);
    DividedBound(gain, error, 10.0 * CommandFor(current, cores, sliceMs).value.workers as real);
  }

  lemma DividedBound(gain: real, error: real, w: real)
    requires gain > 0.0 && -w <= gain * error <= w
    ensures -(w / gain) <= error <= w / gain
  {
    Divided(w, gain);
    Cancel(gain, error, w / gain);
    Cancel(gain, -(w / gain), error);
  }

  lemma Cancel(k: real, a: real, b: real)
    requires k > 0.0 && k * a <= k * b
    ensures a <= b
  {
    TimesOrder(k, a, b);
  }
}
