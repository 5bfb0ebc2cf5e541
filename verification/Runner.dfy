/** The scenario runner as a tick machine over a contiguous timeline, driving the x update of a cluster. */
module Runner {
  import opened Prelude
  import opened RoleModel
  import opened Propagation
  import opened PeerResolution
  import opened Materialise
  import opened Scenario

  type TimedPhase = Phase<Signal>

  /** One wake-up: minutes since the start, and how the API would behave if the cluster is patched. */
  datatype Tick = Tick(elapsed: real, api: Api)

  /** One call of the x update: for which phase, which roles it reached, and whether it raised. */
  datatype Attempt = Attempt(index: nat, reached: set<Role>, raised: bool)

  /** `last` is the id of the phase last applied, `configs` what the cluster holds, `log` the calls made. */
  datatype State = State(last: Option<string>, configs: map<Role, Config>, log: seq<Attempt>)

  function Start(configs: map<Role, Config>): State {
    State(None, configs, [])
  }

  ghost function ActiveFrom(phases: seq<TimedPhase>, i: nat, t: real): Option<nat>
    requires i <= |phases|
    decreases |phases| - i
  {
    if i == |phases| then None
    else if Covers(phases[i], t) then Some(i)
    else ActiveFrom(phases, i + 1, t)
  }

  ghost function Active(phases: seq<TimedPhase>, t: real): Option<nat> {
    ActiveFrom(phases, 0, t)
  }

  /** A tick calls the update when its phase is not the one last applied. */
  ghost predicate Attempts(phases: seq<TimedPhase>, s: State, tick: Tick) {
    var i := Active(phases, tick.elapsed);
    i.Some? && i.value < |phases| && s.last != Some(phases[i.value].id)
  }

  /** A call that raises leaves what it had patched, but its phase does not count as applied. */
  ghost function Step(t: Template, phases: seq<TimedPhase>, s: State, tick: Tick): State
    requires WellFormed(t) && !HasCycle(t)
  {
    if Attempts(phases, s, tick) then
      var i := Active(phases, tick.elapsed).value;
      var call := Attempt(i, Reached(t, tick.api), tick.api.raisesAt.Some?);
      State(if call.raised then s.last else Some(phases[i].id),
            Patched(t, s.configs, phases[i].x, call.reached),
            s.log + [call])
    else s
  }

  ghost function Run(t: Template, phases: seq<TimedPhase>, s: State, ticks: seq<Tick>): State
    requires WellFormed(t) && !HasCycle(t)
  {
    if ticks == [] then s
    else Step(t, phases, Run(t, phases, s, ticks[..|ticks| - 1]), ticks[|ticks| - 1])
  }

  class ScenarioRunner {
    const phases: seq<TimedPhase>
    const cluster: Cluster
    var lastPhaseId: Option<string>
    ghost var log: seq<Attempt>

    ghost function Current(): State
      reads this, cluster
    {
      State(lastPhaseId, cluster.configs, log)
    }

    /** The cluster holds a template that resolves, as it does once materialising has succeeded. */
    ghost predicate Ready()
      reads this, cluster
    {
      cluster.Valid() && cluster.stored.Some? && !HasCycle(cluster.stored.value)
    }

    constructor (phases: seq<TimedPhase>, cluster: Cluster)
      ensures this.phases == phases && this.cluster == cluster
      ensures Current() == Start(cluster.configs)
    {
      this.phases, this.cluster, lastPhaseId, log := phases, cluster, None, [];
    }

    method ActivePhase(elapsed: real) returns (i: Option<nat>)
      ensures i == Active(phases, elapsed)
      ensures i.Some? ==> i.value < |phases|
    {
      for k := 0 to |phases|
        invariant ActiveFrom(phases, k, elapsed) == Active(phases, elapsed)
      {
        if phases[k].start <= elapsed < phases[k].end {
          return Some(k);
        }
      }
      i := None;
    }

    /** One pass of the loop body. When there is nothing to patch the call raises and the pass changes nothing. */
    method OnTick(tick: Tick)
      requires cluster.Valid()
      modifies this`lastPhaseId, this`log, cluster`configs
      ensures cluster.Valid()
      ensures old(Ready()) ==> Current() == Step(cluster.stored.value, phases, old(Current()), tick)
      ensures !old(Ready()) ==> lastPhaseId == old(lastPhaseId) && cluster.configs == old(cluster.configs)
    {
      hide Patched, HasCycle, WellFormed, Reached;
      var i := ActivePhase(tick.elapsed);
      if i.None? {
        return;
      }
      var ph := phases[i.value];
      if lastPhaseId == Some(ph.id) {
        return;
      }
      var failure := cluster.PatchSystemX(ph.x, tick.api);
      if failure.None? {
        lastPhaseId := Some(ph.id);
      }
      if Ready() {
        log := log + [Attempt(i.value, Reached(cluster.stored.value, tick.api), failure.Some?)];
      }
    }

    method RunAll(ticks: seq<Tick>)
      requires Ready()
      modifies this`lastPhaseId, this`log, cluster`configs
      ensures Ready() && Current() == Run(cluster.stored.value, phases, old(Current()), ticks)
    {
      hide Step;
      for k := 0 to |ticks|
        invariant Ready() && Current() == Run(cluster.stored.value, phases, old(Current()), ticks[..k])
      {
        assert ticks[..k + 1][..k] == ticks[..k];
        OnTick(ticks[k]);
      }
      assert ticks[..|ticks|] == ticks;
    }
  }

  // ---- the active phase ----

  lemma {:induction false} ActiveFromCovers(phases: seq<TimedPhase>, i: nat, t: real)
    requires i <= |phases|
    ensures var r := ActiveFrom(phases, i, t);
            && (r.Some? ==> i <= r.value < |phases| && Covers(phases[r.value], t))
            && (r.None? ==> forall k | i <= k < |phases| :: !Covers(phases[k], t))
    decreases |phases| - i
  {
    if i < |phases| && !Covers(phases[i], t) {
      ActiveFromCovers(phases, i + 1, t);
    }
  }

  /** The scan finds the one window covering the elapsed time, and finds one exactly inside the timeline. */
  lemma {:induction false} ActiveIsTheWindow(phases: seq<TimedPhase>, t: real)
    requires Contiguous(phases)
    ensures Active(phases, t).Some? <==> 0.0 <= t < End(phases)
    ensures Active(phases, t).Some? ==> Active(phases, t).value < |phases| && Covers(phases[Active(phases, t).value], t)
    ensures forall i | 0 <= i < |phases| && Covers(phases[i], t) :: Active(phases, t) == Some(i)
  {
    ActiveFromCovers(phases, 0, t);
    WindowsPartition(phases, t);
  }

  /** Phases that have started are at most the active one. */
  lemma StartedByNow(phases: seq<TimedPhase>, k: nat, i: nat, now: real)
    requires Contiguous(phases) && k < |phases| && i < |phases|
    requires phases[k].start <= now && Covers(phases[i], now)
    ensures k <= i
  {
    if i < k {
      StartsIncrease(phases, i, k);
    }
  }

  // ---- runs ----

  ghost predicate ClockNeverGoesBack(ticks: seq<Tick>) {
    forall i, j | 0 <= i < j < |ticks| :: ticks[i].elapsed <= ticks[j].elapsed
  }

  /** Calls go forward through the timeline, and past a phase once it was applied. */
  ghost predicate InOrder(log: seq<Attempt>) {
    forall i, j | 0 <= i < j < |log| :: log[i].index <= log[j].index && (!log[i].raised ==> log[i].index < log[j].index)
  }

  ghost function LastApplied(log: seq<Attempt>): Option<nat> {
    if log == [] then None
    else if !log[|log| - 1].raised then Some(log[|log| - 1].index)
    else LastApplied(log[..|log| - 1])
  }

  lemma {:induction false} LastAppliedIs(log: seq<Attempt>)
    ensures LastApplied(log).Some? ==> exists c :: c in log && !c.raised && c.index == LastApplied(log).value
    ensures InOrder(log) ==>
            forall c | c in log && !c.raised :: LastApplied(log).Some? && c.index <= LastApplied(log).value
  {
    if log != [] {
      var n := |log| - 1;
      LastAppliedIs(log[..n]);
      assert log == log[..n] + [log[n]];
    }
  }

  /** Every call was for a phase that had started, calls are in order, and the remembered id is that of the
      phase last applied. */
  ghost predicate Tracked(phases: seq<TimedPhase>, s: State, now: real) {
    && InOrder(s.log)
    && (forall c | c in s.log :: c.index < |phases| && phases[c.index].start <= now)
    && (LastApplied(s.log).None? ==> s.last == None)
    && (LastApplied(s.log).Some? ==>
         LastApplied(s.log).value < |phases| && s.last == Some(phases[LastApplied(s.log).value].id))
  }

  lemma CallsComeBefore(phases: seq<TimedPhase>, s: State, now: real, i: nat)
    requires Contiguous(phases) && Tracked(phases, s, now) && i < |phases| && Covers(phases[i], now)
    requires s.last != Some(phases[i].id)
    ensures forall c | c in s.log :: c.index <= i && (!c.raised ==> c.index < i)
  {
    hide Contiguous;
    LastAppliedIs(s.log);
    forall c | c in s.log
      ensures c.index <= i && (!c.raised ==> c.index < i)
    {
      StartedByNow(phases, c.index, i, now);
      if !c.raised {
        StartedByNow(phases, LastApplied(s.log).value, i, now);
      }
    }
  }

  lemma CallTracked(phases: seq<TimedPhase>, s: State, after: State, now: real, i: nat)
    requires Tracked(phases, s, now) && i < |phases| && phases[i].start <= now
    requires forall c | c in s.log :: c.index <= i && (!c.raised ==> c.index < i)
    requires after.log != [] && var call := after.log[|after.log| - 1];
             && after.log == s.log + [call] && call.index == i
             && after.last == if call.raised then s.last else Some(phases[i].id)
    ensures Tracked(phases, after, now)
  {
    assert after.log[..|after.log| - 1] == s.log;
  }

  lemma StepTracked(t: Template, phases: seq<TimedPhase>, s: State, before: real, tick: Tick)
    requires WellFormed(t) && !HasCycle(t)
    requires Contiguous(phases) && Tracked(phases, s, before) && before <= tick.elapsed
    ensures Tracked(phases, Step(t, phases, s, tick), tick.elapsed)
  {
    hide WellFormed, HasCycle, Patched, Reached, Contiguous, Active;
    assert Tracked(phases, s, tick.elapsed);
    hide Tracked;
    if Attempts(phases, s, tick) {
      var i := Active(phases, tick.elapsed).value;
      ActiveIsTheWindow(phases, tick.elapsed);
      CallsComeBefore(phases, s, tick.elapsed, i);
      CallTracked(phases, s, Step(t, phases, s, tick), tick.elapsed, i);
    }
  }

  lemma {:induction false} RunTracked(t: Template, phases: seq<TimedPhase>, configs: map<Role, Config>,
                                      ticks: seq<Tick>)
    requires WellFormed(t) && !HasCycle(t)
    requires Contiguous(phases) && ClockNeverGoesBack(ticks) && ticks != []
    ensures Tracked(phases, Run(t, phases, Start(configs), ticks), ticks[|ticks| - 1].elapsed)
  {
    hide Contiguous, Step, WellFormed, HasCycle;
    var n := |ticks| - 1;
    if n == 0 {
      assert ticks[..0] == [];
      assert Tracked(phases, Start(configs), ticks[0].elapsed);
      StepTracked(t, phases, Start(configs), ticks[0].elapsed, ticks[0]);
    } else {
      RunTracked(t, phases, configs, ticks[..n]);
      hide Tracked;
      StepTracked(t, phases, Run(t, phases, Start(configs), ticks[..n]), ticks[n - 1].elapsed, ticks[n]);
    }
  }

  /** Under a clock that never goes back the calls go forward through the timeline, and no phase is called
      for again once it was applied. */
  lemma {:induction false} AppliedOnceInOrder(t: Template, phases: seq<TimedPhase>, configs: map<Role, Config>,
                                              ticks: seq<Tick>)
    requires WellFormed(t) && !HasCycle(t)
    requires Contiguous(phases) && ClockNeverGoesBack(ticks)
    ensures InOrder(Run(t, phases, Start(configs), ticks).log)
  {
    if ticks != [] {
      RunTracked(t, phases, configs, ticks);
    }
  }

  /** Past the end nothing changes whatever the ticks. */
  lemma {:induction false} HoldsAfterEnd(t: Template, phases: seq<TimedPhase>, s: State, ticks: seq<Tick>)
    requires WellFormed(t) && !HasCycle(t)
    requires Contiguous(phases)
    requires forall tick | tick in ticks :: tick.elapsed >= End(phases)
    ensures Run(t, phases, s, ticks) == s
  {
    if ticks != [] {
      var n := |ticks| - 1;
      HoldsAfterEnd(t, phases, s, ticks[..n]);
      assert ticks[n] in ticks;
      ActiveIsTheWindow(phases, ticks[n].elapsed);
    }
  }

  // ---- what each role holds ----

  function SignalAt(phases: seq<TimedPhase>, i: nat): Signal {
    if i < |phases| then phases[i].x else Uniform(0.0)
  }

  /** The log as a run of x updates. */
  function Updates(phases: seq<TimedPhase>, log: seq<Attempt>): seq<Patch> {
    if log == [] then []
    else
      var last := log[|log| - 1];
      Updates(phases, log[..|log| - 1]) + [Patch(SignalAt(phases, last.index), last.reached)]
  }

  /** The signal of the last call that reached r, or the one the template was materialised with. */
  ghost function HeldSignal(t: Template, phases: seq<TimedPhase>, log: seq<Attempt>, r: Role): Signal {
    SignalSeen(t, r, Updates(phases, log))
  }

  lemma HeldNext(t: Template, phases: seq<TimedPhase>, log: seq<Attempt>, call: Attempt, r: Role)
    ensures HeldSignal(t, phases, log + [call], r) ==
            if r in call.reached then SignalAt(phases, call.index) else HeldSignal(t, phases, log, r)
  {
    assert (log + [call])[..|log|] == log;
    var us := Updates(phases, log);
    assert (us + [Patch(SignalAt(phases, call.index), call.reached)])[..|us|] == us;
  }

  lemma {:induction false} RunIsItsUpdates(t: Template, eps: Snapshot, phases: seq<TimedPhase>, ticks: seq<Tick>)
    requires WellFormed(t) && !HasCycle(t)
    ensures var s := Run(t, phases, Start(FinalConfigs(t, eps)), ticks);
            s.configs == PatchedRun(t, FinalConfigs(t, eps), Updates(phases, s.log))
  {
    hide WellFormed, HasCycle, Active, Reached, FinalConfigs, Patched;
    if ticks != [] {
      var n := |ticks| - 1;
      RunIsItsUpdates(t, eps, phases, ticks[..n]);
      var s := Run(t, phases, Start(FinalConfigs(t, eps)), ticks[..n]);
      if Attempts(phases, s, ticks[n]) {
        var after := Step(t, phases, s, ticks[n]);
        assert after.log[..|s.log|] == s.log;
        var us := Updates(phases, after.log);
        assert us[..|us| - 1] == Updates(phases, s.log);
      }
    }
  }

  /** After any run, whatever the clock and the API did, every role has the configuration that materialising
      at the signal of the last call that reached it would have written. */
  lemma {:induction false} RoleHoldsWhatLastReachedIt(t: Template, eps: Snapshot, phases: seq<TimedPhase>,
                                                      ticks: seq<Tick>, r: Role)
    requires WellFormed(t) && !HasCycle(t) && r in t.roles
    ensures var s := Run(t, phases, Start(FinalConfigs(t, eps)), ticks);
            var t' := WithSignal(t, HeldSignal(t, phases, s.log, r));
            r in s.configs && WellFormed(t') && !HasCycle(t') && s.configs[r] == FinalConfig(t', eps, r)
  {
    var s := Run(t, phases, Start(FinalConfigs(t, eps)), ticks);
    hide WellFormed, HasCycle, Run, FinalConfigs, PatchedRun, FinalConfig, Updates, SignalSeen;
    RunIsItsUpdates(t, eps, phases, ticks);
    LightEqualsHeavy(t, eps, Updates(phases, s.log), r);
  }

  // ---- a role that was missed ----

  /** Once a call for a phase returns without raising, later ticks in that phase change nothing: a role the
      call missed keeps its old configuration until another phase begins. */
  lemma {:induction false} MissedIsNotRetried(t: Template, phases: seq<TimedPhase>, s: State, tick: Tick,
                                              later: seq<Tick>)
    requires WellFormed(t) && !HasCycle(t)
    requires Attempts(phases, s, tick) && tick.api.raisesAt.None?
    requires forall u | u in later :: Active(phases, u.elapsed) == Active(phases, tick.elapsed)
    ensures Run(t, phases, Step(t, phases, s, tick), later) == Step(t, phases, s, tick)
    ensures forall r | r in s.configs && r !in tick.api.reachable ::
              var after := Run(t, phases, Step(t, phases, s, tick), later);
                  r in after.configs && after.configs[r] == s.configs[r]
  {
    hide WellFormed, HasCycle, Active, ResolvedX;
    if later != [] {
      var n := |later| - 1;
      assert later[n] in later;
      MissedIsNotRetried(t, phases, s, tick, later[..n]);
    }
  }

  /** The next tick of a phase calls again exactly when the call before it raised; a role it missed is no reason. */
  lemma {:induction false} RetriedExactlyWhenRaised(t: Template, phases: seq<TimedPhase>, s: State, tick: Tick,
                                                    next: Tick)
    requires WellFormed(t) && !HasCycle(t)
    requires Attempts(phases, s, tick) && Active(phases, next.elapsed) == Active(phases, tick.elapsed)
    ensures Attempts(phases, Step(t, phases, s, tick), next) <==> tick.api.raisesAt.Some?
  {
    hide WellFormed, HasCycle, Active, Patched, Reached;
  }
}
