/** When the scenario runner keeps every role on the timeline: exactly when, over all runs a cluster allows. */
module Following {
  import opened Prelude
  import opened RoleModel
  import opened Propagation
  import opened PeerResolution
  import opened Materialise
  import opened Scenario
  import opened Runner
  import Embedding

  // ---- signals as the roles see them ----

  /** What r's formulas run at under signal x. */
  ghost function XAt(t: Template, x: Signal, r: Role): real
    requires WellFormed(t) && !HasCycle(t) && r in t.roles
  {
    SignalKeepsWiring(t, x);
    ResolvedX(WithSignal(t, x))[r]
  }

  /** Two signals give the roles that read them the same inputs. */
  ghost predicate SameInputs(t: Template, x: Signal, y: Signal) {
    forall r | r in t.roles && Upstreams(t.edges, r) == {} :: SourceX(x, r) == SourceX(y, r)
  }

  /** Equal inputs at the source roles are equal x everywhere, and the other way round. */
  lemma {:induction false} SameInputsSameX(t: Template, x: Signal, y: Signal)
    requires WellFormed(t) && !HasCycle(t)
    ensures SameInputs(t, x, y) <==> forall r | r in t.roles :: XAt(t, x, r) == XAt(t, y, r)
  {
    var tx, ty := WithSignal(t, x), WithSignal(t, y);
    SignalKeepsWiring(t, x);
    SignalKeepsWiring(t, y);
    if SameInputs(t, x, y) {
      forall r | r in t.roles
        ensures XAt(t, x, r) == XAt(t, y, r)
      {
        InputsUntouched(t, x, y, r);
        hide HasCycle, WellFormed, Touched, ResolvedX, SameWiring;
        ChangesStayDownstream(tx, ty, ResolvedX(tx), ResolvedX(ty), r);
      }
    }
    forall r | r in t.roles && Upstreams(t.edges, r) == {}
      ensures XAt(t, x, r) == SourceX(x, r) && XAt(t, y, r) == SourceX(y, r)
    {
      SourceResolves(tx, r);
      SourceResolves(ty, r);
      hide *;
    }
  }

  lemma InputsUntouched(t: Template, x: Signal, y: Signal, r: Role)
    requires WellFormed(t) && SameInputs(t, x, y) && r in t.roles
    ensures SameWiring(WithSignal(t, x), WithSignal(t, y)) && !Touched(WithSignal(t, x), WithSignal(t, y), r)
  {
  }

  lemma ConfigsAgreeExactlyWhenX(t: Template, eps: Snapshot, x: Signal, y: Signal, r: Role)
    requires WellFormed(t) && !HasCycle(t) && r in t.roles
    ensures var tx, ty := WithSignal(t, x), WithSignal(t, y);
            && WellFormed(tx) && !HasCycle(tx) && WellFormed(ty) && !HasCycle(ty)
            && (FinalConfig(tx, eps, r) == FinalConfig(ty, eps, r) <==> XAt(t, x, r) == XAt(t, y, r))
            && FinalConfig(tx, eps, r).x == XAt(t, x, r)
  {
    SignalKeepsWiring(t, x);
    SignalKeepsWiring(t, y);
    ConfigIgnoresSignal(t, eps, x, r, XAt(t, x, r));
    ConfigIgnoresSignal(t, eps, y, r, XAt(t, y, r));
    ConfigShowsX(t, eps, r, XAt(t, x, r));
    ConfigShowsX(t, eps, r, XAt(t, y, r));
    hide ConfigAt, WellFormed, HasCycle, ResolvedX;
  }

  lemma ConfigShowsX(t: Template, eps: Snapshot, r: Role, v: real)
    requires WellFormed(t) && r in t.roles
    ensures ConfigAt(t, eps, r, v).x == v
  {
    hide Rewritten, WellFormed, PeerIps, PeerNames, PeerRoles, OffsetsFor, ServersFor, FaninOf;
  }

  // ---- what is claimed, and of which runs ----

  ghost predicate HoldsSignal(t: Template, eps: Snapshot, configs: map<Role, Config>, x: Signal)
    requires WellFormed(t) && !HasCycle(t)
  {
    SignalKeepsWiring(t, x);
    forall r | r in t.roles :: r in configs && configs[r] == FinalConfig(WithSignal(t, x), eps, r)
  }

  /** After the last of `ticks`, when it fell inside the timeline and did not raise, every role holds the
      active phase's configuration. */
  ghost predicate FollowsTimeline(t: Template, eps: Snapshot, phases: seq<TimedPhase>, ticks: seq<Tick>)
    requires WellFormed(t) && !HasCycle(t) && ticks != []
  {
    var n := |ticks| - 1;
    var before := Run(t, phases, Start(FinalConfigs(t, eps)), ticks[..n]);
    var i := Active(phases, ticks[n].elapsed);
    i.Some? && i.value < |phases| && !(Attempts(phases, before, ticks[n]) && ticks[n].api.raisesAt.Some?) ==>
      HoldsSignal(t, eps, Run(t, phases, Start(FinalConfigs(t, eps)), ticks).configs, phases[i.value].x)
  }

  /** What may go wrong: which roles a call may miss without raising, and whether a call that raises may
      already have patched some roles. */
  datatype Weather = Weather(mayMiss: set<Role>, halfway: bool)

  ghost predicate Allows(w: Weather, t: Template, tick: Tick) {
    if tick.api.raisesAt.Some? then w.halfway || Reached(t, tick.api) == {}
    else t.roles.Keys - w.mayMiss <= tick.api.reachable
  }

  /** A run in such weather, under a clock that never goes back. */
  ghost predicate CanHappen(t: Template, w: Weather, ticks: seq<Tick>) {
    ClockNeverGoesBack(ticks) && forall tick | tick in ticks :: Allows(w, t, tick)
  }

  /** Phases under one id have equal inputs - as have the phases between them, when a call may raise halfway -
      and a role that may be missed runs at one and the same x throughout. */
  ghost predicate Forgiving(t: Template, phases: seq<TimedPhase>, w: Weather)
    requires WellFormed(t) && !HasCycle(t)
  {
    && (forall i, k, j | 0 <= i < k <= j < |phases| && phases[i].id == phases[j].id && (k == j || w.halfway) ::
          SameInputs(t, phases[i].x, phases[k].x))
    && (forall r, j | r in t.roles && r in w.mayMiss && 0 <= j < |phases| :: XAt(t, phases[j].x, r) == XAt(t, t.x, r))
  }

  // ---- forgiving timelines are followed ----

  ghost predicate CameFrom(t: Template, phases: seq<TimedPhase>, w: Weather, x: Signal, r: Role, k: nat, m: nat,
                           now: real)
    requires WellFormed(t) && !HasCycle(t) && r in t.roles
  {
    && k <= m < |phases| && phases[m].start <= now && (m == k || w.halfway)
    && XAt(t, x, r) == XAt(t, phases[m].x, r)
  }

  /** A role that may be missed is where it started; any other was last reached for the phase last applied, or
      halfway through a later one. */
  ghost predicate Steady(t: Template, phases: seq<TimedPhase>, w: Weather, log: seq<Attempt>, r: Role, now: real)
    requires WellFormed(t) && !HasCycle(t) && r in t.roles
  {
    var x, k := HeldSignal(t, phases, log, r), LastApplied(log);
    if r in w.mayMiss then XAt(t, x, r) == XAt(t, t.x, r)
    else k.Some? ==> exists m: nat :: CameFrom(t, phases, w, x, r, k.value, m, now)
  }

  lemma StepSteady(t: Template, phases: seq<TimedPhase>, w: Weather, s: State, r: Role, before: real, tick: Tick)
    requires WellFormed(t) && !HasCycle(t) && r in t.roles
    requires Contiguous(phases) && Forgiving(t, phases, w) && Allows(w, t, tick)
    requires Tracked(phases, s, before) && before <= tick.elapsed && Steady(t, phases, w, s.log, r, before)
    ensures Steady(t, phases, w, Step(t, phases, s, tick).log, r, tick.elapsed)
  {
    hide WellFormed, HasCycle, Patched, XAt, Contiguous, Active, SameInputs, HeldSignal;
    var x, k := HeldSignal(t, phases, s.log, r), LastApplied(s.log);
    if r !in w.mayMiss && k.Some? {
      var m: nat :| CameFrom(t, phases, w, x, r, k.value, m, before);
      assert CameFrom(t, phases, w, x, r, k.value, m, tick.elapsed);
    }
    if Attempts(phases, s, tick) {
      var i := Active(phases, tick.elapsed).value;
      var call := Attempt(i, Reached(t, tick.api), tick.api.raisesAt.Some?);
      ActiveIsTheWindow(phases, tick.elapsed);
      HeldNext(t, phases, s.log, call, r);
      assert (s.log + [call])[..|s.log|] == s.log;
      if r !in w.mayMiss && r in call.reached {
        if call.raised && k.Some? {
          LastAppliedIs(s.log);
          StartedByNow(phases, k.value, i, tick.elapsed);
          assert CameFrom(t, phases, w, phases[i].x, r, k.value, i, tick.elapsed);
        } else {
          assert CameFrom(t, phases, w, phases[i].x, r, i, i, tick.elapsed);
        }
      }
    }
  }

  lemma {:induction false} RunSteady(t: Template, eps: Snapshot, phases: seq<TimedPhase>, w: Weather, ticks: seq<Tick>,
                                     r: Role)
    requires WellFormed(t) && !HasCycle(t) && r in t.roles
    requires Contiguous(phases) && Forgiving(t, phases, w) && ticks != []
    requires CanHappen(t, w, ticks)
    ensures Steady(t, phases, w, Run(t, phases, Start(FinalConfigs(t, eps)), ticks).log, r, ticks[|ticks| - 1].elapsed)
  {
    hide Contiguous, Step, WellFormed, HasCycle, Forgiving, Allows, XAt, FinalConfigs, Tracked;
    var n := |ticks| - 1;
    var start := Start(FinalConfigs(t, eps));
    assert ticks[n] in ticks;
    if n == 0 {
      assert ticks[..0] == [];
      FreshStart(t, phases, w, start.configs, r, ticks[0].elapsed);
      hide Steady;
      StepSteady(t, phases, w, start, r, ticks[0].elapsed, ticks[0]);
    } else {
      RunSteady(t, eps, phases, w, ticks[..n], r);
      RunTracked(t, phases, start.configs, ticks[..n]);
      hide Steady;
      StepSteady(t, phases, w, Run(t, phases, start, ticks[..n]), r, ticks[n - 1].elapsed, ticks[n]);
    }
  }

  lemma FreshStart(t: Template, phases: seq<TimedPhase>, w: Weather, configs: map<Role, Config>, r: Role, now: real)
    requires WellFormed(t) && !HasCycle(t) && r in t.roles
    ensures Tracked(phases, Start(configs), now) && Steady(t, phases, w, [], r, now)
  {
    hide XAt;
    assert HeldSignal(t, phases, [], r) == t.x;
  }

  /** What a role holds when the remembered id is the active phase's. */
  lemma SteadyIsActive(t: Template, phases: seq<TimedPhase>, w: Weather, s: State, r: Role, i: nat, now: real)
    requires WellFormed(t) && !HasCycle(t) && r in t.roles
    requires Contiguous(phases) && Forgiving(t, phases, w) && Tracked(phases, s, now)
    requires Steady(t, phases, w, s.log, r, now)
    requires i < |phases| && Covers(phases[i], now) && s.last == Some(phases[i].id)
    ensures XAt(t, HeldSignal(t, phases, s.log, r), r) == XAt(t, phases[i].x, r)
  {
    hide WellFormed, HasCycle, XAt, Contiguous, SameInputs, HeldSignal;
    if r !in w.mayMiss {
      var k := LastApplied(s.log).value;
      var m: nat :| CameFrom(t, phases, w, HeldSignal(t, phases, s.log, r), r, k, m, now);
      StartedByNow(phases, m, i, now);
      if k < i {
        SameInputsSameX(t, phases[k].x, phases[i].x);
        if k < m {
          SameInputsSameX(t, phases[k].x, phases[m].x);
        }
      }
    }
  }

  lemma ForgivingIsFollowed(t: Template, eps: Snapshot, phases: seq<TimedPhase>, w: Weather, ticks: seq<Tick>)
    requires WellFormed(t) && !HasCycle(t) && Contiguous(phases) && Forgiving(t, phases, w)
    requires ticks != [] && CanHappen(t, w, ticks)
    ensures FollowsTimeline(t, eps, phases, ticks)
  {
    hide WellFormed, HasCycle, Contiguous, Forgiving, XAt, HeldSignal, Tracked, Steady, Allows, FinalConfigs,
         FinalConfig, Active, Attempts;
    var n := |ticks| - 1;
    var start := Start(FinalConfigs(t, eps));
    var before, after := Run(t, phases, start, ticks[..n]), Run(t, phases, start, ticks);
    var i := Active(phases, ticks[n].elapsed);
    if i.Some? && i.value < |phases| && !(Attempts(phases, before, ticks[n]) && ticks[n].api.raisesAt.Some?) {
      RememberedAfter(t, phases, before, ticks[n], i.value);
      ActiveIsTheWindow(phases, ticks[n].elapsed);
      RunTracked(t, phases, start.configs, ticks);
      hide Run;
      SignalKeepsWiring(t, phases[i.value].x);
      forall r | r in t.roles
        ensures r in after.configs && after.configs[r] == FinalConfig(WithSignal(t, phases[i.value].x), eps, r)
      {
        RunSteady(t, eps, phases, w, ticks, r);
        SteadyIsActive(t, phases, w, after, r, i.value, ticks[n].elapsed);
        RoleHoldsWhatLastReachedIt(t, eps, phases, ticks, r);
        ConfigsAgreeExactlyWhenX(t, eps, HeldSignal(t, phases, after.log, r), phases[i.value].x, r);
      }
    }
  }

  lemma RememberedAfter(t: Template, phases: seq<TimedPhase>, s: State, tick: Tick, i: nat)
    requires WellFormed(t) && !HasCycle(t) && Active(phases, tick.elapsed) == Some(i) && i < |phases|
    requires !(Attempts(phases, s, tick) && tick.api.raisesAt.Some?)
    ensures Step(t, phases, s, tick).last == Some(phases[i].id)
  {
    hide Patched, Reached;
  }

  // ---- the others are not ----

  /** A tick on which the call reaches every role. */
  function FullTick(t: Template, elapsed: real): Tick {
    Tick(elapsed, Api(t.roles.Keys, None))
  }

  /** A tick on which the last answer is lost after every role was patched. */
  function LostTick(t: Template, elapsed: real): Tick {
    Tick(elapsed, Api(t.roles.Keys, Some(|t.order|)))
  }

  lemma TicksAreAllowed(t: Template, w: Weather, elapsed: real)
    requires WellFormed(t)
    ensures Allows(w, t, FullTick(t, elapsed)) && (w.halfway ==> Allows(w, t, LostTick(t, elapsed)))
    ensures Reached(t, FullTick(t, elapsed).api) == t.roles.Keys == Reached(t, LostTick(t, elapsed).api)
  {
    assert t.order[..|t.order|] == t.order;
  }

  lemma StepAt(t: Template, phases: seq<TimedPhase>, s: State, i: nat, api: Api)
    requires WellFormed(t) && !HasCycle(t) && Contiguous(phases) && i < |phases|
    ensures var tick := Tick(phases[i].start, api);
            && Active(phases, tick.elapsed) == Some(i)
            && (s.last == Some(phases[i].id) ==> Step(t, phases, s, tick) == s)
            && (s.last != Some(phases[i].id) ==>
                  var call := Attempt(i, Reached(t, api), api.raisesAt.Some?);
                  Attempts(phases, s, tick) &&
                  Step(t, phases, s, tick).log == s.log + [call] &&
                  Step(t, phases, s, tick).last == if call.raised then s.last else Some(phases[i].id))
  {
    ActiveIsTheWindow(phases, phases[i].start);
    assert Covers(phases[i], phases[i].start);
    hide WellFormed, HasCycle, Patched, Reached, Contiguous, Active;
  }

  lemma RunAppend(t: Template, phases: seq<TimedPhase>, s: State, ticks: seq<Tick>, tick: Tick)
    requires WellFormed(t) && !HasCycle(t)
    ensures Run(t, phases, s, ticks + [tick]) == Step(t, phases, Run(t, phases, s, ticks), tick)
    ensures (ticks + [tick])[..|ticks|] == ticks
    ensures Run(t, phases, s, []) == s
  {
    assert (ticks + [tick])[..|ticks|] == ticks;
    hide Step;
  }

  /** If the run is followed to a tick inside phase i that does not raise, every role sees phase i's x. */
  lemma FollowedMeans(t: Template, eps: Snapshot, phases: seq<TimedPhase>, ticks: seq<Tick>, i: nat, r: Role)
    requires WellFormed(t) && !HasCycle(t) && r in t.roles && ticks != [] && i < |phases|
    requires FollowsTimeline(t, eps, phases, ticks)
    requires Active(phases, ticks[|ticks| - 1].elapsed) == Some(i) && ticks[|ticks| - 1].api.raisesAt.None?
    ensures var s := Run(t, phases, Start(FinalConfigs(t, eps)), ticks);
            XAt(t, HeldSignal(t, phases, s.log, r), r) == XAt(t, phases[i].x, r)
  {
    hide WellFormed, HasCycle, HeldSignal, XAt, Run, FinalConfigs, FinalConfig;
    var s := Run(t, phases, Start(FinalConfigs(t, eps)), ticks);
    RoleHoldsWhatLastReachedIt(t, eps, phases, ticks, r);
    ConfigsAgreeExactlyWhenX(t, eps, HeldSignal(t, phases, s.log, r), phases[i].x, r);
  }

  /** A role missed at the only call for a phase keeps the x it was materialised with. */
  lemma MissedRoleLags(t: Template, eps: Snapshot, phases: seq<TimedPhase>, w: Weather, r: Role, j: nat)
    returns (ticks: seq<Tick>)
    requires WellFormed(t) && !HasCycle(t) && Contiguous(phases)
    requires r in t.roles && r in w.mayMiss && j < |phases| && XAt(t, phases[j].x, r) != XAt(t, t.x, r)
    ensures ticks != [] && CanHappen(t, w, ticks)
    ensures !FollowsTimeline(t, eps, phases, ticks)
  {
    var tick := Tick(phases[j].start, Api(t.roles.Keys - {r}, None));
    MissIsAllowed(t, w, r, tick.elapsed);
    hide WellFormed, HasCycle, HeldSignal, XAt, FinalConfigs, Run, Step, Contiguous, Active, FollowsTimeline,
         CanHappen, Allows, Reached;
    ticks := [] + [tick];
    OneMoreTick(t, w, [], tick);
    RunAppend(t, phases, Start(FinalConfigs(t, eps)), [], tick);
    StepAt(t, phases, Start(FinalConfigs(t, eps)), j, tick.api);
    HeldNext(t, phases, [], Attempt(j, t.roles.Keys - {r}, false), r);
    HeldAtStart(t, phases, r);
    if FollowsTimeline(t, eps, phases, ticks) {
      FollowedMeans(t, eps, phases, ticks, j, r);
    }
  }

  lemma MissIsAllowed(t: Template, w: Weather, r: Role, elapsed: real)
    requires r in w.mayMiss
    ensures var tick := Tick(elapsed, Api(t.roles.Keys - {r}, None));
            Allows(w, t, tick) && Reached(t, tick.api) == t.roles.Keys - {r} && CanHappen(t, w, [])
  {
  }

  lemma HeldAtStart(t: Template, phases: seq<TimedPhase>, r: Role)
    ensures HeldSignal(t, phases, [], r) == t.x
  {
  }

  lemma OneMoreTick(t: Template, w: Weather, ticks: seq<Tick>, tick: Tick)
    requires CanHappen(t, w, ticks) && Allows(w, t, tick)
    requires ticks != [] ==> ticks[|ticks| - 1].elapsed <= tick.elapsed
    ensures CanHappen(t, w, ticks + [tick])
  {
    hide Allows;
  }

  /** After a full call for phase i every role holds its signal. */
  lemma AfterFullCall(t: Template, w: Weather, phases: seq<TimedPhase>, configs: map<Role, Config>, i: nat, r: Role)
    returns (ticks: seq<Tick>)
    requires WellFormed(t) && !HasCycle(t) && Contiguous(phases) && i < |phases| && r in t.roles
    ensures ticks == [FullTick(t, phases[i].start)] && CanHappen(t, w, ticks)
    ensures var s := Run(t, phases, Start(configs), ticks);
            s.last == Some(phases[i].id) && HeldSignal(t, phases, s.log, r) == phases[i].x
  {
    hide WellFormed, HasCycle, HeldSignal, Run, Step, Contiguous, Active, Allows, Reached;
    var first := FullTick(t, phases[i].start);
    ticks := [] + [first];
    TicksAreAllowed(t, w, phases[i].start);
    OneMoreTick(t, w, [], first);
    RunAppend(t, phases, Start(configs), [], first);
    StepAt(t, phases, Start(configs), i, first.api);
    HeldNext(t, phases, [], Attempt(i, t.roles.Keys, false), r);
  }

  /** A full tick in a phase with the remembered id changes nothing, so the run cannot have been followed if
      some role is elsewhere. */
  lemma SkippedPhaseLags(t: Template, eps: Snapshot, w: Weather, phases: seq<TimedPhase>, ticks: seq<Tick>, j: nat,
                         r: Role)
    requires WellFormed(t) && !HasCycle(t) && Contiguous(phases) && j < |phases| && r in t.roles
    requires ticks != [] && CanHappen(t, w, ticks) && ticks[|ticks| - 1].elapsed <= phases[j].start
    requires var s := Run(t, phases, Start(FinalConfigs(t, eps)), ticks);
             s.last == Some(phases[j].id) && XAt(t, HeldSignal(t, phases, s.log, r), r) != XAt(t, phases[j].x, r)
    ensures CanHappen(t, w, ticks + [FullTick(t, phases[j].start)])
    ensures !FollowsTimeline(t, eps, phases, ticks + [FullTick(t, phases[j].start)])
  {
    hide WellFormed, HasCycle, HeldSignal, Run, Step, Contiguous, Active, Allows, Reached, CanHappen, XAt,
         FinalConfigs, FollowsTimeline;
    var last := FullTick(t, phases[j].start);
    TicksAreAllowed(t, w, phases[j].start);
    OneMoreTick(t, w, ticks, last);
    RunAppend(t, phases, Start(FinalConfigs(t, eps)), ticks, last);
    StepAt(t, phases, Run(t, phases, Start(FinalConfigs(t, eps)), ticks), j, last.api);
    if FollowsTimeline(t, eps, phases, ticks + [last]) {
      FollowedMeans(t, eps, phases, ticks + [last], j, r);
    }
  }

  /** A later phase under the same id is skipped: the roles keep the earlier one's x. */
  lemma SharedIdIsSkipped(t: Template, eps: Snapshot, phases: seq<TimedPhase>, w: Weather, i: nat, j: nat)
    returns (ticks: seq<Tick>)
    requires WellFormed(t) && !HasCycle(t) && Contiguous(phases) && i < j < |phases|
    requires phases[i].id == phases[j].id && !SameInputs(t, phases[i].x, phases[j].x)
    ensures ticks != [] && CanHappen(t, w, ticks) && !FollowsTimeline(t, eps, phases, ticks)
  {
    StartsIncrease(phases, i, j);
    assert phases[i].start < phases[i].end;
    SameInputsSameX(t, phases[i].x, phases[j].x);
    hide WellFormed, HasCycle, HeldSignal, Run, Contiguous, CanHappen, XAt, FinalConfigs, FollowsTimeline, SameInputs;
    var r :| r in t.roles && XAt(t, phases[i].x, r) != XAt(t, phases[j].x, r);
    var first := AfterFullCall(t, w, phases, FinalConfigs(t, eps), i, r);
    SkippedPhaseLags(t, eps, w, phases, first, j, r);
    ticks := first + [FullTick(t, phases[j].start)];
  }

  /** A call that raises after patching, in a phase between two of one id, is never put right. */
  lemma {:induction false} LostAnswerIsKept(t: Template, eps: Snapshot, phases: seq<TimedPhase>, w: Weather, i: nat,
                                            k: nat, j: nat) returns (ticks: seq<Tick>)
    requires WellFormed(t) && !HasCycle(t) && Contiguous(phases) && i < k < j < |phases| && w.halfway
    requires phases[i].id == phases[j].id != phases[k].id
    requires SameInputs(t, phases[i].x, phases[j].x) && !SameInputs(t, phases[i].x, phases[k].x)
    ensures ticks != [] && CanHappen(t, w, ticks) && !FollowsTimeline(t, eps, phases, ticks)
  {
    StartsIncrease(phases, i, k);
    StartsIncrease(phases, k, j);
    assert phases[i].start < phases[i].end && phases[k].start < phases[k].end;
    SameInputsSameX(t, phases[i].x, phases[j].x);
    SameInputsSameX(t, phases[i].x, phases[k].x);
    hide WellFormed, HasCycle, HeldSignal, Run, Contiguous, CanHappen, XAt, FinalConfigs, FollowsTimeline, SameInputs;
    var r :| r in t.roles && XAt(t, phases[i].x, r) != XAt(t, phases[k].x, r);
    var first := AfterFullCall(t, w, phases, FinalConfigs(t, eps), i, r);
    AfterLostCall(t, w, phases, FinalConfigs(t, eps), first, k, r);
    var both := first + [LostTick(t, phases[k].start)];
    SkippedPhaseLags(t, eps, w, phases, both, j, r);
    ticks := both + [FullTick(t, phases[j].start)];
  }

  lemma AfterLostCall(t: Template, w: Weather, phases: seq<TimedPhase>, configs: map<Role, Config>, ticks: seq<Tick>,
                      k: nat, r: Role)
    requires WellFormed(t) && !HasCycle(t) && Contiguous(phases) && k < |phases| && r in t.roles && w.halfway
    requires ticks != [] && CanHappen(t, w, ticks) && ticks[|ticks| - 1].elapsed <= phases[k].start
    requires Run(t, phases, Start(configs), ticks).last != Some(phases[k].id)
    ensures var after := ticks + [LostTick(t, phases[k].start)];
            var s := Run(t, phases, Start(configs), after);
            && CanHappen(t, w, after) && HeldSignal(t, phases, s.log, r) == phases[k].x
            && s.last == Run(t, phases, Start(configs), ticks).last
  {
    hide WellFormed, HasCycle, HeldSignal, Run, Step, Contiguous, Active, Allows, Reached, CanHappen;
    var lost := LostTick(t, phases[k].start);
    var s := Run(t, phases, Start(configs), ticks);
    TicksAreAllowed(t, w, phases[k].start);
    OneMoreTick(t, w, ticks, lost);
    RunAppend(t, phases, Start(configs), ticks, lost);
    StepAt(t, phases, s, k, lost.api);
    HeldNext(t, phases, s.log, Attempt(k, t.roles.Keys, true), r);
  }

  /** In given weather, the runner keeps every role on the timeline over all runs exactly when the timeline is
      forgiving. */
  lemma {:induction false} RunnerFollowsTimeline(t: Template, eps: Snapshot, phases: seq<TimedPhase>, w: Weather)
    requires WellFormed(t) && !HasCycle(t) && Contiguous(phases)
    ensures Forgiving(t, phases, w) <==>
            forall ticks | ticks != [] && CanHappen(t, w, ticks) ::
              FollowsTimeline(t, eps, phases, ticks)
  {
    hide WellFormed, HasCycle, Contiguous, CanHappen, FollowsTimeline, XAt, SameInputs;
    if Forgiving(t, phases, w) {
      forall ticks | ticks != [] && CanHappen(t, w, ticks)
        ensures FollowsTimeline(t, eps, phases, ticks)
      {
        ForgivingIsFollowed(t, eps, phases, w, ticks);
      }
    } else if r, j :| r in t.roles && r in w.mayMiss && 0 <= j < |phases| && XAt(t, phases[j].x, r) != XAt(t, t.x, r) {
      var ticks := MissedRoleLags(t, eps, phases, w, r, j);
    } else {
      var ticks := SharedIdGoesWrong(t, eps, phases, w);
    }
  }

  lemma SharedIdGoesWrong(t: Template, eps: Snapshot, phases: seq<TimedPhase>, w: Weather) returns (ticks: seq<Tick>)
    requires WellFormed(t) && !HasCycle(t) && Contiguous(phases)
    requires exists i, k, j :: 0 <= i < k <= j < |phases| && phases[i].id == phases[j].id && (k == j || w.halfway) &&
               !SameInputs(t, phases[i].x, phases[k].x)
    ensures ticks != [] && CanHappen(t, w, ticks)
    ensures !FollowsTimeline(t, eps, phases, ticks)
  {
    hide WellFormed, HasCycle, Contiguous, CanHappen, FollowsTimeline, XAt, SameInputs;
    var i: nat, k: nat, j: nat :| i < k <= j < |phases| && phases[i].id == phases[j].id && (k == j || w.halfway) &&
      !SameInputs(t, phases[i].x, phases[k].x);
    if phases[k].id == phases[i].id {
      ticks := SharedIdIsSkipped(t, eps, phases, w, i, k);
    } else if !SameInputs(t, phases[i].x, phases[j].x) {
      ticks := SharedIdIsSkipped(t, eps, phases, w, i, j);
    } else {
      ticks := LostAnswerIsKept(t, eps, phases, w, i, k, j);
    }
  }

  /** When every call that returns reaches every role, and one that raises has patched nothing, it comes down
      to the ids: phases under one id must have equal inputs. */
  lemma {:induction false} RunnerFollowsInClearWeather(t: Template, eps: Snapshot, phases: seq<TimedPhase>)
    requires WellFormed(t) && !HasCycle(t) && Contiguous(phases)
    ensures (forall i, j | 0 <= i < j < |phases| && phases[i].id == phases[j].id ::
            SameInputs(t, phases[i].x, phases[j].x)) <==>
            forall ticks | ticks != [] && CanHappen(t, Weather({}, false), ticks) ::
                FollowsTimeline(t, eps, phases, ticks)
  {
    RunnerFollowsTimeline(t, eps, phases, Weather({}, false));
    hide WellFormed, HasCycle, Contiguous, CanHappen, FollowsTimeline, XAt, SameInputs;
  }

  /** As soon as one role may be missed whose x ever moves, some run leaves it behind. */
  lemma {:induction false} MissingAnyRoleIsTooMuch(t: Template, eps: Snapshot, phases: seq<TimedPhase>, w: Weather,
                                                   r: Role, j: nat)
    requires WellFormed(t) && !HasCycle(t) && Contiguous(phases)
    requires r in t.roles && r in w.mayMiss && j < |phases| && XAt(t, phases[j].x, r) != XAt(t, t.x, r)
    ensures exists ticks :: ticks != [] && CanHappen(t, w, ticks) && !FollowsTimeline(t, eps, phases, ticks)
  {
    var ticks := MissedRoleLags(t, eps, phases, w, r, j);
  }

  // ---- a role that is never retried ----

  const ROLE := Name("solo")
  const QUIET := RoleSpec(1, Coefficients(0.0, 0.0), Coefficients(0.0, 0.0), Coefficients(0.0, 0.0))

  /** One role, materialised at the first phase's x. */
  const SOLO := Template(Uniform(0.0), [ROLE], map[ROLE := QUIET], [])

  const TWO_PHASES: seq<TimedPhase> := [Phase("calm", 0.0, 5.0, Uniform(0.0)), Phase("busy", 5.0, 10.0, Uniform(5.0))]

  /** The first tick of the second phase misses the role; the second could reach it. */
  const MISSED_ONCE := [Tick(6.0, Api({}, None)), Tick(7.0, Api({ROLE}, None))]

  lemma SoloIsAcyclic()
    ensures WellFormed(SOLO) && !HasCycle(SOLO) && ROLE in SOLO.roles && Upstreams(SOLO.edges, ROLE) == {}
    ensures Contiguous(TWO_PHASES)
  {
    if HasCycle(SOLO) {
      var d := Embedding.CycleIsStuck(SOLO);
      var v :| v in d;
      SoloHasNoUpstreams(d, v);
    }
  }

  lemma SoloHasNoUpstreams(d: set<Role>, v: Role)
    ensures !HasUpstreamIn(SOLO, d, v)
  {
  }

  lemma SecondPhaseIsActive(now: real)
    requires 5.0 <= now < 10.0
    ensures Active(TWO_PHASES, now) == Some(1)
  {
    SoloIsAcyclic();
    ActiveIsTheWindow(TWO_PHASES, now);
    assert Covers(TWO_PHASES[1], now);
  }

  lemma MissedRun(configs: map<Role, Config>)
    ensures WellFormed(SOLO) && !HasCycle(SOLO)
    ensures var s := Run(SOLO, TWO_PHASES, Start(configs), MISSED_ONCE);
            s.log == [Attempt(1, {}, false)] && s.last == Some("busy")
  {
    SoloIsAcyclic();
    SecondPhaseIsActive(6.0);
    SecondPhaseIsActive(7.0);
    hide WellFormed, HasCycle, Contiguous, Run, Active, Patched, Reached;
    var first, second := MISSED_ONCE[0], MISSED_ONCE[1];
    assert [] + [first] == [first] && [first] + [second] == MISSED_ONCE;
    RunAppend(SOLO, TWO_PHASES, Start(configs), [], first);
    RunAppend(SOLO, TWO_PHASES, Start(configs), [first], second);
    NothingReached(first.elapsed);
  }

  /** No exception was raised, so nothing is called at the second tick, and the role still runs at 0 where the
      active phase asks for 5. */
  lemma {:induction false} MissedForGood(eps: Snapshot)
    ensures WellFormed(SOLO) && !HasCycle(SOLO) && Contiguous(TWO_PHASES) && ClockNeverGoesBack(MISSED_ONCE)
    ensures var s := Run(SOLO, TWO_PHASES, Start(FinalConfigs(SOLO, eps)), MISSED_ONCE);
            && s.log == [Attempt(1, {}, false)] && s.last == Some("busy")
            && ROLE in s.configs && s.configs[ROLE].x == 0.0
    ensures Active(TWO_PHASES, MISSED_ONCE[1].elapsed) == Some(1) && TWO_PHASES[1].x == Uniform(5.0)
    ensures !FollowsTimeline(SOLO, eps, TWO_PHASES, MISSED_ONCE)
  {
    SoloIsAcyclic();
    SoloReads(Uniform(0.0));
    SoloReads(Uniform(5.0));
    SecondPhaseIsActive(7.0);
    hide WellFormed, HasCycle, XAt, HeldSignal, FinalConfigs, FinalConfig, Contiguous, FollowsTimeline, Run, Active;
    MissedRun(FinalConfigs(SOLO, eps));
    HeldAtStart(SOLO, TWO_PHASES, ROLE);
    assert [] + [Attempt(1, {}, false)] == [Attempt(1, {}, false)];
    HeldNext(SOLO, TWO_PHASES, [], Attempt(1, {}, false), ROLE);
    RoleHoldsWhatLastReachedIt(SOLO, eps, TWO_PHASES, MISSED_ONCE, ROLE);
    ConfigsAgreeExactlyWhenX(SOLO, eps, Uniform(0.0), Uniform(0.0), ROLE);
    if FollowsTimeline(SOLO, eps, TWO_PHASES, MISSED_ONCE) {
      FollowedMeans(SOLO, eps, TWO_PHASES, MISSED_ONCE, 1, ROLE);
    }
  }

  lemma SoloReads(x: Signal)
    requires x.Uniform?
    ensures WellFormed(SOLO) && !HasCycle(SOLO) && XAt(SOLO, x, ROLE) == x.x
  {
    SoloIsAcyclic();
    SignalKeepsWiring(SOLO, x);
    SourceResolves(WithSignal(SOLO, x), ROLE);
    hide HasCycle, WellFormed;
  }

  lemma NothingReached(elapsed: real)
    ensures Reached(SOLO, Tick(elapsed, Api({}, None)).api) == {}
  {
  }
}
