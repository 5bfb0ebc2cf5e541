/** From an accepted document to what every app runs at, phase by phase. */
module ScenarioRun {
  import opened Prelude
  import opened RoleModel
  import opened Propagation
  import opened PeerResolution
  import opened Materialise
  import opened Topology
  import opened TopologyMeaning
  import opened Scenario
  import opened Runner
  import opened Following

  /** The document's typed phases are those of its raw timeline. */
  ghost predicate Declares(doc: Doc, raw: seq<RawPhase>) {
    |doc.phases| == |raw| && forall i | 0 <= i < |raw| :: raw[i].RawPhase? && doc.phases[i] == SignalOf(raw[i].x)
  }

  /** Propagation directly on the app graph, at a given signal. */
  ghost function GraphAt(doc: Doc, x: AppSignal): Template {
    AppGraph(doc).(x := AppX(x))
  }

  /** The last tick made no call that raised. */
  ghost predicate LastTickIsQuiet(t: Template, eps: Snapshot, phases: seq<TimedPhase>, ticks: seq<Tick>)
    requires WellFormed(t) && !HasCycle(t) && ticks != []
  {
    var n := |ticks| - 1;
    !(Attempts(phases, Run(t, phases, Start(FinalConfigs(t, eps)), ticks[..n]), ticks[n]) &&
        ticks[n].api.raisesAt.Some?)
  }

  /** A document that is materialised and whose timeline is then run, in weather its timeline forgives: after
      every tick inside the timeline that did not raise, every app's role runs at what propagation over the
      app graph gives that app under the active phase. */
  lemma {:induction false} AppsFollowTheScenario(doc: Doc, raw: seq<RawPhase>, eps: Snapshot, w: Weather,
                                                 ticks: seq<Tick>, i: nat, a: AppId)
    requires ReplicasArePositive(doc.deployments) && RolesAreDistinct(doc.deployments) && Injective(RoleByApp(doc))
    requires PrefixOk(raw, |raw|, SourceApps(doc)) && Declares(doc, raw) && a in RoleByApp(doc)
    requires var t := Translate(doc); WellFormed(t) && !HasCycle(t)
    requires var t, phases := Translate(doc), Timeline(raw, SourceApps(doc), RoleByApp(doc));
             && Forgiving(t, phases, w)
             && ticks != [] && CanHappen(t, w, ticks) && LastTickIsQuiet(t, eps, phases, ticks)
             && Active(phases, ticks[|ticks| - 1].elapsed) == Some(i) && i < |raw|
    ensures var t, phases := Translate(doc), Timeline(raw, SourceApps(doc), RoleByApp(doc));
            var s := Run(t, phases, Start(FinalConfigs(t, eps)), ticks);
            var r, g := RoleByApp(doc)[a], GraphAt(doc, doc.phases[i]);
            && r in s.configs && WellFormed(g) && !HasCycle(g) && a in ResolvedX(g)
            && s.configs[r].x == ResolvedX(g)[a]
  {
    var byApp, t := RoleByApp(doc), Translate(doc);
    var phases := Timeline(raw, SourceApps(doc), byApp);
    TimelineIsContiguous(raw, SourceApps(doc), byApp);
    TimelineAt(raw, SourceApps(doc), byApp, i);
    TranslationPreservesPhase(doc, doc.phases[i]);
    AppRoleDeclared(doc, a);
    hide WellFormed, HasCycle, RoleByApp, Translate, AppGraph, Timeline, Forgiving, CanHappen, Run, FinalConfigs,
         FinalConfig,
         FollowsTimeline, ResolvedX, XToRoles, Active, PrefixOk, Injective, RolesAreDistinct, ReplicasArePositive,
             Contiguous, SourceApps, LastTickIsQuiet;
    SignalKeepsWiring(t, phases[i].x);
    ForgivingIsFollowed(t, eps, phases, w, ticks);
    FollowedTickHolds(t, eps, phases, ticks, i, byApp[a]);
  }

  lemma FollowedTickHolds(t: Template, eps: Snapshot, phases: seq<TimedPhase>, ticks: seq<Tick>, i: nat, r: Role)
    requires WellFormed(t) && !HasCycle(t) && r in t.roles && ticks != [] && i < |phases|
    requires FollowsTimeline(t, eps, phases, ticks)
    requires Active(phases, ticks[|ticks| - 1].elapsed) == Some(i) && LastTickIsQuiet(t, eps, phases, ticks)
    ensures var s, t' := Run(t, phases, Start(FinalConfigs(t, eps)), ticks), WithSignal(t, phases[i].x);
            r in s.configs && WellFormed(t') && !HasCycle(t') && r in ResolvedX(t') &&
                s.configs[r].x == ResolvedX(t')[r]
  {
    SignalKeepsWiring(t, phases[i].x);
    ConfigsAgreeExactlyWhenX(t, eps, phases[i].x, phases[i].x, r);
    hide WellFormed, HasCycle, Run, FinalConfigs, FinalConfig, Attempts;
  }

  /** All phases have ids of their own, or none has one and their starts print differently. */
  ghost predicate PhasesAreNamedApart(raw: seq<RawPhase>)
    requires forall i | 0 <= i < |raw| :: raw[i].RawPhase?
  {
    || (forall i, j | 0 <= i < j < |raw| :: raw[i].id != "" && raw[j].id != "" && raw[i].id != raw[j].id)
    || (forall i, j | 0 <= i < j < |raw| :: raw[i].id == "" == raw[j].id && raw[i].startText != raw[j].startText)
  }

  lemma NamedApartForgives(t: Template, phases: seq<TimedPhase>, halfway: bool)
    requires WellFormed(t) && !HasCycle(t) && forall i, j | 0 <= i < j < |phases| :: phases[i].id != phases[j].id
    ensures Forgiving(t, phases, Weather({}, halfway))
  {
    hide WellFormed, HasCycle;
  }

  /** An accepted document whose phases are named apart is followed, without any condition on ids or signals, as long as
      calls that return reach every role: after every quiet tick inside the timeline every role holds the active
      phase's configuration. */
  lemma {:induction false} NamedScenariosAreFollowed(t: Template, eps: Snapshot, raw: seq<RawPhase>,
                                                     sources: set<AppId>,
                                                     byApp: map<AppId, Role>, halfway: bool, ticks: seq<Tick>)
    requires WellFormed(t) && !HasCycle(t) && PrefixOk(raw, |raw|, sources)
    requires (forall i | 0 <= i < |raw| :: raw[i].RawPhase?) && PhasesAreNamedApart(raw)
    requires ticks != [] && CanHappen(t, Weather({}, halfway), ticks)
    ensures Forgiving(t, Timeline(raw, sources, byApp), Weather({}, halfway))
    ensures FollowsTimeline(t, eps, Timeline(raw, sources, byApp), ticks)
  {
    var phases := Timeline(raw, sources, byApp);
    TimelineIsContiguous(raw, sources, byApp);
    forall i, j | 0 <= i < j < |phases|
      ensures phases[i].id != phases[j].id
    {
      PhasesKeepTheirNames(raw, sources, byApp, i, j);
      PhasesKeepTheirNames(raw, sources, byApp, j, i);
      hide Timeline, PrefixOk, WellFormed, HasCycle, CanHappen;
    }
    hide Timeline, PrefixOk, WellFormed, HasCycle, CanHappen, Forgiving, FollowsTimeline, Contiguous,
         PhasesAreNamedApart;
    NamedApartForgives(t, phases, halfway);
    ForgivingIsFollowed(t, eps, phases, Weather({}, halfway), ticks);
  }

  /** The document is materialised at its first phase, so before any tick every app runs as that phase says. */
  lemma {:induction false} AppsStartAtTheFirstPhase(doc: Doc, eps: Snapshot, a: AppId)
    requires ReplicasArePositive(doc.deployments) && RolesAreDistinct(doc.deployments) && Injective(RoleByApp(doc))
    requires doc.phases != [] && a in RoleByApp(doc)
    requires var t := Translate(doc); WellFormed(t) && !HasCycle(t)
    ensures var r, g := RoleByApp(doc)[a], GraphAt(doc, doc.phases[0]);
            && r in FinalConfigs(Translate(doc), eps) && WellFormed(g) && !HasCycle(g) && a in ResolvedX(g)
            && FinalConfigs(Translate(doc), eps)[r].x == ResolvedX(g)[a]
  {
    var t, r := Translate(doc), RoleByApp(doc)[a];
    TranslationPreservesPhase(doc, doc.phases[0]);
    AppRoleDeclared(doc, a);
    assert Translate(doc).(x := XToRoles(doc.phases[0], RoleByApp(doc))) == t;
    hide WellFormed, HasCycle, RoleByApp, Translate, AppGraph, ResolvedX, XToRoles, Injective, RolesAreDistinct,
         ReplicasArePositive;
    ConfigShowsX(t, eps, r, ResolvedX(t)[r]);
    hide ConfigAt;
  }
}
