/** Two documents whose accepted phase map loses an input because apps share a role. */
module LostInputs {
  import opened Prelude
  import opened RoleModel
  import opened Propagation
  import opened Embedding
  import opened Topology
  import opened TopologyMeaning
  import opened Scenario

  const P := Deployment(Name("1"), "p", 1)
  const Q := Deployment(Name("2"), "q", 1)
  const A := App(Name("a"), Some(Name("1")), None)
  const B := App(Name("b"), Some(Name("2")), None)
  const C := App(Name("c"), Some(Name("1")), None)

  lemma RolesDiffer()
    ensures RoleOf(P) != RoleOf(Q)
  {
  }

  lemma ByDeployment()
    ensures RoleByDeployment([P]) == map[P.id := RoleOf(P)]
    ensures RoleByDeployment([P, Q]) == map[P.id := RoleOf(P), Q.id := RoleOf(Q)]
  {
    hide RoleOf;
    assert [P, Q][..1] == [P] && [P][..0] == [];
  }

  // ---- a shared role that is fed ----

  /** Apps "a" and "c" share deployment "p"; "b" deploys "q" and feeds "c". */
  const FED := Doc([P, Q], [A, B, C], [AppEdge(B.id, C.id)], [], Everywhere(0.0))

  const ONE_INPUT := [Field(A.id, Number(1.0))]

  lemma FedRoles()
    ensures RoleByApp(FED) == map[A.id := RoleOf(P), B.id := RoleOf(Q), C.id := RoleOf(P)]
  {
    ByDeployment();
    hide RoleOf, RoleByDeployment;
    assert [A, B, C][..2] == [A, B] && [A, B][..1] == [A] && [A][..0] == [];
    assert RolesOfApps([A], RoleByDeployment([P, Q])) == map[A.id := RoleOf(P)];
    assert RolesOfApps([A, B], RoleByDeployment([P, Q])) == map[A.id := RoleOf(P), B.id := RoleOf(Q)];
  }

  lemma FedTemplate(t: Template)
    requires t == PhaseTemplate(FED, EntriesOf(ONE_INPUT))
    ensures t.edges == [Edge(RoleOf(Q), RoleOf(P))]
    ensures RoleOf(P) in t.roles && RoleOf(Q) in t.roles && t.roles[RoleOf(Q)].net == ZERO
    ensures WellFormed(t)
  {
    hide RoleOf;
    FedRoles();
    RolesDiffer();
    TranslationIsWellFormed(FED);
    var loads := LoadsOfRoles(FED.apps, RoleByApp(FED));
    assert loads == map[] by {
      NoLoads(FED.apps, RoleByApp(FED));
    }
    hide RoleByApp, WellFormed, LoadsOfRoles;
    assert FED.edges[..0] == [];
    assert RoleEdges(FED.edges, RoleByApp(FED)) == [] + [Edge(RoleOf(Q), RoleOf(P))];
    assert FED.deployments[..1] == [P] && [P][..0] == [];
    assert RoleSpecs([P], loads) == map[RoleOf(P) := SpecFrom(1, None)];
  }

  lemma {:induction false} NoLoads(apps: seq<App>, byApp: map<AppId, Role>)
    requires forall app | app in apps :: app.load.None?
    ensures LoadsOfRoles(apps, byApp) == map[]
  {
    if apps != [] {
      NoLoads(apps[..|apps| - 1], byApp);
    }
  }

  lemma OneEdgeIsAcyclic(t: Template, u: Role, v: Role)
    requires t.edges == [Edge(u, v)] && u != v
    ensures !HasCycle(t) && Upstreams(t.edges, v) == {u}
  {
    if HasCycle(t) {
      var d := CycleIsStuck(t);
      var r :| r in d;
      OnlyOneIsFed(t, u, v, d, r);
      OnlyOneIsFed(t, u, v, d, u);
    }
  }

  lemma OnlyOneIsFed(t: Template, u: Role, v: Role, d: set<Role>, r: Role)
    requires t.edges == [Edge(u, v)] && u != v
    ensures HasUpstreamIn(t, d, r) <==> r == v && u in d
  {
    assert forall s :: Feeds(t, s, r) <==> s == u && r == v;
  }

  lemma SilentUpstream(t: Template, u: Role, v: Role)
    requires WellFormed(t) && !HasCycle(t) && u in t.roles && v in t.roles
    requires Upstreams(t.edges, v) == {u} && t.roles[u].net == ZERO
    ensures v in ResolvedX(t) && ResolvedX(t)[v] == 0.0
  {
    hide HasCycle, WellFormed;
    var m := ResolvedX(t);
    assert Resolves(t, m, v);
    SumRemove({u}, Contribution(t, m), u);
    assert {u} - {u} == {};
  }

  /** "a" has no inbound edge, so a phase may key on it; but its role is fed by "b" through "c", so the 1.0 given
      to "a" is never read and the role runs at 0. */
  lemma {:induction false} FedRoleLosesInput()
    ensures ReplicasArePositive(FED.deployments) && RolesAreDistinct(FED.deployments)
    ensures SignalOk(Table(ONE_INPUT), SourceApps(FED)) && EntriesOf(ONE_INPUT) == [Entry(A.id, 1.0)]
    ensures A.id in RoleByApp(FED) && !Lands(FED, EntriesOf(ONE_INPUT), 0)
    ensures var t, r := PhaseTemplate(FED, EntriesOf(ONE_INPUT)), RoleByApp(FED)[A.id];
            WellFormed(t) && !HasCycle(t) && r in ResolvedX(t) && ResolvedX(t)[r] == 0.0
  {
    FedRoles();
    RolesDiffer();
    hide RoleOf, RoleByApp, WellFormed, PhaseTemplate;
    var t := PhaseTemplate(FED, EntriesOf(ONE_INPUT));
    FedTemplate(t);
    OneEdgeIsAcyclic(t, RoleOf(Q), RoleOf(P));
    SilentUpstream(t, RoleOf(Q), RoleOf(P));
    hide HasCycle, ResolvedX;
    assert A.id in SourceApps(FED);
  }

  // ---- two inputs for one role ----

  /** Apps "a" and "c" share deployment "p" and there are no edges. */
  const TWINS := Doc([P], [A, C], [], [], Everywhere(0.0))

  const TWO_INPUTS := [Field(A.id, Number(1.0)), Field(C.id, Number(2.0))]

  lemma TwinRoles()
    ensures RoleByApp(TWINS) == map[A.id := RoleOf(P), C.id := RoleOf(P)]
  {
    ByDeployment();
    hide RoleOf, RoleByDeployment;
    assert [A, C][..1] == [A] && [A][..0] == [];
    assert RolesOfApps([A], RoleByDeployment([P])) == map[A.id := RoleOf(P)];
  }

  lemma NoEdgesNoCycle(t: Template)
    requires t.edges == []
    ensures !HasCycle(t)
  {
    if HasCycle(t) {
      var d := CycleIsStuck(t);
      var r :| r in d;
      NothingIsFed(t, d, r);
    }
  }

  lemma NothingIsFed(t: Template, d: set<Role>, r: Role)
    requires t.edges == []
    ensures !HasUpstreamIn(t, d, r)
  {
  }

  /** Both apps are sources and so is their role, but it can only start at one value: the 2.0 given to "c"
      overwrites the 1.0 given to "a". */
  lemma {:induction false} TwinsLoseInput()
    ensures ReplicasArePositive(TWINS.deployments) && RolesAreDistinct(TWINS.deployments)
    ensures SignalOk(Table(TWO_INPUTS), SourceApps(TWINS))
    ensures EntriesOf(TWO_INPUTS) == [Entry(A.id, 1.0), Entry(C.id, 2.0)]
    ensures A.id in RoleByApp(TWINS) && C.id in RoleByApp(TWINS)
    ensures !Lands(TWINS, EntriesOf(TWO_INPUTS), 0) && Lands(TWINS, EntriesOf(TWO_INPUTS), 1)
    ensures var t, r := PhaseTemplate(TWINS, EntriesOf(TWO_INPUTS)), RoleByApp(TWINS)[A.id];
            IsSourceRole(t, r) && WellFormed(t) && !HasCycle(t) && r in ResolvedX(t) && ResolvedX(t)[r] == 2.0
  {
    TwinRoles();
    hide RoleOf, RoleByApp, WellFormed, HasCycle, ResolvedX, Lands;
    var entries := EntriesOf(TWO_INPUTS);
    assert entries == [Entry(A.id, 1.0), Entry(C.id, 2.0)];
    assert IsLastFor(entries, RoleByApp(TWINS), RoleOf(P), 1);
    EntryLandsExactlyWhen(TWINS, entries, 0);
    EntryLandsExactlyWhen(TWINS, entries, 1);
    LandedInputIsUsed(TWINS, entries, 1);
    NoEdgesNoCycle(PhaseTemplate(TWINS, entries));
    LandedIsSource(TWINS, entries, 1);
  }

  lemma LandedIsSource(doc: Doc, entries: seq<Entry>, i: nat)
    requires i < |entries| && entries[i].app in RoleByApp(doc) && Lands(doc, entries, i)
    ensures IsSourceRole(PhaseTemplate(doc, entries), RoleByApp(doc)[entries[i].app])
  {
  }
}
