/** Translation keeps the meaning of a topology document: x per app is what the app graph itself gives. */
module TopologyMeaning {
  import opened Prelude
  import opened RoleModel
  import opened Propagation
  import opened Topology
  import opened Embedding

  ghost predicate Injective(byApp: map<AppId, Role>) {
    forall a, b | a in byApp && b in byApp && byApp[a] == byApp[b] :: a == b
  }

  /** No two deployments become the same role. */
  ghost predicate RolesAreDistinct(ds: seq<Deployment>) {
    forall i, j | 0 <= i < j < |ds| :: RoleOf(ds[i]) != RoleOf(ds[j])
  }

  ghost predicate ReplicasArePositive(ds: seq<Deployment>) {
    forall d | d in ds :: d.replicas >= 1
  }

  // ---- lookups ----

  lemma {:induction false} RoleByDeploymentIs(ds: seq<Deployment>, id: Name)
    ensures id in RoleByDeployment(ds) <==> DeploymentWithId(ds, id).Some?
    ensures id in RoleByDeployment(ds) ==>
              && DeploymentWithId(ds, id).value in ds
              && RoleByDeployment(ds)[id] == RoleOf(DeploymentWithId(ds, id).value)
  {
    hide RoleOf;
    if ds != [] {
      RoleByDeploymentIs(ds[..|ds| - 1], id);
      assert ds == ds[..|ds| - 1] + [ds[|ds| - 1]];
    }
  }

  lemma {:induction false} RolesOfAppsIs(apps: seq<App>, ds: seq<Deployment>, a: AppId)
    ensures a in RolesOfApps(apps, RoleByDeployment(ds)) <==> DeploymentOfApp(apps, ds, a).Some?
    ensures a in RolesOfApps(apps, RoleByDeployment(ds)) <==> a in AppOrder(apps, ds)
    ensures a in RolesOfApps(apps, RoleByDeployment(ds)) ==>
              && DeploymentOfApp(apps, ds, a).value in ds
              && RolesOfApps(apps, RoleByDeployment(ds))[a] == RoleOf(DeploymentOfApp(apps, ds, a).value)
  {
    if apps != [] {
      var app := apps[|apps| - 1];
      RolesOfAppsIs(apps[..|apps| - 1], ds, a);
      if app.deployment.Some? {
        RoleByDeploymentIs(ds, app.deployment.value);
      }
      hide RoleByDeployment, RoleOf, DeploymentWithId;
    }
  }

  lemma {:induction false} AppOrderDistinct(apps: seq<App>, ds: seq<Deployment>)
    ensures Distinct(AppOrder(apps, ds))
  {
    if apps != [] {
      AppOrderDistinct(apps[..|apps| - 1], ds);
    }
  }

  lemma {:induction false} RoleOrderIs(ds: seq<Deployment>, loads: map<Role, Load>)
    ensures Distinct(RoleOrder(ds))
    ensures Elements(RoleOrder(ds)) == RoleSpecs(ds, loads).Keys
    ensures forall d | d in ds :: RoleOf(d) in RoleSpecs(ds, loads)
  {
    hide RoleOf;
    if ds != [] {
      RoleOrderIs(ds[..|ds| - 1], loads);
      assert ds == ds[..|ds| - 1] + [ds[|ds| - 1]];
    }
  }

  lemma {:induction false} RoleSpecIs(ds: seq<Deployment>, loads: map<Role, Load>, d: Deployment)
    requires RolesAreDistinct(ds) && d in ds
    ensures RoleOf(d) in RoleSpecs(ds, loads)
    ensures RoleSpecs(ds, loads)[RoleOf(d)] == SpecFrom(d.replicas, Find(loads, RoleOf(d)))
  {
    hide RoleOf, SpecFrom;
    var n := |ds| - 1;
    if ds[n] != d {
      assert d in ds[..n];
      RoleSpecIs(ds[..n], loads, d);
      var i :| 0 <= i < n && ds[i] == d;
      assert RoleOf(ds[i]) != RoleOf(ds[n]);
    }
  }

  lemma {:induction false} RoleCountsPositive(ds: seq<Deployment>, loads: map<Role, Load>)
    requires ReplicasArePositive(ds)
    ensures forall r | r in RoleSpecs(ds, loads) :: RoleSpecs(ds, loads)[r].count >= 1
  {
    hide RoleOf;
    if ds != [] {
      RoleCountsPositive(ds[..|ds| - 1], loads);
      assert ds[|ds| - 1] in ds;
    }
  }

  lemma {:induction false} LoadOfRoleIs(apps: seq<App>, byApp: map<AppId, Role>, a: AppId)
    requires Injective(byApp) && a in byApp
    ensures Find(LoadsOfRoles(apps, byApp), byApp[a]) == LoadOfApp(apps, a)
  {
    if apps != [] {
      LoadOfRoleIs(apps[..|apps| - 1], byApp, a);
    }
  }

  lemma {:induction false} RekeyedIs(entries: seq<Entry>, byApp: map<AppId, Role>, a: AppId)
    requires Injective(byApp) && a in byApp
    ensures Find(RekeyedEntries(entries, byApp), byApp[a]) == Find(EntriesByApp(entries), a)
  {
    if entries != [] {
      RekeyedIs(entries[..|entries| - 1], byApp, a);
    }
  }

  lemma SignalRekeyed(x: AppSignal, byApp: map<AppId, Role>, a: AppId)
    requires Injective(byApp) && a in byApp
    ensures SourceX(XToRoles(x, byApp), byApp[a]) == SourceX(AppX(x), a)
  {
    if x.PerApp? {
      RekeyedIs(x.entries, byApp, a);
    }
  }

  lemma {:induction false} RoleEdgesAre(edges: seq<AppEdge>, byApp: map<AppId, Role>)
    ensures forall e | e in edges && e.src in byApp && e.dst in byApp ::
            Edge(byApp[e.src], byApp[e.dst]) in RoleEdges(edges, byApp)
    ensures forall e | e in RoleEdges(edges, byApp) :: e.src in byApp.Values && e.dst in byApp.Values
  {
    if edges != [] {
      var front, last := edges[..|edges| - 1], edges[|edges| - 1];
      RoleEdgesAre(front, byApp);
      assert edges == front + [last];
    }
  }

  lemma {:induction false} RoleEdgeComesFrom(edges: seq<AppEdge>, byApp: map<AppId, Role>, e: Edge) returns (f: AppEdge)
    requires e in RoleEdges(edges, byApp)
    ensures f in edges && f.src in byApp && f.dst in byApp && e == Edge(byApp[f.src], byApp[f.dst])
  {
    var front, last := edges[..|edges| - 1], edges[|edges| - 1];
    if last.src in byApp && last.dst in byApp && e == Edge(byApp[last.src], byApp[last.dst]) {
      f := last;
    } else {
      f := RoleEdgeComesFrom(front, byApp, e);
    }
  }

  lemma {:induction false} AppEdgesAre(edges: seq<AppEdge>, nodes: seq<AppId>)
    ensures forall e :: e in AppEdgesAsEdges(edges, nodes) <==>
            AppEdge(e.src, e.dst) in edges && e.src in nodes && e.dst in nodes
  {
    if edges != [] {
      var front, last := edges[..|edges| - 1], edges[|edges| - 1];
      AppEdgesAre(front, nodes);
      assert edges == front + [last];
    }
  }

  // ---- the two templates ----

  lemma TranslationIsWellFormed(doc: Doc)
    requires ReplicasArePositive(doc.deployments)
    ensures WellFormed(Translate(doc))
  {
    var byApp := RoleByApp(doc);
    var loads := LoadsOfRoles(doc.apps, byApp);
    var t := Translate(doc);
    RoleOrderIs(doc.deployments, loads);
    RoleCountsPositive(doc.deployments, loads);
    forall e | e in t.edges
      ensures e.src in t.roles && e.dst in t.roles
    {
      var f := RoleEdgeComesFrom(doc.edges, byApp, e);
      RolesOfAppsIs(doc.apps, doc.deployments, f.src);
      RolesOfAppsIs(doc.apps, doc.deployments, f.dst);
    }
  }

  lemma AppGraphCount(doc: Doc, a: AppId)
    requires ReplicasArePositive(doc.deployments) && a in AppOrder(doc.apps, doc.deployments)
    ensures AppSpec(doc, a).count >= 1
  {
    RolesOfAppsIs(doc.apps, doc.deployments, a);
    hide AppOrder, RolesOfApps, RoleByDeployment, DeploymentOfApp, LoadOfApp;
  }

  lemma AppGraphIsWellFormed(doc: Doc)
    requires ReplicasArePositive(doc.deployments)
    ensures WellFormed(AppGraph(doc))
    ensures AppGraph(doc).roles.Keys == RoleByApp(doc).Keys
  {
    hide AppSpec, AppOrder, AppEdgesAsEdges, ReplicasArePositive, RolesOfApps, RoleByDeployment;
    var order := AppOrder(doc.apps, doc.deployments);
    AppOrderDistinct(doc.apps, doc.deployments);
    AppEdgesAre(doc.edges, order);
    forall a
      ensures a in order <==> a in RoleByApp(doc)
      ensures a in order ==> AppSpec(doc, a).count >= 1
    {
      RolesOfAppsIs(doc.apps, doc.deployments, a);
      if a in order {
        AppGraphCount(doc, a);
      }
    }
  }

  lemma FeedsCorrespond(doc: Doc, a: AppId, b: AppId)
    requires Injective(RoleByApp(doc)) && a in RoleByApp(doc) && b in RoleByApp(doc)
    ensures Feeds(AppGraph(doc), a, b) <==> Feeds(Translate(doc), RoleByApp(doc)[a], RoleByApp(doc)[b])
  {
    var byApp, order := RoleByApp(doc), AppOrder(doc.apps, doc.deployments);
    RolesOfAppsIs(doc.apps, doc.deployments, a);
    RolesOfAppsIs(doc.apps, doc.deployments, b);
    AppEdgesAre(doc.edges, order);
    RoleEdgesAre(doc.edges, byApp);
    hide RolesOfApps, AppOrder, RoleByDeployment, DeploymentOfApp;
    if Feeds(AppGraph(doc), a, b) {
      assert AppEdge(Edge(a, b).src, Edge(a, b).dst) in doc.edges;
      assert AppEdge(a, b) in doc.edges;
    }
    if Feeds(Translate(doc), byApp[a], byApp[b]) {
      var f := RoleEdgeComesFrom(doc.edges, byApp, Edge(byApp[a], byApp[b]));
      assert f == AppEdge(a, b);
      assert Edge(a, b) in AppEdgesAsEdges(doc.edges, order);
    }
  }

  lemma RolesCorrespond(doc: Doc, a: AppId)
    requires RolesAreDistinct(doc.deployments) && Injective(RoleByApp(doc)) && a in RoleByApp(doc)
    ensures RoleByApp(doc)[a] in Translate(doc).roles
    ensures Translate(doc).roles[RoleByApp(doc)[a]] == AppSpec(doc, a)
  {
    var byApp := RoleByApp(doc);
    RolesOfAppsIs(doc.apps, doc.deployments, a);
    RoleSpecIs(doc.deployments, LoadsOfRoles(doc.apps, byApp), DeploymentOfApp(doc.apps, doc.deployments, a).value);
    LoadOfRoleIs(doc.apps, byApp, a);
    hide RolesOfApps, RoleByDeployment, DeploymentOfApp, RoleSpecs, LoadsOfRoles, LoadOfApp, RoleOf;
  }

  lemma TranslationEmbeds(doc: Doc)
    requires ReplicasArePositive(doc.deployments)
    requires RolesAreDistinct(doc.deployments) && Injective(RoleByApp(doc))
    ensures Embeds(AppGraph(doc), Translate(doc), RoleByApp(doc))
  {
    var byApp, a, t := RoleByApp(doc), AppGraph(doc), Translate(doc);
    AppGraphIsWellFormed(doc);
    hide RoleByApp, Translate, AppGraph, WellFormed;
    forall r | r in byApp
      ensures byApp[r] in t.roles && a.roles[r].count == t.roles[byApp[r]].count &&
              a.roles[r].net == t.roles[byApp[r]].net
      ensures SourceX(a.x, r) == SourceX(t.x, byApp[r])
    {
      RolesCorrespond(doc, r);
      AppGraphRole(doc, r);
      SignalRekeyed(InitialX(doc), byApp, r);
      TranslatedSignal(doc);
    }
    forall r, s | r in byApp && s in byApp
      ensures Feeds(a, r, s) <==> Feeds(t, byApp[r], byApp[s])
    {
      FeedsCorrespond(doc, r, s);
    }
    forall u, v | Feeds(t, u, v)
      ensures u in byApp.Values && v in byApp.Values
    {
      TranslatedEdges(doc, u, v);
    }
  }

  lemma AppGraphRole(doc: Doc, a: AppId)
    requires a in RoleByApp(doc)
    ensures a in AppGraph(doc).roles && AppGraph(doc).roles[a] == AppSpec(doc, a)
  {
    RolesOfAppsIs(doc.apps, doc.deployments, a);
  }

  lemma TranslatedSignal(doc: Doc)
    ensures Translate(doc).x == XToRoles(InitialX(doc), RoleByApp(doc))
    ensures AppGraph(doc).x == AppX(InitialX(doc))
  {
  }

  lemma TranslatedEdges(doc: Doc, u: Role, v: Role)
    requires Feeds(Translate(doc), u, v)
    ensures u in RoleByApp(doc).Values && v in RoleByApp(doc).Values
  {
    RoleEdgesAre(doc.edges, RoleByApp(doc));
    assert Edge(u, v) in RoleEdges(doc.edges, RoleByApp(doc));
  }

  /** When apps and roles correspond one to one, the translated template is cyclic exactly when the app
      graph is, and every app's resolved x is what propagation over the app graph gives it. */
  lemma {:induction false} TranslationPreservesX(doc: Doc)
    requires ReplicasArePositive(doc.deployments)
    requires RolesAreDistinct(doc.deployments) && Injective(RoleByApp(doc))
    ensures WellFormed(Translate(doc)) && WellFormed(AppGraph(doc))
    ensures HasCycle(Translate(doc)) <==> HasCycle(AppGraph(doc))
    ensures !HasCycle(Translate(doc)) ==>
              forall a | a in RoleByApp(doc) ::
                && RoleByApp(doc)[a] in ResolvedX(Translate(doc)) && a in ResolvedX(AppGraph(doc))
                && ResolvedX(Translate(doc))[RoleByApp(doc)[a]] == ResolvedX(AppGraph(doc))[a]
  {
    TranslationIsWellFormed(doc);
    AppGraphIsWellFormed(doc);
    TranslationEmbeds(doc);
    hide Translate, AppGraph, RoleByApp, HasCycle, WellFormed, ResolvedX, Embeds;
    CyclesCorrespond(AppGraph(doc), Translate(doc), RoleByApp(doc));
    if !HasCycle(Translate(doc)) {
      PropagationRenamed(AppGraph(doc), Translate(doc), RoleByApp(doc));
    }
  }

  /** The same for any signal put in place of the initial one, as a later phase of a scenario is. */
  lemma {:induction false} TranslationPreservesPhase(doc: Doc, x: AppSignal)
    requires ReplicasArePositive(doc.deployments)
    requires RolesAreDistinct(doc.deployments) && Injective(RoleByApp(doc))
    ensures var t, g := Translate(doc).(x := XToRoles(x, RoleByApp(doc))), AppGraph(doc).(x := AppX(x));
            && WellFormed(t) && WellFormed(g) && (HasCycle(t) <==> HasCycle(g))
            && (!HasCycle(t) ==>
                  forall a | a in RoleByApp(doc) ::
                    && RoleByApp(doc)[a] in ResolvedX(t) && a in ResolvedX(g)
                    && ResolvedX(t)[RoleByApp(doc)[a]] == ResolvedX(g)[a])
  {
    var doc' := doc.(phases := [x]);
    assert RoleByApp(doc') == RoleByApp(doc) && InitialX(doc') == x;
    assert Translate(doc') == Translate(doc).(x := XToRoles(x, RoleByApp(doc)));
    assert AppGraph(doc') == AppGraph(doc).(x := AppX(x));
    hide Translate, AppGraph, RoleByApp, HasCycle, WellFormed, ResolvedX, Injective;
    assert Injective(RoleByApp(doc'));
    TranslationPreservesX(doc');
  }

  // ---- which apps are deployed ----

  /** One of the deployments can be referred to by id and gives a role its name. */
  ghost predicate IsNamedDeployment(ds: seq<Deployment>, id: Name) {
    id != Name("") && exists d :: d in ds && d.id == id && d.name != ""
  }

  lemma {:induction false} NamedDeploymentsAreFound(ds: seq<Deployment>, id: Name)
    ensures DeploymentWithId(ds, id).Some? ==> IsNamedDeployment(ds, id)
    ensures IsNamedDeployment(ds, id) ==> DeploymentWithId(ds, id).Some?
  {
    if ds != [] {
      var front, last := ds[..|ds| - 1], ds[|ds| - 1];
      assert ds == front + [last];
      NamedDeploymentsAreFound(front, id);
      assert last in ds;
    }
  }

  /** An app runs as a role exactly when it has an id and refers to a deployment with an id and a name. Source apps are
      those that run as a role and that no edge points at. */
  lemma {:induction false} DeployedExactlyWhen(doc: Doc, a: AppId)
    ensures a in RoleByApp(doc) <==>
            a != Name("") &&
            exists app :: app in doc.apps && app.id == a && app.deployment.Some? &&
                IsNamedDeployment(doc.deployments, app.deployment.value)
    ensures a in SourceApps(doc) <==> a in RoleByApp(doc) && forall e | e in doc.edges :: e.dst != a
  {
    DeployedApps(doc.apps, doc.deployments, a);
  }

  lemma {:induction false} DeployedApps(apps: seq<App>, ds: seq<Deployment>, a: AppId)
    ensures a in RolesOfApps(apps, RoleByDeployment(ds)) <==>
            a != Name("") &&
            exists app :: app in apps && app.id == a && app.deployment.Some? &&
                IsNamedDeployment(ds, app.deployment.value)
  {
    hide IsNamedDeployment, RoleByDeployment, DeploymentWithId;
    if apps != [] {
      var front, last := apps[..|apps| - 1], apps[|apps| - 1];
      assert apps == front + [last];
      DeployedApps(front, ds, a);
      if last.deployment.Some? {
        RoleByDeploymentIs(ds, last.deployment.value);
        NamedDeploymentsAreFound(ds, last.deployment.value);
      }
    }
  }

  // ---- what the translated roles are ----

  /** The one entry under its id. */
  ghost predicate IsOnlyApp(doc: Doc, app: App) {
    app in doc.apps && forall b | b in doc.apps && b.id == app.id :: b == app
  }

  ghost predicate IsOnlyDeployment(doc: Doc, d: Deployment) {
    d in doc.deployments && d.id.text != "" && d.name != "" && forall e | e in doc.deployments && e.id == d.id :: e == d
  }

  lemma {:induction false} OnlyDeploymentIsFound(ds: seq<Deployment>, d: Deployment)
    requires d in ds && d.id.text != "" && d.name != "" && forall e | e in ds && e.id == d.id :: e == d
    ensures DeploymentWithId(ds, d.id) == Some(d)
  {
    var front, last := ds[..|ds| - 1], ds[|ds| - 1];
    assert ds == front + [last];
    if last != d {
      OnlyDeploymentIsFound(front, d);
    }
  }

  lemma {:induction false} OnlyAppIsFound(apps: seq<App>, ds: seq<Deployment>, app: App, d: Deployment)
    requires app in apps && forall b | b in apps && b.id == app.id :: b == app
    requires app.id.text != "" && app.deployment == Some(d.id) && DeploymentWithId(ds, d.id) == Some(d)
    ensures DeploymentOfApp(apps, ds, app.id) == Some(d)
    ensures LoadOfApp(apps, app.id) == app.load
  {
    hide DeploymentWithId;
    var front, last := apps[..|apps| - 1], apps[|apps| - 1];
    assert apps == front + [last];
    if app in front {
      OnlyAppIsFound(front, ds, app, d);
    } else {
      NoLoadElsewhere(front, app);
    }
  }

  lemma {:induction false} NoLoadElsewhere(apps: seq<App>, app: App)
    requires forall b | b in apps :: b.id != app.id
    ensures LoadOfApp(apps, app.id) == None
  {
    if apps != [] {
      NoLoadElsewhere(apps[..|apps| - 1], app);
    }
  }

  /** An app's role is named after its deployment, has the deployment's replicas, and runs the app's own formulas; an
      app without a load has none. */
  lemma {:induction false} RoleCarriesItsApp(doc: Doc, app: App, d: Deployment)
    requires RolesAreDistinct(doc.deployments) && Injective(RoleByApp(doc))
    requires IsOnlyApp(doc, app) && app.id.text != "" && app.deployment == Some(d.id) && IsOnlyDeployment(doc, d)
    ensures app.id in RoleByApp(doc) && RoleByApp(doc)[app.id] == Name(Sanitize(d.name))
    ensures var t, r := Translate(doc), RoleByApp(doc)[app.id];
            && r in t.roles && t.roles[r].count == d.replicas
            && (app.load.Some? ==>
                 t.roles[r].cpu == app.load.value.cpu && t.roles[r].ram == app.load.value.ram &&
                     t.roles[r].net == app.load.value.net)
            && (app.load.None? ==>
                 forall c | c in [t.roles[r].cpu, t.roles[r].ram, t.roles[r].net] :: c.a == 0.0 && c.b == 0.0)
  {
    OnlyDeploymentIsFound(doc.deployments, d);
    OnlyAppIsFound(doc.apps, doc.deployments, app, d);
    RolesOfAppsIs(doc.apps, doc.deployments, app.id);
    hide DeploymentWithId, DeploymentOfApp, LoadOfApp, RolesOfApps, RoleByDeployment, Sanitize, RolesAreDistinct,
         Injective;
    LoadOfRoleIs(doc.apps, RoleByApp(doc), app.id);
    RoleSpecIs(doc.deployments, LoadsOfRoles(doc.apps, RoleByApp(doc)), d);
  }

  /** Without phases the template starts at the document's own x. */
  lemma {:induction false} BaselineInput(doc: Doc, v: real)
    requires doc.phases == [] && doc.x == Everywhere(v)
    ensures Translate(doc).x == Uniform(v)
  {
  }

  // ---- phase inputs ----

  /** r is a role the pass treats as a source. */
  ghost predicate IsSourceRole(t: Template, r: Role) {
    Upstreams(t.edges, r) == {}
  }

  /** Exactly when an app's role is a source: whatever points at any app of that role comes from that role. */
  lemma {:induction false} SourceRoleCondition(doc: Doc, a: AppId)
    requires a in RoleByApp(doc)
    ensures var byApp := RoleByApp(doc);
            IsSourceRole(Translate(doc), byApp[a]) <==>
            forall e | e in doc.edges && e.src in byApp && e.dst in byApp && byApp[e.dst] == byApp[a] ::
                byApp[e.src] == byApp[a]
  {
    hide RolesOfApps, RoleByDeployment;
    var byApp, t := RoleByApp(doc), Translate(doc);
    RoleEdgesAre(doc.edges, byApp);
    if e :| e in doc.edges && e.src in byApp && e.dst in byApp && byApp[e.dst] == byApp[a] && byApp[e.src] != byApp[a] {
      assert Edge(byApp[e.src], byApp[e.dst]) in t.edges;
      assert byApp[e.src] in Upstreams(t.edges, byApp[a]);
    } else {
      forall u | u in Upstreams(t.edges, byApp[a])
        ensures false
      {
        UpstreamsFeed(t, u, byApp[a]);
        var f := RoleEdgeComesFrom(doc.edges, byApp, Edge(u, byApp[a]));
      }
    }
  }

  /** Entry j is the last one whose app runs as r. */
  ghost predicate IsLastFor(entries: seq<Entry>, byApp: map<AppId, Role>, r: Role, j: nat) {
    && j < |entries| && MapsTo(entries[j], byApp, r)
    && forall k | j < k < |entries| :: !MapsTo(entries[k], byApp, r)
  }

  ghost predicate MapsTo(e: Entry, byApp: map<AppId, Role>, r: Role) {
    e.app in byApp && byApp[e.app] == r
  }

  lemma {:induction false} LastForIs(entries: seq<Entry>, byApp: map<AppId, Role>, r: Role, i: nat) returns (j: nat)
    requires i < |entries| && MapsTo(entries[i], byApp, r)
    ensures i <= j && IsLastFor(entries, byApp, r, j)
    ensures r in RekeyedEntries(entries, byApp) && RekeyedEntries(entries, byApp)[r] == entries[j].x
  {
    var n := |entries| - 1;
    if MapsTo(entries[n], byApp, r) {
      j := n;
    } else {
      assert entries[..n][i] == entries[i];
      j := LastForIs(entries[..n], byApp, r, i);
      assert entries[..n][j] == entries[j];
    }
  }

  /** The template a phase with this map runs. */
  function PhaseTemplate(doc: Doc, entries: seq<Entry>): Template {
    Translate(doc).(x := XToRoles(PerApp(entries), RoleByApp(doc)))
  }

  /** An entry of a phase's map takes effect: its role is one the pass treats as a source, and starts at it. */
  ghost predicate Lands(doc: Doc, entries: seq<Entry>, i: nat)
    requires i < |entries| && entries[i].app in RoleByApp(doc)
  {
    var r := RoleByApp(doc)[entries[i].app];
    IsSourceRole(PhaseTemplate(doc, entries), r) && SourceX(PhaseTemplate(doc, entries).x, r) == entries[i].x
  }

  /** Every deployable edge into an app of role r comes from that role. */
  ghost predicate FedByItselfOnly(doc: Doc, r: Role) {
    var byApp := RoleByApp(doc);
    forall e | e in doc.edges && e.src in byApp && e.dst in byApp && byApp[e.dst] == r :: byApp[e.src] == r
  }

  /** Exactly when an entry lands: nothing but its own role feeds its role, and the last entry of that role
      carries the same value. */
  lemma {:induction false} EntryLandsExactlyWhen(doc: Doc, entries: seq<Entry>, i: nat)
    requires i < |entries| && entries[i].app in RoleByApp(doc)
    ensures var r := RoleByApp(doc)[entries[i].app];
            Lands(doc, entries, i) <==>
            && FedByItselfOnly(doc, r)
            && forall j: nat | IsLastFor(entries, RoleByApp(doc), r, j) :: entries[j].x == entries[i].x
  {
    hide RoleByApp, RekeyedEntries, IsSourceRole;
    var r := RoleByApp(doc)[entries[i].app];
    SourceRoleCondition(doc, entries[i].app);
    assert IsSourceRole(PhaseTemplate(doc, entries), r) <==> IsSourceRole(Translate(doc), r) by {
      SameEdgesSameSources(Translate(doc), PhaseTemplate(doc, entries), r);
    }
    var last := LastForIs(entries, RoleByApp(doc), r, i);
    assert forall j: nat | IsLastFor(entries, RoleByApp(doc), r, j) :: j == last by {
      hide Translate;
    }
  }

  lemma SameEdgesSameSources(t: Template, u: Template, r: Role)
    requires t.edges == u.edges
    ensures IsSourceRole(t, r) <==> IsSourceRole(u, r)
  {
  }

  /** What landing is worth: the role runs at exactly the entry's value. */
  lemma {:induction false} LandedInputIsUsed(doc: Doc, entries: seq<Entry>, i: nat)
    requires ReplicasArePositive(doc.deployments)
    requires i < |entries| && entries[i].app in RoleByApp(doc) && Lands(doc, entries, i)
    ensures var t, r := PhaseTemplate(doc, entries), RoleByApp(doc)[entries[i].app];
            WellFormed(t) && (!HasCycle(t) ==> r in ResolvedX(t) && ResolvedX(t)[r] == entries[i].x)
  {
    var t, r := PhaseTemplate(doc, entries), RoleByApp(doc)[entries[i].app];
    TranslationIsWellFormed(doc);
    AppRoleDeclared(doc, entries[i].app);
    hide RoleByApp, Translate, XToRoles, HasCycle;
    if !HasCycle(t) {
      LandsOnSource(t, r, entries[i].x);
    }
  }

  /** When apps and roles correspond one to one, a phase map with distinct source apps as keys loses no input:
      each entry's role is a source and resolves to the entry's value. */
  lemma {:induction false} PhaseInputLands(doc: Doc, entries: seq<Entry>, i: nat)
    requires ReplicasArePositive(doc.deployments) && Injective(RoleByApp(doc))
    requires i < |entries| && entries[i].app in SourceApps(doc)
    requires forall j, k | 0 <= j < k < |entries| :: entries[j].app != entries[k].app
    ensures entries[i].app in RoleByApp(doc) && Lands(doc, entries, i)
    ensures var t, r := PhaseTemplate(doc, entries), RoleByApp(doc)[entries[i].app];
            WellFormed(t) && (!HasCycle(t) ==> r in ResolvedX(t) && ResolvedX(t)[r] == entries[i].x)
  {
    EntryLandsExactlyWhen(doc, entries, i);
    hide RoleByApp, Lands;
    assert Lands(doc, entries, i);
    LandedInputIsUsed(doc, entries, i);
  }

  lemma AppRoleDeclared(doc: Doc, a: AppId)
    requires a in RoleByApp(doc)
    ensures RoleByApp(doc)[a] in Translate(doc).roles
  {
    RolesOfAppsIs(doc.apps, doc.deployments, a);
    RoleOrderIs(doc.deployments, LoadsOfRoles(doc.apps, RoleByApp(doc)));
  }

  lemma LandsOnSource(t: Template, r: Role, x: real)
    requires WellFormed(t) && !HasCycle(t) && IsSourceRole(t, r) && SourceX(t.x, r) == x
    requires r in t.roles
    ensures r in ResolvedX(t) && ResolvedX(t)[r] == x
  {
    assert Resolves(t, ResolvedX(t), r);
  }
}
