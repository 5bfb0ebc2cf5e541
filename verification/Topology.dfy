/** Translating a topology document (deployments, apps, app edges) into the role model. */
module Topology {
  import opened Prelude
  import opened RoleModel

  type AppId = Name

  /** An app's load block with absent axes and coefficients already read as 0. */
  datatype Load = Load(cpu: Coefficients, ram: Coefficients, net: Coefficients)

  datatype Deployment = Deployment(id: Name, name: string, replicas: nat)

  datatype App = App(id: AppId, deployment: Option<Name>, load: Option<Load>)

  datatype AppEdge = AppEdge(src: AppId, dst: AppId)

  /** x as authored: one number, or a map (in order) from source app to number. */
  datatype AppSignal = Everywhere(x: real) | PerApp(entries: seq<Entry>)

  datatype Entry = Entry(app: AppId, x: real)

  datatype Doc = Doc(deployments: seq<Deployment>, apps: seq<App>, edges: seq<AppEdge>, phases: seq<AppSignal>,
      x: AppSignal)

  // ---- names ----

  predicate Allowed(c: char) {
    'a' <= c <= 'z' || '0' <= c <= '9' || c == '-'
  }

  function ToLower(c: char): char {
    if 'A' <= c <= 'Z' then c - 'A' + 'a' else c
  }

  /** Lower-case, each run of other characters one dash. `inRun` says whether a run is being skipped. */
  function Dashed(s: string, inRun: bool): (r: string)
    ensures forall c | c in r :: Allowed(c)
  {
    if s == "" then ""
    else
      var c := ToLower(s[0]);
      if Allowed(c) then [c] + Dashed(s[1..], false)
      else if inRun then Dashed(s[1..], true)
      else "-" + Dashed(s[1..], true)
  }

  lemma {:induction false} DashedKeeps(s: string, inRun: bool)
    ensures (forall c | c in s :: Allowed(c)) ==> Dashed(s, inRun) == s
  {
    if s != "" {
      DashedKeeps(s[1..], false);
      assert s[0] in s && s == [s[0]] + s[1..];
    }
  }

  function StripLeft(s: string): (r: string)
    ensures forall c | c in r :: c in s
    ensures r == "" || r[0] != '-'
    ensures s == "" || s[0] != '-' ==> r == s
  {
    if s != "" && s[0] == '-' then StripLeft(s[1..]) else s
  }

  function StripRight(s: string): (r: string)
    ensures r <= s
    ensures r == "" || r[|r| - 1] != '-'
    ensures s == "" || s[|s| - 1] != '-' ==> r == s
  {
    if s != "" && s[|s| - 1] == '-' then StripRight(s[..|s| - 1]) else s
  }

  /** A resource name: not empty, only lower-case letters, digits and inner dashes. */
  predicate IsResourceName(s: string) {
    s != "" && s[0] != '-' && s[|s| - 1] != '-' && forall c | c in s :: Allowed(c)
  }

  /** Always a resource name, and the name itself if it is one already. */
  function Sanitize(s: string): (r: string)
    ensures IsResourceName(r)
    ensures IsResourceName(s) ==> r == s
  {
    DashedKeeps(s, false);
    var r := StripRight(StripLeft(Dashed(s, false)));
    if r == "" then "topology" else r
  }

  lemma {:induction false} DashedRun(sep: string, rest: string, inRun: bool)
    requires forall c | c in sep :: !Allowed(ToLower(c))
    ensures Dashed(sep + rest, inRun) ==
            if sep == "" then Dashed(rest, inRun) else if inRun then Dashed(rest, true) else "-" + Dashed(rest, true)
  {
    if sep == "" {
      assert sep + rest == rest;
    } else {
      assert sep == [sep[0]] + sep[1..] && (sep + rest)[1..] == sep[1..] + rest;
      DashedRun(sep[1..], rest, true);
    }
  }

  lemma DashedCons(c: char, rest: string, inRun: bool)
    requires Allowed(c)
    ensures Dashed([c] + rest, inRun) == [c] + Dashed(rest, false)
  {
    assert ([c] + rest)[1..] == rest;
  }

  lemma {:induction false} DashedAllowed(a: string, rest: string, inRun: bool)
    requires a != "" && forall c | c in a :: Allowed(c)
    ensures Dashed(a + rest, inRun) == a + Dashed(rest, false)
  {
    var c, tail := a[0], a[1..];
    assert a == [c] + tail && a + rest == [c] + (tail + rest);
    DashedCons(c, tail + rest, inRun);
    hide Dashed, Allowed;
    if tail == "" {
      assert tail + rest == rest;
    } else {
      DashedAllowed(tail, rest, false);
      assert [c] + (tail + Dashed(rest, false)) == a + Dashed(rest, false);
    }
  }

  /** Whatever separates two names, however long, becomes one dash. */
  lemma {:induction false} SanitizeJoins(a: string, sep: string, b: string)
    requires IsResourceName(a) && IsResourceName(b)
    requires sep != "" && forall c | c in sep :: !Allowed(ToLower(c))
    ensures Sanitize(a + sep + b) == a + "-" + b
  {
    assert a + sep + b == a + (sep + b);
    DashedAllowed(a, sep + b, false);
    DashedRun(sep, b, false);
    DashedAllowed(b, "", true);
    assert b + "" == b;
    hide Allowed, Dashed;
    assert a + ("-" + b) == a + "-" + b;
  }

  /** t is s with some capital letters made small. */
  ghost predicate SameButCase(s: string, t: string) {
    |s| == |t| && forall i | 0 <= i < |s| :: s[i] == t[i] || IsCapitalOf(s[i], t[i])
  }

  predicate IsCapitalOf(c: char, d: char) {
    'A' <= c <= 'Z' && 'a' <= d <= 'z' && c as int - 'A' as int == d as int - 'a' as int
  }

  lemma {:induction false} DashedIgnoresCase(s: string, t: string, inRun: bool)
    requires SameButCase(s, t)
    ensures Dashed(s, inRun) == Dashed(t, inRun)
  {
    if s != "" {
      assert SameButCase(s[1..], t[1..]);
      DashedIgnoresCase(s[1..], t[1..], true);
      DashedIgnoresCase(s[1..], t[1..], false);
      assert ToLower(s[0]) == ToLower(t[0]);
    }
  }

  /** Capital letters are read as small ones. */
  lemma {:induction false} SanitizeIgnoresCase(s: string, t: string)
    requires SameButCase(s, t)
    ensures Sanitize(s) == Sanitize(t)
    ensures IsResourceName(t) ==> Sanitize(s) == t
  {
    DashedIgnoresCase(s, t, false);
    hide Dashed, StripLeft, StripRight;
  }

  lemma {:induction false} OnlyDashes(s: string, inRun: bool)
    requires forall c | c in s :: c == '-' || !Allowed(ToLower(c))
    ensures forall c | c in Dashed(s, inRun) :: c == '-'
  {
    if s != "" {
      OnlyDashes(s[1..], true);
      OnlyDashes(s[1..], false);
      assert s[0] in s;
    }
  }

  lemma {:induction false} StripAll(s: string)
    requires forall c | c in s :: c == '-'
    ensures StripLeft(s) == ""
  {
    if s != "" {
      assert s[0] in s && forall c | c in s[1..] :: c in s;
      StripAll(s[1..]);
    }
  }

  /** A name with nothing usable in it gets the stock one. */
  lemma {:induction false} SanitizeFallsBack(s: string)
    requires forall c | c in s :: c == '-' || !Allowed(ToLower(c))
    ensures Sanitize(s) == "topology"
  {
    OnlyDashes(s, false);
    StripAll(Dashed(s, false));
  }

  function RoleOf(d: Deployment): Role {
    Name(Sanitize(d.name))
  }

  // ---- apps to roles ----

  function RoleByDeployment(ds: seq<Deployment>): map<Name, Role> {
    if ds == [] then map[]
    else
      var front, d := RoleByDeployment(ds[..|ds| - 1]), ds[|ds| - 1];
      if d.id.text != "" && d.name != "" then front[d.id := RoleOf(d)] else front
  }

  predicate Deploys(app: App, byDeployment: map<Name, Role>) {
    app.id.text != "" && app.deployment.Some? && app.deployment.value in byDeployment
  }

  function RolesOfApps(apps: seq<App>, byDeployment: map<Name, Role>): map<AppId, Role> {
    if apps == [] then map[]
    else
      var front, app := RolesOfApps(apps[..|apps| - 1], byDeployment), apps[|apps| - 1];
      if Deploys(app, byDeployment) then front[app.id := byDeployment[app.deployment.value]] else front
  }

  function RoleByApp(doc: Doc): map<AppId, Role> {
    RolesOfApps(doc.apps, RoleByDeployment(doc.deployments))
  }

  method ComputeRoleByApp(doc: Doc) returns (roles: map<AppId, Role>)
    ensures roles == RoleByApp(doc)
  {
    var byDeployment: map<Name, Role> := map[];
    for i := 0 to |doc.deployments|
      invariant byDeployment == RoleByDeployment(doc.deployments[..i])
    {
      var d := doc.deployments[i];
      assert doc.deployments[..i + 1][..i] == doc.deployments[..i];
      if d.id.text != "" && d.name != "" {
        byDeployment := byDeployment[d.id := RoleOf(d)];
      }
    }
    assert doc.deployments[..|doc.deployments|] == doc.deployments;
    roles := map[];
    for i := 0 to |doc.apps|
      invariant roles == RolesOfApps(doc.apps[..i], byDeployment)
    {
      var app := doc.apps[i];
      assert doc.apps[..i + 1][..i] == doc.apps[..i];
      if Deploys(app, byDeployment) {
        roles := roles[app.id := byDeployment[app.deployment.value]];
      }
    }
    assert doc.apps[..|doc.apps|] == doc.apps;
  }

  /** Apps that start a graph: they deploy a workload and no app edge points at them. */
  ghost function SourceApps(doc: Doc): set<AppId> {
    set a | a in RoleByApp(doc) && forall e | e in doc.edges :: e.dst != a
  }

  // ---- the translated template ----

  function LoadsOfRoles(apps: seq<App>, byApp: map<AppId, Role>): map<Role, Load> {
    if apps == [] then map[]
    else
      var front, app := LoadsOfRoles(apps[..|apps| - 1], byApp), apps[|apps| - 1];
      if app.id in byApp && app.load.Some? then front[byApp[app.id] := app.load.value] else front
  }

  const ZERO := Coefficients(0.0, 0.0)

  function SpecFrom(replicas: nat, load: Option<Load>): RoleSpec {
    match load
    case Some(l) => RoleSpec(replicas, l.cpu, l.ram, l.net)
    case None => RoleSpec(replicas, ZERO, ZERO, ZERO)
  }

  /** A later deployment with the same role name replaces the earlier definition. */
  function RoleSpecs(ds: seq<Deployment>, loads: map<Role, Load>): map<Role, RoleSpec> {
    if ds == [] then map[]
    else
      var d := ds[|ds| - 1];
      RoleSpecs(ds[..|ds| - 1], loads)[RoleOf(d) := SpecFrom(d.replicas, Find(loads, RoleOf(d)))]
  }

  function RoleOrder(ds: seq<Deployment>): seq<Role> {
    if ds == [] then []
    else
      var front, r := RoleOrder(ds[..|ds| - 1]), RoleOf(ds[|ds| - 1]);
      if r in front then front else front + [r]
  }

  /** App edges become role edges; an edge with an endpoint that deploys nothing is skipped. */
  function RoleEdges(edges: seq<AppEdge>, byApp: map<AppId, Role>): seq<Edge> {
    if edges == [] then []
    else
      var front, e := RoleEdges(edges[..|edges| - 1], byApp), edges[|edges| - 1];
      if e.src in byApp && e.dst in byApp then front + [Edge(byApp[e.src], byApp[e.dst])] else front
  }

  function RekeyedEntries(entries: seq<Entry>, byApp: map<AppId, Role>): map<Role, real> {
    if entries == [] then map[]
    else
      var front, e := RekeyedEntries(entries[..|entries| - 1], byApp), entries[|entries| - 1];
      if e.app in byApp then front[byApp[e.app] := e.x] else front
  }

  function XToRoles(x: AppSignal, byApp: map<AppId, Role>): Signal {
    match x
    case Everywhere(v) => Uniform(v)
    case PerApp(entries) => PerRole(RekeyedEntries(entries, byApp))
  }

  function InitialX(doc: Doc): AppSignal {
    if doc.phases != [] then doc.phases[0] else doc.x
  }

  function Translate(doc: Doc): Template {
    var byApp := RoleByApp(doc);
    Template(XToRoles(InitialX(doc), byApp),
             RoleOrder(doc.deployments),
             RoleSpecs(doc.deployments, LoadsOfRoles(doc.apps, byApp)),
             RoleEdges(doc.edges, byApp))
  }

  method TranslateTopology(doc: Doc) returns (t: Template)
    ensures t == Translate(doc)
  {
    var byApp := ComputeRoleByApp(doc);
    var loads := CollectLoads(doc.apps, byApp);
    var order, roles := CollectRoles(doc.deployments, loads);
    var edges := TranslateEdges(doc.edges, byApp);
    var x := RekeySignal(InitialX(doc), byApp);
    t := Template(x, order, roles, edges);
  }

  method CollectRoles(ds: seq<Deployment>, loads: map<Role, Load>)
    returns (order: seq<Role>, roles: map<Role, RoleSpec>)
    ensures order == RoleOrder(ds) && roles == RoleSpecs(ds, loads)
  {
    order, roles := [], map[];
    for i := 0 to |ds|
      invariant order == RoleOrder(ds[..i]) && roles == RoleSpecs(ds[..i], loads)
    {
      hide RoleOf, SpecFrom, Find;
      var d := ds[i];
      assert ds[..i + 1][..i] == ds[..i];
      if RoleOf(d) !in order {
        order := order + [RoleOf(d)];
      }
      roles := roles[RoleOf(d) := SpecFrom(d.replicas, Find(loads, RoleOf(d)))];
    }
    assert ds[..|ds|] == ds;
  }

  method CollectLoads(apps: seq<App>, byApp: map<AppId, Role>) returns (loads: map<Role, Load>)
    ensures loads == LoadsOfRoles(apps, byApp)
  {
    loads := map[];
    for i := 0 to |apps|
      invariant loads == LoadsOfRoles(apps[..i], byApp)
    {
      assert apps[..i + 1][..i] == apps[..i];
      if apps[i].id in byApp && apps[i].load.Some? {
        loads := loads[byApp[apps[i].id] := apps[i].load.value];
      }
    }
    assert apps[..|apps|] == apps;
  }

  method TranslateEdges(appEdges: seq<AppEdge>, byApp: map<AppId, Role>) returns (edges: seq<Edge>)
    ensures edges == RoleEdges(appEdges, byApp)
  {
    edges := [];
    for i := 0 to |appEdges|
      invariant edges == RoleEdges(appEdges[..i], byApp)
    {
      var e := appEdges[i];
      assert appEdges[..i + 1][..i] == appEdges[..i];
      if e.src in byApp && e.dst in byApp {
        edges := edges + [Edge(byApp[e.src], byApp[e.dst])];
      }
    }
    assert appEdges[..|appEdges|] == appEdges;
  }

  method RekeySignal(x: AppSignal, byApp: map<AppId, Role>) returns (s: Signal)
    ensures s == XToRoles(x, byApp)
  {
    match x
    case Everywhere(v) => s := Uniform(v);
    case PerApp(entries) =>
      var xs: map<Role, real> := map[];
      for i := 0 to |entries|
        invariant xs == RekeyedEntries(entries[..i], byApp)
      {
        assert entries[..i + 1][..i] == entries[..i];
        if entries[i].app in byApp {
          xs := xs[byApp[entries[i].app] := entries[i].x];
        }
      }
      assert entries[..|entries|] == entries;
      s := PerRole(xs);
  }

  // ---- propagation read directly off the app graph ----

  /** The last deployment listed under an id, which is the one an app refers to. */
  function DeploymentWithId(ds: seq<Deployment>, id: Name): Option<Deployment> {
    if ds == [] then None
    else
      var d := ds[|ds| - 1];
      if d.id == id && d.id.text != "" && d.name != "" then Some(d) else DeploymentWithId(ds[..|ds| - 1], id)
  }

  function DeploymentOfApp(apps: seq<App>, ds: seq<Deployment>, a: AppId): Option<Deployment> {
    if apps == [] then None
    else
      var app := apps[|apps| - 1];
      if app.id == a && a.text != "" && app.deployment.Some? && DeploymentWithId(ds, app.deployment.value).Some?
      then DeploymentWithId(ds, app.deployment.value)
      else DeploymentOfApp(apps[..|apps| - 1], ds, a)
  }

  function LoadOfApp(apps: seq<App>, a: AppId): Option<Load> {
    if apps == [] then None
    else if apps[|apps| - 1].id == a && apps[|apps| - 1].load.Some? then apps[|apps| - 1].load
    else LoadOfApp(apps[..|apps| - 1], a)
  }

  /** Apps that deploy something, in order of first mention. */
  function AppOrder(apps: seq<App>, ds: seq<Deployment>): seq<AppId> {
    if apps == [] then []
    else
      var front, app := AppOrder(apps[..|apps| - 1], ds), apps[|apps| - 1];
      if app.id.text != "" && app.deployment.Some? && DeploymentWithId(ds, app.deployment.value).Some? &&
          app.id !in front
      then front + [app.id] else front
  }

  function AppEdgesAsEdges(edges: seq<AppEdge>, nodes: seq<AppId>): seq<Edge> {
    if edges == [] then []
    else
      var front, e := AppEdgesAsEdges(edges[..|edges| - 1], nodes), edges[|edges| - 1];
      if e.src in nodes && e.dst in nodes then front + [Edge(e.src, e.dst)] else front
  }

  function EntriesByApp(entries: seq<Entry>): map<AppId, real> {
    if entries == [] then map[]
    else EntriesByApp(entries[..|entries| - 1])[entries[|entries| - 1].app := entries[|entries| - 1].x]
  }

  function AppX(x: AppSignal): Signal {
    match x
    case Everywhere(v) => Uniform(v)
    case PerApp(entries) => PerRole(EntriesByApp(entries))
  }

  function AppSpec(doc: Doc, a: AppId): RoleSpec {
    var d, l := DeploymentOfApp(doc.apps, doc.deployments, a), LoadOfApp(doc.apps, a);
    var nothing := Coefficients(0.0, 0.0);
    RoleSpec(if d.Some? then d.value.replicas else 0,
             if l.Some? then l.value.cpu else nothing,
             if l.Some? then l.value.ram else nothing,
             if l.Some? then l.value.net else nothing)
  }

  /** The document read as a propagation problem whose nodes are the apps themselves. */
  ghost function AppGraph(doc: Doc): Template {
    var order := AppOrder(doc.apps, doc.deployments);
    Template(AppX(InitialX(doc)), order, map a | a in order :: AppSpec(doc, a), AppEdgesAsEdges(doc.edges, order))
  }
}
