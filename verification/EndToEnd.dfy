/** From template to open sockets: no two clients share a server port, and every port a client uses is open. */
module EndToEnd {
  import opened Prelude
  import opened RoleModel
  import opened Propagation
  import opened Order
  import opened Ports
  import opened PeerResolution
  import opened Materialise
  import opened Worker
  import Embedding

  /** No address is listed twice across the whole template, and no pod name; addresses without one may repeat it. */
  ghost predicate PodsAreDistinct(t: Template, eps: Snapshot) {
    forall r, s, i, j | r in t.roles && s in t.roles && 0 <= i < |PodsOf(eps, r)| && 0 <= j < |PodsOf(eps, s)| ::
      SamePod(PodsOf(eps, r)[i], PodsOf(eps, s)[j]) ==> r == s && i == j
  }

  predicate SamePod(p: Pod, q: Pod) {
    p.ip == q.ip || (p.name == q.name && p.name != UNNAMED)
  }

  /** A named, listed pod of role r. */
  ghost predicate IsListed(t: Template, eps: Snapshot, r: Role, p: Pod) {
    r in t.roles && p in PodsOf(eps, r) && p.name != UNNAMED
  }

  lemma {:induction false} NamedClientOf(r: Role, targets: seq<Role>, pods: seq<Pod>, p: Pod)
    requires p in pods && p.name != UNNAMED
    ensures Client(r, p.name, targets) in NamedClients(r, targets, pods)
  {
    var n := |pods| - 1;
    if pods[n] != p {
      assert p in pods[..n];
      NamedClientOf(r, targets, pods[..n], p);
    }
  }

  lemma {:induction false} ClientsOfRole(t: Template, eps: Snapshot, sources: seq<Role>, r: Role, c: Client)
    requires r in sources && c in RoleClients(t, eps, r)
    ensures c in ClientsOf(t, eps, sources)
  {
    hide RoleClients;
    var n := |sources| - 1;
    if sources[n] != r {
      assert r in sources[..n];
      ClientsOfRole(t, eps, sources[..n], r, c);
    }
    assert ClientsOf(t, eps, sources) == ClientsOf(t, eps, sources[..n]) + RoleClients(t, eps, sources[n]);
  }

  /** Every listed pod of a role with targets is coloured. */
  lemma ListedIsClient(t: Template, eps: Snapshot, r: Role, p: Pod)
    requires WellFormed(t) && IsListed(t, eps, r, p) && PeerRoles(t.edges, r) != []
    ensures Client(r, p.name, PeerRoles(t.edges, r)) in AllClients(t, eps)
  {
    hide PeerRoles, SortBy, NamedClients, ClientsOf, Distinct;
    var pods, sources := PodsOf(eps, r), SourceRoles(t, t.order);
    SortSorts(pods, PodName);
    assert p in multiset(SortBy(pods, PodName));
    NamedClientOf(r, PeerRoles(t.edges, r), SortBy(pods, PodName), p);
    assert r in Elements(t.order);
    SourceRolesDeclared(t, t.order);
    SortSorts(sources, Itself);
    assert r in multiset(SortBy(sources, Itself));
    ClientsOfRole(t, eps, SortBy(sources, Itself), r, Client(r, p.name, PeerRoles(t.edges, r)));
  }

  lemma {:induction false} TableEntry(cs: seq<Client>, os: seq<nat>, r: Role, pod: Name) returns (j: nat)
    requires |os| == |cs|
    requires exists i :: 0 <= i < |cs| && cs[i].role == r && cs[i].pod == pod
    ensures j < |cs| && cs[j].role == r && cs[j].pod == pod
    ensures pod in OffsetTable(cs, os, r) && OffsetTable(cs, os, r)[pod] == os[j]
  {
    var n := |cs| - 1;
    if cs[n].role == r && cs[n].pod == pod {
      j := n;
    } else {
      var i :| 0 <= i < |cs| && cs[i].role == r && cs[i].pod == pod;
      assert cs[..n][i] == cs[i];
      j := TableEntry(cs[..n], os[..n], r, pod);
    }
  }

  /** The offset a listed pod finds in its role's configuration is the one the colouring gave it. */
  lemma AssignedOffset(t: Template, eps: Snapshot, r: Role, p: Pod) returns (j: nat)
    requires WellFormed(t) && IsListed(t, eps, r, p) && PeerRoles(t.edges, r) != []
    ensures j < |AllClients(t, eps)| && AllClients(t, eps)[j] == Client(r, p.name, PeerRoles(t.edges, r))
    ensures p.name in OffsetsFor(t, eps, r) && OffsetsFor(t, eps, r)[p.name] == Offsets(AllClients(t, eps))[j]
  {
    ListedIsClient(t, eps, r, p);
    ClientsCarryTargets(t, eps, SortBy(SourceRoles(t, t.order), Itself));
    hide PeerRoles, SortBy, NamedClients, ClientsOf, WellFormed, OffsetTable, Offsets, SourceRoles;
    j := TableEntry(AllClients(t, eps), Offsets(AllClients(t, eps)), r, p.name);
    assert AllClients(t, eps)[j] in AllClients(t, eps);
  }

  /** What a running client tells about its pod's role: it was rewritten, and the address is a pod of a target. */
  lemma {:induction false} LinkTarget(t: Template, eps: Snapshot, r: Role, x: real, pod: Name, l: Link)
    returns (d: Role)
    requires WellFormed(t) && r in t.roles
    requires l in ClientLinks(ConfigAt(t, eps, r, x), pod)
    ensures d in PeerRoles(t.edges, r) && l.ip in Addresses(PodsOf(eps, d))
    ensures Rewritten(t, eps, r)
    ensures pod in OffsetsFor(t, eps, r) ==> l.port == BASE_PORT + OffsetsFor(t, eps, r)[pod]
  {
    hide PeerRoles, WellFormed, OffsetsFor, ServersFor, PeerNames, FaninOf, PeerIps;
    var cfg := ConfigAt(t, eps, r, x);
    assert l.ip in cfg.peers;
    assert l.ip in PeerIps(PeerRoles(t.edges, r), eps);
    d :| d in PeerRoles(t.edges, r) && l.ip in Addresses(PodsOf(eps, d));
  }

  lemma OneRolePerAddress(t: Template, eps: Snapshot, d: Role, e: Role, ip: Name)
    requires PodsAreDistinct(t, eps) && d in t.roles && e in t.roles
    requires ip in Addresses(PodsOf(eps, d)) && ip in Addresses(PodsOf(eps, e))
    ensures d == e
  {
  }

  lemma DistinctPodsDistinctNames(t: Template, eps: Snapshot, r: Role, p: Pod, s: Role, q: Pod)
    requires PodsAreDistinct(t, eps) && IsListed(t, eps, r, p) && IsListed(t, eps, s, q) && p != q
    ensures p.name != q.name
  {
  }

  /** Two different pods never hold a client on the same port of the same address, whatever x each of their
      roles currently runs at. */
  lemma {:induction false} NoPortClash(t: Template, eps: Snapshot, r: Role, x: real, p: Pod, l: Link, s: Role, y: real,
                                       q: Pod, m: Link)
    requires WellFormed(t) && PodsAreDistinct(t, eps)
    requires IsListed(t, eps, r, p) && IsListed(t, eps, s, q) && p != q
    requires l in ClientLinks(ConfigAt(t, eps, r, x), p.name)
    requires m in ClientLinks(ConfigAt(t, eps, s, y), q.name)
    requires l.ip == m.ip
    ensures l.port != m.port
  {
    hide *;
    ListedRole(t, eps, r, p);
    ListedRole(t, eps, s, q);
    var d := LinkTarget(t, eps, r, x, p.name, l);
    var e := LinkTarget(t, eps, s, y, q.name, m);
    SourceTargetsDeclared(t, r);
    SourceTargetsDeclared(t, s);
    OneRolePerAddress(t, eps, d, e, l.ip);
    DistinctPodsDistinctNames(t, eps, r, p, s, q);
    var i := AssignedOffset(t, eps, r, p);
    var j := AssignedOffset(t, eps, s, q);
    OffsetsDiffer(AllClients(t, eps), i, j, d);
  }

  lemma ListedRole(t: Template, eps: Snapshot, r: Role, p: Pod)
    requires IsListed(t, eps, r, p)
    ensures r in t.roles
  {
  }

  lemma FinalIsConfigAt(t: Template, eps: Snapshot, r: Role)
    requires WellFormed(t) && !HasCycle(t) && r in t.roles
    ensures r in ResolvedX(t) && FinalConfig(t, eps, r) == ConfigAt(t, eps, r, ResolvedX(t)[r])
  {
  }

  lemma OffsetsDiffer(cs: seq<Client>, i: nat, j: nat, d: Role)
    requires i < |cs| && j < |cs| && d in cs[i].targets && d in cs[j].targets
    requires cs[i].pod != cs[j].pod
    ensures Offsets(cs)[i] != Offsets(cs)[j]
  {
    hide Offsets;
    assert Share(cs[i].targets, cs[j].targets) && Share(cs[j].targets, cs[i].targets);
    if i < j {
      SharersDiffer(cs, i, j);
    } else {
      SharersDiffer(cs, j, i);
    }
  }

  /** After both phases a target's pods open every port some listed pod was given for it, even when
      the target's own rewrite was skipped. */
  lemma {:induction false} TargetServesOffset(t: Template, eps: Snapshot, pool: nat, x: real, d: Role, k: nat)
    requires WellFormed(t) && d in t.roles
    requires k in UsedBy(AllClients(t, eps), Offsets(AllClients(t, eps)), d)
    ensures CountOf(ConfigAt(t, eps, d, x)) == ServersFor(t, eps, d) > k
    ensures BASE_PORT + k in OpenPorts(ConfigAt(t, eps, d, x), pool)
    ensures OpenPorts(ConfigAt(t, eps, d, x), pool) == PortRange(ServersFor(t, eps, d))
  {
    hide AllClients, Offsets, UsedBy, WellFormed, PeerIps, PeerRoles, PeerNames, OffsetsFor, FaninOf;
    assert ServersFor(t, eps, d) > k;
  }

  /** Every port a client connects to is open on the pod behind the address, whatever x either role runs at. */
  lemma {:induction false} EveryClientIsServed(t: Template, eps: Snapshot, pool: nat, r: Role, x: real, p: Pod,
                                               l: Link) returns (d: Role, q: Pod)
    requires WellFormed(t) && PodsAreDistinct(t, eps)
    requires IsListed(t, eps, r, p)
    requires l in ClientLinks(ConfigAt(t, eps, r, x), p.name)
    ensures Edge(r, d) in t.edges && d in t.roles && q in PodsOf(eps, d) && q.ip == l.ip
    ensures forall y :: l.port in OpenPorts(ConfigAt(t, eps, d, y), pool)
  {
    hide *;
    ListedRole(t, eps, r, p);
    d := LinkTarget(t, eps, r, x, p.name, l);
    SourceTargetsDeclared(t, r);
    PeerRolesAreTargets(t.edges, r);
    var j := AssignedOffset(t, eps, r, p);
    OffsetUsed(AllClients(t, eps), j, d);
    forall y
      ensures l.port in OpenPorts(ConfigAt(t, eps, d, y), pool)
    {
      TargetServesOffset(t, eps, pool, y, d, Offsets(AllClients(t, eps))[j]);
    }
    var pods := PodsOf(eps, d);
    var i :| 0 <= i < |pods| && Addresses(pods)[i] == l.ip;
    q := pods[i];
  }

  // ---- in every state the cluster goes through ----

  ghost predicate RunsAt(t: Template, eps: Snapshot, run: seq<Patch>, r: Role, x: real)
    requires WellFormed(t) && !HasCycle(t) && r in t.roles
  {
    && r in PatchedRun(t, FinalConfigs(t, eps), run)
    && PatchedRun(t, FinalConfigs(t, eps), run)[r] == ConfigAt(t, eps, r, x)
  }

  lemma EveryRoleRunsSomewhere(t: Template, eps: Snapshot, run: seq<Patch>, r: Role) returns (x: real)
    requires WellFormed(t) && !HasCycle(t) && r in t.roles
    ensures RunsAt(t, eps, run, r, x)
  {
    LightEqualsHeavy(t, eps, run, r);
    var seen := SignalSeen(t, r, run);
    x := ResolvedX(WithSignal(t, seen))[r];
    ConfigIgnoresSignal(t, eps, seen, r, x);
    hide HasCycle, WellFormed, ConfigAt, ResolvedX, FinalConfigs, PatchedRun, SignalSeen;
  }

  /** After materialising and any run of x updates, whichever roles each of them reached, no two pods share a
      port of an address and every client's port is open. */
  lemma {:induction false} PortsStaySafe(t: Template, eps: Snapshot, run: seq<Patch>, pool: nat, r: Role, p: Pod,
                                         l: Link, s: Role, q: Pod, m: Link)
    returns (d: Role, host: Pod)
    requires WellFormed(t) && !HasCycle(t) && PodsAreDistinct(t, eps)
    requires IsListed(t, eps, r, p) && IsListed(t, eps, s, q)
    requires var configs := PatchedRun(t, FinalConfigs(t, eps), run);
             r in configs && s in configs && l in ClientLinks(configs[r], p.name) &&
                 m in ClientLinks(configs[s], q.name)
    ensures p != q && l.ip == m.ip ==> l.port != m.port
    ensures var configs := PatchedRun(t, FinalConfigs(t, eps), run);
            Edge(r, d) in t.edges && host in PodsOf(eps, d) && host.ip == l.ip && d in configs &&
                l.port in OpenPorts(configs[d], pool)
  {
    hide *;
    ListedRole(t, eps, r, p);
    ListedRole(t, eps, s, q);
    var x := EveryRoleRunsSomewhere(t, eps, run, r);
    var y := EveryRoleRunsSomewhere(t, eps, run, s);
    RunsAtIs(t, eps, run, r, x);
    RunsAtIs(t, eps, run, s, y);
    if p != q && l.ip == m.ip {
      NoPortClash(t, eps, r, x, p, l, s, y, q, m);
    }
    d, host := EveryClientIsServed(t, eps, pool, r, x, p, l);
    var z := EveryRoleRunsSomewhere(t, eps, run, d);
    RunsAtIs(t, eps, run, d, z);
  }

  lemma RunsAtIs(t: Template, eps: Snapshot, run: seq<Patch>, r: Role, x: real)
    requires WellFormed(t) && !HasCycle(t) && r in t.roles && RunsAt(t, eps, run, r, x)
    ensures r in PatchedRun(t, FinalConfigs(t, eps), run)
    ensures PatchedRun(t, FinalConfigs(t, eps), run)[r] == ConfigAt(t, eps, r, x)
  {
  }

  /** A pod with something to send has a client for exactly the addresses its target roles list. */
  lemma {:induction false} ClientsReachEveryTarget(t: Template, eps: Snapshot, r: Role, pod: Name, ip: Name)
    requires WellFormed(t) && !HasCycle(t) && r in t.roles
    requires Linear(t.roles[r].net, ResolvedX(t)[r]) > 0.0
    ensures (exists l :: l in ClientLinks(FinalConfig(t, eps, r), pod) && l.ip == ip)
            <==> exists d :: Edge(r, d) in t.edges && ip in Addresses(PodsOf(eps, d))
  {
    hide *;
    FinalIsConfigAt(t, eps, r);
    ClientAddresses(t, eps, r, ResolvedX(t)[r], pod, ip);
    PeerRolesAreTargets(t.edges, r);
  }

  lemma ClientAddresses(t: Template, eps: Snapshot, r: Role, x: real, pod: Name, ip: Name)
    requires WellFormed(t) && r in t.roles && Linear(t.roles[r].net, x) > 0.0
    ensures (exists l :: l in ClientLinks(ConfigAt(t, eps, r, x), pod) && l.ip == ip)
            <==> exists d :: d in PeerRoles(t.edges, r) && ip in Addresses(PodsOf(eps, d))
  {
    hide PeerRoles, WellFormed, OffsetsFor, ServersFor, PeerNames, FaninOf, PeerIps, Linear;
    var cfg := ConfigAt(t, eps, r, x);
    assert cfg.peers == PeerIps(PeerRoles(t.edges, r), eps);
    assert cfg.net == t.roles[r].net && cfg.x == x;
    var links := ClientLinks(cfg, pod);
    assert |links| == |cfg.peers| && forall i | 0 <= i < |links| :: links[i].ip == cfg.peers[i];
    hide *;
    if ip in cfg.peers {
      var i :| 0 <= i < |cfg.peers| && cfg.peers[i] == ip;
      assert links[i] in links;
    }
    assert (exists l :: l in links && l.ip == ip) <==> ip in cfg.peers;
  }

  lemma OffsetUsed(cs: seq<Client>, j: nat, d: Role)
    requires j < |cs| && d in cs[j].targets
    ensures Offsets(cs)[j] in UsedBy(cs, Offsets(cs), d)
  {
  }

  /** A pod runs at most one client per address. */
  lemma {:induction false} OneClientPerAddress(t: Template, eps: Snapshot, r: Role, pod: Name, i: nat, j: nat)
    requires WellFormed(t) && !HasCycle(t) && r in t.roles
    requires var links := ClientLinks(FinalConfig(t, eps, r), pod); i < j < |links|
    ensures var links := ClientLinks(FinalConfig(t, eps, r), pod); links[i].ip != links[j].ip
  {
    hide PeerRoles, WellFormed, OffsetsFor, ServersFor, PeerNames, FaninOf, PeerIps, ResolvedX, HasCycle;
    var peers := FinalConfig(t, eps, r).peers;
    assert Distinct(peers);
  }

  /** Offsets survive a relisting: they depend on which pods exist, not on the order Kubernetes lists them. */
  lemma {:induction false} RelistingKeepsOffsets(t: Template, eps: Snapshot, eps': Snapshot)
    requires forall r | r in t.roles :: multiset(PodsOf(eps, r)) == multiset(PodsOf(eps', r))
    requires forall r | r in t.roles :: DistinctKeys(NamedOf(PodsOf(eps, r)), PodName)
    requires WellFormed(t)
    ensures AllClients(t, eps) == AllClients(t, eps')
    ensures forall r ::
            OffsetsFor(t, eps, r) == OffsetsFor(t, eps', r) && ServersFor(t, eps, r) == ServersFor(t, eps', r)
  {
    hide PeerRoles, SortBy, NamedClients, Distinct, ClientsOf, SourceRoles, OffsetTable, Offsets, UsedBy, ServerCount;
    var sources := SortBy(SourceRoles(t, t.order), Itself);
    forall r | r in sources
      ensures r in t.roles
    {
      SortSorts(SourceRoles(t, t.order), Itself);
      assert r in multiset(sources);
      SourceRolesDeclared(t, t.order);
      assert r in Elements(t.order);
    }
    RelistingKeepsClients(t, eps, eps', sources);
  }

  lemma {:induction false} RelistingKeepsClients(t: Template, eps: Snapshot, eps': Snapshot, sources: seq<Role>)
    requires forall r | r in t.roles :: multiset(PodsOf(eps, r)) == multiset(PodsOf(eps', r))
    requires forall r | r in t.roles :: DistinctKeys(NamedOf(PodsOf(eps, r)), PodName)
    requires forall r | r in sources :: r in t.roles
    ensures ClientsOf(t, eps, sources) == ClientsOf(t, eps', sources)
  {
    hide PeerRoles, NamedClients, SortBy, DistinctKeys, NamedOf;
    if sources != [] {
      var n := |sources| - 1;
      var r := sources[n];
      RelistingKeepsClients(t, eps, eps', sources[..n]);
      assert r in sources;
      OnlyNamedCount(r, PeerRoles(t.edges, r), PodsOf(eps, r));
      OnlyNamedCount(r, PeerRoles(t.edges, r), PodsOf(eps', r));
      NamedPermute(PodsOf(eps, r), PodsOf(eps', r));
      SortForgetsOrder(NamedOf(PodsOf(eps, r)), NamedOf(PodsOf(eps', r)), PodName);
    }
  }

  /** Nor do offsets depend on the order in which the template declares its roles. */
  lemma {:induction false} RedeclaringKeepsOffsets(t: Template, order: seq<Role>, eps: Snapshot)
    requires WellFormed(t) && multiset(order) == multiset(t.order)
    ensures AllClients(t.(order := order), eps) == AllClients(t, eps)
  {
    var u := t.(order := order);
    SourcesPermute(t, u, t.order, order);
    SourceRolesDeclared(t, t.order);
    assert DistinctKeys(SourceRoles(t, t.order), Itself);
    SortForgetsOrder(SourceRoles(t, t.order), SourceRoles(u, order), Itself);
    hide SourceRoles, SortBy, DistinctKeys;
    SameClients(t, u, eps, SortBy(SourceRoles(t, t.order), Itself));
  }

  lemma {:induction false} SourceCount(t: Template, order: seq<Role>, r: Role)
    ensures multiset(SourceRoles(t, order))[r] == if PeerRoles(t.edges, r) != [] then multiset(order)[r] else 0
  {
    if order != [] {
      var front, last := order[..|order| - 1], order[|order| - 1];
      assert order == front + [last];
      SourceCount(t, front, r);
    }
  }

  lemma SourcesPermute(t: Template, u: Template, order: seq<Role>, others: seq<Role>)
    requires t.edges == u.edges && multiset(order) == multiset(others)
    ensures multiset(SourceRoles(t, order)) == multiset(SourceRoles(u, others))
  {
    forall r
      ensures multiset(SourceRoles(t, order))[r] == multiset(SourceRoles(u, others))[r]
    {
      SourceCount(t, order, r);
      SourceCount(u, others, r);
    }
  }

  lemma {:induction false} SameClients(t: Template, u: Template, eps: Snapshot, sources: seq<Role>)
    requires t.edges == u.edges
    ensures ClientsOf(t, eps, sources) == ClientsOf(u, eps, sources)
  {
    if sources != [] {
      SameClients(t, u, eps, sources[..|sources| - 1]);
    }
  }

  // ---- addresses without a name ----

  function NamedOf(pods: seq<Pod>): seq<Pod> {
    if pods == [] then []
    else if pods[0].name != UNNAMED then [pods[0]] + NamedOf(pods[1..])
    else NamedOf(pods[1..])
  }

  lemma NamedCons(p: Pod, pods: seq<Pod>)
    ensures NamedOf([p] + pods) == if p.name != UNNAMED then [p] + NamedOf(pods) else NamedOf(pods)
  {
    assert ([p] + pods)[1..] == pods;
  }

  lemma {:induction false} NamedAppend(pods: seq<Pod>, p: Pod)
    ensures NamedOf(pods + [p]) == if p.name != UNNAMED then NamedOf(pods) + [p] else NamedOf(pods)
  {
    if pods == [] {
      assert [p] == [p] + [] && pods + [p] == [p];
      NamedCons(p, []);
    } else {
      assert pods + [p] == [pods[0]] + (pods[1..] + [p]) && pods == [pods[0]] + pods[1..];
      NamedAppend(pods[1..], p);
      NamedCons(pods[0], pods[1..] + [p]);
      NamedCons(pods[0], pods[1..]);
      hide NamedOf;
    }
  }

  lemma NamedClientsAppend(r: Role, targets: seq<Role>, pods: seq<Pod>, p: Pod)
    ensures NamedClients(r, targets, pods + [p]) ==
            if p.name == UNNAMED then NamedClients(r, targets, pods)
            else NamedClients(r, targets, pods) + [Client(r, p.name, targets)]
  {
    assert (pods + [p])[..|pods|] == pods;
  }

  lemma {:induction false} NamedClientsOfNamed(r: Role, targets: seq<Role>, pods: seq<Pod>)
    ensures NamedClients(r, targets, pods) == NamedClients(r, targets, NamedOf(pods))
  {
    if pods != [] {
      var front, p := pods[..|pods| - 1], pods[|pods| - 1];
      NamedClientsOfNamed(r, targets, front);
      assert pods == front + [p];
      NamedAppend(front, p);
      NamedClientsAppend(r, targets, front, p);
      NamedClientsAppend(r, targets, NamedOf(front), p);
      hide NamedClients, NamedOf;
    }
  }

  lemma {:induction false} NamedMembers(pods: seq<Pod>)
    ensures forall p :: p in NamedOf(pods) <==> p in pods && p.name != UNNAMED
  {
    if pods != [] {
      NamedMembers(pods[1..]);
      assert pods == [pods[0]] + pods[1..];
    }
  }

  lemma BeforeLater(a: Name, b: Name, c: Name)
    requires NameBefore(a, b) && !NameBefore(c, b)
    ensures NameBefore(a, c)
  {
    BeforeTotal(b.text, c.text);
    if NameBefore(b, c) {
      BeforeTransitive(a.text, b.text, c.text);
    }
  }

  lemma InsertFirst(x: Pod, s: seq<Pod>)
    requires s == [] || NameBefore(PodName(x), PodName(s[0]))
    ensures Insert(x, s, PodName) == [x] + s
  {
  }

  lemma InsertLater(x: Pod, first: Pod, s: seq<Pod>)
    requires !NameBefore(PodName(x), PodName(first))
    ensures Insert(x, [first] + s, PodName) == [first] + Insert(x, s, PodName)
  {
    assert ([first] + s)[1..] == s;
  }

  lemma {:induction false} NamedInsert(x: Pod, s: seq<Pod>)
    requires Sorted(s, PodName)
    ensures NamedOf(Insert(x, s, PodName)) == if x.name != UNNAMED then Insert(x, NamedOf(s), PodName) else NamedOf(s)
  {
    if s == [] || NameBefore(PodName(x), PodName(s[0])) {
      var named := NamedOf(s);
      if named != [] {
        NamedMembers(s);
        assert named[0] in s;
        var k: nat :| k < |s| && s[k] == named[0];
        AtOrAfterFirst(s, PodName, k);
        BeforeLater(PodName(x), PodName(s[0]), PodName(named[0]));
      }
      InsertFirst(x, s);
      InsertFirst(x, named);
      NamedCons(x, s);
      hide NamedOf, Insert, Sorted, NameBefore;
    } else {
      var first, rest := s[0], s[1..];
      assert s == [first] + rest;
      NamedInsert(x, rest);
      hide NamedOf, Insert, Sorted, NameBefore;
      InsertLater(x, first, rest);
      NamedCons(first, Insert(x, rest, PodName));
      NamedCons(first, rest);
      if first.name != UNNAMED {
        InsertLater(x, first, NamedOf(rest));
      }
    }
  }

  lemma SortAppend(pods: seq<Pod>, p: Pod)
    ensures SortBy(pods + [p], PodName) == Insert(p, SortBy(pods, PodName), PodName)
  {
    assert (pods + [p])[..|pods|] == pods;
  }

  lemma {:induction false} NamedSort(pods: seq<Pod>)
    ensures NamedOf(SortBy(pods, PodName)) == SortBy(NamedOf(pods), PodName)
  {
    if pods != [] {
      var front, p := pods[..|pods| - 1], pods[|pods| - 1];
      NamedSort(front);
      hide *;
      assert pods == front + [p];
      SortSorts(front, PodName);
      SortAppend(front, p);
      NamedInsert(p, SortBy(front, PodName));
      NamedAppend(front, p);
      SortAppend(NamedOf(front), p);
    }
  }

  /** Addresses without a name make no difference to a role's clients. */
  lemma OnlyNamedCount(r: Role, targets: seq<Role>, pods: seq<Pod>)
    ensures NamedClients(r, targets, SortBy(pods, PodName)) == NamedClients(r, targets, SortBy(NamedOf(pods), PodName))
  {
    NamedClientsOfNamed(r, targets, SortBy(pods, PodName));
    NamedSort(pods);
    hide NamedClients, NamedOf, SortBy;
    NamedClientsOfNamed(r, targets, SortBy(NamedOf(pods), PodName));
    NamedSort(NamedOf(pods));
    NamedTwice(pods);
  }

  lemma {:induction false} NamedTwice(pods: seq<Pod>)
    ensures NamedOf(NamedOf(pods)) == NamedOf(pods)
  {
    if pods != [] {
      NamedTwice(pods[1..]);
      NamedCons(pods[0], NamedOf(pods[1..]));
    }
  }

  lemma {:induction false} NamedCounts(pods: seq<Pod>, p: Pod)
    ensures multiset(NamedOf(pods))[p] == if p.name != UNNAMED then multiset(pods)[p] else 0
  {
    if pods != [] {
      NamedCounts(pods[1..], p);
      assert pods == [pods[0]] + pods[1..];
    }
  }

  lemma NamedPermute(pods: seq<Pod>, others: seq<Pod>)
    requires multiset(pods) == multiset(others)
    ensures multiset(NamedOf(pods)) == multiset(NamedOf(others))
  {
    forall p
      ensures multiset(NamedOf(pods))[p] == multiset(NamedOf(others))[p]
    {
      NamedCounts(pods, p);
      NamedCounts(others, p);
    }
  }

  // ---- what the pods run ----

  /** After materialising and any run of x updates, a pod configured from its role's configuration works towards the
      role's own formulas at the x the role resolves to. */
  lemma {:induction false} PodsRunTheTemplate(t: Template, eps: Snapshot, run: seq<Patch>, r: Role)
    requires WellFormed(t) && !HasCycle(t) && r in t.roles
    ensures var t' := WithSignal(t, SignalSeen(t, r, run));
            WellFormed(t') && !HasCycle(t') && r in ResolvedX(t') && r in PatchedRun(t, FinalConfigs(t, eps), run)
    ensures var cfg := PatchedRun(t, FinalConfigs(t, eps), run)[r];
            var x := ResolvedX(WithSignal(t, SignalSeen(t, r, run)))[r];
            && Linear(cfg.cpu, cfg.x) == Linear(t.roles[r].cpu, x)
            && Linear(cfg.ram, cfg.x) == Linear(t.roles[r].ram, x)
            && Linear(cfg.net, cfg.x) == Linear(t.roles[r].net, x)
  {
    ConfigsCarryTheTemplate(t, eps, run, r);
    hide WellFormed, HasCycle, PatchedRun, FinalConfigs, ResolvedX, SignalSeen, Linear;
  }

  /** What propagation says a role sends is what its replicas' clients carry together. */
  lemma {:induction false} RoleEgressIsCarried(t: Template, eps: Snapshot, r: Role, pod: Name)
    requires WellFormed(t) && !HasCycle(t) && r in t.roles
    requires PeerIps(PeerRoles(t.edges, r), eps) != []
    ensures r in ResolvedX(t)
    ensures Times(t.roles[r].count as real, TotalRate(ClientLinks(FinalConfig(t, eps, r), pod))) ==
            RoleEgress(t.roles[r], ResolvedX(t)[r])
  {
    var x := ResolvedX(t)[r];
    ConfigFields(t, eps, r, x);
    hide ConfigAt, WellFormed, HasCycle, ResolvedX, TotalRate, ClientLinks, PeerIps, PeerRoles, Linear;
    EgressIsConserved(FinalConfig(t, eps, r), pod);
    EgressIsTimes(t.roles[r], x);
  }

  /** In a running system every peer of a role is reported under the target role it belongs to. */
  lemma {:induction false} PeersAreNamed(t: Template, eps: Snapshot, r: Role, x: real, d: Role, ip: Name)
    requires WellFormed(t) && PodsAreDistinct(t, eps) && r in t.roles
    requires Edge(r, d) in t.edges && ip in Addresses(PodsOf(eps, d))
    ensures var cfg := ConfigAt(t, eps, r, x); ip in cfg.peers && ip in cfg.peerNames && cfg.peerNames[ip] == d
  {
    PeerRolesAreTargets(t.edges, r);
    SourceTargetsDeclared(t, r);
    var targets := PeerRoles(t.edges, r);
    assert d in targets && ip in PeerIps(targets, eps);
    hide PeerRoles, WellFormed, Addresses, PeerIps, PeerNames, ServersFor, OffsetsFor, FaninOf;
    forall d, e, ip | d in targets && e in targets && ip in Addresses(PodsOf(eps, d)) && ip in Addresses(PodsOf(eps, e))
      ensures d == e
    {
      OneRolePerAddress(t, eps, d, e, ip);
    }
    PeersAreReportedAsThemselves(targets, eps);
  }

  // ---- a deployment the guarantees are about ----

  const LEFT := Name("left")
  const RIGHT := Name("right")
  const SINK := Name("sink")
  const STEADY := RoleSpec(1, Coefficients(0.0, 0.0), Coefficients(0.0, 0.0), Coefficients(0.0, 8.0))

  /** Two senders with a common target. */
  const FORK := Template(Uniform(1.0), [LEFT, RIGHT, SINK], map[LEFT := STEADY, RIGHT := STEADY, SINK := STEADY],
                         [Edge(LEFT, SINK), Edge(RIGHT, SINK)])

  function OnlyPod(r: Role): Pod {
    Pod(Name(r.text + "-0"), Name(r.text + "-ip"))
  }

  const FORK_PODS: Snapshot := map[LEFT := [OnlyPod(LEFT)], RIGHT := [OnlyPod(RIGHT)], SINK := [OnlyPod(SINK)]]

  lemma ForkUpstreams(d: set<Role>, v: Role)
    ensures HasUpstreamIn(FORK, d, v) <==> v == SINK && (LEFT in d || RIGHT in d)
  {
    assert forall u :: Feeds(FORK, u, v) <==> v == SINK && (u == LEFT || u == RIGHT);
  }

  lemma ForkIsAcyclic()
    ensures WellFormed(FORK) && !HasCycle(FORK)
  {
    if HasCycle(FORK) {
      var d := Embedding.CycleIsStuck(FORK);
      var v :| v in d;
      ForkUpstreams(d, v);
      ForkUpstreams(d, LEFT);
      ForkUpstreams(d, RIGHT);
    }
  }

  lemma ForkPods()
    ensures PodsAreDistinct(FORK, FORK_PODS)
    ensures IsListed(FORK, FORK_PODS, LEFT, OnlyPod(LEFT)) && IsListed(FORK, FORK_PODS, RIGHT, OnlyPod(RIGHT))
    ensures OnlyPod(LEFT) != OnlyPod(RIGHT)
    ensures OnlyPod(SINK).ip in Addresses(PodsOf(FORK_PODS, SINK))
  {
    assert OnlyPod(LEFT).name.text[0] == 'l' && OnlyPod(RIGHT).name.text[0] == 'r' && OnlyPod(SINK).name.text[0] == 's';
    assert OnlyPod(LEFT).ip.text[0] == 'l' && OnlyPod(RIGHT).ip.text[0] == 'r' && OnlyPod(SINK).ip.text[0] == 's';
    assert Addresses(PodsOf(FORK_PODS, SINK))[0] == OnlyPod(SINK).ip;
  }

  lemma ForkReachesSink(r: Role)
    requires r in {LEFT, RIGHT}
    ensures WellFormed(FORK) && !HasCycle(FORK) && r in FORK.roles && r in ResolvedX(FORK)
    ensures Linear(FORK.roles[r].net, ResolvedX(FORK)[r]) > 0.0
    ensures Edge(r, SINK) in FORK.edges && SINK in FORK.roles
  {
    ForkIsAcyclic();
    hide HasCycle, ResolvedX;
  }

  lemma ForkClient(r: Role) returns (l: Link)
    requires r in {LEFT, RIGHT}
    ensures WellFormed(FORK) && !HasCycle(FORK) && r in FORK.roles
    ensures l in ClientLinks(FinalConfig(FORK, FORK_PODS, r), OnlyPod(r).name) && l.ip == OnlyPod(SINK).ip
  {
    ForkReachesSink(r);
    ForkPods();
    hide *;
    ClientsReachEveryTarget(FORK, FORK_PODS, r, OnlyPod(r).name, OnlyPod(SINK).ip);
    l :| l in ClientLinks(FinalConfig(FORK, FORK_PODS, r), OnlyPod(r).name) && l.ip == OnlyPod(SINK).ip;
  }

  /** The hypotheses of NoPortClash and EveryClientIsServed can be met: here two pods do reach the same address. */
  lemma {:induction false} ForkClientsMeet() returns (l: Link, m: Link)
    ensures WellFormed(FORK) && !HasCycle(FORK) && PodsAreDistinct(FORK, FORK_PODS)
    ensures LEFT in FORK.roles && RIGHT in FORK.roles
    ensures l in ClientLinks(FinalConfig(FORK, FORK_PODS, LEFT), OnlyPod(LEFT).name)
    ensures m in ClientLinks(FinalConfig(FORK, FORK_PODS, RIGHT), OnlyPod(RIGHT).name)
    ensures l.ip == m.ip && l.port != m.port
  {
    l := ForkClient(LEFT);
    m := ForkClient(RIGHT);
    ForkPods();
    hide *;
    FinalIsConfigAt(FORK, FORK_PODS, LEFT);
    FinalIsConfigAt(FORK, FORK_PODS, RIGHT);
    NoPortClash(FORK, FORK_PODS, LEFT, ResolvedX(FORK)[LEFT], OnlyPod(LEFT), l, RIGHT, ResolvedX(FORK)[RIGHT],
        OnlyPod(RIGHT), m);
  }
}
