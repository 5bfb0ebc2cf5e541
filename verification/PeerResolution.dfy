/** Expanding a template's edges into pod addresses, port offsets and server counts. */
module PeerResolution {
  import opened Prelude
  import opened RoleModel
  import opened Order
  import opened Ports

  /** One Endpoints address; an address without a target reference has the empty name. */
  datatype Pod = Pod(name: Name, ip: Name)

  const UNNAMED := Name("")

  /** The Endpoints listing of every role's Service. */
  type Snapshot = map<Role, seq<Pod>>

  function PodName(p: Pod): Name { p.name }

  function Itself(r: Role): Name { r }

  // ---- intended peers ----

  /** The target roles of `src`, in the order their first edge was declared. */
  function PeerRoles(edges: seq<Edge>, src: Role): seq<Role> {
    if edges == [] then []
    else
      var targets, e := PeerRoles(edges[..|edges| - 1], src), edges[|edges| - 1];
      if e.src == src && e.dst !in targets then targets + [e.dst] else targets
  }

  /** Each target is listed once, however often its edge is declared. */
  lemma {:induction false} PeerRolesAreTargets(edges: seq<Edge>, src: Role)
    ensures Distinct(PeerRoles(edges, src))
    ensures forall d :: d in PeerRoles(edges, src) <==> Edge(src, d) in edges
  {
    if edges != [] {
      var front, e := edges[..|edges| - 1], edges[|edges| - 1];
      PeerRolesAreTargets(front, src);
      assert edges == front + [e];
    }
  }

  /** Targets are listed in the order of their first edges: more edges only add targets at the end. */
  lemma {:induction false} PeerRolesGrow(edges: seq<Edge>, n: nat, src: Role)
    requires n <= |edges|
    ensures PeerRoles(edges[..n], src) <= PeerRoles(edges, src)
    decreases |edges|
  {
    if n == |edges| {
      assert edges[..n] == edges;
    } else {
      PeerRolesGrow(edges[..|edges| - 1], n, src);
      assert edges[..|edges| - 1][..n] == edges[..n];
    }
  }

  lemma PeerRolesNext(edges: seq<Edge>, i: nat, r: Role)
    requires i < |edges|
    ensures PeerRoles(edges[..i + 1], r) ==
            var targets, e := PeerRoles(edges[..i], r), edges[i];
            if e.src == r && e.dst !in targets then targets + [e.dst] else targets
  {
    assert edges[..i + 1][..i] == edges[..i];
  }

  ghost predicate PeerTable(t: Template, edges: seq<Edge>, peers: map<Role, seq<Role>>) {
    && peers.Keys == t.roles.Keys
    && forall r {:trigger peers[r]} | r in t.roles :: peers[r] == PeerRoles(edges, r)
  }

  lemma PeerTableNext(t: Template, i: nat, peers: map<Role, seq<Role>>)
    requires WellFormed(t) && i < |t.edges| && PeerTable(t, t.edges[..i], peers)
    ensures t.edges[i].src in peers
    ensures var e := t.edges[i];
            PeerTable(t, t.edges[..i + 1], if e.dst in peers[e.src] then peers
                else peers[e.src := peers[e.src] + [e.dst]])
  {
    hide PeerRoles, Distinct, Elements;
    assert t.edges[i] in t.edges;
    forall r | r in t.roles
      ensures PeerRoles(t.edges[..i + 1], r) ==
              var targets, e := PeerRoles(t.edges[..i], r), t.edges[i];
              if e.src == r && e.dst !in targets then targets + [e.dst] else targets
    {
      PeerRolesNext(t.edges, i, r);
    }
  }

  /** Intended peers, collected edge by edge. */
  method ComputePeers(t: Template) returns (peers: map<Role, seq<Role>>)
    requires WellFormed(t)
    ensures PeerTable(t, t.edges, peers)
  {
    peers := map r | r in t.roles :: [];
    assert PeerTable(t, t.edges[..0], peers);
    hide *;
    for i := 0 to |t.edges|
      invariant PeerTable(t, t.edges[..i], peers)
    {
      var e := t.edges[i];
      PeerTableNext(t, i, peers);
      if e.dst !in peers[e.src] {
        peers := peers[e.src := peers[e.src] + [e.dst]];
      }
    }
    assert t.edges[..|t.edges|] == t.edges;
  }

  // ---- addresses ----

  function AppendNew<T(==, !new)>(s: seq<T>, more: seq<T>): (r: seq<T>)
    ensures Distinct(s) ==> Distinct(r)
    ensures forall x :: x in r <==> x in s || x in more
    ensures s <= r
    decreases |more|
  {
    if more == [] then s
    else
      assert more == [more[0]] + more[1..];
      AppendNew(if more[0] in s then s else s + [more[0]], more[1..])
  }

  function Addresses(pods: seq<Pod>): (ips: seq<Name>)
    ensures |ips| == |pods| && forall i | 0 <= i < |pods| :: ips[i] == pods[i].ip
  {
    seq(|pods|, i requires 0 <= i < |pods| => pods[i].ip)
  }

  function PodsOf(eps: Snapshot, r: Role): seq<Pod> {
    if r in eps then eps[r] else []
  }

  /** Every address of every target role, each once, in order of first appearance. */
  function PeerIps(targets: seq<Role>, eps: Snapshot): (ips: seq<Name>)
    ensures Distinct(ips)
    ensures forall ip :: ip in ips <==> exists d :: d in targets && ip in Addresses(PodsOf(eps, d))
  {
    if targets == [] then []
    else
      var front, d := targets[..|targets| - 1], targets[|targets| - 1];
      assert targets == front + [d];
      AppendNew(PeerIps(front, eps), Addresses(PodsOf(eps, d)))
  }

  function Label(names: map<Name, Role>, ips: seq<Name>, d: Role): (r: map<Name, Role>)
    ensures r.Keys == names.Keys + Elements(ips)
    ensures forall ip :: ip in r ==> r[ip] == if ip in ips then d else names[ip]
  {
    if ips == [] then names
    else
      assert ips == ips[..|ips| - 1] + [ips[|ips| - 1]];
      Label(names, ips[..|ips| - 1], d)[ips[|ips| - 1] := d]
  }

  /** The role each peer address is reported under; the last target listing an address wins. */
  function PeerNames(targets: seq<Role>, eps: Snapshot): map<Name, Role> {
    if targets == [] then map[]
    else Label(PeerNames(targets[..|targets| - 1], eps), Addresses(PodsOf(eps, targets[|targets| - 1])),
        targets[|targets| - 1])
  }

  /** Addresses are listed target by target. */
  lemma {:induction false} AddressesGrow(targets: seq<Role>, eps: Snapshot, n: nat)
    requires n <= |targets|
    ensures PeerIps(targets[..n], eps) <= PeerIps(targets, eps)
    decreases |targets|
  {
    if n == |targets| {
      assert targets[..n] == targets;
    } else {
      AddressesGrow(targets[..|targets| - 1], eps, n);
      assert targets[..|targets| - 1][..n] == targets[..n];
    }
  }

  /** No address is listed for two of the targets. */
  ghost predicate TargetsAreApart(targets: seq<Role>, eps: Snapshot) {
    forall d, e, ip | d in targets && e in targets && ip in Addresses(PodsOf(eps, d)) &&
        ip in Addresses(PodsOf(eps, e)) ::
      d == e
  }

  /** Every peer address is reported under the one target role that lists it. */
  lemma {:induction false} PeersAreReportedAsThemselves(targets: seq<Role>, eps: Snapshot)
    requires TargetsAreApart(targets, eps)
    ensures PeerNames(targets, eps).Keys == Elements(PeerIps(targets, eps))
    ensures forall ip, d | d in targets && ip in Addresses(PodsOf(eps, d)) ::
              ip in PeerNames(targets, eps) && PeerNames(targets, eps)[ip] == d
  {
    if targets != [] {
      var front, last := targets[..|targets| - 1], targets[|targets| - 1];
      assert targets == front + [last];
      PeersAreReportedAsThemselves(front, eps);
      var ips, names := Addresses(PodsOf(eps, last)), PeerNames(front, eps);
      var all := Label(names, ips, last);
      assert PeerNames(targets, eps) == all;
      assert Elements(PeerIps(targets, eps)) == Elements(PeerIps(front, eps)) + Elements(ips);
      hide PeerNames, PeerIps, Label, Addresses;
      forall ip, d | d in targets && ip in Addresses(PodsOf(eps, d))
        ensures ip in all && all[ip] == d
      {
        if ip in ips {
          assert d == last;
        } else {
          assert d in front;
        }
      }
    }
  }

  // ---- clients in processing order ----

  function NamedClients(r: Role, targets: seq<Role>, pods: seq<Pod>): seq<Client> {
    if pods == [] then []
    else
      var front, p := NamedClients(r, targets, pods[..|pods| - 1]), pods[|pods| - 1];
      if p.name == UNNAMED then front else front + [Client(r, p.name, targets)]
  }

  /** A role's clients are its named pods and nothing else. */
  lemma {:induction false} ClientsAreNamedPods(r: Role, targets: seq<Role>, pods: seq<Pod>, c: Client)
    ensures c in NamedClients(r, targets, pods) <==>
            c.role == r && c.targets == targets && c.pod != UNNAMED && exists p :: p in pods && p.name == c.pod
  {
    if pods != [] {
      var front, p := pods[..|pods| - 1], pods[|pods| - 1];
      assert pods == front + [p];
      ClientsAreNamedPods(r, targets, front, c);
    }
  }

  function RoleClients(t: Template, eps: Snapshot, r: Role): seq<Client> {
    NamedClients(r, PeerRoles(t.edges, r), SortBy(PodsOf(eps, r), PodName))
  }

  function ClientsOf(t: Template, eps: Snapshot, sources: seq<Role>): seq<Client> {
    if sources == [] then []
    else ClientsOf(t, eps, sources[..|sources| - 1]) + RoleClients(t, eps, sources[|sources| - 1])
  }

  lemma {:induction false} ClientsCarryTargets(t: Template, eps: Snapshot, sources: seq<Role>)
    ensures forall c | c in ClientsOf(t, eps, sources) :: c.targets == PeerRoles(t.edges, c.role)
  {
    hide PeerRoles;
    if sources != [] {
      var n := |sources| - 1;
      ClientsCarryTargets(t, eps, sources[..n]);
      RoleClientsCarryTargets(sources[n], PeerRoles(t.edges, sources[n]), SortBy(PodsOf(eps, sources[n]), PodName));
    }
  }

  lemma {:induction false} RoleClientsCarryTargets(r: Role, targets: seq<Role>, pods: seq<Pod>)
    ensures forall c | c in NamedClients(r, targets, pods) :: c.role == r && c.targets == targets
  {
    if pods != [] {
      RoleClientsCarryTargets(r, targets, pods[..|pods| - 1]);
    }
  }

  /** Roles with outbound edges, in declaration order. */
  function SourceRoles(t: Template, order: seq<Role>): seq<Role> {
    if order == [] then []
    else
      var front, r := SourceRoles(t, order[..|order| - 1]), order[|order| - 1];
      if PeerRoles(t.edges, r) == [] then front else front + [r]
  }

  /** All named source pods: roles in name order, pods in name order. */
  function AllClients(t: Template, eps: Snapshot): seq<Client> {
    ClientsOf(t, eps, SortBy(SourceRoles(t, t.order), Itself))
  }

  /** The offsets written into a role's configuration, keyed by pod name. */
  ghost function OffsetTable(cs: seq<Client>, os: seq<nat>, r: Role): map<Name, nat>
    requires |os| == |cs|
  {
    if cs == [] then map[]
    else
      var n := |cs| - 1;
      var front := OffsetTable(cs[..n], os[..n], r);
      if cs[n].role == r then front[cs[n].pod := os[n]] else front
  }

  // ---- the colouring loop ----

  predicate AnyUses(targets: seq<Role>, used: map<Role, set<nat>>, k: nat)
    requires forall d | d in targets :: d in used
  {
    exists d | d in targets :: k in used[d]
  }

  ghost predicate Tracks(t: Template, cs: seq<Client>, used: map<Role, set<nat>>, table: map<Role, map<Name, nat>>) {
    && used.Keys == table.Keys == t.roles.Keys
    && (forall d {:trigger used[d]} | d in t.roles :: used[d] == UsedBy(cs, Offsets(cs), d))
    && (forall r {:trigger table[r]} | r in t.roles :: table[r] == OffsetTable(cs, Offsets(cs), r))
  }

  /** Linear search for the least offset free on every target. It stops because each offset it passes
      is one of finitely many already claimed. */
  method FirstFree(targets: seq<Role>, used: map<Role, set<nat>>) returns (k: nat)
    requires forall d | d in targets :: d in used
    ensures !AnyUses(targets, used, k)
    ensures forall j: nat | j < k :: AnyUses(targets, used, j)
  {
    ghost var claimed := set d, j | d in targets && j in used[d] :: j;
    k := 0;
    while AnyUses(targets, used, k)
      invariant forall j: nat | j < k :: AnyUses(targets, used, j)
      decreases |claimed| - k
    {
      k := k + 1;
      forall j: nat | j < k
        ensures j in claimed
      {
        assert AnyUses(targets, used, j);
        var d :| d in targets && j in used[d];
      }
      InitialSegmentSize(claimed, k);
    }
  }

  lemma {:induction false} FirstFreeUnique(s: set<nat>, from: nat, k: nat)
    requires IsFirstFree(k, s) && from <= k
    ensures FirstFreeFrom(s, from) == k
    decreases k - from
  {
    if from < k {
      FirstFreeUnique(s, from + 1, k);
    }
  }

  lemma UsesAreTaken(t: Template, cs: seq<Client>, used: map<Role, set<nat>>, table: map<Role, map<Name, nat>>,
                     targets: seq<Role>, k: nat)
    requires Tracks(t, cs, used, table) && forall d | d in targets :: d in t.roles
    ensures AnyUses(targets, used, k) <==> k in Taken(cs, Offsets(cs), targets)
  {
    hide Offsets, OffsetTable;
    if AnyUses(targets, used, k) {
      var d :| d in targets && k in used[d];
      var j :| 0 <= j < |cs| && d in cs[j].targets && Offsets(cs)[j] == k;
      assert Share(cs[j].targets, targets);
    }
    if k in Taken(cs, Offsets(cs), targets) {
      var j :| 0 <= j < |cs| && Share(cs[j].targets, targets) && Offsets(cs)[j] == k;
      var d :| d in cs[j].targets && d in targets;
      assert k in UsedBy(cs, Offsets(cs), d);
    }
  }

  lemma OffsetsAppend(cs: seq<Client>, c: Client, k: nat)
    requires IsFirstFree(k, Taken(cs, Offsets(cs), c.targets))
    ensures Offsets(cs + [c]) == Offsets(cs) + [k]
  {
    var all := cs + [c];
    assert all[..|all| - 1] == cs;
    FirstFreeUnique(Taken(cs, Offsets(cs), c.targets), 0, k);
  }

  lemma UsedByAppend(cs: seq<Client>, os: seq<nat>, c: Client, k: nat, d: Role)
    requires |os| == |cs|
    ensures UsedBy(cs + [c], os + [k], d) == if d in c.targets then UsedBy(cs, os, d) + {k} else UsedBy(cs, os, d)
  {
    var all, ks := cs + [c], os + [k];
    assert all[|cs|] == c && ks[|cs|] == k;
    forall j | 0 <= j < |cs|
      ensures all[j] == cs[j] && ks[j] == os[j]
    {
    }
    if d in c.targets {
      assert ks[|cs|] in UsedBy(all, ks, d);
    }
  }

  lemma OffsetTableAppend(cs: seq<Client>, os: seq<nat>, c: Client, k: nat, r: Role)
    requires |os| == |cs|
    ensures OffsetTable(cs + [c], os + [k], r) == if c.role == r then OffsetTable(cs, os, r)[c.pod := k]
            else OffsetTable(cs, os, r)
  {
    var all, ks := cs + [c], os + [k];
    assert all[..|cs|] == cs && ks[..|cs|] == os;
  }

  ghost function Claimed(used: map<Role, set<nat>>, targets: seq<Role>, k: nat): map<Role, set<nat>> {
    map d | d in used :: if d in targets then used[d] + {k} else used[d]
  }

  /** One more pod coloured. */
  lemma TracksNext(t: Template, cs: seq<Client>, c: Client, k: nat, used: map<Role, set<nat>>,
                   table: map<Role, map<Name, nat>>)
    requires Tracks(t, cs, used, table) && c.role in t.roles && forall d | d in c.targets :: d in t.roles
    requires !AnyUses(c.targets, used, k) && forall j: nat | j < k :: AnyUses(c.targets, used, j)
    ensures c.role in table
    ensures var row: map<Name, nat> := table[c.role][c.pod := k];
            Tracks(t, cs + [c], Claimed(used, c.targets, k), table[c.role := row])
  {
    hide Offsets, OffsetTable, AnyUses, Taken, UsedBy;
    UsesAreTaken(t, cs, used, table, c.targets, k);
    forall j: nat | j < k
      ensures j in Taken(cs, Offsets(cs), c.targets)
    {
      UsesAreTaken(t, cs, used, table, c.targets, j);
    }
    OffsetsAppend(cs, c, k);
    forall d | d in t.roles
      ensures UsedBy(cs + [c], Offsets(cs) + [k], d) == if d in c.targets then UsedBy(cs, Offsets(cs), d) + {k}
              else UsedBy(cs, Offsets(cs), d)
      ensures OffsetTable(cs + [c], Offsets(cs) + [k], d) ==
              if c.role == d then OffsetTable(cs, Offsets(cs), d)[c.pod := k] else OffsetTable(cs, Offsets(cs), d)
    {
      UsedByAppend(cs, Offsets(cs), c, k, d);
      OffsetTableAppend(cs, Offsets(cs), c, k, d);
    }
  }

  method Claim(used0: map<Role, set<nat>>, targets: seq<Role>, k: nat) returns (used: map<Role, set<nat>>)
    requires forall d | d in targets :: d in used0
    ensures used == Claimed(used0, targets, k)
  {
    used := used0;
    for i := 0 to |targets|
      invariant used == Claimed(used0, targets[..i], k)
    {
      used := used[targets[i] := used[targets[i]] + {k}];
    }
    assert targets[..|targets|] == targets;
  }

  lemma TracksRoles(t: Template, cs: seq<Client>, used: map<Role, set<nat>>, table: map<Role, map<Name, nat>>)
    requires Tracks(t, cs, used, table)
    ensures used.Keys == table.Keys == t.roles.Keys
  {
  }

  lemma NoNamedClients(r: Role, targets: seq<Role>, pods: seq<Pod>)
    ensures NamedClients(r, targets, pods[..0]) == []
  {
  }

  lemma NamedClientsNext(r: Role, targets: seq<Role>, pods: seq<Pod>, i: nat)
    requires i < |pods|
    ensures NamedClients(r, targets, pods[..i + 1]) ==
            var front := NamedClients(r, targets, pods[..i]);
            if pods[i].name == UNNAMED then front else front + [Client(r, pods[i].name, targets)]
  {
    assert pods[..i + 1][..i] == pods[..i];
  }

  /** The inner loop of the colouring: the named pods of one source role, in name order. */
  method ColourRole(t: Template, r: Role, targets: seq<Role>, pods: seq<Pod>, ghost before: seq<Client>,
                    used0: map<Role, set<nat>>, table0: map<Role, map<Name, nat>>)
    returns (used: map<Role, set<nat>>, table: map<Role, map<Name, nat>>)
    requires r in t.roles && forall d | d in targets :: d in t.roles
    requires Tracks(t, before, used0, table0)
    ensures Tracks(t, before + NamedClients(r, targets, pods), used, table)
  {
    hide *;
    TracksRoles(t, before, used0, table0);
    used, table := used0, table0;
    NoNamedClients(r, targets, pods);
    assert before + [] == before;
    for i := 0 to |pods|
      invariant used.Keys == table.Keys == t.roles.Keys
      invariant Tracks(t, before + NamedClients(r, targets, pods[..i]), used, table)
    {
      ghost var cs := before + NamedClients(r, targets, pods[..i]);
      NamedClientsNext(r, targets, pods, i);
      if pods[i].name != UNNAMED {
        var offset := FirstFree(targets, used);
        ghost var c := Client(r, pods[i].name, targets);
        TracksNext(t, cs, c, offset, used, table);
        TracksRoles(t, cs, used, table);
        assert cs + [c] == before + NamedClients(r, targets, pods[..i + 1]);
        var row: map<Name, nat> := table[r][pods[i].name := offset];
        table := table[r := row];
        used := Claim(used, targets, offset);
        TracksRoles(t, cs + [c], used, table);
      }
    }
    assert pods[..|pods|] == pods;
  }

  method MaxPlusOne(used: set<nat>) returns (n: nat)
    ensures IsServerCount(n, used)
  {
    n := 0;
    var rest := used;
    while rest != {}
      invariant rest <= used && IsServerCount(n, used - rest)
      decreases rest
    {
      var k :| k in rest;
      ghost var seen := used - rest;
      rest := rest - {k};
      assert used - rest == seen + {k};
      if k + 1 > n {
        n := k + 1;
      }
    }
    assert used - rest == used;
  }

  // ---- the whole resolution ----

  /** The inner loop of address collection: one target's pods. */
  method CollectFrom(found: seq<Name>, d: Role, ips0: seq<Name>, names0: map<Name, Role>)
    returns (ips: seq<Name>, names: map<Name, Role>)
    ensures ips == AppendNew(ips0, found)
    ensures names == Label(names0, found, d)
  {
    ips, names := ips0, names0;
    hide AppendNew, Label;
    assert found[0..] == found;
    LabelNothing(names0, found[..0], d);
    for j := 0 to |found|
      invariant AppendNew(ips, found[j..]) == AppendNew(ips0, found)
      invariant names == Label(names0, found[..j], d)
    {
      AppendNext(ips, found, j);
      LabelNext(names0, found, j, d);
      if found[j] !in ips {
        ips := ips + [found[j]];
      }
      names := names[found[j] := d];
    }
    AppendNothing(ips, found[|found|..]);
    assert found[..|found|] == found;
  }

  lemma AppendNothing<T(!new)>(s: seq<T>, none: seq<T>)
    requires none == []
    ensures AppendNew(s, none) == s
  {
  }

  lemma AppendNext<T(!new)>(s: seq<T>, more: seq<T>, j: nat)
    requires j < |more|
    ensures AppendNew(s, more[j..]) == AppendNew(if more[j] in s then s else s + [more[j]], more[j + 1..])
  {
    assert more[j..][1..] == more[j + 1..] && more[j..][0] == more[j];
  }

  lemma LabelNothing(names: map<Name, Role>, none: seq<Name>, d: Role)
    requires none == []
    ensures Label(names, none, d) == names
  {
  }

  lemma LabelNext(names: map<Name, Role>, ips: seq<Name>, j: nat, d: Role)
    requires j < |ips|
    ensures Label(names, ips[..j + 1], d) == Label(names, ips[..j], d)[ips[j] := d]
  {
    assert ips[..j + 1][..j] == ips[..j];
  }

  /** Bare addresses and reporting names of one source role's peers. */
  method CollectAddresses(targets: seq<Role>, eps: Snapshot) returns (ips: seq<Name>, names: map<Name, Role>)
    ensures ips == PeerIps(targets, eps)
    ensures names == PeerNames(targets, eps)
  {
    hide AppendNew, Label, Addresses;
    ips, names := [], map[];
    for i := 0 to |targets|
      invariant ips == PeerIps(targets[..i], eps) && names == PeerNames(targets[..i], eps)
    {
      assert targets[..i + 1][..i] == targets[..i];
      ips, names := CollectFrom(Addresses(PodsOf(eps, targets[i])), targets[i], ips, names);
    }
    assert targets[..|targets|] == targets;
  }

  ghost function OffsetsFor(t: Template, eps: Snapshot, r: Role): map<Name, nat> {
    OffsetTable(AllClients(t, eps), Offsets(AllClients(t, eps)), r)
  }

  ghost function ServersFor(t: Template, eps: Snapshot, r: Role): nat {
    ServerCount(UsedBy(AllClients(t, eps), Offsets(AllClients(t, eps)), r))
  }

  datatype Resolution = Resolution(
    peers: map<Role, seq<Name>>,
    offsets: map<Role, map<Name, nat>>,
    servers: map<Role, nat>,
    names: map<Role, map<Name, Role>>)

  ghost predicate ResolvesPeers(t: Template, eps: Snapshot, res: Resolution) {
    && res.peers.Keys == res.offsets.Keys == res.servers.Keys == res.names.Keys == t.roles.Keys
    && forall r {:trigger res.peers[r]} {:trigger res.offsets[r]} {:trigger res.servers[r]} {:trigger res.names[r]}
         | r in t.roles ::
         && res.peers[r] == PeerIps(PeerRoles(t.edges, r), eps)
         && res.names[r] == PeerNames(PeerRoles(t.edges, r), eps)
         && res.offsets[r] == OffsetsFor(t, eps, r)
         && res.servers[r] == ServersFor(t, eps, r)
  }

  ghost predicate AddressTables(t: Template, eps: Snapshot, done: seq<Role>, peers: map<Role, seq<Name>>,
                                names: map<Role, map<Name, Role>>) {
    && peers.Keys == names.Keys == t.roles.Keys
    && forall r {:trigger peers[r]} {:trigger names[r]} | r in t.roles ::
         if r in done then peers[r] == PeerIps(PeerRoles(t.edges, r), eps) &&
             names[r] == PeerNames(PeerRoles(t.edges, r), eps)
         else peers[r] == [] && names[r] == map[]
  }

  lemma NoAddresses(t: Template, eps: Snapshot)
    ensures AddressTables(t, eps, [], map r | r in t.roles :: [], map r | r in t.roles :: map[])
  {
  }

  lemma AddressTablesNext(t: Template, eps: Snapshot, done: seq<Role>, r: Role, peers: map<Role, seq<Name>>,
                          names: map<Role, map<Name, Role>>)
    requires AddressTables(t, eps, done, peers, names) && r in t.roles && r !in done
    ensures var targets := PeerRoles(t.edges, r);
            if targets == [] then AddressTables(t, eps, done + [r], peers, names)
            else AddressTables(t, eps, done + [r], peers[r := PeerIps(targets, eps)],
                names[r := PeerNames(targets, eps)])
  {
    hide PeerRoles, PeerIps, PeerNames;
    NoTargets(eps);
  }

  lemma SourceRolesNext(t: Template, order: seq<Role>, i: nat)
    requires i < |order|
    ensures SourceRoles(t, order[..i + 1]) ==
            if PeerRoles(t.edges, order[i]) == [] then SourceRoles(t, order[..i])
            else SourceRoles(t, order[..i]) + [order[i]]
  {
    hide PeerRoles;
    assert order[..i + 1][..i] == order[..i];
  }

  lemma PeerTableAt(t: Template, peers: map<Role, seq<Role>>, i: nat)
    requires WellFormed(t) && PeerTable(t, t.edges, peers) && i < |t.order|
    ensures t.order[i] in t.roles && t.order[i] in peers && peers[t.order[i]] == PeerRoles(t.edges, t.order[i])
    ensures t.order[i] !in t.order[..i]
    ensures t.order[..i + 1] == t.order[..i] + [t.order[i]]
  {
    assert t.order[i] in Elements(t.order);
  }

  /** Addresses of every role's peers, and the roles that have any, in declaration order. */
  method CollectAll(t: Template, eps: Snapshot, intended: map<Role, seq<Role>>)
    returns (peers: map<Role, seq<Name>>, names: map<Role, map<Name, Role>>, sources: seq<Role>)
    requires WellFormed(t) && PeerTable(t, t.edges, intended)
    ensures AddressTables(t, eps, t.order, peers, names)
    ensures sources == SourceRoles(t, t.order)
  {
    hide *;
    peers, names, sources := map r | r in t.roles :: [], map r | r in t.roles :: map[], [];
    NoAddresses(t, eps);
    NoSources(t);
    for i := 0 to |t.order|
      invariant AddressTables(t, eps, t.order[..i], peers, names)
      invariant sources == SourceRoles(t, t.order[..i])
    {
      var r := t.order[i];
      PeerTableAt(t, intended, i);
      AddressTablesNext(t, eps, t.order[..i], r, peers, names);
      SourceRolesNext(t, t.order, i);
      if intended[r] != [] {
        var ips, labels := CollectAddresses(intended[r], eps);
        peers, names := peers[r := ips], names[r := labels];
        sources := sources + [r];
      }
    }
    assert t.order[..|t.order|] == t.order;
  }

  lemma NoSources(t: Template)
    ensures SourceRoles(t, []) == []
  {
  }

  lemma NoTargets(eps: Snapshot)
    ensures PeerIps([], eps) == [] && PeerNames([], eps) == map[]
  {
  }

  lemma {:induction false} SourceRolesDeclared(t: Template, order: seq<Role>)
    ensures forall r | r in SourceRoles(t, order) :: r in order
    ensures Distinct(order) ==> Distinct(SourceRoles(t, order))
    ensures forall r :: r in SourceRoles(t, order) <==> r in order && PeerRoles(t.edges, r) != []
  {
    if order != [] {
      SourceRolesDeclared(t, order[..|order| - 1]);
      assert order == order[..|order| - 1] + [order[|order| - 1]];
    }
  }

  lemma SourceTargetsDeclared(t: Template, r: Role)
    requires WellFormed(t)
    ensures forall d | d in PeerRoles(t.edges, r) :: d in t.roles
  {
    PeerRolesAreTargets(t.edges, r);
    forall d | d in PeerRoles(t.edges, r)
      ensures d in t.roles
    {
      assert Edge(r, d) in t.edges;
    }
  }

  lemma SortedMember<T>(s: seq<T>, key: T -> Name, i: nat)
    requires i < |SortBy(s, key)|
    ensures SortBy(s, key)[i] in s
  {
    SortSorts(s, key);
    assert SortBy(s, key)[i] in multiset(SortBy(s, key));
  }

  lemma ClientsNext(t: Template, eps: Snapshot, sources: seq<Role>, i: nat)
    requires i < |sources|
    ensures ClientsOf(t, eps, sources[..i + 1]) == ClientsOf(t, eps, sources[..i]) + RoleClients(t, eps, sources[i])
  {
    assert sources[..i + 1][..i] == sources[..i];
  }

  /** The colouring: source roles in name order, each role's pods in name order. */
  method Colour(t: Template, eps: Snapshot, intended: map<Role, seq<Role>>, sources: seq<Role>)
    returns (used: map<Role, set<nat>>, table: map<Role, map<Name, nat>>)
    requires WellFormed(t) && PeerTable(t, t.edges, intended)
    requires sources == SourceRoles(t, t.order)
    ensures Tracks(t, AllClients(t, eps), used, table)
  {
    used, table := map r | r in t.roles :: {}, map r | r in t.roles :: map[];
    NothingColoured(t, used, table);
    NoClients(t, eps);
    var ordered := SortBy(sources, Itself);
    assert ordered[..0] == [] && ordered[..|ordered|] == ordered;
    assert AllClients(t, eps) == ClientsOf(t, eps, ordered);
    hide *;
    for i := 0 to |ordered|
      invariant Tracks(t, ClientsOf(t, eps, ordered[..i]), used, table)
    {
      var r := ordered[i];
      NextSource(t, eps, intended, i);
      used, table := ColourRole(t, r, intended[r], SortBy(PodsOf(eps, r), PodName), ClientsOf(t, eps, ordered[..i]),
          used, table);
    }
  }

  lemma NothingColoured(t: Template, used: map<Role, set<nat>>, table: map<Role, map<Name, nat>>)
    requires used == map r | r in t.roles :: {}
    requires table == map r | r in t.roles :: map[]
    ensures Tracks(t, [], used, table)
  {
  }

  /** What the colouring needs to know about the source role whose turn it is. */
  lemma NextSource(t: Template, eps: Snapshot, intended: map<Role, seq<Role>>, i: nat)
    requires WellFormed(t) && PeerTable(t, t.edges, intended) && i < |SortBy(SourceRoles(t, t.order), Itself)|
    ensures var ordered := SortBy(SourceRoles(t, t.order), Itself);
            var r := ordered[i];
            && r in t.roles && r in intended && (forall d | d in intended[r] :: d in t.roles)
            && ClientsOf(t, eps, ordered[..i + 1]) ==
               ClientsOf(t, eps, ordered[..i]) + NamedClients(r, intended[r], SortBy(PodsOf(eps, r), PodName))
  {
    OrderedSource(t, i);
    var ordered := SortBy(SourceRoles(t, t.order), Itself);
    SourceTargetsDeclared(t, ordered[i]);
    ClientsNext(t, eps, ordered, i);
    hide PeerRoles, SortBy, SourceRoles, ClientsOf, NamedClients, Distinct, Elements, WellFormed;
  }

  lemma OrderedSource(t: Template, i: nat)
    requires WellFormed(t) && i < |SortBy(SourceRoles(t, t.order), Itself)|
    ensures SortBy(SourceRoles(t, t.order), Itself)[i] in t.roles
  {
    hide SortBy, SourceRoles;
    SortedMember(SourceRoles(t, t.order), Itself, i);
    SourceRolesDeclared(t, t.order);
    assert SortBy(SourceRoles(t, t.order), Itself)[i] in Elements(t.order);
  }

  lemma NoClients(t: Template, eps: Snapshot)
    ensures ClientsOf(t, eps, []) == []
  {
  }

  method CountServers(t: Template, ghost cs: seq<Client>, used: map<Role, set<nat>>,
                      ghost table: map<Role, map<Name, nat>>)
    returns (servers: map<Role, nat>)
    requires WellFormed(t) && Tracks(t, cs, used, table)
    ensures servers.Keys == t.roles.Keys
    ensures forall r {:trigger servers[r]} | r in t.roles :: servers[r] == ServerCount(UsedBy(cs, Offsets(cs), r))
  {
    hide Offsets, OffsetTable, UsedBy, Distinct, IsServerCount, ServerCount;
    servers := map[];
    for i := 0 to |t.order|
      invariant servers.Keys == Elements(t.order[..i])
      invariant forall r {:trigger servers[r]} | r in servers ::
                r in t.roles && servers[r] == ServerCount(UsedBy(cs, Offsets(cs), r))
    {
      TakeOne(t.order, i);
      assert t.order[i] in Elements(t.order);
      var n := MaxPlusOne(used[t.order[i]]);
      ServerCountUnique(n, ServerCount(used[t.order[i]]), used[t.order[i]]);
      servers := servers[t.order[i] := n];
    }
    assert t.order[..|t.order|] == t.order;
  }

  method ResolvePeerIps(t: Template, eps: Snapshot) returns (res: Resolution)
    requires WellFormed(t)
    ensures ResolvesPeers(t, eps, res)
  {
    var intended := ComputePeers(t);
    var peers, names, sources := CollectAll(t, eps, intended);
    var used, table := Colour(t, eps, intended, sources);
    var servers := CountServers(t, AllClients(t, eps), used, table);
    res := Resolution(peers, table, servers, names);
    ResolutionComplete(t, eps, used, res);
  }

  lemma ResolutionComplete(t: Template, eps: Snapshot, used: map<Role, set<nat>>, res: Resolution)
    requires WellFormed(t)
    requires AddressTables(t, eps, t.order, res.peers, res.names)
    requires Tracks(t, AllClients(t, eps), used, res.offsets)
    requires res.servers.Keys == t.roles.Keys
    requires forall r {:trigger res.servers[r]} | r in t.roles ::
               res.servers[r] == ServerCount(UsedBy(AllClients(t, eps), Offsets(AllClients(t, eps)), r))
    ensures ResolvesPeers(t, eps, res)
  {
    hide Offsets, OffsetTable, UsedBy, Distinct, ServerCount, AllClients, PeerRoles, PeerIps, PeerNames;
    assert forall r | r in t.roles :: r in Elements(t.order);
  }
}
