/** Role configurations: what materialising a template leaves in the cluster, and the lighter x update. */
module Materialise {
  import opened Prelude
  import opened RoleModel
  import opened Propagation
  import opened Ports
  import opened PeerResolution
  import Kahn

  /** config.json of one role. An absent offset or name table is the empty map. */
  datatype Config = Config(
    x: real,
    cpu: Coefficients,
    ram: Coefficients,
    net: Coefficients,
    peers: seq<Name>,
    serverCount: Option<nat>,
    offsets: map<Name, nat>,
    peerNames: map<Name, Role>)

  function OrNone(n: nat): Option<nat> {
    if n == 0 then None else Some(n)
  }

  function RoleConfig(t: Template, r: Role, peers: seq<Name>, x: real, servers: Option<nat>,
                      offsets: map<Name, nat>, names: map<Name, Role>): Config
    requires r in t.roles
  {
    Config(x, t.roles[r].cpu, t.roles[r].ram, t.roles[r].net, peers, servers, offsets, names)
  }

  /** Pods expected to connect to r, edge by edge: a repeated edge counts again. */
  ghost function Fanin(t: Template, edges: seq<Edge>, r: Role): nat
    requires forall e | e in edges :: e.src in t.roles
  {
    if edges == [] then 0
    else
      var front, e := edges[..|edges| - 1], edges[|edges| - 1];
      Fanin(t, front, r) + if e.dst == r then t.roles[e.src].count else 0
  }

  ghost predicate FaninTable(t: Template, i: nat, fanin: map<Role, nat>)
    requires WellFormed(t) && i <= |t.edges|
  {
    && fanin.Keys == t.roles.Keys
    && forall r {:trigger fanin[r]} | r in t.roles :: fanin[r] == Fanin(t, t.edges[..i], r)
  }

  lemma FaninTableNext(t: Template, i: nat, fanin: map<Role, nat>)
    requires WellFormed(t) && i < |t.edges| && FaninTable(t, i, fanin)
    ensures t.edges[i].dst in fanin && t.edges[i].src in t.roles
    ensures FaninTable(t, i + 1, fanin[t.edges[i].dst := fanin[t.edges[i].dst] + t.roles[t.edges[i].src].count])
  {
    assert t.edges[i] in t.edges;
    assert t.edges[..i + 1][..i] == t.edges[..i];
  }

  method ComputeFanin(t: Template) returns (fanin: map<Role, nat>)
    requires WellFormed(t)
    ensures FaninTable(t, |t.edges|, fanin)
  {
    fanin := map r | r in t.roles :: 0;
    assert FaninTable(t, 0, fanin);
    hide *;
    for i := 0 to |t.edges|
      invariant FaninTable(t, i, fanin)
    {
      FaninTableNext(t, i, fanin);
      var e := t.edges[i];
      fanin := fanin[e.dst := fanin[e.dst] + t.roles[e.src].count];
    }
  }

  ghost function FaninOf(t: Template, r: Role): nat
    requires WellFormed(t)
  {
    Fanin(t, t.edges, r)
  }

  /** Phase 2 rewrites a role that has peer addresses, or whose server count turned out different. */
  ghost predicate Rewritten(t: Template, eps: Snapshot, r: Role)
    requires WellFormed(t)
  {
    || PeerIps(PeerRoles(t.edges, r), eps) != []
    || (ServersFor(t, eps, r) > 0 && ServersFor(t, eps, r) != FaninOf(t, r))
  }

  /** The configuration a role ends up with when its formulas run at x. */
  ghost function ConfigAt(t: Template, eps: Snapshot, r: Role, x: real): Config
    requires WellFormed(t) && r in t.roles
  {
    if Rewritten(t, eps, r) then
      RoleConfig(t, r, PeerIps(PeerRoles(t.edges, r), eps), x, OrNone(ServersFor(t, eps, r)),
                 OffsetsFor(t, eps, r), PeerNames(PeerRoles(t.edges, r), eps))
    else
      RoleConfig(t, r, [], x, OrNone(FaninOf(t, r)), map[], map[])
  }

  ghost function FinalConfig(t: Template, eps: Snapshot, r: Role): Config
    requires WellFormed(t) && !HasCycle(t) && r in t.roles
  {
    ConfigAt(t, eps, r, ResolvedX(t)[r])
  }

  ghost function FinalConfigs(t: Template, eps: Snapshot): map<Role, Config>
    requires WellFormed(t) && !HasCycle(t)
  {
    map r | r in t.roles :: FinalConfig(t, eps, r)
  }

  datatype Failure = Cyclic(roles: set<Role>) | NotMaterialised | ApiRaised

  /** How the API behaves during one x update: the roles whose ConfigMap it lets us read and patch, and where in
      the pass over the roles, if anywhere, a call raises instead of answering. */
  datatype Api = Api(reachable: set<Role>, raisesAt: Option<nat>)

  /** The roles an update reaches: all the reachable ones, or those the pass came to before it raised. */
  ghost function Reached(t: Template, api: Api): set<Role> {
    if api.raisesAt.Some? && api.raisesAt.value <= |t.order| then
        api.reachable * Elements(t.order[..api.raisesAt.value])
    else api.reachable
  }

  // ---- the x update ----

  function WithSignal(t: Template, x: Signal): Template {
    t.(x := x)
  }

  lemma SignalKeepsWiring(t: Template, x: Signal)
    ensures WellFormed(t) <==> WellFormed(WithSignal(t, x))
    ensures SameWiring(t, WithSignal(t, x))
    ensures HasCycle(t) <==> HasCycle(WithSignal(t, x))
  {
    SameWiringSameCycles(t, WithSignal(t, x));
    SameWiringSameCycles(WithSignal(t, x), t);
  }

  /** Nothing but x in a configuration depends on the signal. */
  lemma {:induction false} ConfigIgnoresSignal(t: Template, eps: Snapshot, x: Signal, r: Role, v: real)
    requires WellFormed(t) && r in t.roles
    ensures WellFormed(WithSignal(t, x))
    ensures ConfigAt(WithSignal(t, x), eps, r, v) == ConfigAt(t, eps, r, v)
  {
    SignalKeepsWiring(t, x);
    FaninIgnoresSignal(t, x, t.edges, r);
    ClientsIgnoreSignal(t, eps, x);
  }

  lemma {:induction false} FaninIgnoresSignal(t: Template, x: Signal, edges: seq<Edge>, r: Role)
    requires forall e | e in edges :: e.src in t.roles
    ensures Fanin(WithSignal(t, x), edges, r) == Fanin(t, edges, r)
  {
    if edges != [] {
      FaninIgnoresSignal(t, x, edges[..|edges| - 1], r);
    }
  }

  lemma {:induction false} SourceRolesIgnoreSignal(t: Template, x: Signal, order: seq<Role>)
    ensures SourceRoles(WithSignal(t, x), order) == SourceRoles(t, order)
  {
    if order != [] {
      SourceRolesIgnoreSignal(t, x, order[..|order| - 1]);
    }
  }

  lemma {:induction false} ClientsOfIgnoreSignal(t: Template, eps: Snapshot, x: Signal, sources: seq<Role>)
    ensures ClientsOf(WithSignal(t, x), eps, sources) == ClientsOf(t, eps, sources)
  {
    if sources != [] {
      ClientsOfIgnoreSignal(t, eps, x, sources[..|sources| - 1]);
    }
  }

  lemma ClientsIgnoreSignal(t: Template, eps: Snapshot, x: Signal)
    ensures AllClients(WithSignal(t, x), eps) == AllClients(t, eps)
  {
    SourceRolesIgnoreSignal(t, x, t.order);
    ClientsOfIgnoreSignal(t, eps, x, Order.SortBy(SourceRoles(t, t.order), Itself));
  }

  /** The light update rewrites only x, and only where the ConfigMap could be read and patched. */
  ghost function Patched(t: Template, configs: map<Role, Config>, x: Signal, reachable: set<Role>): map<Role, Config>
    requires WellFormed(t) && !HasCycle(t)
  {
    SignalKeepsWiring(t, x);
    map r | r in configs ::
      if r in t.roles && r in reachable then configs[r].(x := ResolvedX(WithSignal(t, x))[r]) else configs[r]
  }

  datatype Patch = Patch(x: Signal, reachable: set<Role>)

  ghost function PatchedRun(t: Template, configs: map<Role, Config>, run: seq<Patch>): map<Role, Config>
    requires WellFormed(t) && !HasCycle(t)
  {
    if run == [] then configs
    else
      var last := run[|run| - 1];
      Patched(t, PatchedRun(t, configs, run[..|run| - 1]), last.x, last.reachable)
  }

  /** The signal of the last patch that reached r, or the one the template was materialised with. */
  ghost function SignalSeen(t: Template, r: Role, run: seq<Patch>): Signal {
    if run == [] then t.x
    else
      var last := run[|run| - 1];
      if r in last.reachable then last.x else SignalSeen(t, r, run[..|run| - 1])
  }

  /** The light update agrees with the heavy one over every run of patches: each role's configuration is
      exactly what materialising the template at the last signal that reached it would have written. */
  lemma {:induction false} LightEqualsHeavy(t: Template, eps: Snapshot, run: seq<Patch>, r: Role)
    requires WellFormed(t) && !HasCycle(t) && r in t.roles
    ensures r in PatchedRun(t, FinalConfigs(t, eps), run)
    ensures var t' := WithSignal(t, SignalSeen(t, r, run));
            WellFormed(t') && !HasCycle(t') && PatchedRun(t, FinalConfigs(t, eps), run)[r] == FinalConfig(t', eps, r)
  {
    var seen := SignalSeen(t, r, run);
    SignalKeepsWiring(t, seen);
    hide *;
    if run == [] {
      EmptyRun(t, eps, r);
    } else {
      LightEqualsHeavy(t, eps, run[..|run| - 1], r);
      LastPatch(t, eps, run, r);
    }
  }

  lemma EmptyRun(t: Template, eps: Snapshot, r: Role)
    requires WellFormed(t) && !HasCycle(t) && r in t.roles
    ensures r in PatchedRun(t, FinalConfigs(t, eps), [])
    ensures WithSignal(t, SignalSeen(t, r, [])) == t
    ensures PatchedRun(t, FinalConfigs(t, eps), [])[r] == FinalConfig(t, eps, r)
  {
    hide FinalConfig, HasCycle, WellFormed;
  }

  lemma LastPatch(t: Template, eps: Snapshot, run: seq<Patch>, r: Role)
    requires WellFormed(t) && !HasCycle(t) && r in t.roles && run != []
    requires var front := run[..|run| - 1]; var t' := WithSignal(t, SignalSeen(t, r, front));
             && r in PatchedRun(t, FinalConfigs(t, eps), front)
             && WellFormed(t') && !HasCycle(t') && PatchedRun(t, FinalConfigs(t, eps), front)[r] ==
                  FinalConfig(t', eps, r)
    ensures r in PatchedRun(t, FinalConfigs(t, eps), run)
    ensures var t' := WithSignal(t, SignalSeen(t, r, run));
            WellFormed(t') && !HasCycle(t') && PatchedRun(t, FinalConfigs(t, eps), run)[r] == FinalConfig(t', eps, r)
  {
    var front, last := run[..|run| - 1], run[|run| - 1];
    SignalKeepsWiring(t, last.x);
    SignalKeepsWiring(t, SignalSeen(t, r, front));
    hide HasCycle, WellFormed, ConfigAt, FinalConfigs, ResolvedX;
    var before := WithSignal(t, SignalSeen(t, r, front));
    ConfigIgnoresSignal(t, eps, SignalSeen(t, r, front), r, ResolvedX(before)[r]);
    ConfigIgnoresSignal(t, eps, last.x, r, ResolvedX(WithSignal(t, last.x))[r]);
    ConfigDiffersInX(t, eps, r, ResolvedX(before)[r], ResolvedX(WithSignal(t, last.x))[r]);
  }

  lemma ConfigDiffersInX(t: Template, eps: Snapshot, r: Role, v: real, w: real)
    requires WellFormed(t) && r in t.roles
    ensures ConfigAt(t, eps, r, v).(x := w) == ConfigAt(t, eps, r, w)
  {
    hide Rewritten, WellFormed, PeerIps, PeerNames, PeerRoles, OffsetsFor, ServersFor, FaninOf;
  }

  // ---- the cluster ----

  ghost predicate PhaseOneDone(t: Template, x: map<Role, real>, done: seq<Role>, before: map<Role, Config>,
                               configs: map<Role, Config>)
    requires WellFormed(t) && x.Keys == t.roles.Keys
  {
    && configs.Keys == before.Keys + (set r | r in done)
    && forall r {:trigger configs[r]} | r in configs ::
         if r in done then r in t.roles && configs[r] == RoleConfig(t, r, [], x[r], OrNone(FaninOf(t, r)), map[], map[])
         else r in before && configs[r] == before[r]
  }

  ghost predicate PhaseTwoDone(t: Template, eps: Snapshot, x: map<Role, real>, done: seq<Role>,
                               first: map<Role, Config>, configs: map<Role, Config>)
    requires WellFormed(t) && x.Keys == t.roles.Keys
  {
    && configs.Keys == first.Keys
    && forall r {:trigger configs[r]} | r in configs ::
         if r in done then r in t.roles && configs[r] == ConfigAt(t, eps, r, x[r])
         else configs[r] == first[r]
  }

  lemma OrderAt(t: Template, i: nat)
    requires WellFormed(t) && i < |t.order|
    ensures t.order[i] in t.roles && t.order[i] !in t.order[..i]
    ensures t.order[..i + 1] == t.order[..i] + [t.order[i]]
    ensures Elements(t.order[..i + 1]) == Elements(t.order[..i]) + {t.order[i]}
  {
    TakeOne(t.order, i);
  }

  lemma PhaseOneNext(t: Template, x: map<Role, real>, fanin: map<Role, nat>, i: nat, before: map<Role, Config>,
                     configs: map<Role, Config>)
    requires WellFormed(t) && x.Keys == t.roles.Keys && i < |t.order| && FaninTable(t, |t.edges|, fanin)
    requires PhaseOneDone(t, x, t.order[..i], before, configs)
    ensures t.order[i] in t.roles && t.order[i] in fanin
    ensures var r := t.order[i];
            PhaseOneDone(t, x, t.order[..i + 1], before,
                configs[r := RoleConfig(t, r, [], x[r], OrNone(fanin[r]), map[], map[])])
  {
    hide WellFormed, Elements;
    OrderAt(t, i);
    assert t.edges[..|t.edges|] == t.edges;
  }

  lemma PhaseTwoNext(t: Template, eps: Snapshot, x: map<Role, real>, fanin: map<Role, nat>, res: Resolution, i: nat,
                     first: map<Role, Config>, configs: map<Role, Config>)
    requires WellFormed(t) && x.Keys == t.roles.Keys && i < |t.order| && FaninTable(t, |t.edges|, fanin)
    requires ResolvesPeers(t, eps, res)
    requires forall r | r in t.roles ::
             r in first && first[r] == RoleConfig(t, r, [], x[r], OrNone(FaninOf(t, r)), map[], map[])
    requires PhaseTwoDone(t, eps, x, t.order[..i], first, configs)
    ensures var r := t.order[i];
            && r in t.roles && r in fanin && r in res.peers && r in res.servers && r in res.offsets && r in res.names
            && var ips, servers := res.peers[r], OrNone(res.servers[r]);
            if ips != [] || (servers.Some? && servers != OrNone(fanin[r])) then
              PhaseTwoDone(t, eps, x, t.order[..i + 1], first,
                           configs[r := RoleConfig(t, r, ips, x[r], servers, res.offsets[r], res.names[r])])
            else
              PhaseTwoDone(t, eps, x, t.order[..i + 1], first, configs)
  {
    var r := t.order[i];
    OrderAt(t, i);
    PhaseTwoValue(t, eps, x, fanin, res, r);
    PhaseTwoExtend(t, eps, x, t.order[..i], r, first, configs);
    hide *;
  }

  lemma PhaseTwoExtend(t: Template, eps: Snapshot, x: map<Role, real>, done: seq<Role>, r: Role,
                       first: map<Role, Config>, configs: map<Role, Config>)
    requires WellFormed(t) && x.Keys == t.roles.Keys && r in t.roles && r !in done && r in first
    requires PhaseTwoDone(t, eps, x, done, first, configs)
    ensures PhaseTwoDone(t, eps, x, done + [r], first, configs[r := ConfigAt(t, eps, r, x[r])])
    ensures first[r] == ConfigAt(t, eps, r, x[r]) ==> PhaseTwoDone(t, eps, x, done + [r], first, configs)
  {
    hide ConfigAt, WellFormed;
  }

  /** What phase 2 decides for one role is the configuration the specification names. */
  lemma PhaseTwoValue(t: Template, eps: Snapshot, x: map<Role, real>, fanin: map<Role, nat>, res: Resolution, r: Role)
    requires WellFormed(t) && x.Keys == t.roles.Keys && r in t.roles && FaninTable(t, |t.edges|, fanin)
    requires ResolvesPeers(t, eps, res)
    ensures r in fanin && r in res.peers && r in res.servers && r in res.offsets && r in res.names
    ensures var ips, servers := res.peers[r], OrNone(res.servers[r]);
            ConfigAt(t, eps, r, x[r]) ==
            if ips != [] || (servers.Some? && servers != OrNone(fanin[r])) then
              RoleConfig(t, r, ips, x[r], servers, res.offsets[r], res.names[r])
            else RoleConfig(t, r, [], x[r], OrNone(FaninOf(t, r)), map[], map[])
  {
    hide WellFormed, Elements, PeerIps, PeerNames, PeerRoles, OffsetsFor, ServersFor, RoleConfig;
    assert t.edges[..|t.edges|] == t.edges;
    assert fanin[r] == FaninOf(t, r) && res.servers[r] == ServersFor(t, eps, r);
  }

  lemma BothPhases(t: Template, eps: Snapshot, before: map<Role, Config>, first: map<Role, Config>,
                   configs: map<Role, Config>)
    requires WellFormed(t) && !HasCycle(t)
    requires PhaseOneDone(t, ResolvedX(t), t.order, before, first)
    requires PhaseTwoDone(t, eps, ResolvedX(t), t.order, first, configs)
    ensures configs == before + FinalConfigs(t, eps)
  {
    hide PhaseOneDone, PhaseTwoDone, ConfigAt, ResolvedX, HasCycle, WellFormed, FinalConfigs;
    SolutionCoversRoles(t);
    PhasesCompose(t, eps, ResolvedX(t), before, first, configs);
    FinalConfigsAre(t, eps);
    hide IsSolution, FinalConfig;
  }

  lemma SolutionCoversRoles(t: Template)
    requires WellFormed(t) && !HasCycle(t)
    ensures ResolvedX(t).Keys == t.roles.Keys
  {
  }

  lemma FinalConfigsAre(t: Template, eps: Snapshot)
    requires WellFormed(t) && !HasCycle(t)
    ensures FinalConfigs(t, eps).Keys == t.roles.Keys
    ensures ResolvedX(t).Keys == t.roles.Keys
    ensures forall r | r in t.roles :: FinalConfigs(t, eps)[r] == ConfigAt(t, eps, r, ResolvedX(t)[r])
  {
    hide ConfigAt, HasCycle, WellFormed;
  }

  lemma PhasesCompose(t: Template, eps: Snapshot, x: map<Role, real>, before: map<Role, Config>,
                      first: map<Role, Config>, configs: map<Role, Config>)
    requires WellFormed(t) && x.Keys == t.roles.Keys
    requires PhaseOneDone(t, x, t.order, before, first)
    requires PhaseTwoDone(t, eps, x, t.order, first, configs)
    ensures configs.Keys == before.Keys + t.roles.Keys
    ensures forall r | r in configs :: if r in t.roles then configs[r] == ConfigAt(t, eps, r, x[r])
            else r in before && configs[r] == before[r]
  {
    RolesAreListed(t);
    hide ConfigAt, FaninOf, RoleConfig, WellFormed;
    assert configs.Keys == first.Keys == before.Keys + t.roles.Keys;
  }

  lemma RolesAreListed(t: Template)
    requires WellFormed(t)
    ensures forall r :: r in t.roles <==> r in t.order
  {
    assert forall r :: r in t.roles <==> r in Elements(t.order);
  }

  lemma PhaseOneWrote(t: Template, x: map<Role, real>, before: map<Role, Config>, configs: map<Role, Config>)
    requires WellFormed(t) && x.Keys == t.roles.Keys && PhaseOneDone(t, x, t.order, before, configs)
    ensures forall r | r in t.roles ::
            r in configs && configs[r] == RoleConfig(t, r, [], x[r], OrNone(FaninOf(t, r)), map[], map[])
  {
    assert forall r :: r in t.roles <==> r in Elements(t.order);
  }

  lemma PatchNext(t: Template, before: map<Role, Config>, x: Signal, reachable: set<Role>, i: nat)
    requires WellFormed(t) && !HasCycle(t) && i < |t.order|
    ensures WellFormed(WithSignal(t, x)) && !HasCycle(WithSignal(t, x)) && t.order[i] in t.roles
    ensures var r := t.order[i];
            var configs := Patched(t, before, x, reachable * Elements(t.order[..i]));
            && configs.Keys == before.Keys
            && Patched(t, before, x, reachable * Elements(t.order[..i + 1])) ==
               if r in reachable && r in configs then configs[r := configs[r].(x := ResolvedX(WithSignal(t, x))[r])]
               else configs
  {
    hide WellFormed, Elements, ResolvedX, HasCycle;
    SignalKeepsWiring(t, x);
    OrderAt(t, i);
    OrderElements(t, i);
  }

  lemma OrderElements(t: Template, i: nat)
    requires WellFormed(t) && i < |t.order|
    ensures t.order[i] !in Elements(t.order[..i])
  {
    TakeOne(t.order, i);
  }

  /** The managed resources of one template: its stored annotation and one ConfigMap per role. */
  class Cluster {
    var stored: Option<Template>
    var configs: map<Role, Config>

    ghost predicate Valid()
      reads this
    {
      stored.Some? ==> WellFormed(stored.value)
    }

    constructor ()
      ensures Valid() && stored == None && configs == map[]
    {
      stored, configs := None, map[];
    }

    /** Validate, write every role with no peers, then resolve peers and rewrite the roles that need it.
        A cyclic template changes nothing. */
    method Materialise(t: Template, eps: Snapshot) returns (failure: Option<Failure>)
      requires Valid() && WellFormed(t)
      modifies this
      ensures Valid()
      ensures failure.None? <==> !HasCycle(t)
      ensures failure.Some? ==> failure.value.Cyclic? && forall r :: r in failure.value.roles <==> BelowCycle(t, r)
      ensures failure.Some? ==> stored == old(stored) && configs == old(configs)
      ensures failure.None? ==> stored == Some(t) && configs == old(configs) + FinalConfigs(t, eps)
    {
      var resolved, _, _, _ := Kahn.ResolveX(t);
      if resolved.Failure? {
        return Some(Cyclic(resolved.error));
      }
      var x := resolved.value;
      var fanin := ComputeFanin(t);
      stored := Some(t);
      WritePhaseOne(t, x, fanin);
      PhaseOneWrote(t, x, old(configs), configs);
      label FirstDone:
      var res := ResolvePeerIps(t, eps);
      WritePhaseTwo(t, eps, x, fanin, res);
      BothPhases(t, eps, old(configs), old@FirstDone(configs), configs);
      failure := None;
    }

    method WritePhaseOne(t: Template, x: map<Role, real>, fanin: map<Role, nat>)
      requires WellFormed(t) && x.Keys == t.roles.Keys && FaninTable(t, |t.edges|, fanin)
      modifies this`configs
      ensures PhaseOneDone(t, x, t.order, old(configs), configs)
    {
      for i := 0 to |t.order|
        invariant PhaseOneDone(t, x, t.order[..i], old(configs), configs)
      {
        var r := t.order[i];
        PhaseOneNext(t, x, fanin, i, old(configs), configs);
        configs := configs[r := RoleConfig(t, r, [], x[r], OrNone(fanin[r]), map[], map[])];
      }
      assert t.order[..|t.order|] == t.order;
    }

    method WritePhaseTwo(t: Template, eps: Snapshot, x: map<Role, real>, fanin: map<Role, nat>, res: Resolution)
      requires WellFormed(t) && x.Keys == t.roles.Keys && FaninTable(t, |t.edges|, fanin)
      requires ResolvesPeers(t, eps, res)
      requires forall r | r in t.roles ::
               r in configs && configs[r] == RoleConfig(t, r, [], x[r], OrNone(FaninOf(t, r)), map[], map[])
      modifies this`configs
      ensures PhaseTwoDone(t, eps, x, t.order, old(configs), configs)
    {
      for i := 0 to |t.order|
        invariant PhaseTwoDone(t, eps, x, t.order[..i], old(configs), configs)
      {
        var r := t.order[i];
        PhaseTwoNext(t, eps, x, fanin, res, i, old(configs), configs);
        var ips, servers := res.peers[r], OrNone(res.servers[r]);
        var needsUpdate := servers.Some? && servers != OrNone(fanin[r]);
        if ips != [] || needsUpdate {
          configs := configs[r := RoleConfig(t, r, ips, x[r], servers, res.offsets[r], res.names[r])];
        }
      }
      assert t.order[..|t.order|] == t.order;
    }

    /** Advance the signal without touching peers, ports or server counts. Roles whose ConfigMap cannot be read
        or patched are skipped and keep their old x. A call that raises ends the pass where it is. */
    method PatchSystemX(x: Signal, api: Api) returns (failure: Option<Failure>)
      requires Valid()
      modifies this`configs
      ensures Valid()
      ensures old(stored).None? ==> failure == Some(NotMaterialised) && configs == old(configs)
      ensures old(stored).Some? && HasCycle(old(stored).value) ==>
              failure.Some? && failure.value.Cyclic? && configs == old(configs)
      ensures old(stored).Some? && !HasCycle(old(stored).value) ==>
                && failure == (if api.raisesAt.Some? then Some(ApiRaised) else None)
                && configs == Patched(stored.value, old(configs), x, Reached(stored.value, api))
    {
      hide Patched, WellFormed, HasCycle, Elements, IsSolution;
      if stored.None? {
        return Some(NotMaterialised);
      }
      var t := stored.value;
      SignalKeepsWiring(t, x);
      var resolved, _, _, _ := Kahn.ResolveX(WithSignal(t, x));
      if resolved.Failure? {
        return Some(Cyclic(resolved.error));
      }
      SolutionCoversRoles(WithSignal(t, x));
      NothingPatched(t, configs, x, api.reachable);
      for i := 0 to |t.order|
        invariant configs == Patched(t, old(configs), x, api.reachable * Elements(t.order[..i]))
        invariant api.raisesAt.Some? ==> i <= api.raisesAt.value
      {
        if api.raisesAt == Some(i) {
          return Some(ApiRaised);
        }
        var r := t.order[i];
        PatchNext(t, old(configs), x, api.reachable, i);
        if r in api.reachable && r in configs {
          configs := configs[r := configs[r].(x := resolved.value[r])];
        }
      }
      AllPatched(t, old(configs), x, api);
      failure := if api.raisesAt.Some? then Some(ApiRaised) else None;
    }
  }

  lemma NothingPatched(t: Template, configs: map<Role, Config>, x: Signal, reachable: set<Role>)
    requires WellFormed(t) && !HasCycle(t)
    ensures Patched(t, configs, x, reachable * Elements(t.order[..0])) == configs
  {
    hide WellFormed, HasCycle, ResolvedX;
  }

  lemma AllPatched(t: Template, configs: map<Role, Config>, x: Signal, api: Api)
    requires WellFormed(t) && !HasCycle(t)
    requires api.raisesAt.Some? ==> |t.order| <= api.raisesAt.value
    ensures Patched(t, configs, x, api.reachable * Elements(t.order[..|t.order|])) ==
            Patched(t, configs, x, Reached(t, api))
  {
    assert t.order[..|t.order|] == t.order;
    SignalKeepsWiring(t, x);
    hide HasCycle, ResolvedX, Distinct;
    assert forall r | r in t.roles :: r in Elements(t.order);
  }

  // ---- what a stored configuration says ----

  /** After materialising and any run of x updates every role's configuration carries the role's own formulas, and
      the x it resolves to at the signal that last reached it. */
  lemma {:induction false} ConfigsCarryTheTemplate(t: Template, eps: Snapshot, run: seq<Patch>, r: Role)
    requires WellFormed(t) && !HasCycle(t) && r in t.roles
    ensures r in PatchedRun(t, FinalConfigs(t, eps), run)
    ensures var cfg := PatchedRun(t, FinalConfigs(t, eps), run)[r];
            cfg.cpu == t.roles[r].cpu && cfg.ram == t.roles[r].ram && cfg.net == t.roles[r].net
    ensures var cfg, t' := PatchedRun(t, FinalConfigs(t, eps), run)[r], WithSignal(t, SignalSeen(t, r, run));
            WellFormed(t') && !HasCycle(t') && r in ResolvedX(t') && cfg.x == ResolvedX(t')[r]
    ensures WithSignal(t, SignalSeen(t, r, run)).x == SignalSeen(t, r, run)
    ensures SameButSignal(WithSignal(t, SignalSeen(t, r, run)), t)
  {
    var seen := SignalSeen(t, r, run);
    LightEqualsHeavy(t, eps, run, r);
    ConfigFields(WithSignal(t, seen), eps, r, ResolvedX(WithSignal(t, seen))[r]);
    hide ConfigAt, PatchedRun, FinalConfigs, WellFormed, HasCycle, ResolvedX, SignalSeen;
  }

  ghost predicate SameButSignal(t: Template, u: Template) {
    t.order == u.order && t.roles == u.roles && t.edges == u.edges
  }

  /** The fields of a role's configuration, one by one. */
  lemma {:induction false} ConfigFields(t: Template, eps: Snapshot, r: Role, x: real)
    requires WellFormed(t) && r in t.roles
    ensures var cfg := ConfigAt(t, eps, r, x);
            && cfg.x == x && cfg.cpu == t.roles[r].cpu && cfg.ram == t.roles[r].ram && cfg.net == t.roles[r].net
            && (cfg.serverCount.Some? ==> cfg.serverCount.value > 0)
            && (ServersFor(t, eps, r) > 0 ==> cfg.serverCount == Some(ServersFor(t, eps, r)))
            && (ServersFor(t, eps, r) == 0 && cfg.peers == [] && FaninOf(t, r) > 0 ==>
                 cfg.serverCount == Some(FaninOf(t, r)))
            && (ServersFor(t, eps, r) == 0 && (cfg.peers != [] || FaninOf(t, r) == 0) ==> cfg.serverCount == None)
            && cfg.peers == PeerIps(PeerRoles(t.edges, r), eps)
  {
    hide WellFormed, PeerIps, PeerNames, PeerRoles, OffsetsFor, ServersFor, FaninOf;
  }

  /** Nobody expected, nobody served: a role without inbound edges has fan-in zero. */
  lemma {:induction false} NoInboundNoFanin(t: Template, edges: seq<Edge>, r: Role)
    requires forall e | e in edges :: e.src in t.roles
    requires forall e | e in edges :: e.dst != r
    ensures Fanin(t, edges, r) == 0
  {
    if edges != [] {
      NoInboundNoFanin(t, edges[..|edges| - 1], r);
    }
  }

  ghost function Senders(edges: seq<Edge>, r: Role): set<Role> {
    set e | e in edges && e.dst == r :: e.src
  }

  ghost function CountEach(t: Template): Role -> real {
    u => if u in t.roles then t.roles[u].count as real else 0.0
  }

  /** Without repeated edges the fan-in is the number of pods of all the roles with an edge to r. */
  lemma {:induction false} FaninAddsUp(t: Template, edges: seq<Edge>, r: Role)
    requires (forall e | e in edges :: e.src in t.roles) && Distinct(edges)
    ensures Fanin(t, edges, r) as real == Sum(Senders(edges, r), CountEach(t))
  {
    if edges == [] {
      assert Senders(edges, r) == {};
    } else {
      var front, e := edges[..|edges| - 1], edges[|edges| - 1];
      assert edges == front + [e];
      FaninAddsUp(t, front, r);
      if e.dst == r {
        assert e !in front && forall f | f in front && f.dst == r && f.src == e.src :: f == e;
        assert Senders(edges, r) == Senders(front, r) + {e.src};
        SumInsert(Senders(front, r), CountEach(t), e.src);
      } else {
        assert Senders(edges, r) == Senders(front, r);
      }
    }
  }

  /** A role nobody has an edge to is never given a server count. */
  lemma {:induction false} NoInboundNoServers(t: Template, eps: Snapshot, r: Role, x: real)
    requires WellFormed(t) && r in t.roles && forall e | e in t.edges :: e.dst != r
    ensures FaninOf(t, r) == 0 && ServersFor(t, eps, r) == 0
    ensures ConfigAt(t, eps, r, x).serverCount == None
  {
    NoInboundNoFanin(t, t.edges, r);
    NobodyConnects(t, eps, r);
    ConfigFields(t, eps, r, x);
    hide WellFormed, ServersFor, ConfigAt;
  }

  lemma NobodyConnects(t: Template, eps: Snapshot, r: Role)
    requires forall e | e in t.edges :: e.dst != r
    ensures ServersFor(t, eps, r) == 0
  {
    var sources := Order.SortBy(SourceRoles(t, t.order), Itself);
    ClientsCarryTargets(t, eps, sources);
    hide ClientsOf, PeerRoles, SourceRoles, Offsets;
    forall c | c in AllClients(t, eps)
      ensures r !in c.targets
    {
      PeerRolesAreTargets(t.edges, c.role);
    }
    assert UsedBy(AllClients(t, eps), Offsets(AllClients(t, eps)), r) == {};
  }
}
