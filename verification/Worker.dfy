/** What a worker pod does with its configuration: which server ports it opens and which clients it runs. */
module Worker {
  import opened Prelude
  import opened RoleModel
  import opened Materialise
  import CpuLoad

  const BASE_PORT: nat := 9999

  /** A supervised iperf3 client. */
  datatype Link = Link(ip: Name, port: nat, mbps: real)

  ghost predicate InPool(k: nat, n: nat) {
    BASE_PORT <= k < BASE_PORT + n
  }

  /** n consecutive ports from the base port. */
  ghost function PortRange(n: nat): set<nat> {
    set k: nat | k < BASE_PORT + n && InPool(k, n)
  }

  predicate IsIdle(cfg: Config) {
    && Linear(cfg.cpu, cfg.x) == 0.0
    && Linear(cfg.ram, cfg.x) == 0.0
    && Linear(cfg.net, cfg.x) == 0.0
    && (cfg.serverCount.None? || cfg.serverCount.value == 0)
  }

  function PoolSize(mbps: real, serverCount: nat, defaultPool: nat): nat {
    if serverCount > 0 then serverCount else if mbps > 0.0 then defaultPool else 0
  }

  function CountOf(cfg: Config): nat {
    if cfg.serverCount.Some? then cfg.serverCount.value else 0
  }

  /** A pod the controller assigned no offset uses the base port. */
  function OffsetOf(cfg: Config, pod: Name): nat {
    if pod in cfg.offsets then cfg.offsets[pod] else 0
  }

  ghost function OpenPorts(cfg: Config, defaultPool: nat): set<nat> {
    if IsIdle(cfg) then {} else PortRange(PoolSize(Linear(cfg.net, cfg.x), CountOf(cfg), defaultPool))
  }

  /** One client per peer, all on the pod's own port, sharing the egress budget evenly. */
  function Links(peers: seq<Name>, port: nat, mbps: real): (links: seq<Link>)
    ensures |links| == |peers|
    ensures forall i | 0 <= i < |peers| :: links[i] == Link(peers[i], port, mbps)
  {
    seq(|peers|, i requires 0 <= i < |peers| => Link(peers[i], port, mbps))
  }

  function ClientLinks(cfg: Config, pod: Name): seq<Link> {
    var mbps := Linear(cfg.net, cfg.x);
    if mbps <= 0.0 || cfg.peers == [] then []
    else Links(cfg.peers, BASE_PORT + OffsetOf(cfg, pod), mbps / |cfg.peers| as real)
  }

  function TotalRate(links: seq<Link>): real {
    if links == [] then 0.0 else TotalRate(links[..|links| - 1]) + links[|links| - 1].mbps
  }

  lemma {:induction false} EvenLinksTotal(links: seq<Link>, rate: real)
    requires forall l | l in links :: l.mbps == rate
    ensures TotalRate(links) == |links| as real * rate
  {
    if links != [] {
      EvenLinksTotal(links[..|links| - 1], rate);
    }
  }

  /** The clients of a sending pod together carry exactly its configured egress. */
  lemma {:induction false} EgressIsConserved(cfg: Config, pod: Name)
    requires cfg.peers != []
    ensures TotalRate(ClientLinks(cfg, pod)) == Linear(cfg.net, cfg.x)
  {
    var mbps := Linear(cfg.net, cfg.x);
    if mbps > 0.0 {
      var n := |cfg.peers| as real;
      EvenLinksTotal(ClientLinks(cfg, pod), mbps / n);
      assert n * (mbps / n) == mbps;
    }
  }

  // ---- what the configuration means for the pod ----

  /** Which ports a pod opens: its server count's worth when it has one; without one the default pool if it sends, and
      none otherwise. */
  lemma {:induction false} PortsOpened(cfg: Config, defaultPool: nat)
    ensures CountOf(cfg) > 0 ==> OpenPorts(cfg, defaultPool) == PortRange(CountOf(cfg))
    ensures CountOf(cfg) == 0 && Linear(cfg.net, cfg.x) > 0.0 ==> OpenPorts(cfg, defaultPool) == PortRange(defaultPool)
    ensures CountOf(cfg) == 0 && Linear(cfg.net, cfg.x) == 0.0 ==> OpenPorts(cfg, defaultPool) == {}
    ensures cfg.serverCount.Some? ==> CountOf(cfg) == cfg.serverCount.value
    ensures cfg.serverCount.None? ==> CountOf(cfg) == 0
  {
    hide Linear;
    assert forall k :: !InPool(k, 0);
  }

  /** Every client connects to the port of its pod's offset, and to the base port if the pod has none. */
  lemma {:induction false} ClientPorts(cfg: Config, pod: Name, l: Link)
    requires l in ClientLinks(cfg, pod)
    ensures l.port == if pod in cfg.offsets then BASE_PORT + cfg.offsets[pod] else BASE_PORT
    ensures l.ip in cfg.peers
  {
    hide Linear;
  }

  /** The worker process. `cpu` is its stress load; the other loads are what its state records. */
  class Worker {
    const cpu: CpuLoad.CpuLoad
    var running: bool
    var servers: set<nat>
    var clients: seq<Link>
    var cpuMillicores: real
    var ramMb: real
    var netMbps: real

    constructor (cpu: CpuLoad.CpuLoad)
      ensures this.cpu == cpu && !running && servers == {} && clients == []
      ensures cpuMillicores == ramMb == netMbps == 0.0
    {
      this.cpu, running, servers, clients, cpuMillicores, ramMb, netMbps := cpu, false, {}, [], 0.0, 0.0, 0.0;
    }

    method StopAll()
      modifies this, cpu
      ensures !running && servers == {} && clients == []
      ensures cpuMillicores == ramMb == netMbps == 0.0 && cpu.Current() == CpuLoad.IDLE
    {
      running, servers, clients, cpuMillicores, ramMb, netMbps := false, {}, [], 0.0, 0.0, 0.0;
      cpu.StopCurrent();
    }

    /** `bound` says whether the base port came up in time; without it no client is started. */
    method StartNetwork(mbps: real, peers: seq<Name>, serverCount: nat, offset: nat, defaultPool: nat, bound: bool)
      requires servers == {} && clients == []
      modifies this`servers, this`clients
      ensures servers == PortRange(PoolSize(mbps, serverCount, defaultPool))
      ensures clients == if !bound || mbps <= 0.0 || peers == [] then []
              else Links(peers, BASE_PORT + offset, mbps / |peers| as real)
    {
      var pool := PoolSize(mbps, serverCount, defaultPool);
      if serverCount == 0 && mbps <= 0.0 {
        return;
      }
      for k := 0 to pool
        invariant servers == PortRange(k) && clients == []
      {
        servers := servers + {BASE_PORT + k};
      }
      if !bound || mbps <= 0.0 || peers == [] {
        return;
      }
      var rate := mbps / |peers| as real;
      for i := 0 to |peers|
        invariant clients == Links(peers, BASE_PORT + offset, rate)[..i]
        invariant servers == PortRange(pool)
      {
        clients := clients + [Link(peers[i], BASE_PORT + offset, rate)];
      }
    }

    /** Stop everything; then, unless there is nothing to do, bring the network up as the configuration says, seed the
        stress load at the full target, and record the targets the two correction loops work towards. */
    method Configure(cfg: Config, pod: Name, defaultPool: nat, bound: bool)
      modifies this, cpu
      ensures running == !IsIdle(cfg)
      ensures cpuMillicores == Linear(cfg.cpu, cfg.x)
      ensures ramMb == Linear(cfg.ram, cfg.x)
      ensures netMbps == Linear(cfg.net, cfg.x)
      ensures cpu.Current() ==
              if IsIdle(cfg) then CpuLoad.IDLE
              else CpuLoad.Step(cpu.cores, cpu.sliceMs, CpuLoad.IDLE, CpuLoad.Start(Linear(cfg.cpu, cfg.x)))
      ensures servers == OpenPorts(cfg, defaultPool)
      ensures bound ==> clients == ClientLinks(cfg, pod)
      ensures !bound ==> clients == []
    {
      StopAll();
      if IsIdle(cfg) {
        return;
      }
      StartNetwork(Linear(cfg.net, cfg.x), cfg.peers, CountOf(cfg), OffsetOf(cfg, pod), defaultPool, bound);
      var _ := cpu.StartCpu(Linear(cfg.cpu, cfg.x));
      running := true;
      cpuMillicores, ramMb, netMbps := Linear(cfg.cpu, cfg.x), Linear(cfg.ram, cfg.x), Linear(cfg.net, cfg.x);
    }
  }
}
