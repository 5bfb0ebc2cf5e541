/** The iperf3 server recycler as a tick machine over its port tables. */
module Recycler {
  import opened Prelude

  type Port = nat

  /** What one tick observes: the clock, the ports with a live inbound connection, and every pooled server
      with whether its process is still alive. */
  datatype Tick = Tick(now: real, connected: set<Port>, pool: map<Port, bool>)

  datatype Action = Nothing | Respawn | Recycle

  predicate Live(tick: Tick, p: Port) {
    p in tick.pool && tick.pool[p]
  }

  /** The tables restricted to one port: when a connection was last seen since the port was last reset. */
  function PortAction(seen: Option<real>, tick: Tick, p: Port, grace: real): Action {
    if p !in tick.pool then Nothing
    else if !tick.pool[p] then Respawn
    else if p in tick.connected then Nothing
    else if seen.Some? && tick.now - seen.value >= grace then Recycle
    else Nothing
  }

  function PortNext(seen: Option<real>, tick: Tick, p: Port, grace: real): Option<real> {
    if p !in tick.pool then None
    else if !tick.pool[p] then None
    else if p in tick.connected then Some(tick.now)
    else if seen.Some? && tick.now - seen.value >= grace then None
    else seen
  }

  ghost function SeenAfter(ticks: seq<Tick>, p: Port, grace: real): Option<real> {
    if ticks == [] then None
    else PortNext(SeenAfter(ticks[..|ticks| - 1], p, grace), ticks[|ticks| - 1], p, grace)
  }

  /** Tick j recycled p for being idle past the grace. */
  ghost predicate Recycled(ticks: seq<Tick>, j: nat, p: Port, grace: real)
    requires j < |ticks|
  {
    PortAction(SeenAfter(ticks[..j], p, grace), ticks[j], p, grace) == Recycle
  }

  /** Tick j brought p's server back because its process had exited. */
  ghost predicate Respawned(ticks: seq<Tick>, j: nat, p: Port, grace: real)
    requires j < |ticks|
  {
    PortAction(SeenAfter(ticks[..j], p, grace), ticks[j], p, grace) == Respawn
  }

  class ServerRecycler {
    const grace: real
    var lastSeen: map<Port, real>
    var seenConn: set<Port>

    ghost predicate Valid()
      reads this
    {
      lastSeen.Keys == seenConn
    }

    ghost function Seen(p: Port): Option<real>
      reads this
    {
      if p in lastSeen then Some(lastSeen[p]) else None
    }

    constructor (grace: real)
      ensures this.grace == grace && Valid() && forall p :: Seen(p) == None
    {
      this.grace, lastSeen, seenConn := grace, map[], {};
    }

    /** The body of the pool loop for one server. */
    method Inspect(tick: Tick, port: Port) returns (action: Action)
      requires Valid() && port in tick.pool
      modifies this`lastSeen, this`seenConn
      ensures Valid()
      ensures Seen(port) == PortNext(old(Seen(port)), tick, port, grace)
      ensures action == PortAction(old(Seen(port)), tick, port, grace)
      ensures forall q {:trigger Seen(q)} | q != port :: Seen(q) == old(Seen(q))
    {
      action := Nothing;
      if !tick.pool[port] {
        action := Respawn;
        lastSeen, seenConn := lastSeen - {port}, seenConn - {port};
      } else if port in tick.connected {
        lastSeen, seenConn := lastSeen[port := tick.now], seenConn + {port};
      } else if port in seenConn && tick.now - (if port in lastSeen then lastSeen[port] else tick.now) >= grace {
        action := Recycle;
        lastSeen, seenConn := lastSeen - {port}, seenConn - {port};
      }
    }

    /** One pass over the pool. `ports` lists the pooled ports in registration order. */
    method OnTick(tick: Tick, ports: seq<Port>) returns (respawned: set<Port>, recycled: set<Port>)
      requires Valid() && Distinct(ports) && Elements(ports) == tick.pool.Keys
      modifies this`lastSeen, this`seenConn
      ensures Valid()
      ensures forall p {:trigger Seen(p)} :: Seen(p) == PortNext(old(Seen(p)), tick, p, grace)
      ensures forall p :: p in recycled <==> PortAction(old(Seen(p)), tick, p, grace) == Recycle
      ensures forall p :: p in respawned <==> PortAction(old(Seen(p)), tick, p, grace) == Respawn
    {
      respawned, recycled := {}, {};
      var done: set<Port> := {};
      for i := 0 to |ports|
        invariant Valid()
        invariant done == Elements(ports[..i])
        invariant forall p {:trigger Seen(p)} | p in done :: Seen(p) == PortNext(old(Seen(p)), tick, p, grace)
        invariant forall p {:trigger Seen(p)} | p !in done :: Seen(p) == old(Seen(p))
        invariant forall p :: p in recycled <==> p in done && PortAction(old(Seen(p)), tick, p, grace) == Recycle
        invariant forall p :: p in respawned <==> p in done && PortAction(old(Seen(p)), tick, p, grace) == Respawn
      {
        var port := ports[i];
        TakeOne(ports, i);
        assert Seen(port) == old(Seen(port));
        var action := Inspect(tick, port);
        if action == Recycle {
          recycled := recycled + {port};
        } else if action == Respawn {
          respawned := respawned + {port};
        }
        done := done + {port};
      }
      assert ports[..|ports|] == ports;
      Forget(tick.pool.Keys);
    }

    /** Drop the state of ports that left the pool. */
    method Forget(pool: set<Port>)
      requires Valid()
      modifies this`lastSeen, this`seenConn
      ensures Valid()
      ensures forall p {:trigger Seen(p)} :: Seen(p) == if p in pool then old(Seen(p)) else None
    {
      var gone := lastSeen.Keys - pool;
      while gone != {}
        invariant Valid()
        invariant gone == lastSeen.Keys - pool
        invariant forall q | q in pool :: q in lastSeen <==> q in old(lastSeen)
        invariant forall q | q in pool && q in lastSeen :: lastSeen[q] == old(lastSeen)[q]
        decreases gone
      {
        var p :| p in gone;
        lastSeen, seenConn := lastSeen - {p}, seenConn - {p};
        gone := gone - {p};
      }
      forall p | p !in pool
        ensures Seen(p) == None
      {
        assert p !in gone;
      }
    }
  }

  /** A whole watch from the start: what is recycled at each tick is what the history says. */
  method Watch(ticks: seq<Tick>, orders: seq<seq<Port>>, grace: real)
    returns (log: seq<set<Port>>, revived: seq<set<Port>>)
    requires |orders| == |ticks|
    requires forall j | 0 <= j < |ticks| :: Distinct(orders[j]) && Elements(orders[j]) == ticks[j].pool.Keys
    ensures |log| == |revived| == |ticks|
    ensures forall j, p | 0 <= j < |ticks| :: p in log[j] <==> Recycled(ticks, j, p, grace)
    ensures forall j, p | 0 <= j < |ticks| :: p in revived[j] <==> p in ticks[j].pool && !ticks[j].pool[p]
  {
    hide PortAction, PortNext;
    var recycler := new ServerRecycler(grace);
    log, revived := [], [];
    for j := 0 to |ticks|
      invariant recycler.Valid() && recycler.grace == grace && fresh(recycler)
      invariant forall p {:trigger recycler.Seen(p)} :: recycler.Seen(p) == SeenAfter(ticks[..j], p, grace)
      invariant |log| == j && forall i, p | 0 <= i < j :: p in log[i] <==> Recycled(ticks, i, p, grace)
      invariant |revived| == j && forall i, p | 0 <= i < j :: p in revived[i] <==> Respawned(ticks, i, p, grace)
    {
      assert ticks[..j + 1][..j] == ticks[..j];
      var respawned, recycled := recycler.OnTick(ticks[j], orders[j]);
      log, revived := log + [recycled], revived + [respawned];
    }
    hide Respawned;
    forall j, p | 0 <= j < |ticks|
      ensures Respawned(ticks, j, p, grace) <==> p in ticks[j].pool && !ticks[j].pool[p]
    {
      RespawnedExactlyWhen(ticks, j, p, grace);
    }
  }

  // ---- what the ticks say ----

  /** p was alive, pooled and connected at tick i. */
  ghost predicate ConnectedAt(ticks: seq<Tick>, i: nat, p: Port)
    requires i < |ticks|
  {
    Live(ticks[i], p) && p in ticks[i].connected
  }

  ghost predicate IdleAt(ticks: seq<Tick>, i: nat, p: Port)
    requires i < |ticks|
  {
    Live(ticks[i], p) && p !in ticks[i].connected
  }

  /** p was connected at i and has been alive but idle, still within the grace, at every later tick before n. */
  ghost predicate IdleSince(ticks: seq<Tick>, i: nat, n: nat, p: Port, grace: real)
    requires i < n <= |ticks|
  {
    && ConnectedAt(ticks, i, p)
    && forall k {:trigger IdleAt(ticks, k, p)} | i < k < n :: IdleAt(ticks, k, p) && ticks[k].now - ticks[i].now < grace
  }

  /** The remembered time is that of the last connection, as long as nothing has reset the port since. */
  lemma {:induction false} SeenMeansIdleSince(ticks: seq<Tick>, p: Port, grace: real) returns (i: nat)
    requires SeenAfter(ticks, p, grace).Some?
    ensures i < |ticks| && IdleSince(ticks, i, |ticks|, p, grace)
    ensures SeenAfter(ticks, p, grace) == Some(ticks[i].now)
  {
    var n := |ticks| - 1;
    if ConnectedAt(ticks, n, p) {
      i := n;
    } else {
      i := SeenMeansIdleSince(ticks[..n], p, grace);
      forall k | i < k < n
        ensures IdleAt(ticks, k, p) && ticks[k].now - ticks[i].now < grace
      {
        assert IdleAt(ticks[..n], k, p);
      }
      assert IdleAt(ticks, n, p);
      assert ConnectedAt(ticks[..n], i, p);
    }
  }

  lemma {:induction false} IdleSinceMeansSeen(ticks: seq<Tick>, i: nat, n: nat, p: Port, grace: real)
    requires i < n <= |ticks| && IdleSince(ticks, i, n, p, grace)
    ensures SeenAfter(ticks[..n], p, grace) == Some(ticks[i].now)
    decreases n
  {
    var last := n - 1;
    assert ticks[..n][..last] == ticks[..last] && ticks[..n][last] == ticks[last];
    if last > i {
      assert IdleAt(ticks, last, p);
      IdleSinceMeansSeen(ticks, i, last, p, grace);
    }
  }

  /** Exactly when a tick recycles a port: it is alive and idle, some earlier tick saw it connected, since
      then it was idle at every tick without reaching the grace, and now the grace is reached. */
  lemma {:induction false} RecycledExactlyWhen(ticks: seq<Tick>, j: nat, p: Port, grace: real)
    requires j < |ticks|
    ensures Recycled(ticks, j, p, grace) <==>
            IdleAt(ticks, j, p) &&
            exists i :: 0 <= i < j && IdleSince(ticks, i, j, p, grace) && ticks[j].now - ticks[i].now >= grace
  {
    if Recycled(ticks, j, p, grace) {
      var i := SeenMeansIdleSince(ticks[..j], p, grace);
      assert ConnectedAt(ticks[..j], i, p);
      forall k | i < k < j
        ensures IdleAt(ticks, k, p) && ticks[k].now - ticks[i].now < grace
      {
        assert IdleAt(ticks[..j], k, p);
      }
      assert IdleSince(ticks, i, j, p, grace);
    }
    if i :| 0 <= i < j && IdleSince(ticks, i, j, p, grace) && ticks[j].now - ticks[i].now >= grace {
      IdleSinceMeansSeen(ticks, i, j, p, grace);
    }
  }

  /** A healthy pool is never churned: a live connection protects its server, and so does never having had
      one since the last recycle. Between two recycles of a port some tick saw it connected. */
  lemma {:induction false} HealthyServersAreLeftAlone(ticks: seq<Tick>, i: nat, j: nat, p: Port, grace: real)
    requires i < j < |ticks| && Recycled(ticks, i, p, grace)
    ensures ConnectedAt(ticks, j, p) ==> !Recycled(ticks, j, p, grace)
    ensures Recycled(ticks, j, p, grace) ==> exists k :: i < k < j && ConnectedAt(ticks, k, p)
  {
    if Recycled(ticks, j, p, grace) {
      RecycledExactlyWhen(ticks, j, p, grace);
      RecycledExactlyWhen(ticks, i, p, grace);
      var k :| 0 <= k < j && IdleSince(ticks, k, j, p, grace) && ticks[j].now - ticks[k].now >= grace;
      if k <= i {
        RecycleEndsIdling(ticks, k, i, j, p, grace);
      }
      assert ConnectedAt(ticks, k, p);
    }
  }

  lemma RecycleEndsIdling(ticks: seq<Tick>, k: nat, i: nat, j: nat, p: Port, grace: real)
    requires k <= i < j < |ticks| && IdleSince(ticks, k, j, p, grace)
    ensures !Recycled(ticks, i, p, grace)
  {
    if k < i {
      assert IdleAt(ticks, i, p);
      assert IdleSince(ticks, k, i, p, grace);
      IdleSinceMeansSeen(ticks, k, i, p, grace);
    }
  }

  /** Over all histories a port is brought back at exactly the ticks that find it pooled with its process dead, and its
      memory starts afresh. */
  lemma {:induction false} RespawnedExactlyWhen(ticks: seq<Tick>, j: nat, p: Port, grace: real)
    requires j < |ticks|
    ensures Respawned(ticks, j, p, grace) <==> p in ticks[j].pool && !ticks[j].pool[p]
    ensures Respawned(ticks, j, p, grace) ==> SeenAfter(ticks[..j + 1], p, grace) == None
  {
    assert ticks[..j + 1][..j] == ticks[..j];
  }
}
