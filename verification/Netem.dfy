/** The per-node shaping plan and its traffic classes. */
module Netem {
  import opened Prelude
  import opened Order
  import opened LinkPlan

  datatype Node = Node(name: Name, ip: Name)

  type Nodes = map<Tier, seq<Node>>

  /** One shaped peer address; an absent delay or rate leaves that side of the link alone. */
  datatype PeerSpec = PeerSpec(ip: Name, delay: Option<nat>, rate: Option<Rate>)

  function NodesOf(nodes: Nodes, tier: Tier): seq<Node> {
    if tier in nodes then nodes[tier] else []
  }

  /** The tier at the far end of a configured pair. */
  function OtherEnd(pair: Pair, tier: Tier): Option<Tier> {
    if tier == pair.lo then Some(pair.hi) else if tier == pair.hi then Some(pair.lo) else None
  }

  /** What validation guarantees about its keys. */
  ghost predicate Normalised(pairs: set<Pair>) {
    forall p | p in pairs :: p == KeyOf(p.lo, p.hi) && p.lo != p.hi
  }

  lemma TableIsNormalised<V, W>(d: Declaration<V>, parse: V -> Option<W>)
    requires Accepted(d, parse)
    ensures Normalised(TableOf(d, parse).Keys)
  {
    var links := if d.Rows? then Links(d.rows) else [];
    TableKeys(links, parse);
    forall p | p in Table(links, parse).Keys
      ensures p == KeyOf(p.lo, p.hi) && p.lo != p.hi
    {
      var l :| l in links && KeyOf(l.a, l.b) == p;
      assert LinkOk(l, parse);
      KeySymmetric(l.a, l.b);
    }
  }

  lemma OtherEndIs(pair: Pair, tier: Tier, other: Tier)
    requires pair == KeyOf(pair.lo, pair.hi) && pair.lo != pair.hi
    ensures OtherEnd(pair, tier) == Some(other) <==> other != tier && pair == KeyOf(tier, other)
  {
    KeySymmetric(tier, other);
    KeySymmetric(pair.lo, pair.hi);
  }

  ghost predicate Via(s: PeerSpec, pair: Pair, tier: Tier, nodes: Nodes, latency: map<Pair, nat>,
                      bandwidth: map<Pair, Rate>) {
    && OtherEnd(pair, tier).Some?
    && exists n ::
         n in NodesOf(nodes, OtherEnd(pair, tier).value) &&
             s == PeerSpec(n.ip, Find(latency, pair), Find(bandwidth, pair))
  }

  ghost predicate AddressesDistinct(nodes: Nodes) {
    forall t, u, i, j | 0 <= i < |NodesOf(nodes, t)| && 0 <= j < |NodesOf(nodes, u)| &&
        NodesOf(nodes, t)[i].ip == NodesOf(nodes, u)[j].ip ::
      t == u && i == j
  }

  ghost predicate IpsDistinct(specs: seq<PeerSpec>) {
    forall i, j | 0 <= i < j < |specs| :: specs[i].ip != specs[j].ip
  }

  /** The plan of a tier's nodes: one entry for each node at the far end of each configured pair. */
  ghost predicate IsPlan(specs: seq<PeerSpec>, pairs: set<Pair>, tier: Tier, nodes: Nodes, latency: map<Pair, nat>,
                         bandwidth: map<Pair, Rate>) {
    && (forall s :: s in specs <==> exists p :: p in pairs && Via(s, p, tier, nodes, latency, bandwidth))
    && (AddressesDistinct(nodes) ==> IpsDistinct(specs))
  }

  function SpecsFor(members: seq<Node>, delay: Option<nat>, rate: Option<Rate>): (specs: seq<PeerSpec>)
    ensures |specs| == |members|
    ensures forall i | 0 <= i < |members| :: specs[i] == PeerSpec(members[i].ip, delay, rate)
  {
    seq(|members|, i requires 0 <= i < |members| => PeerSpec(members[i].ip, delay, rate))
  }

  lemma PlanGrows(specs: seq<PeerSpec>, pairs: set<Pair>, pair: Pair, tier: Tier, nodes: Nodes,
                  latency: map<Pair, nat>, bandwidth: map<Pair, Rate>)
    requires IsPlan(specs, pairs, tier, nodes, latency, bandwidth)
    requires Normalised(pairs + {pair}) && pair !in pairs
    ensures var more := if OtherEnd(pair, tier).None? then []
                        else SpecsFor(NodesOf(nodes, OtherEnd(pair, tier).value), Find(latency, pair),
                            Find(bandwidth, pair));
            IsPlan(specs + more, pairs + {pair}, tier, nodes, latency, bandwidth)
  {
    hide KeyOf;
    var more := if OtherEnd(pair, tier).None? then []
                else SpecsFor(NodesOf(nodes, OtherEnd(pair, tier).value), Find(latency, pair), Find(bandwidth, pair));
    assert forall s :: s in more <==> Via(s, pair, tier, nodes, latency, bandwidth);
    if AddressesDistinct(nodes) {
      forall s, r | s in specs && r in more
        ensures s.ip != r.ip
      {
        var p :| p in pairs && Via(s, p, tier, nodes, latency, bandwidth);
        FarEndsDiffer(s, p, r, pair, tier, nodes, latency, bandwidth);
      }
      hide Via, Normalised, IsPlan;
      IpsStayDistinct(specs, more);
    }
    hide Via, Normalised, AddressesDistinct, IpsDistinct;
  }

  lemma IpsStayDistinct(specs: seq<PeerSpec>, more: seq<PeerSpec>)
    requires IpsDistinct(specs) && IpsDistinct(more)
    requires forall s, r | s in specs && r in more :: s.ip != r.ip
    ensures IpsDistinct(specs + more)
  {
    forall i, j | 0 <= i < |specs| && 0 <= j < |more|
      ensures specs[i].ip != more[j].ip
    {
      assert specs[i] in specs && more[j] in more;
    }
  }

  lemma FarEndsDiffer(s: PeerSpec, p: Pair, r: PeerSpec, q: Pair, tier: Tier, nodes: Nodes, latency: map<Pair, nat>,
                      bandwidth: map<Pair, Rate>)
    requires p == KeyOf(p.lo, p.hi) && p.lo != p.hi && q == KeyOf(q.lo, q.hi) && q.lo != q.hi && p != q
    requires AddressesDistinct(nodes)
    requires Via(s, p, tier, nodes, latency, bandwidth) && Via(r, q, tier, nodes, latency, bandwidth)
    ensures s.ip != r.ip
  {
    hide KeyOf;
    DifferentPairsDifferentTiers(p, q, tier);
    var n :| n in NodesOf(nodes, OtherEnd(p, tier).value) && s == PeerSpec(n.ip, Find(latency, p), Find(bandwidth, p));
    var m :| m in NodesOf(nodes, OtherEnd(q, tier).value) && r == PeerSpec(m.ip, Find(latency, q), Find(bandwidth, q));
  }

  lemma DifferentPairsDifferentTiers(p: Pair, q: Pair, tier: Tier)
    requires p == KeyOf(p.lo, p.hi) && p.lo != p.hi && q == KeyOf(q.lo, q.hi) && q.lo != q.hi && p != q
    requires OtherEnd(p, tier).Some? && OtherEnd(q, tier).Some?
    ensures OtherEnd(p, tier) != OtherEnd(q, tier)
  {
    OtherEndIs(p, tier, OtherEnd(p, tier).value);
    OtherEndIs(q, tier, OtherEnd(q, tier).value);
  }

  /** The inner loop: every node at the far end of one pair. */
  method AppendPeers(specs0: seq<PeerSpec>, members: seq<Node>, delay: Option<nat>, rate: Option<Rate>)
    returns (specs: seq<PeerSpec>)
    ensures specs == specs0 + SpecsFor(members, delay, rate)
  {
    specs := specs0;
    for i := 0 to |members|
      invariant specs == specs0 + SpecsFor(members, delay, rate)[..i]
    {
      specs := specs + [PeerSpec(members[i].ip, delay, rate)];
    }
  }

  /** Collect the peers of one tier, pair by pair in whatever order the set yields them. */
  method PlanFor(tier: Tier, nodes: Nodes, latency: map<Pair, nat>, bandwidth: map<Pair, Rate>)
    returns (specs: seq<PeerSpec>)
    requires Normalised(latency.Keys + bandwidth.Keys)
    ensures IsPlan(specs, latency.Keys + bandwidth.Keys, tier, nodes, latency, bandwidth)
  {
    specs := [];
    var pairs := latency.Keys + bandwidth.Keys;
    var pending := pairs;
    assert pairs - pending == {};
    assert IsPlan(specs, pairs - pending, tier, nodes, latency, bandwidth);
    hide *;
    while pending != {}
      invariant pending <= pairs
      invariant IsPlan(specs, pairs - pending, tier, nodes, latency, bandwidth)
    {
      var pair :| pair in pending;
      NormalisedSubset(pairs, pairs - pending + {pair});
      PlanGrows(specs, pairs - pending, pair, tier, nodes, latency, bandwidth);
      assert pairs - pending + {pair} == pairs - (pending - {pair});
      pending := pending - {pair};
      var other := OtherEnd(pair, tier);
      if other.Some? {
        specs := AppendPeers(specs, NodesOf(nodes, other.value), Find(latency, pair), Find(bandwidth, pair));
      } else {
        assert specs + [] == specs;
      }
    }
    assert pairs - pending == pairs;
  }

  /** Validate both declarations, then plan every tier. */
  method PlanAll(latency: Declaration<Duration>, bandwidth: Declaration<Rate>, nodes: Nodes)
    returns (plans: Option<map<Tier, seq<PeerSpec>>>)
    ensures plans.Some? <==> Accepted(latency, ParseDuration) && Accepted(bandwidth, ParseRate)
    ensures plans.Some? ==>
            PlansFor(plans.value, nodes.Keys, TableOf(latency, ParseDuration), TableOf(bandwidth, ParseRate), nodes)
  {
    hide *;
    var delays := ValidatePairs(latency, ParseDuration);
    if delays.None? {
      return None;
    }
    var rates := ValidatePairs(bandwidth, ParseRate);
    if rates.None? {
      return None;
    }
    TableIsNormalised(latency, ParseDuration);
    TableIsNormalised(bandwidth, ParseRate);
    NormalisedUnion(delays.value.Keys, rates.value.Keys);
    var done: map<Tier, seq<PeerSpec>> := map[];
    var pending := nodes.Keys;
    NoPlans(delays.value, rates.value, nodes);
    assert nodes.Keys - pending == {};
    while pending != {}
      invariant pending <= nodes.Keys
      invariant PlansFor(done, nodes.Keys - pending, delays.value, rates.value, nodes)
    {
      var tier :| tier in pending;
      var specs := PlanFor(tier, nodes, delays.value, rates.value);
      OnePlanMore(done, nodes.Keys - pending, delays.value, rates.value, nodes, tier, specs);
      assert nodes.Keys - pending + {tier} == nodes.Keys - (pending - {tier});
      done := done[tier := specs];
      pending := pending - {tier};
    }
    assert nodes.Keys - pending == nodes.Keys;
    plans := Some(done);
  }

  ghost predicate PlansFor(plans: map<Tier, seq<PeerSpec>>, tiers: set<Tier>, latency: map<Pair, nat>,
                           bandwidth: map<Pair, Rate>, nodes: Nodes) {
    && plans.Keys == tiers
    && forall tier {:trigger plans[tier]} | tier in tiers ::
         IsPlan(plans[tier], latency.Keys + bandwidth.Keys, tier, nodes, latency, bandwidth)
  }

  lemma NoPlans(latency: map<Pair, nat>, bandwidth: map<Pair, Rate>, nodes: Nodes)
    ensures PlansFor(map[], {}, latency, bandwidth, nodes)
  {
  }

  lemma OnePlanMore(plans: map<Tier, seq<PeerSpec>>, tiers: set<Tier>, latency: map<Pair, nat>,
                    bandwidth: map<Pair, Rate>, nodes: Nodes, tier: Tier, specs: seq<PeerSpec>)
    requires PlansFor(plans, tiers, latency, bandwidth, nodes)
    requires IsPlan(specs, latency.Keys + bandwidth.Keys, tier, nodes, latency, bandwidth)
    ensures PlansFor(plans[tier := specs], tiers + {tier}, latency, bandwidth, nodes)
  {
    hide IsPlan;
  }

  /** Plans for declarations that differ only in orientation exist together and shape the same peers in the
      same way on every tier. */
  lemma {:induction false} FlippingKeepsPlans(latency: Declaration<Duration>, flipped: Declaration<Duration>,
                           bandwidth: Declaration<Rate>, turned: Declaration<Rate>, nodes: Nodes,
                           plans: map<Tier, seq<PeerSpec>>, others: map<Tier, seq<PeerSpec>>)
    requires SameUpToOrientation(latency, flipped) && SameUpToOrientation(bandwidth, turned)
    ensures Accepted(latency, ParseDuration) && Accepted(bandwidth, ParseRate)
            <==> Accepted(flipped, ParseDuration) && Accepted(turned, ParseRate)
    ensures Accepted(latency, ParseDuration) && Accepted(bandwidth, ParseRate) &&
            PlansFor(plans, nodes.Keys, TableOf(latency, ParseDuration), TableOf(bandwidth, ParseRate), nodes) &&
            PlansFor(others, nodes.Keys, TableOf(flipped, ParseDuration), TableOf(turned, ParseRate), nodes) ==>
              SamePlans(plans, others, nodes)
  {
    hide *;
    OrientationIsIrrelevant(latency, flipped, ParseDuration);
    OrientationIsIrrelevant(bandwidth, turned, ParseRate);
    PlansAreDetermined(plans, others, TableOf(latency, ParseDuration), TableOf(bandwidth, ParseRate), nodes);
  }

  /** The same peers with the same shaping on every tier, each as often when addresses are distinct. */
  ghost predicate SamePlans(plans: map<Tier, seq<PeerSpec>>, others: map<Tier, seq<PeerSpec>>, nodes: Nodes) {
    && plans.Keys == nodes.Keys == others.Keys
    && forall tier | tier in nodes ::
         && (forall s :: s in plans[tier] <==> s in others[tier])
         && (AddressesDistinct(nodes) ==> multiset(plans[tier]) == multiset(others[tier]))
  }

  lemma PlansAreDetermined(plans: map<Tier, seq<PeerSpec>>, others: map<Tier, seq<PeerSpec>>,
                           latency: map<Pair, nat>, bandwidth: map<Pair, Rate>, nodes: Nodes)
    ensures PlansFor(plans, nodes.Keys, latency, bandwidth, nodes) &&
            PlansFor(others, nodes.Keys, latency, bandwidth, nodes) ==>
              SamePlans(plans, others, nodes)
  {
    if PlansFor(plans, nodes.Keys, latency, bandwidth, nodes) &&
        PlansFor(others, nodes.Keys, latency, bandwidth, nodes) {
      forall tier | tier in nodes
        ensures forall s :: s in plans[tier] <==> s in others[tier]
        ensures AddressesDistinct(nodes) ==> multiset(plans[tier]) == multiset(others[tier])
      {
        if AddressesDistinct(nodes) {
          SameSpecs(plans[tier], others[tier]);
        }
        hide Via, AddressesDistinct, IpsDistinct;
      }
      hide IsPlan, AddressesDistinct;
    }
  }

  lemma SameSpecs(specs: seq<PeerSpec>, others: seq<PeerSpec>)
    ensures IpsDistinct(specs) && IpsDistinct(others) && (forall s :: s in specs <==> s in others) ==>
            multiset(specs) == multiset(others)
  {
    if IpsDistinct(specs) && IpsDistinct(others) && forall s :: s in specs <==> s in others {
      assert Distinct(specs) && Distinct(others);
      forall s
        ensures multiset(specs)[s] == multiset(others)[s]
      {
        DistinctOnce(specs, s);
        DistinctOnce(others, s);
        assert s in specs <==> s in multiset(specs);
        assert s in others <==> s in multiset(others);
      }
    }
  }

  lemma NormalisedUnion(some: set<Pair>, others: set<Pair>)
    requires Normalised(some) && Normalised(others)
    ensures Normalised(some + others)
  {
  }

  lemma NormalisedSubset(pairs: set<Pair>, some: set<Pair>)
    requires Normalised(pairs) && some <= pairs
    ensures Normalised(some)
  {
  }

  // ---- the plans of two nodes ----

  /** A node lists another exactly when their tiers differ and the pair of tiers is configured, with the
      pair's delay and rate. */
  lemma {:induction false} ListedExactlyWhen(specs: seq<PeerSpec>, pairs: set<Pair>, a: Tier, b: Tier, y: Node,
                                             nodes: Nodes, latency: map<Pair, nat>, bandwidth: map<Pair, Rate>)
    requires Normalised(pairs) && AddressesDistinct(nodes) && y in NodesOf(nodes, b)
    requires IsPlan(specs, pairs, a, nodes, latency, bandwidth)
    ensures (exists s :: s in specs && s.ip == y.ip) <==> a != b && KeyOf(a, b) in pairs
    ensures forall s | s in specs && s.ip == y.ip ::
            s.delay == Find(latency, KeyOf(a, b)) && s.rate == Find(bandwidth, KeyOf(a, b))
  {
    hide KeyOf;
    forall s | s in specs && s.ip == y.ip
      ensures a != b && KeyOf(a, b) in pairs
      ensures s.delay == Find(latency, KeyOf(a, b)) && s.rate == Find(bandwidth, KeyOf(a, b))
    {
      var p :| p in pairs && Via(s, p, a, nodes, latency, bandwidth);
      var other := OtherEnd(p, a).value;
      var n :| n in NodesOf(nodes, other) && s == PeerSpec(n.ip, Find(latency, p), Find(bandwidth, p));
      assert other == b;
      OtherEndIs(p, a, b);
    }
    if a != b && KeyOf(a, b) in pairs {
      var p := KeyOf(a, b);
      OtherEndIs(p, a, b);
      var s := PeerSpec(y.ip, Find(latency, p), Find(bandwidth, p));
      assert Via(s, p, a, nodes, latency, bandwidth);
      assert s in specs;
    }
  }

  /** Shaping is symmetric: two nodes of different tiers list each other, once each, exactly when their
      tiers are a configured pair, and then with the same delay and rate; nodes of one tier never do. */
  lemma {:induction false} ShapingIsSymmetric(planA: seq<PeerSpec>, planB: seq<PeerSpec>, pairs: set<Pair>, a: Tier,
                                              b: Tier, x: Node, y: Node,
                           nodes: Nodes, latency: map<Pair, nat>, bandwidth: map<Pair, Rate>)
    requires Normalised(pairs) && AddressesDistinct(nodes) && x in NodesOf(nodes, a) && y in NodesOf(nodes, b)
    requires IsPlan(planA, pairs, a, nodes, latency, bandwidth) && IsPlan(planB, pairs, b, nodes, latency, bandwidth)
    ensures (exists s :: s in planA && s.ip == y.ip) <==> a != b && KeyOf(a, b) in pairs
    ensures (exists s :: s in planA && s.ip == y.ip) <==> (exists s :: s in planB && s.ip == x.ip)
    ensures forall s, r | s in planA && s.ip == y.ip && r in planB && r.ip == x.ip ::
            s.delay == r.delay && s.rate == r.rate
    ensures IpsDistinct(planA) && IpsDistinct(planB)
  {
    hide KeyOf;
    KeySymmetric(a, b);
    ListedExactlyWhen(planA, pairs, a, b, y, nodes, latency, bandwidth);
    ListedExactlyWhen(planB, pairs, b, a, x, nodes, latency, bandwidth);
  }

  // ---- traffic classes ----

  const DEFAULT_CLASS: nat := 9999
  const FIRST_CLASS: nat := 10

  datatype ClassRate = Unshaped | Shaped(rate: TcRate)

  datatype Command =
    | AddClass(id: nat, rate: ClassRate)
    | AddDelay(id: nat, handle: nat, us: nat)
    | AddFilter(ip: Name, id: nat)

  /** What a decimal numeral means when it is read as a hexadecimal one. */
  function AsHex(n: nat): nat {
    if n < 10 then n else 16 * AsHex(n / 10) + n % 10
  }

  /** The delay under class 1:N hangs on handle N0:, which tc reads in hexadecimal. */
  function HandleOf(id: nat): nat {
    AsHex(10 * id)
  }

  const HANDLE_LIMIT: nat := 0x1_0000

  const ROOT_HANDLE: nat := 1

  function ClassRateOf(rate: Option<Rate>): ClassRate {
    if rate.None? || BytesPerSecond(rate.value).None? then Unshaped else Shaped(ToTc(BytesPerSecond(rate.value).value))
  }

  /** The commands for one peer: a class, a delay when there is one, and the filter that selects the class. */
  function PeerCommands(spec: PeerSpec, id: nat): seq<Command> {
    [AddClass(id, ClassRateOf(spec.rate))]
    + (if IsDelayed(spec) then [AddDelay(id, HandleOf(id), spec.delay.value)] else [])
    + [AddFilter(spec.ip, id)]
  }

  function Script(specs: seq<PeerSpec>): seq<Command> {
    if specs == [] then []
    else Script(specs[..|specs| - 1]) + PeerCommands(specs[|specs| - 1], FIRST_CLASS + |specs| - 1)
  }

  method ShapeScript(specs: seq<PeerSpec>) returns (commands: seq<Command>)
    ensures commands == Script(specs)
  {
    commands := [];
    for i := 0 to |specs|
      invariant commands == Script(specs[..i])
    {
      assert specs[..i + 1][..i] == specs[..i];
      var id := FIRST_CLASS + i;
      commands := commands + [AddClass(id, ClassRateOf(specs[i].rate))];
      if specs[i].delay.Some? && specs[i].delay.value > 0 {
        commands := commands + [AddDelay(id, HandleOf(id), specs[i].delay.value)];
      }
      commands := commands + [AddFilter(specs[i].ip, id)];
    }
    assert specs[..|specs|] == specs;
  }

  lemma {:induction false} ScriptCommands(specs: seq<PeerSpec>, c: Command)
    ensures c in Script(specs) <==>
            FIRST_CLASS <= c.id < FIRST_CLASS + |specs| && c in PeerCommands(specs[c.id - FIRST_CLASS], c.id)
  {
    if specs != [] {
      var front, last := specs[..|specs| - 1], specs[|specs| - 1];
      ScriptCommands(front, c);
      PeerCommandsAre(last, FIRST_CLASS + |front|, c);
      hide PeerCommands;
      assert c in Script(specs) <==> c in Script(front) || c in PeerCommands(last, FIRST_CLASS + |front|);
    }
  }

  /** Every peer has a class of its own: no two filters share one. */
  lemma {:induction false} FiltersAreSeparate(specs: seq<PeerSpec>, ip: Name, id: nat, other: Name, otherId: nat)
    requires IpsDistinct(specs) && AddFilter(ip, id) in Script(specs) && AddFilter(other, otherId) in Script(specs)
    ensures id == otherId <==> ip == other
  {
    ScriptCommands(specs, AddFilter(ip, id));
    ScriptCommands(specs, AddFilter(other, otherId));
  }

  lemma AsHexUnfolds(n: nat)
    ensures AsHex(n) == if n < 10 then n else 16 * AsHex(n / 10) + n % 10
    ensures n == 10 * (n / 10) + n % 10 && 0 <= n % 10 < 10
  {
  }

  lemma {:induction false} AsHexGrows(m: nat, n: nat)
    requires m < n
    ensures AsHex(m) < AsHex(n)
    decreases n
  {
    AsHexUnfolds(m);
    AsHexUnfolds(n);
    hide AsHex;
    if m >= 10 {
      var high, higher := m / 10, n / 10;
      if high < higher {
        AsHexGrows(high, higher);
      } else {
        assert high == higher;
      }
    } else if n >= 10 {
      AsHexKeeps(n / 10);
    }
  }

  lemma {:induction false} AsHexKeeps(n: nat)
    ensures AsHex(n) >= n
  {
    if n >= 10 {
      AsHexKeeps(n / 10);
    }
  }

  /** Every delay has a handle of its own, and none takes the root's. */
  lemma {:induction false} HandlesAreSeparate(specs: seq<PeerSpec>, c: Command, d: Command)
    requires c.AddDelay? && d.AddDelay? && c in Script(specs) && d in Script(specs)
    ensures c.handle == d.handle <==> c == d
    ensures c.handle != ROOT_HANDLE
  {
    ScriptCommands(specs, c);
    ScriptCommands(specs, d);
    DelayOfPeer(specs[c.id - FIRST_CLASS], c.id, c);
    DelayOfPeer(specs[d.id - FIRST_CLASS], d.id, d);
    hide PeerCommands, Script, AsHex;
    AsHexKeeps(10 * c.id);
    if c.id < d.id {
      AsHexGrows(10 * c.id, 10 * d.id);
    } else if d.id < c.id {
      AsHexGrows(10 * d.id, 10 * c.id);
    }
  }

  lemma HandleFits(id: nat)
    ensures HandleOf(id) < HANDLE_LIMIT <==> id < 1000
  {
    assert AsHex(9990) == 0x9990 && AsHex(10000) == 0x1_0000;
    hide AsHex;
    if 10 * id < 9990 {
      AsHexGrows(10 * id, 9990);
    } else if 10 * id > 10000 {
      AsHexGrows(10000, 10 * id);
    }
  }

  /** The handles fit the sixteen bits tc has for them exactly when no delayed peer comes after the first 990. */
  lemma {:induction false} HandlesFitExactlyWhen(specs: seq<PeerSpec>)
    ensures (forall c | c in Script(specs) && c.AddDelay? :: c.handle < HANDLE_LIMIT) <==>
            forall i | 990 <= i < |specs| :: !IsDelayed(specs[i])
  {
    forall c | c in Script(specs) && c.AddDelay?
      ensures FIRST_CLASS <= c.id < FIRST_CLASS + |specs| && IsDelayed(specs[c.id - FIRST_CLASS]) &&
              c.handle == HandleOf(c.id)
    {
      ScriptCommands(specs, c);
      DelayOfPeer(specs[c.id - FIRST_CLASS], c.id, c);
      hide Script, PeerCommands, HandleOf;
    }
    forall i | 0 <= i < |specs| && IsDelayed(specs[i])
      ensures AddDelay(FIRST_CLASS + i, HandleOf(FIRST_CLASS + i), specs[i].delay.value) in Script(specs)
    {
      var c := AddDelay(FIRST_CLASS + i, HandleOf(FIRST_CLASS + i), specs[i].delay.value);
      ScriptCommands(specs, c);
      DelayedHasDelay(specs[i], FIRST_CLASS + i);
      hide Script, PeerCommands, HandleOf;
    }
    forall id
      ensures HandleOf(id) < HANDLE_LIMIT <==> id < 1000
    {
      HandleFits(id);
    }
    hide Script, HandleOf, IsDelayed;
  }

  predicate IsDelayed(spec: PeerSpec) {
    spec.delay.Some? && spec.delay.value > 0
  }

  lemma DelayedHasDelay(spec: PeerSpec, id: nat)
    requires IsDelayed(spec)
    ensures AddDelay(id, HandleOf(id), spec.delay.value) in PeerCommands(spec, id)
  {
    hide ClassRateOf, HandleOf;
    var commands := PeerCommands(spec, id);
    assert commands[1] == AddDelay(id, HandleOf(id), spec.delay.value);
  }

  lemma DelayOfPeer(spec: PeerSpec, id: nat, c: Command)
    requires c.AddDelay? && c in PeerCommands(spec, id)
    ensures IsDelayed(spec) && c == AddDelay(id, HandleOf(id), spec.delay.value)
  {
  }

  /** What is configured on a filter's class is what the plan gives that filter's address. */
  lemma {:induction false} ClassBelongsToPeer(specs: seq<PeerSpec>, i: nat, c: Command)
    requires i < |specs|
    ensures AddFilter(specs[i].ip, FIRST_CLASS + i) in Script(specs)
    ensures c in Script(specs) && c.id == FIRST_CLASS + i <==> c in PeerCommands(specs[i], FIRST_CLASS + i)
  {
    PeerCommandsAre(specs[i], FIRST_CLASS + i, c);
    ScriptCommands(specs, AddFilter(specs[i].ip, FIRST_CLASS + i));
    ScriptCommands(specs, c);
    hide PeerCommands, Script;
  }

  /** What one peer's class, delay and filter are: the class is capped at exactly the pair's bytes per second when it
      has
      a rate and unshaped exactly when it has none, and the delay is the pair's. */
  lemma {:induction false} PeerIsShaped(specs: seq<PeerSpec>, i: nat, cap: ClassRate, handle: nat, us: nat, ip: Name)
    requires i < |specs| && (specs[i].rate.Some? ==> ParseRate(specs[i].rate.value).Some?)
    ensures AddClass(FIRST_CLASS + i, cap) in Script(specs) <==> IsCapOf(cap, specs[i])
    ensures AddDelay(FIRST_CLASS + i, handle, us) in Script(specs) <==>
            specs[i].delay == Some(us) && us > 0 && handle == HandleOf(FIRST_CLASS + i)
    ensures AddFilter(ip, FIRST_CLASS + i) in Script(specs) <==> ip == specs[i].ip
  {
    var id := FIRST_CLASS + i;
    ScriptCommands(specs, AddClass(id, cap));
    ScriptCommands(specs, AddDelay(id, handle, us));
    ScriptCommands(specs, AddFilter(ip, id));
    CapIsRight(specs[i].rate);
    PeerCommandList(specs[i], id);
    hide Script, PeerCommands, HandleOf, ClassRateOf;
  }

  ghost predicate IsCapOf(cap: ClassRate, spec: PeerSpec) {
    match cap
    case Unshaped => spec.rate == None
    case Shaped(rate) => spec.rate.Some? && BytesPerSecond(spec.rate.value).Some? &&
                         rate == ToTc(BytesPerSecond(spec.rate.value).value) &&
                         InBits(rate) == 8 * BytesPerSecond(spec.rate.value).value
  }

  lemma CapIsRight(rate: Option<Rate>)
    requires rate.Some? ==> ParseRate(rate.value).Some?
    ensures forall spec: PeerSpec, cap | spec.rate == rate :: IsCapOf(cap, spec) <==> cap == ClassRateOf(rate)
  {
    hide ToTc;
  }

  lemma PeerCommandList(spec: PeerSpec, id: nat)
    ensures forall c :: c in PeerCommands(spec, id) <==>
              || c == AddClass(id, ClassRateOf(spec.rate))
              || (IsDelayed(spec) && c == AddDelay(id, HandleOf(id), spec.delay.value))
              || c == AddFilter(spec.ip, id)
  {
    hide ClassRateOf, HandleOf;
    var commands := PeerCommands(spec, id);
    assert commands[0] == AddClass(id, ClassRateOf(spec.rate)) && commands[|commands| - 1] == AddFilter(spec.ip, id);
    if IsDelayed(spec) {
      assert commands[1] == AddDelay(id, HandleOf(id), spec.delay.value);
    }
  }

  lemma PeerCommandsAre(spec: PeerSpec, id: nat, c: Command)
    ensures AddFilter(spec.ip, id) in PeerCommands(spec, id)
    ensures c in PeerCommands(spec, id) ==> c.id == id
  {
    var commands := PeerCommands(spec, id);
    assert commands[|commands| - 1] == AddFilter(spec.ip, id);
  }

  /** No peer's class collides with the default class exactly up to 9989 peers. */
  lemma {:induction false} DefaultClassIsClear(specs: seq<PeerSpec>)
    ensures (forall c | c in Script(specs) :: c.id != DEFAULT_CLASS) <==> |specs| <= DEFAULT_CLASS - FIRST_CLASS
  {
    hide ClassRateOf;
    forall c | c in Script(specs)
      ensures FIRST_CLASS <= c.id < FIRST_CLASS + |specs|
    {
      ScriptCommands(specs, c);
    }
    if |specs| > DEFAULT_CLASS - FIRST_CLASS {
      var c := AddFilter(specs[DEFAULT_CLASS - FIRST_CLASS].ip, DEFAULT_CLASS);
      ScriptCommands(specs, c);
      assert c in Script(specs);
    }
  }
}
