/** Measured traffic aggregated by role and by pod. */
module Traffic {
  import opened Prelude
  import opened RoleModel

  type Pod = Name
  type Ip = Name

  datatype Flow = Flow(peer: Ip, mbps: real)

  /** One scraped pod with the egress it reports per peer address. */
  datatype Record = Record(role: Role, pod: Pod, ip: Ip, egress: seq<Flow>)

  /** A declared edge may lack an end. */
  datatype Declared = Declared(src: Option<Role>, dst: Option<Role>)

  /** A weighted edge between roles or between pods. */
  datatype Weighted = Weighted(source: Name, target: Name, mbps: real)

  // ---- sums ----

  function FlowSum(flows: seq<Flow>, ips: set<Ip>): real {
    if flows == [] then 0.0
    else
      var f := flows[|flows| - 1];
      FlowSum(flows[..|flows| - 1], ips) + if f.peer in ips then f.mbps else 0.0
  }

  function RecordSum(records: seq<Record>, ips: set<Ip>): real {
    if records == [] then 0.0
    else RecordSum(records[..|records| - 1], ips) + FlowSum(records[|records| - 1].egress, ips)
  }

  function RecordsOf(records: seq<Record>, r: Role): seq<Record> {
    if records == [] then []
    else
      var front, rec := RecordsOf(records[..|records| - 1], r), records[|records| - 1];
      if rec.role == r then front + [rec] else front
  }

  function IpsOf(records: seq<Record>, r: Role): set<Ip> {
    set rec | rec in records && rec.role == r :: rec.ip
  }

  function Total(es: seq<Weighted>): real {
    if es == [] then 0.0 else Total(es[..|es| - 1]) + es[|es| - 1].mbps
  }

  function OutOf(es: seq<Weighted>, k: Name): real {
    if es == [] then 0.0 else OutOf(es[..|es| - 1], k) + if es[|es| - 1].source == k then es[|es| - 1].mbps else 0.0
  }

  function InTo(es: seq<Weighted>, k: Name): real {
    if es == [] then 0.0 else InTo(es[..|es| - 1], k) + if es[|es| - 1].target == k then es[|es| - 1].mbps else 0.0
  }

  ghost function OutOfEach(es: seq<Weighted>): Name -> real {
    k => OutOf(es, k)
  }

  ghost function InToEach(es: seq<Weighted>): Name -> real {
    k => InTo(es, k)
  }

  lemma {:induction false} SumOfZero(keys: set<Name>, f: Name -> real)
    requires forall k | k in keys :: f(k) == 0.0
    ensures Sum(keys, f) == 0.0
    decreases |keys|
  {
    if keys != {} {
      var k :| k in keys && Sum(keys, f) == f(k) + Sum(keys - {k}, f);
      SumOfZero(keys - {k}, f);
    }
  }

  lemma BumpOne(keys: set<Name>, f: Name -> real, g: Name -> real, k: Name, v: real)
    requires k in keys && g(k) == f(k) + v && forall j | j in keys && j != k :: g(j) == f(j)
    ensures Sum(keys, g) == Sum(keys, f) + v
  {
    SumRemove(keys, f, k);
    SumRemove(keys, g, k);
    SumCongruent(keys - {k}, f, g);
  }

  /** Whatever leaves some key arrives at some key: both totals are the sum of the edge weights. */
  lemma {:induction false} TrafficIsConserved(es: seq<Weighted>, keys: set<Name>)
    requires forall e | e in es :: e.source in keys && e.target in keys
    ensures Sum(keys, OutOfEach(es)) == Total(es) == Sum(keys, InToEach(es))
  {
    if es == [] {
      SumOfZero(keys, OutOfEach(es));
      SumOfZero(keys, InToEach(es));
    } else {
      var front, last := es[..|es| - 1], es[|es| - 1];
      assert last in es;
      TrafficIsConserved(front, keys);
      BumpOne(keys, OutOfEach(front), OutOfEach(es), last.source, last.mbps);
      BumpOne(keys, InToEach(front), InToEach(es), last.target, last.mbps);
    }
  }

  // ---- role edges ----

  predicate AlreadyMeasured(measured: seq<Weighted>, src: Role, dst: Role) {
    exists i | 0 <= i < |measured| :: measured[i].source == src && measured[i].target == dst
  }

  /** One record per distinct declared pair, in declaration order. */
  function RoleEdges(declared: seq<Declared>, records: seq<Record>): seq<Weighted> {
    if declared == [] then []
    else
      var front, e := RoleEdges(declared[..|declared| - 1], records), declared[|declared| - 1];
      if e.src.None? || e.dst.None? || AlreadyMeasured(front, e.src.value, e.dst.value) then front
      else front + [Weighted(e.src.value, e.dst.value,
          RecordSum(RecordsOf(records, e.src.value), IpsOf(records, e.dst.value)))]
  }

  method MeasureRoleEdges(declared: seq<Declared>, scrapes: map<Role, seq<Record>>, ips: map<Role, set<Ip>>,
                          ghost records: seq<Record>)
    returns (measured: seq<Weighted>)
    requires forall r :: (if r in scrapes then scrapes[r] else []) == RecordsOf(records, r)
    requires forall r :: (if r in ips then ips[r] else {}) == IpsOf(records, r)
    ensures measured == RoleEdges(declared, records)
  {
    measured := [];
    var seen: set<(Role, Role)> := {};
    for i := 0 to |declared|
      invariant measured == RoleEdges(declared[..i], records)
      invariant forall s, d :: (s, d) in seen <==> AlreadyMeasured(measured, s, d)
    {
      var e := declared[i];
      assert declared[..i + 1][..i] == declared[..i];
      if e.src.Some? && e.dst.Some? && (e.src.value, e.dst.value) !in seen {
        var src, dst := e.src.value, e.dst.value;
        var targets := if dst in ips then ips[dst] else {};
        var sum := MeasureOne(if src in scrapes then scrapes[src] else [], targets);
        MeasuredAppend(measured, Weighted(src, dst, sum));
        measured := measured + [Weighted(src, dst, sum)];
        seen := seen + {(src, dst)};
      }
    }
    assert declared[..|declared|] == declared;
  }

  lemma MeasuredAppend(measured: seq<Weighted>, w: Weighted)
    ensures forall s, d :: AlreadyMeasured(measured + [w], s, d) <==>
            AlreadyMeasured(measured, s, d) || (s == w.source && d == w.target)
  {
    var all := measured + [w];
    assert all[|measured|] == w;
    forall s, d | AlreadyMeasured(measured, s, d)
      ensures AlreadyMeasured(all, s, d)
    {
      var i :| 0 <= i < |measured| && measured[i].source == s && measured[i].target == d;
      assert all[i].source == s && all[i].target == d;
    }
  }

  method MeasureOne(scrapes: seq<Record>, targets: set<Ip>) returns (sum: real)
    ensures sum == RecordSum(scrapes, targets)
  {
    sum := 0.0;
    for i := 0 to |scrapes|
      invariant sum == RecordSum(scrapes[..i], targets)
    {
      assert scrapes[..i + 1][..i] == scrapes[..i];
      var flows, before := scrapes[i].egress, sum;
      for j := 0 to |flows|
        invariant sum == before + FlowSum(flows[..j], targets)
      {
        assert flows[..j + 1][..j] == flows[..j];
        if flows[j].peer in targets {
          sum := sum + flows[j].mbps;
        }
      }
      assert flows[..|flows|] == flows;
    }
    assert scrapes[..|scrapes|] == scrapes;
  }

  /** Each declared pair is measured once. */
  lemma {:induction false} RoleEdgesAreDistinct(declared: seq<Declared>, records: seq<Record>)
    ensures var es := RoleEdges(declared, records);
            && (forall i, j | 0 <= i < j < |es| :: es[i].source != es[j].source || es[i].target != es[j].target)
            && (forall e | e in es :: Declared(Some(e.source), Some(e.target)) in declared
                                      && e.mbps == RecordSum(RecordsOf(records, e.source), IpsOf(records, e.target)))
            && (forall s, d | Declared(Some(s), Some(d)) in declared :: AlreadyMeasured(es, s, d))
  {
    hide RecordSum, RecordsOf, IpsOf;
    if declared != [] {
      var front, last := declared[..|declared| - 1], declared[|declared| - 1];
      RoleEdgesAreDistinct(front, records);
      assert declared == front + [last];
      if last.src.Some? && last.dst.Some? &&
          !AlreadyMeasured(RoleEdges(front, records), last.src.value, last.dst.value) {
        MeasuredAppend(RoleEdges(front, records), RoleEdges(declared, records)[|RoleEdges(declared, records)| - 1]);
      }
    }
  }

  ghost predicate RoleTable(es: seq<Weighted>, roles: set<Role>, outBy: map<Role, real>, inBy: map<Role, real>) {
    && outBy.Keys == inBy.Keys == roles
    && (forall r {:trigger outBy[r]} | r in roles :: outBy[r] == OutOf(es, r))
    && (forall r {:trigger inBy[r]} | r in roles :: inBy[r] == InTo(es, r))
  }

  lemma RoleTableNext(es: seq<Weighted>, i: nat, roles: set<Role>, outBy: map<Role, real>, inBy: map<Role, real>)
    requires i < |es| && es[i].source in roles && es[i].target in roles
    requires RoleTable(es[..i], roles, outBy, inBy)
    ensures es[i].source in outBy && es[i].target in inBy
    ensures RoleTable(es[..i + 1], roles, outBy[es[i].source := outBy[es[i].source] + es[i].mbps],
                      inBy[es[i].target := inBy[es[i].target] + es[i].mbps])
  {
    assert es[..i + 1][..i] == es[..i];
  }

  /** In and out totals per role; every role starts at 0. */
  method RoleTotals(es: seq<Weighted>, roles: set<Role>) returns (outBy: map<Role, real>, inBy: map<Role, real>)
    requires forall e | e in es :: e.source in roles && e.target in roles
    ensures RoleTable(es, roles, outBy, inBy)
  {
    outBy, inBy := map r | r in roles :: 0.0, map r | r in roles :: 0.0;
    assert RoleTable(es[..0], roles, outBy, inBy);
    hide *;
    for i := 0 to |es|
      invariant RoleTable(es[..i], roles, outBy, inBy)
    {
      assert es[i] in es;
      RoleTableNext(es, i, roles, outBy, inBy);
      outBy := outBy[es[i].source := outBy[es[i].source] + es[i].mbps];
      inBy := inBy[es[i].target := inBy[es[i].target] + es[i].mbps];
    }
    assert es[..|es|] == es;
  }

  // ---- pod edges ----

  /** Which pod an address belongs to; a later listing of the same address wins. */
  function IpIndex(records: seq<Record>): map<Ip, Pod> {
    if records == [] then map[]
    else IpIndex(records[..|records| - 1])[records[|records| - 1].ip := records[|records| - 1].pod]
  }

  /** Flows to addresses outside the template are dropped. */
  function FlowEdges(src: Pod, flows: seq<Flow>, index: map<Ip, Pod>): seq<Weighted> {
    if flows == [] then []
    else
      var front, f := FlowEdges(src, flows[..|flows| - 1], index), flows[|flows| - 1];
      if f.peer in index then front + [Weighted(src, index[f.peer], f.mbps)] else front
  }

  function PodEdges(records: seq<Record>, index: map<Ip, Pod>): seq<Weighted> {
    if records == [] then []
    else
      var rec := records[|records| - 1];
      PodEdges(records[..|records| - 1], index) + FlowEdges(rec.pod, rec.egress, index)
  }

  function GetOrZero(m: map<Pod, real>, k: Pod): real {
    if k in m then m[k] else 0.0
  }

  ghost predicate TracksTotals(es: seq<Weighted>, outBy: map<Pod, real>, inBy: map<Pod, real>) {
    && outBy.Keys == (set e | e in es :: e.source) && inBy.Keys == (set e | e in es :: e.target)
    && forall k {:trigger OutOf(es, k)} {:trigger InTo(es, k)} ::
         GetOrZero(outBy, k) == OutOf(es, k) && GetOrZero(inBy, k) == InTo(es, k)
  }

  lemma TotalsAppend(es: seq<Weighted>, w: Weighted, outBy: map<Pod, real>, inBy: map<Pod, real>)
    requires TracksTotals(es, outBy, inBy)
    ensures TracksTotals(es + [w], outBy[w.source := GetOrZero(outBy, w.source) + w.mbps],
            inBy[w.target := GetOrZero(inBy, w.target) + w.mbps])
  {
    var all := es + [w];
    assert all[..|es|] == es && all[|es|] == w;
    assert forall e :: e in all <==> e in es || e == w;
    forall k
      ensures OutOf(all, k) == OutOf(es, k) + if w.source == k then w.mbps else 0.0
      ensures InTo(all, k) == InTo(es, k) + if w.target == k then w.mbps else 0.0
    {
    }
  }

  method PodGraph(records: seq<Record>, index: map<Ip, Pod>)
    returns (es: seq<Weighted>, outBy: map<Pod, real>, inBy: map<Pod, real>)
    ensures es == PodEdges(records, index)
    ensures TracksTotals(es, outBy, inBy)
  {
    es, outBy, inBy := [], map[], map[];
    for i := 0 to |records|
      invariant es == PodEdges(records[..i], index)
      invariant TracksTotals(es, outBy, inBy)
    {
      assert records[..i + 1][..i] == records[..i];
      es, outBy, inBy := PodFlows(records[i].pod, records[i].egress, index, es, outBy, inBy);
    }
    assert records[..|records|] == records;
  }

  method PodFlows(src: Pod, flows: seq<Flow>, index: map<Ip, Pod>, es0: seq<Weighted>, outBy0: map<Pod, real>,
                  inBy0: map<Pod, real>)
    returns (es: seq<Weighted>, outBy: map<Pod, real>, inBy: map<Pod, real>)
    requires TracksTotals(es0, outBy0, inBy0)
    ensures es == es0 + FlowEdges(src, flows, index)
    ensures TracksTotals(es, outBy, inBy)
  {
    hide TracksTotals;
    es, outBy, inBy := es0, outBy0, inBy0;
    for j := 0 to |flows|
      invariant es == es0 + FlowEdges(src, flows[..j], index)
      invariant TracksTotals(es, outBy, inBy)
    {
      var f := flows[j];
      assert flows[..j + 1][..j] == flows[..j];
      if f.peer in index {
        var dst := index[f.peer];
        TotalsAppend(es, Weighted(src, dst, f.mbps), outBy, inBy);
        es := es + [Weighted(src, dst, f.mbps)];
        outBy := outBy[src := GetOrZero(outBy, src) + f.mbps];
        inBy := inBy[dst := GetOrZero(inBy, dst) + f.mbps];
      }
    }
    assert flows[..|flows|] == flows;
  }

  // ---- the two views agree ----

  function PodsOf(records: seq<Record>, r: Role): set<Pod> {
    set rec | rec in records && rec.role == r :: rec.pod
  }

  /** Traffic from one set of pods to another. */
  function Between(es: seq<Weighted>, from: set<Pod>, to: set<Pod>): real {
    if es == [] then 0.0
    else
      var e := es[|es| - 1];
      Between(es[..|es| - 1], from, to) + if e.source in from && e.target in to then e.mbps else 0.0
  }

  /** No address is recorded twice. */
  ghost predicate AddressesAreDistinct(records: seq<Record>) {
    forall i, j | 0 <= i < j < |records| :: records[i].ip != records[j].ip
  }

  /** The names of r's pods are not also those of another role's. */
  ghost predicate OwnsItsPods(records: seq<Record>, r: Role) {
    forall p, q | p in records && q in records && p.pod == q.pod && p.role == r :: q.role == r
  }

  lemma {:induction false} IpIndexIs(records: seq<Record>, ip: Ip)
    requires AddressesAreDistinct(records)
    ensures ip in IpIndex(records) <==> exists rec :: rec in records && rec.ip == ip
    ensures forall rec | rec in records && rec.ip == ip :: IpIndex(records)[ip] == rec.pod
  {
    if records != [] {
      var front, last := records[..|records| - 1], records[|records| - 1];
      IpIndexIs(front, ip);
      assert records == front + [last];
      assert last in records;
    }
  }

  /** An address counts as the target role's exactly when its pod is one of that role's pods. */
  lemma AddressesAndPods(records: seq<Record>, dst: Role, ip: Ip)
    requires AddressesAreDistinct(records) && OwnsItsPods(records, dst)
    ensures ip in IpsOf(records, dst) <==> ip in IpIndex(records) && IpIndex(records)[ip] in PodsOf(records, dst)
  {
    IpIndexIs(records, ip);
    hide IpIndex;
    if ip in IpsOf(records, dst) {
      var rec :| rec in records && rec.role == dst && rec.ip == ip;
      assert rec.pod in PodsOf(records, dst);
    }
    if ip in IpIndex(records) && IpIndex(records)[ip] in PodsOf(records, dst) {
      var rec :| rec in records && rec.ip == ip;
      var other :| other in records && other.role == dst && other.pod == rec.pod;
      assert rec.role == dst;
    }
  }

  lemma {:induction false} BetweenAppend(es: seq<Weighted>, fs: seq<Weighted>, from: set<Pod>, to: set<Pod>)
    ensures Between(es + fs, from, to) == Between(es, from, to) + Between(fs, from, to)
  {
    if fs == [] {
      assert es + fs == es;
    } else {
      BetweenAppend(es, fs[..|fs| - 1], from, to);
      assert (es + fs)[..|es + fs| - 1] == es + fs[..|fs| - 1];
    }
  }

  lemma {:induction false} FlowsBetween(src: Pod, flows: seq<Flow>, records: seq<Record>, from: set<Pod>, dst: Role)
    requires AddressesAreDistinct(records) && OwnsItsPods(records, dst)
    ensures Between(FlowEdges(src, flows, IpIndex(records)), from, PodsOf(records, dst)) ==
            if src in from then FlowSum(flows, IpsOf(records, dst)) else 0.0
  {
    hide AddressesAreDistinct, OwnsItsPods, IpIndex, PodsOf, IpsOf;
    if flows != [] {
      var front, f := flows[..|flows| - 1], flows[|flows| - 1];
      FlowsBetween(src, front, records, from, dst);
      AddressesAndPods(records, dst, f.peer);
    }
  }

  lemma {:induction false} RoleSumIsPodSum(some: seq<Record>, records: seq<Record>, src: Role, dst: Role)
    requires AddressesAreDistinct(records) && OwnsItsPods(records, src) && OwnsItsPods(records, dst)
    requires forall rec | rec in some :: rec in records
    ensures Between(PodEdges(some, IpIndex(records)), PodsOf(records, src), PodsOf(records, dst)) ==
            RecordSum(RecordsOf(some, src), IpsOf(records, dst))
  {
    if some != [] {
      var front, last := some[..|some| - 1], some[|some| - 1];
      assert last in some;
      RoleSumIsPodSum(front, records, src, dst);
      FlowsBetween(last.pod, last.egress, records, PodsOf(records, src), dst);
      BetweenAppend(PodEdges(front, IpIndex(records)), FlowEdges(last.pod, last.egress, IpIndex(records)),
          PodsOf(records, src), PodsOf(records, dst));
      PodOfItsRole(records, last, src);
      hide IpIndex, PodsOf, IpsOf, FlowSum, FlowEdges;
    }
  }

  lemma PodOfItsRole(records: seq<Record>, rec: Record, r: Role)
    requires OwnsItsPods(records, r) && rec in records
    ensures rec.pod in PodsOf(records, r) <==> rec.role == r
  {
  }

  /** A role edge measures exactly the pod-to-pod traffic from the source role's pods to the target's. */
  lemma {:induction false} RoleEdgeIsItsPodEdges(declared: seq<Declared>, records: seq<Record>, e: Weighted)
    requires AddressesAreDistinct(records) && OwnsItsPods(records, e.source) && OwnsItsPods(records, e.target)
    requires e in RoleEdges(declared, records)
    ensures e.mbps == Between(PodEdges(records, IpIndex(records)), PodsOf(records, e.source), PodsOf(records, e.target))
  {
    RoleEdgesAreDistinct(declared, records);
    RoleSumIsPodSum(records, records, e.source, e.target);
  }
}
