/** What resolving `x` over a role graph means: a system of equations, one per role, and its laws. */
module Propagation {
  import opened Prelude
  import opened RoleModel

  /** u's traffic counts towards d's x; a self-edge carries traffic but feeds nothing. */
  ghost predicate Feeds(t: Template, u: Role, d: Role) {
    Edge(u, d) in t.edges && u != d
  }

  function Upstreams(edges: seq<Edge>, d: Role): set<Role> {
    set e | e in edges && e.dst == d && e.src != d :: e.src
  }

  ghost predicate Steps(t: Template, p: seq<Role>, i: int) {
    0 <= i < |p| - 1 ==> Feeds(t, p[i], p[i + 1])
  }

  ghost predicate IsWalk(t: Template, p: seq<Role>) {
    forall i :: Steps(t, p, i)
  }

  /** d is a strict descendant of u. */
  ghost predicate Reaches(t: Template, u: Role, d: Role) {
    exists p: seq<Role> {:trigger IsWalk(t, p)} :: |p| >= 2 && IsWalk(t, p) && p[0] == u && p[|p| - 1] == d
  }

  ghost predicate OnCycle(t: Template, r: Role) {
    Reaches(t, r, r)
  }

  ghost predicate HasCycle(t: Template) {
    exists r :: OnCycle(t, r)
  }

  /** r lies on a cycle or downstream of one. */
  ghost predicate BelowCycle(t: Template, r: Role) {
    exists c :: OnCycle(t, c) && Reaches(t, c, r)
  }

  ghost function Contribution(t: Template, m: map<Role, real>): Role -> real {
    u => if u in m && u in t.roles then RoleEgress(t.roles[u], m[u]) else 0.0
  }

  /** The equation for one role. */
  ghost predicate Resolves(t: Template, m: map<Role, real>, r: Role)
    requires r in m
  {
    var up := Upstreams(t.edges, r);
    m[r] == if up == {} then SourceX(t.x, r) else Sum(up, Contribution(t, m))
  }

  ghost predicate IsSolution(t: Template, m: map<Role, real>) {
    && m.Keys == t.roles.Keys
    && forall r {:trigger Resolves(t, m, r)} | r in m :: Resolves(t, m, r)
  }

  // ---- walks ----

  lemma UpstreamsFeed(t: Template, u: Role, d: Role)
    ensures u in Upstreams(t.edges, d) <==> Feeds(t, u, d)
  {
    if Feeds(t, u, d) {
      assert Edge(u, d) in t.edges;
    }
  }

  lemma FeedsReaches(t: Template, u: Role, d: Role)
    requires Feeds(t, u, d)
    ensures Reaches(t, u, d)
  {
    var p := [u, d];
    assert IsWalk(t, p) && p[0] == u && p[|p| - 1] == d;
  }

  lemma ReachesThrough(t: Template, u: Role, v: Role, d: Role)
    requires Reaches(t, u, v) && Reaches(t, v, d)
    ensures Reaches(t, u, d)
  {
    var p: seq<Role> :| |p| >= 2 && IsWalk(t, p) && p[0] == u && p[|p| - 1] == v;
    var q: seq<Role> :| |q| >= 2 && IsWalk(t, q) && q[0] == v && q[|q| - 1] == d;
    var w := p + q[1..];
    forall i
      ensures Steps(t, w, i)
    {
      assert Steps(t, p, i) && Steps(t, q, i - |p| + 1);
    }
    assert IsWalk(t, w) && w[0] == u && w[|w| - 1] == d;
  }

  ghost predicate HasUpstreamIn(t: Template, d: set<Role>, v: Role) {
    exists u :: u in d && Feeds(t, u, v)
  }

  /** Every member has an upstream among the members. */
  ghost predicate IsStuck(t: Template, d: set<Role>) {
    forall v {:trigger HasUpstreamIn(t, d, v)} | v in d :: HasUpstreamIn(t, d, v)
  }

  lemma WalkBetween(t: Template, p: seq<Role>, i: nat, j: nat)
    requires IsWalk(t, p) && i < j < |p|
    ensures Reaches(t, p[i], p[j])
  {
    var q := p[i..j + 1];
    forall k
      ensures Steps(t, q, k)
    {
      assert Steps(t, p, i + k);
    }
    assert IsWalk(t, q) && q[0] == p[i] && q[|q| - 1] == p[j];
  }

  /** In a set where everybody has an upstream in the set, one can walk backwards for ever. */
  lemma {:induction false} BackwardWalk(t: Template, d: set<Role>, r: Role, n: nat) returns (p: seq<Role>)
    requires r in d
    requires IsStuck(t, d)
    ensures |p| == n + 1 && IsWalk(t, p) && p[n] == r
    ensures forall v | v in p :: v in d
  {
    if n == 0 {
      p := [r];
    } else {
      var q := BackwardWalk(t, d, r, n - 1);
      assert HasUpstreamIn(t, d, q[0]);
      var u :| u in d && Feeds(t, u, q[0]);
      p := [u] + q;
      forall i
        ensures Steps(t, p, i)
      {
        assert Steps(t, q, i - 1);
      }
    }
  }

  /** The induction principle behind every law below: a set of roles each of which has an
      upstream in the set contains a cycle above each of its members. */
  lemma {:induction false} StuckMeansCycle(t: Template, d: set<Role>, r: Role)
    requires r in d
    requires IsStuck(t, d)
    ensures BelowCycle(t, r)
    ensures HasCycle(t)
  {
    var p := BackwardWalk(t, d, r, |d|);
    Pigeonhole(p, d);
    var i, j :| 0 <= i < j < |p| && p[i] == p[j];
    WalkBetween(t, p, i, j);
    WalkBetween(t, p, i, |d|);
    assert OnCycle(t, p[i]);
  }

  lemma CycleIsBelowItself(t: Template)
    ensures HasCycle(t) <==> exists r :: BelowCycle(t, r)
  {
    if HasCycle(t) {
      var r :| OnCycle(t, r);
      assert BelowCycle(t, r);
    }
  }

  lemma BelowCycleIsDeclared(t: Template, r: Role)
    requires WellFormed(t) && BelowCycle(t, r)
    ensures r in t.roles
  {
    var c :| OnCycle(t, c) && Reaches(t, c, r);
    var p: seq<Role> :| |p| >= 2 && IsWalk(t, p) && p[0] == c && p[|p| - 1] == r;
    assert Steps(t, p, |p| - 2);
  }

  // ---- laws of the equations ----

  /** The right-hand side of a role's equation depends on its upstreams only. */
  lemma SameInflow(t1: Template, t2: Template, m1: map<Role, real>, m2: map<Role, real>, up: set<Role>)
    requires forall u | u in up :: Contribution(t1, m1)(u) == Contribution(t2, m2)(u)
    ensures Sum(up, Contribution(t1, m1)) == Sum(up, Contribution(t2, m2))
  {
    SumCongruent(up, Contribution(t1, m1), Contribution(t2, m2));
  }

  /** Two templates over the same roles with the same distinct edges (self-edges aside). */
  ghost predicate SameWiring(t1: Template, t2: Template) {
    && t1.roles.Keys == t2.roles.Keys
    && forall u, d :: Feeds(t1, u, d) <==> Feeds(t2, u, d)
  }

  lemma SameUpstreams(t1: Template, t2: Template, d: Role)
    requires SameWiring(t1, t2)
    ensures Upstreams(t1.edges, d) == Upstreams(t2.edges, d)
  {
    forall u
      ensures u in Upstreams(t1.edges, d) <==> u in Upstreams(t2.edges, d)
    {
      UpstreamsFeed(t1, u, d);
      UpstreamsFeed(t2, u, d);
    }
  }

  predicate SourceInputsAgree(t1: Template, t2: Template, r: Role) {
    Upstreams(t1.edges, r) == {} ==> SourceX(t1.x, r) == SourceX(t2.x, r)
  }

  ghost predicate SameEgressRule(t1: Template, t2: Template, r: Role) {
    r in t1.roles && r in t2.roles && t1.roles[r].count == t2.roles[r].count && t1.roles[r].net == t2.roles[r].net
  }

  /** r's own input changed, or some strict ancestor's input, count or net coefficients did. */
  ghost predicate Touched(t1: Template, t2: Template, r: Role) {
    || !SourceInputsAgree(t1, t2, r)
    || exists c {:trigger Reaches(t1, c, r)} ::
         c in t1.roles && Reaches(t1, c, r) && (!SourceInputsAgree(t1, t2, c) || !SameEgressRule(t1, t2, c))
  }

  lemma TouchedSpreads(t1: Template, t2: Template, u: Role, d: Role)
    requires WellFormed(t1) && Feeds(t1, u, d)
    requires Touched(t1, t2, u) || !SameEgressRule(t1, t2, u)
    ensures Touched(t1, t2, d)
  {
    FeedsReaches(t1, u, d);
    if SameEgressRule(t1, t2, u) && SourceInputsAgree(t1, t2, u) {
      var c :| c in t1.roles && Reaches(t1, c, u) && (!SourceInputsAgree(t1, t2, c) || !SameEgressRule(t1, t2, c));
      ReachesThrough(t1, c, u, d);
    }
  }

  /** Locality: a change of inputs, counts or net coefficients shows only at the source whose input
      changed and at strict descendants of the changed roles. */
  lemma {:induction false} ChangesStayDownstream(t1: Template, t2: Template, m1: map<Role, real>, m2: map<Role, real>,
                                                 r: Role)
    requires WellFormed(t1) && SameWiring(t1, t2) && !HasCycle(t1)
    requires IsSolution(t1, m1) && IsSolution(t2, m2)
    requires r in t1.roles && !Touched(t1, t2, r)
    ensures m1[r] == m2[r]
  {
    var d := set v | v in t1.roles && !Touched(t1, t2, v) && m1[v] != m2[v];
    if r in d {
      forall v | v in d
        ensures HasUpstreamIn(t1, d, v)
      {
        var u := DifferenceComesFromAbove(t1, t2, m1, m2, v);
        assert u in d;
      }
      StuckMeansCycle(t1, d, r);
    }
  }

  lemma DifferenceComesFromAbove(t1: Template, t2: Template, m1: map<Role, real>, m2: map<Role, real>, v: Role)
    returns (u: Role)
    requires WellFormed(t1) && SameWiring(t1, t2)
    requires IsSolution(t1, m1) && IsSolution(t2, m2)
    requires v in t1.roles && !Touched(t1, t2, v) && m1[v] != m2[v]
    ensures u in t1.roles && Feeds(t1, u, v) && !Touched(t1, t2, u) && m1[u] != m2[u]
  {
    u := DifferingUpstream(t1, t2, m1, m2, v);
    UpstreamsFeed(t1, u, v);
    if Touched(t1, t2, u) || !SameEgressRule(t1, t2, u) {
      TouchedSpreads(t1, t2, u, v);
    }
    SameRuleDifferentX(t1, t2, m1, m2, u);
  }

  lemma SameRuleDifferentX(t1: Template, t2: Template, m1: map<Role, real>, m2: map<Role, real>, u: Role)
    requires SameEgressRule(t1, t2, u) && u in m1 && u in m2
    requires Contribution(t1, m1)(u) != Contribution(t2, m2)(u)
    ensures m1[u] != m2[u]
  {
  }

  lemma DifferingUpstream(t1: Template, t2: Template, m1: map<Role, real>, m2: map<Role, real>, v: Role)
    returns (u: Role)
    requires SameWiring(t1, t2) && SourceInputsAgree(t1, t2, v)
    requires v in m1 && v in m2 && Resolves(t1, m1, v) && Resolves(t2, m2, v) && m1[v] != m2[v]
    ensures u in Upstreams(t1.edges, v) && Contribution(t1, m1)(u) != Contribution(t2, m2)(u)
  {
    SameUpstreams(t1, t2, v);
    u := SumsDiffer(Upstreams(t1.edges, v), Contribution(t1, m1), Contribution(t2, m2));
  }

  /** An acyclic system has at most one solution, whatever the order or repetition of the edges. */
  lemma {:induction false} AtMostOneSolution(t1: Template, t2: Template, m1: map<Role, real>, m2: map<Role, real>)
    requires WellFormed(t1) && SameWiring(t1, t2) && !HasCycle(t1)
    requires t1.x == t2.x && forall r | r in t1.roles :: SameEgressRule(t1, t2, r)
    requires IsSolution(t1, m1) && IsSolution(t2, m2)
    ensures m1 == m2
  {
    forall r | r in t1.roles
      ensures m1[r] == m2[r]
    {
      ChangesStayDownstream(t1, t2, m1, m2, r);
    }
  }

  /** Cyclicity depends on the wiring only. */
  lemma {:induction false} SameWiringSameCycles(t1: Template, t2: Template)
    requires SameWiring(t1, t2)
    ensures HasCycle(t1) ==> HasCycle(t2)
    ensures forall r | BelowCycle(t1, r) :: BelowCycle(t2, r)
  {
    forall u, d | Reaches(t1, u, d)
      ensures Reaches(t2, u, d)
    {
      var p: seq<Role> :| |p| >= 2 && IsWalk(t1, p) && p[0] == u && p[|p| - 1] == d;
      forall i
        ensures Steps(t2, p, i)
      {
        assert Steps(t1, p, i);
      }
      assert IsWalk(t2, p);
    }
    if HasCycle(t1) {
      var r :| OnCycle(t1, r);
      assert OnCycle(t2, r);
    }
    forall r | BelowCycle(t1, r)
      ensures BelowCycle(t2, r)
    {
      var c :| OnCycle(t1, c) && Reaches(t1, c, r);
      assert OnCycle(t2, c);
    }
  }

  /** Net slopes are not negative, counts grow, and so do the inputs of the roles that read theirs. */
  ghost predicate PointwiseLarger(t1: Template, t2: Template) {
    forall r | r in t1.roles ::
      && r in t2.roles
      && t1.roles[r].net == t2.roles[r].net && t1.roles[r].net.a >= 0.0
      && t1.roles[r].count <= t2.roles[r].count
      && (Upstreams(t1.edges, r) == {} ==> SourceX(t1.x, r) <= SourceX(t2.x, r))
  }

  lemma LinearMonotone(c: Coefficients, x1: real, x2: real)
    requires c.a >= 0.0 && x1 <= x2
    ensures 0.0 <= Linear(c, x1) <= Linear(c, x2)
  {
    ProductMonotone(c.a, x1, x2);
    LinearIsTimes(c, x1);
    LinearIsTimes(c, x2);
    hide Times, Linear;
  }

  lemma LinearIsTimes(c: Coefficients, x: real)
    ensures Linear(c, x) == if Times(c.a, x) + c.b > 0.0 then Times(c.a, x) + c.b else 0.0
  {
  }

  lemma EgressIsTimes(spec: RoleSpec, x: real)
    ensures RoleEgress(spec, x) == Times(spec.count as real, Linear(spec.net, x))
    ensures RoleEgress(spec, x) == Times(Linear(spec.net, x), spec.count as real)
  {
    hide Linear;
  }

  lemma EgressMonotone(s1: RoleSpec, s2: RoleSpec, x1: real, x2: real)
    requires s1.net == s2.net && s1.net.a >= 0.0 && s1.count <= s2.count && x1 <= x2
    ensures RoleEgress(s1, x1) <= RoleEgress(s2, x2)
  {
    LinearMonotone(s1.net, x1, x2);
    EgressIsTimes(s1, x1);
    EgressIsTimes(s1, x2);
    EgressIsTimes(s2, x2);
    hide RoleEgress, Times, Linear;
    ProductMonotone(s1.count as real, Linear(s1.net, x1), Linear(s1.net, x2));
    ProductMonotone(Linear(s1.net, x2), s1.count as real, s2.count as real);
  }

  /** With non-negative slopes, more input or more replicas never lowers any role's x. */
  lemma {:induction false} Monotone(t1: Template, t2: Template, m1: map<Role, real>, m2: map<Role, real>)
    requires WellFormed(t1) && SameWiring(t1, t2) && !HasCycle(t1)
    requires PointwiseLarger(t1, t2)
    requires IsSolution(t1, m1) && IsSolution(t2, m2)
    ensures forall r | r in t1.roles :: m1[r] <= m2[r]
  {
    var d := set v | v in t1.roles && m1[v] > m2[v];
    forall r | r in t1.roles
      ensures m1[r] <= m2[r]
    {
      if r in d {
        forall v | v in d
          ensures HasUpstreamIn(t1, d, v)
        {
          var u := DecreaseComesFromAbove(t1, t2, m1, m2, v);
          assert u in d;
        }
        StuckMeansCycle(t1, d, r);
      }
    }
  }

  lemma DecreaseComesFromAbove(t1: Template, t2: Template, m1: map<Role, real>, m2: map<Role, real>, v: Role)
    returns (u: Role)
    requires WellFormed(t1) && SameWiring(t1, t2) && PointwiseLarger(t1, t2)
    requires IsSolution(t1, m1) && IsSolution(t2, m2)
    requires v in t1.roles && m1[v] > m2[v]
    ensures u in t1.roles && Feeds(t1, u, v) && m1[u] > m2[u]
  {
    var up := Upstreams(t1.edges, v);
    SameUpstreams(t1, t2, v);
    assert Resolves(t1, m1, v) && Resolves(t2, m2, v);
    u := SumsExceed(up, Contribution(t1, m1), Contribution(t2, m2));
    UpstreamsFeed(t1, u, v);
    if m1[u] <= m2[u] {
      EgressMonotone(t1.roles[u], t2.roles[u], m1[u], m2[u]);
    }
  }

  // ---- existence ----

  /** m solves the equations of a set of roles closed under upstreams. */
  ghost predicate IsPartialSolution(t: Template, m: map<Role, real>) {
    && m.Keys <= t.roles.Keys
    && forall r {:trigger Resolves(t, m, r)} | r in m :: Upstreams(t.edges, r) <= m.Keys && Resolves(t, m, r)
  }

  lemma ExtendSolution(t: Template, m: map<Role, real>, r: Role) returns (m': map<Role, real>)
    requires WellFormed(t) && IsPartialSolution(t, m)
    requires r in t.roles && r !in m && Upstreams(t.edges, r) <= m.Keys
    ensures IsPartialSolution(t, m') && m'.Keys == m.Keys + {r}
  {
    var up := Upstreams(t.edges, r);
    m' := m[r := if up == {} then SourceX(t.x, r) else Sum(up, Contribution(t, m))];
    forall v | v in m'
      ensures Upstreams(t.edges, v) <= m'.Keys && Resolves(t, m', v)
    {
      if v in m {
        assert Resolves(t, m, v);
      }
      SameInflow(t, t, m, m', Upstreams(t.edges, v));
    }
  }

  /** In an acyclic graph some role of any non-empty set has all its upstreams outside the set. */
  lemma FreeRole(t: Template, d: set<Role>) returns (r: Role)
    requires WellFormed(t) && !HasCycle(t) && d != {} && d <= t.roles.Keys
    ensures r in d && Upstreams(t.edges, r) <= t.roles.Keys - d
  {
    if IsStuck(t, d) {
      var v :| v in d;
      StuckMeansCycle(t, d, v);
    }
    r :| r in d && !HasUpstreamIn(t, d, r);
    forall u | u in Upstreams(t.edges, r)
      ensures u in t.roles.Keys - d
    {
      UpstreamsFeed(t, u, r);
    }
  }

  lemma CompleteIsSolution(t: Template, m: map<Role, real>)
    requires IsPartialSolution(t, m) && t.roles.Keys - m.Keys == {}
    ensures IsSolution(t, m)
  {
    forall r | r in t.roles
      ensures r in m
    {
      assert r !in t.roles.Keys - m.Keys;
    }
  }

  lemma {:induction false} CompleteSolution(t: Template, m: map<Role, real>) returns (m': map<Role, real>)
    requires WellFormed(t) && !HasCycle(t) && IsPartialSolution(t, m)
    ensures IsSolution(t, m')
    decreases |t.roles.Keys - m.Keys|
  {
    var d := t.roles.Keys - m.Keys;
    if d == {} {
      CompleteIsSolution(t, m);
      m' := m;
    } else {
      var r := FreeRole(t, d);
      assert Upstreams(t.edges, r) <= m.Keys;
      var m1 := ExtendSolution(t, m, r);
      assert t.roles.Keys - m1.Keys == d - {r};
      m' := CompleteSolution(t, m1);
    }
  }

  lemma {:induction false} SolutionExists(t: Template)
    requires WellFormed(t) && !HasCycle(t)
    ensures exists m :: IsSolution(t, m)
  {
    var m := CompleteSolution(t, map[]);
  }

  /** The x every role of an acyclic template resolves to. */
  ghost function ResolvedX(t: Template): (m: map<Role, real>)
    requires WellFormed(t) && !HasCycle(t)
    ensures IsSolution(t, m)
  {
    SolutionExists(t);
    var m :| IsSolution(t, m);
    m
  }

  // ---- what the inputs mean ----

  /** The same roles and edges, with possibly another signal. */
  ghost predicate DiffersInSignal(t1: Template, t2: Template) {
    t1.order == t2.order && t1.roles == t2.roles && t1.edges == t2.edges
  }

  lemma SignalLeavesWiring(t1: Template, t2: Template)
    requires WellFormed(t1) && !HasCycle(t1) && DiffersInSignal(t1, t2)
    ensures WellFormed(t2) && SameWiring(t1, t2) && !HasCycle(t2)
  {
    SameWiringSameCycles(t2, t1);
  }

  lemma SourceResolves(t: Template, r: Role)
    requires WellFormed(t) && !HasCycle(t) && r in t.roles && Upstreams(t.edges, r) == {}
    ensures r in ResolvedX(t) && ResolvedX(t)[r] == SourceX(t.x, r)
  {
    assert Resolves(t, ResolvedX(t), r);
  }

  /** Signals that agree wherever they are read resolve alike. */
  lemma SameReadingsSameX(t1: Template, t2: Template)
    requires WellFormed(t1) && !HasCycle(t1) && DiffersInSignal(t1, t2)
    requires forall r | r in t1.roles && Upstreams(t1.edges, r) == {} :: SourceX(t1.x, r) == SourceX(t2.x, r)
    ensures WellFormed(t2) && !HasCycle(t2) && ResolvedX(t1) == ResolvedX(t2)
  {
    SignalLeavesWiring(t1, t2);
    forall r | r in t1.roles
      ensures ResolvedX(t1)[r] == ResolvedX(t2)[r]
    {
      assert !Touched(t1, t2, r);
      hide Touched, HasCycle, WellFormed, SameWiring, ResolvedX;
      ChangesStayDownstream(t1, t2, ResolvedX(t1), ResolvedX(t2), r);
    }
  }

  /** A per-role signal gives a source role its own entry, and an unlisted one zero; listing the zero changes nothing
      anywhere. */
  lemma {:induction false} PerRoleInput(t: Template, xs: map<Role, real>, r: Role)
    requires WellFormed(t) && !HasCycle(t) && t.x == PerRole(xs) && r in t.roles
    ensures r in ResolvedX(t)
    ensures Upstreams(t.edges, r) == {} ==> ResolvedX(t)[r] == if r in xs then xs[r] else 0.0
    ensures var listed := t.(x := PerRole(if r in xs then xs else xs[r := 0.0]));
            WellFormed(listed) && !HasCycle(listed) && ResolvedX(listed) == ResolvedX(t)
  {
    var listed := t.(x := PerRole(if r in xs then xs else xs[r := 0.0]));
    if Upstreams(t.edges, r) == {} {
      SourceResolves(t, r);
    }
    hide HasCycle, WellFormed, Upstreams, ResolvedX;
    SameReadingsSameX(t, listed);
  }

  /** A uniform signal reaches every source role, and is the per-role signal that gives every role its value. */
  lemma {:induction false} UniformInput(t: Template, v: real, xs: map<Role, real>)
    requires WellFormed(t) && !HasCycle(t) && t.x == Uniform(v)
    requires forall r | r in t.roles :: r in xs && xs[r] == v
    ensures forall r | r in t.roles && Upstreams(t.edges, r) == {} :: r in ResolvedX(t) && ResolvedX(t)[r] == v
    ensures var spelled := t.(x := PerRole(xs));
            WellFormed(spelled) && !HasCycle(spelled) && ResolvedX(spelled) == ResolvedX(t)
  {
    forall r | r in t.roles && Upstreams(t.edges, r) == {}
      ensures r in ResolvedX(t) && ResolvedX(t)[r] == v
    {
      SourceResolves(t, r);
      hide HasCycle, WellFormed, Upstreams, ResolvedX;
    }
    hide HasCycle, WellFormed, Upstreams, ResolvedX;
    SameReadingsSameX(t, t.(x := PerRole(xs)));
  }

  // ---- what the edges mean ----

  /** The edges between different roles are the same; order, repetition and self-edges may differ. */
  ghost predicate SameLinks(edges: seq<Edge>, others: seq<Edge>) {
    forall u, v | u != v :: Edge(u, v) in edges <==> Edge(u, v) in others
  }

  /** How the edges are listed does not matter, and a role's edge to itself counts for nothing. */
  lemma {:induction false} EdgeListingIsIrrelevant(t: Template, others: seq<Edge>)
    requires WellFormed(t) && WellFormed(t.(edges := others)) && SameLinks(t.edges, others)
    ensures HasCycle(t) <==> HasCycle(t.(edges := others))
    ensures !HasCycle(t) ==> !HasCycle(t.(edges := others)) && ResolvedX(t) == ResolvedX(t.(edges := others))
  {
    var u := t.(edges := others);
    SameLinksWire(t, u);
    SameWiringSameCycles(t, u);
    SameWiringSameCycles(u, t);
    hide HasCycle, WellFormed, SameWiring, SameLinks, IsSolution, Resolves;
    if !HasCycle(t) {
      AtMostOneSolution(t, u, ResolvedX(t), ResolvedX(u));
    }
  }

  lemma SameLinksWire(t: Template, u: Template)
    requires DiffersInEdges(t, u) && SameLinks(t.edges, u.edges)
    ensures SameWiring(t, u) && SameWiring(u, t)
  {
  }

  ghost predicate DiffersInEdges(t: Template, u: Template) {
    t.x == u.x && t.order == u.order && t.roles == u.roles
  }

  /** What u's replicas send together: each its formula's value, cut off at zero. */
  ghost function Sends(t: Template, m: map<Role, real>): Role -> real {
    u => if u in t.roles && u in m
         then Times(t.roles[u].count as real, Greater(0.0, t.roles[u].net.a * m[u] + t.roles[u].net.b))
         else 0.0
  }

  lemma EgressSpelledOut(spec: RoleSpec, x: real)
    ensures RoleEgress(spec, x) == Times(spec.count as real, Greater(0.0, spec.net.a * x + spec.net.b))
  {
    EgressIsTimes(spec, x);
    hide Times, RoleEgress;
  }

  lemma SendsIs(t: Template, m: map<Role, real>, u: Role)
    requires u in t.roles && u in m
    ensures Sends(t, m)(u) ==
            Times(t.roles[u].count as real, Greater(0.0, t.roles[u].net.a * m[u] + t.roles[u].net.b))
    ensures Contribution(t, m)(u) == RoleEgress(t.roles[u], m[u])
  {
    hide Times, Greater, RoleEgress;
  }

  /** A role with upstreams sees what all of them send at their own x. */
  lemma {:induction false} UpstreamsAddUp(t: Template, r: Role)
    requires WellFormed(t) && !HasCycle(t) && r in t.roles && Upstreams(t.edges, r) != {}
    ensures r in ResolvedX(t) && ResolvedX(t)[r] == Sum(Upstreams(t.edges, r), Sends(t, ResolvedX(t)))
  {
    var m := ResolvedX(t);
    assert Resolves(t, m, r);
    hide HasCycle, WellFormed, Upstreams, RoleEgress, Times;
    forall u | u in Upstreams(t.edges, r)
      ensures Contribution(t, m)(u) == Sends(t, m)(u)
    {
      if u in t.roles && u in m {
        SendsIs(t, m, u);
        EgressSpelledOut(t.roles[u], m[u]);
        hide Greater;
      }
    }
    SumCongruent(Upstreams(t.edges, r), Contribution(t, m), Sends(t, m));
  }
}
