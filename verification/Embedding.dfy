/** Propagation is invariant under renaming roles along an injection. */
module Embedding {
  import opened Prelude
  import opened RoleModel
  import opened Propagation

  type Renaming = map<Role, Role>

  /** phi renames the roles of `a` into `t` so that wiring, egress rules and inputs correspond, and `t`
      has no feeding edge outside the image. */
  ghost predicate Embeds(a: Template, t: Template, phi: Renaming) {
    && phi.Keys == a.roles.Keys
    && (forall r | r in phi :: phi[r] in t.roles)
    && (forall r, s | r in phi && s in phi && phi[r] == phi[s] :: r == s)
    && (forall r, s | r in phi && s in phi :: Feeds(a, r, s) <==> Feeds(t, phi[r], phi[s]))
    && (forall u, v | Feeds(t, u, v) :: u in phi.Values && v in phi.Values)
    && (forall r | r in phi :: a.roles[r].count == t.roles[phi[r]].count && a.roles[r].net == t.roles[phi[r]].net)
    && (forall r | r in phi :: SourceX(a.x, r) == SourceX(t.x, phi[r]))
  }

  ghost function ImageOf(phi: Renaming, s: set<Role>): set<Role> {
    set r | r in s && r in phi :: phi[r]
  }

  lemma UpstreamsRenamed(a: Template, t: Template, phi: Renaming, r: Role)
    requires WellFormed(a) && Embeds(a, t, phi) && r in phi
    ensures Upstreams(a.edges, r) <= phi.Keys
    ensures Upstreams(t.edges, phi[r]) == ImageOf(phi, Upstreams(a.edges, r))
  {
    hide Upstreams;
    forall u | u in Upstreams(a.edges, r)
      ensures u in phi && phi[u] in Upstreams(t.edges, phi[r])
    {
      UpstreamsFeed(a, u, r);
      UpstreamsFeed(t, phi[u], phi[r]);
    }
    forall v | v in Upstreams(t.edges, phi[r])
      ensures v in ImageOf(phi, Upstreams(a.edges, r))
    {
      UpstreamsFeed(t, v, phi[r]);
      var u :| u in phi && phi[u] == v;
      UpstreamsFeed(a, u, r);
    }
  }

  /** A cycle supplies a set of roles each of which has an upstream in the set. */
  lemma CycleIsStuck(t: Template) returns (d: set<Role>)
    requires HasCycle(t)
    ensures d != {} && IsStuck(t, d)
  {
    var c :| OnCycle(t, c);
    var p: seq<Role> :| IsWalk(t, p) && |p| >= 2 && p[0] == c && p[|p| - 1] == c;
    d := Elements(p);
    assert p[0] in d;
    forall v | v in d
      ensures HasUpstreamIn(t, d, v)
    {
      var i :| 0 <= i < |p| && p[i] == v;
      var j := if i == 0 then |p| - 1 else i;
      assert Steps(t, p, j - 1) && p[j - 1] in d;
    }
  }

  lemma {:induction false} CyclesCorrespond(a: Template, t: Template, phi: Renaming)
    requires WellFormed(a) && WellFormed(t) && Embeds(a, t, phi)
    ensures HasCycle(a) <==> HasCycle(t)
  {
    if HasCycle(a) {
      CycleCarriesOver(a, t, phi);
    }
    if HasCycle(t) {
      CycleComesFrom(a, t, phi);
    }
  }

  lemma CycleCarriesOver(a: Template, t: Template, phi: Renaming)
    requires WellFormed(a) && Embeds(a, t, phi) && HasCycle(a)
    ensures HasCycle(t)
  {
    var d := CycleIsStuck(a);
    var image := ImageOf(phi, d);
    var r :| r in d;
    assert HasUpstreamIn(a, d, r);
    FeederIsKnown(a, d, r);
    forall v | v in image
      ensures HasUpstreamIn(t, image, v)
    {
      var s :| s in d && s in phi && phi[s] == v;
      assert HasUpstreamIn(a, d, s);
      var u :| u in d && Feeds(a, u, s);
      assert Edge(u, s) in a.edges;
      assert phi[u] in image;
    }
    assert phi[r] in image;
    StuckMeansCycle(t, image, phi[r]);
  }

  lemma FeederIsKnown(a: Template, d: set<Role>, r: Role)
    requires WellFormed(a) && HasUpstreamIn(a, d, r)
    ensures r in a.roles
  {
    var u :| u in d && Feeds(a, u, r);
    assert Edge(u, r) in a.edges;
  }

  lemma CycleComesFrom(a: Template, t: Template, phi: Renaming)
    requires WellFormed(a) && Embeds(a, t, phi) && HasCycle(t)
    ensures HasCycle(a)
  {
    var d := CycleIsStuck(t);
    var preimage := set r | r in phi && phi[r] in d;
    var v :| v in d;
    assert HasUpstreamIn(t, d, v);
    var w :| w in d && Feeds(t, w, v);
    var start :| start in phi && phi[start] == v;
    forall s | s in preimage
      ensures HasUpstreamIn(a, preimage, s)
    {
      assert HasUpstreamIn(t, d, phi[s]);
      var u :| u in d && Feeds(t, u, phi[s]);
      var r :| r in phi && phi[r] == u;
      assert r in preimage && Feeds(a, r, s);
    }
    StuckMeansCycle(a, preimage, start);
  }

  lemma ContributionRenamed(a: Template, t: Template, phi: Renaming, m: map<Role, real>, s: Role)
    requires Embeds(a, t, phi) && m.Keys == t.roles.Keys && s in phi
    ensures forall r | r in phi :: phi[r] in m
    ensures Contribution(a, ReadBack(phi, m))(s) == Contribution(t, m)(phi[s])
  {
  }

  lemma EmbeddedRole(a: Template, t: Template, phi: Renaming, r: Role)
    requires Embeds(a, t, phi) && r in phi
    ensures phi[r] in t.roles && SourceX(a.x, r) == SourceX(t.x, phi[r])
    ensures forall r, s | r in phi && s in phi && phi[r] == phi[s] :: r == s
  {
  }

  lemma ImageEmpty(phi: Renaming, s: set<Role>)
    requires s <= phi.Keys
    ensures ImageOf(phi, s) == {} <==> s == {}
    ensures ImageOf(phi, s) == set j | j in s :: phi[j]
  {
    if r :| r in s {
      assert phi[r] in ImageOf(phi, s);
    }
  }

  ghost function ReadBack(phi: Renaming, m: map<Role, real>): map<Role, real>
    requires forall r | r in phi :: phi[r] in m
  {
    map r | r in phi :: m[phi[r]]
  }

  lemma {:induction false} InflowRenamed(a: Template, t: Template, phi: Renaming, m: map<Role, real>, up: set<Role>)
    requires Embeds(a, t, phi) && m.Keys == t.roles.Keys && up <= phi.Keys
    ensures forall r | r in phi :: phi[r] in m
    ensures Sum(up, Contribution(a, ReadBack(phi, m))) == Sum(ImageOf(phi, up), Contribution(t, m))
  {
    ImageEmpty(phi, up);
    forall s | s in up
      ensures Contribution(a, ReadBack(phi, m))(s) == Contribution(t, m)(phi[s])
    {
      ContributionRenamed(a, t, phi, m, s);
    }
    SumRenamed(up, ImageOf(phi, up), phi, Contribution(a, ReadBack(phi, m)), Contribution(t, m));
  }

  lemma {:induction false} RenamedResolves(a: Template, t: Template, phi: Renaming, m: map<Role, real>, r: Role)
    requires WellFormed(a) && Embeds(a, t, phi) && m.Keys == t.roles.Keys && r in phi && phi[r] in m
    requires Resolves(t, m, phi[r])
    ensures forall s | s in phi :: phi[s] in m
    ensures Resolves(a, ReadBack(phi, m), r)
  {
    var up := Upstreams(a.edges, r);
    UpstreamsRenamed(a, t, phi, r);
    EmbeddedRole(a, t, phi, r);
    ImageEmpty(phi, up);
    InflowRenamed(a, t, phi, m, up);
    hide Upstreams, Sum, Embeds, WellFormed, Contribution, SourceX, ImageOf;
  }

  /** Reading a solution back along the renaming solves the original system. */
  lemma ReadBackSolves(a: Template, t: Template, phi: Renaming, m: map<Role, real>)
    requires WellFormed(a) && Embeds(a, t, phi) && IsSolution(t, m)
    ensures forall r | r in phi :: phi[r] in m
    ensures IsSolution(a, ReadBack(phi, m))
  {
    SolvedImage(a, t, phi, m);
    hide Resolves, WellFormed, Embeds, IsSolution;
    var back := ReadBack(phi, m);
    forall r | r in back
      ensures Resolves(a, back, r)
    {
      RenamedResolves(a, t, phi, m, r);
    }
    SolvesEverywhere(a, back);
  }

  lemma SolvesEverywhere(t: Template, m: map<Role, real>)
    requires m.Keys == t.roles.Keys && forall r | r in m :: Resolves(t, m, r)
    ensures IsSolution(t, m)
  {
    hide Resolves;
  }

  lemma SolvedImage(a: Template, t: Template, phi: Renaming, m: map<Role, real>)
    requires Embeds(a, t, phi) && IsSolution(t, m)
    ensures phi.Keys == a.roles.Keys && m.Keys == t.roles.Keys
    ensures forall r | r in phi :: phi[r] in m && Resolves(t, m, phi[r])
  {
    hide Resolves;
  }

  /** Solving the renamed system and reading it back is solving the original one. */
  lemma {:induction false} PropagationRenamed(a: Template, t: Template, phi: Renaming)
    requires WellFormed(a) && WellFormed(t) && Embeds(a, t, phi)
    requires !HasCycle(t)
    ensures !HasCycle(a)
    ensures forall r | r in a.roles :: r in phi && phi[r] in ResolvedX(t) && ResolvedX(t)[phi[r]] == ResolvedX(a)[r]
  {
    hide *;
    CyclesCorrespond(a, t, phi);
    ReadBackSolves(a, t, phi, ResolvedX(t));
    SameTemplateOneSolution(a, ReadBack(phi, ResolvedX(t)), ResolvedX(a));
    SolutionKeys(a, ResolvedX(a));
    ReadBackAt(phi, ResolvedX(t));
  }

  lemma SameTemplateOneSolution(t: Template, m: map<Role, real>, n: map<Role, real>)
    requires WellFormed(t) && !HasCycle(t) && IsSolution(t, m) && IsSolution(t, n)
    ensures m == n
  {
    hide HasCycle, IsSolution;
    AtMostOneSolution(t, t, m, n);
  }

  lemma SolutionKeys(t: Template, m: map<Role, real>)
    requires IsSolution(t, m)
    ensures m.Keys == t.roles.Keys
  {
  }

  lemma ReadBackAt(phi: Renaming, m: map<Role, real>)
    requires forall r | r in phi :: phi[r] in m
    ensures ReadBack(phi, m).Keys == phi.Keys
    ensures forall r | r in phi :: ReadBack(phi, m)[r] == m[phi[r]]
  {
  }
}
