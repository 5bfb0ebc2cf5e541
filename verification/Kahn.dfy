/** The queue-driven pass that resolves x, proved against the equations of Propagation. */
module Kahn {
  import opened Prelude
  import opened RoleModel
  import opened Propagation

  ghost function Lookup(m: map<Role, real>): Role -> real {
    u => if u in m then m[u] else 0.0
  }

  /** The books kept for one role: how many upstreams are still to come, and what the others sent. */
  ghost predicate Tally(up: set<Role>, seen: set<Role>, sent: map<Role, real>, accum: real, remaining: int) {
    && remaining == |up - seen|
    && accum == Sum(up * seen, Lookup(sent))
  }

  lemma TallyCounted(up: set<Role>, seen: set<Role>, r: Role, sent: map<Role, real>, accum: real, remaining: int)
    requires Tally(up, seen, sent, accum, remaining)
    requires r in up && r !in seen && r in sent
    ensures Tally(up, seen + {r}, sent, accum + sent[r], remaining - 1)
    ensures remaining > 0
  {
    SumInsert(up * seen, Lookup(sent), r);
    assert up * (seen + {r}) == up * seen + {r};
    assert up - seen == (up - (seen + {r})) + {r};
  }

  lemma TallySkipped(up: set<Role>, seen: set<Role>, r: Role, sent: map<Role, real>, accum: real, remaining: int)
    requires Tally(up, seen, sent, accum, remaining)
    requires r !in up
    ensures Tally(up, seen + {r}, sent, accum, remaining)
  {
    assert up * (seen + {r}) == up * seen;
    assert up - (seen + {r}) == up - seen;
  }

  lemma TallyExtended(up: set<Role>, seen: set<Role>, sent: map<Role, real>, sent': map<Role, real>, accum: real,
                      remaining: int)
    requires Tally(up, seen, sent, accum, remaining)
    requires forall u | u in seen :: u in sent && u in sent' && sent'[u] == sent[u]
    ensures Tally(up, seen, sent', accum, remaining)
  {
    SumCongruent(up * seen, Lookup(sent), Lookup(sent'));
  }

  /** Every role enters the queue once, after all its upstreams. */
  ghost predicate IsTopological(t: Template, queue: seq<Role>) {
    && Distinct(queue)
    && Elements(queue) <= t.roles.Keys
    && forall i | 0 <= i < |queue| :: Upstreams(t.edges, queue[i]) <= Elements(queue[..i])
  }

  ghost function DistinctEdges(t: Template): set<Edge> {
    set e | e in t.edges && e.src != e.dst
  }

  ghost predicate Consistent(t: Template, seen: set<Role>, sent: map<Role, real>, accum: map<Role, real>,
                             remaining: map<Role, int>) {
    && accum.Keys == remaining.Keys == t.roles.Keys
    && forall d {:trigger accum[d]} {:trigger remaining[d]} | d in t.roles ::
         Tally(Upstreams(t.edges, d), seen, sent, accum[d], remaining[d])
  }

  /** Halfway through relaxing r's edges: the targets in `todo` have not heard from r yet. */
  ghost predicate MidRelax(t: Template, seen: set<Role>, r: Role, todo: set<Role>, sent: map<Role, real>,
                           accum: map<Role, real>, remaining: map<Role, int>) {
    && accum.Keys == remaining.Keys == t.roles.Keys
    && forall d {:trigger accum[d]} {:trigger remaining[d]} | d in t.roles ::
         Tally(Upstreams(t.edges, d), if d in todo then seen else seen + {r}, sent, accum[d], remaining[d])
  }

  ghost predicate Settled(t: Template, sent: map<Role, real>, d: Role, x: real) {
    var up := Upstreams(t.edges, d);
    if up == {} then x == SourceX(t.x, d) else up <= sent.Keys && x == Sum(up, Lookup(sent))
  }

  ghost predicate QueueAccounts(t: Template, sent: map<Role, real>, remaining: map<Role, int>,
                                resolved: map<Role, real>, queue: seq<Role>) {
    && IsTopological(t, queue)
    && Elements(queue) == resolved.Keys
    && remaining.Keys == t.roles.Keys
    && (forall d {:trigger remaining[d]} | d in t.roles :: d in resolved <==> remaining[d] == 0)
    && forall d {:trigger resolved[d]} | d in resolved :: Settled(t, sent, d, resolved[d])
  }

  ghost function EdgesFrom(t: Template, from: set<Role>): set<Edge> {
    set e | e in t.edges && e.src != e.dst && e.src in from
  }

  lemma EnqueueKeepsOrder(t: Template, queue: seq<Role>, d: Role)
    requires IsTopological(t, queue) && d in t.roles && d !in queue
    requires Upstreams(t.edges, d) <= Elements(queue)
    ensures IsTopological(t, queue + [d])
    ensures Elements(queue + [d]) == Elements(queue) + {d}
  {
    var q := queue + [d];
    forall i | 0 <= i < |q|
      ensures Upstreams(t.edges, q[i]) <= Elements(q[..i])
    {
      if i < |queue| {
        assert q[..i] == queue[..i];
      } else {
        assert q[..i] == queue;
      }
    }
  }

  lemma EmptyTally(up: set<Role>)
    ensures Tally(up, {}, map[], 0.0, |up|)
  {
    assert up * {} == {} && up - {} == up;
  }

  lemma UpstreamsAppend(edges: seq<Edge>, e: Edge, d: Role)
    ensures Upstreams(edges + [e], d) == if e.dst == d && e.src != d then Upstreams(edges, d) + {e.src}
            else Upstreams(edges, d)
  {
    var all := edges + [e];
    forall u | u in Upstreams(edges, d)
      ensures u in Upstreams(all, d)
    {
      var f :| f in edges && f.dst == d && f.src != d && f.src == u;
      assert f in all;
    }
    assert all[|edges|] == e;
  }

  function Downstreams(edges: seq<Edge>, u: Role): set<Role> {
    set e | e in edges && e.src == u && e.dst != u :: e.dst
  }

  lemma DownstreamsAppend(edges: seq<Edge>, e: Edge, u: Role)
    ensures Downstreams(edges + [e], u) == if e.src == u && e.dst != u then Downstreams(edges, u) + {e.dst}
            else Downstreams(edges, u)
  {
    var all := edges + [e];
    forall d | d in Downstreams(edges, u)
      ensures d in Downstreams(all, u)
    {
      var f :| f in edges && f.src == u && f.dst != u && f.dst == d;
      assert f in all;
    }
    assert all[|edges|] == e;
  }

  lemma DownstreamsFeed(t: Template, u: Role, d: Role)
    ensures d in Downstreams(t.edges, u) <==> Feeds(t, u, d)
  {
    if Feeds(t, u, d) {
      assert Edge(u, d) in t.edges;
    }
  }

  ghost predicate UpstreamTable(t: Template, edges: seq<Edge>, table: map<Role, set<Role>>) {
    table.Keys == t.roles.Keys && forall d {:trigger table[d]} | d in t.roles :: table[d] == Upstreams(edges, d)
  }

  ghost predicate DownstreamTable(t: Template, edges: seq<Edge>, table: map<Role, set<Role>>) {
    table.Keys == t.roles.Keys && forall u {:trigger table[u]} | u in t.roles :: table[u] == Downstreams(edges, u)
  }

  lemma UpstreamTableAppend(t: Template, edges: seq<Edge>, e: Edge, table: map<Role, set<Role>>)
    requires UpstreamTable(t, edges, table) && e.dst in t.roles
    ensures e.dst in table
    ensures UpstreamTable(t, edges + [e], if e.src == e.dst then table else table[e.dst := table[e.dst] + {e.src}])
  {
    hide Upstreams;
    forall r | r in t.roles
      ensures Upstreams(edges + [e], r) == if e.dst == r && e.src != r then Upstreams(edges, r) + {e.src}
              else Upstreams(edges, r)
    {
      UpstreamsAppend(edges, e, r);
    }
  }

  lemma DownstreamTableAppend(t: Template, edges: seq<Edge>, e: Edge, table: map<Role, set<Role>>)
    requires DownstreamTable(t, edges, table) && e.src in t.roles
    ensures e.src in table
    ensures DownstreamTable(t, edges + [e], if e.src == e.dst then table else table[e.src := table[e.src] + {e.dst}])
  {
    hide Downstreams;
    forall r | r in t.roles
      ensures Downstreams(edges + [e], r) == if e.src == r && e.dst != r then Downstreams(edges, r) + {e.dst}
              else Downstreams(edges, r)
    {
      DownstreamsAppend(edges, e, r);
    }
  }

  /** Adjacency in both directions, self-edges skipped and duplicates merged. */
  method BuildAdjacency(t: Template) returns (upstreams: map<Role, set<Role>>, downstreams: map<Role, set<Role>>)
    requires WellFormed(t)
    ensures UpstreamTable(t, t.edges, upstreams)
    ensures DownstreamTable(t, t.edges, downstreams)
  {
    upstreams := map r | r in t.roles :: {};
    downstreams := map r | r in t.roles :: {};
    assert UpstreamTable(t, [], upstreams) && DownstreamTable(t, [], downstreams);
    hide UpstreamTable, DownstreamTable;
    for i := 0 to |t.edges|
      invariant UpstreamTable(t, t.edges[..i], upstreams)
      invariant DownstreamTable(t, t.edges[..i], downstreams)
    {
      var e := t.edges[i];
      assert e in t.edges;
      assert t.edges[..i + 1] == t.edges[..i] + [e];
      UpstreamTableAppend(t, t.edges[..i], e, upstreams);
      DownstreamTableAppend(t, t.edges[..i], e, downstreams);
      if e.src != e.dst {
        upstreams := upstreams[e.dst := upstreams[e.dst] + {e.src}];
        downstreams := downstreams[e.src := downstreams[e.src] + {e.dst}];
      }
    }
    assert t.edges[..|t.edges|] == t.edges;
  }

  lemma LastUpstreamHeard(t: Template, seen: set<Role>, sent: map<Role, real>, d: Role, u: Role, accum: real)
    requires Tally(Upstreams(t.edges, d), seen, sent, accum, 0)
    requires Feeds(t, u, d) && seen == sent.Keys
    ensures Upstreams(t.edges, d) <= seen
    ensures Settled(t, sent, d, accum)
  {
    var up := Upstreams(t.edges, d);
    UpstreamsFeed(t, u, d);
    forall v | v in up
      ensures v in seen
    {
      assert v !in up - seen;
    }
    assert up * seen == up;
  }

  lemma BeginRelax(t: Template, seen: set<Role>, r: Role, sent: map<Role, real>, accum: map<Role, real>,
                   remaining: map<Role, int>)
    requires Consistent(t, seen, sent, accum, remaining)
    ensures MidRelax(t, seen, r, Downstreams(t.edges, r), sent, accum, remaining)
  {
    forall d | d in t.roles && d !in Downstreams(t.edges, r)
      ensures Tally(Upstreams(t.edges, d), seen + {r}, sent, accum[d], remaining[d])
    {
      UpstreamsFeed(t, r, d);
      DownstreamsFeed(t, r, d);
      TallySkipped(Upstreams(t.edges, d), seen, r, sent, accum[d], remaining[d]);
    }
  }

  lemma RelaxOne(t: Template, seen: set<Role>, r: Role, todo: set<Role>, d: Role, sent: map<Role, real>,
                 accum: map<Role, real>, remaining: map<Role, int>)
    requires MidRelax(t, seen, r, todo, sent, accum, remaining)
    requires r !in seen && r in sent && d in todo && d in t.roles && Feeds(t, r, d)
    ensures MidRelax(t, seen, r, todo - {d}, sent, accum[d := accum[d] + sent[r]], remaining[d := remaining[d] - 1])
    ensures remaining[d] > 0
  {
    hide Tally;
    UpstreamsFeed(t, r, d);
    TallyCounted(Upstreams(t.edges, d), seen, r, sent, accum[d], remaining[d]);
    var accum', remaining' := accum[d := accum[d] + sent[r]], remaining[d := remaining[d] - 1];
    forall v | v in t.roles
      ensures Tally(Upstreams(t.edges, v), if v in todo - {d} then seen else seen + {r}, sent, accum'[v], remaining'[v])
    {
      if v != d {
        assert Tally(Upstreams(t.edges, v), if v in todo then seen else seen + {r}, sent, accum[v], remaining[v]);
      }
    }
  }

  /** The queue before and after d hears from one more upstream. */
  lemma QueueAfter(t: Template, sent: map<Role, real>, remaining: map<Role, int>, resolved: map<Role, real>,
                   queue: seq<Role>, d: Role, x: real)
    requires QueueAccounts(t, sent, remaining, resolved, queue)
    requires d in t.roles && remaining[d] > 0
    requires remaining[d] == 1 ==> Upstreams(t.edges, d) <= Elements(queue) && Settled(t, sent, d, x)
    ensures d !in resolved
    ensures if remaining[d] == 1 then QueueAccounts(t, sent, remaining[d := 0], resolved[d := x], queue + [d])
            else QueueAccounts(t, sent, remaining[d := remaining[d] - 1], resolved, queue)
  {
    if remaining[d] == 1 {
      EnqueueKeepsOrder(t, queue, d);
    }
  }

  lemma RelaxedOnce(t: Template, seen: set<Role>, r: Role, done: set<Role>, relaxed: seq<Edge>, d: Role)
    requires r !in seen && d !in done
    requires Distinct(relaxed) && Elements(relaxed) == EdgesFrom(t, seen) + set v | v in done :: Edge(r, v)
    ensures Distinct(relaxed + [Edge(r, d)])
    ensures Elements(relaxed + [Edge(r, d)]) == EdgesFrom(t, seen) + set v | v in done + {d} :: Edge(r, v)
  {
    assert Edge(r, d) !in Elements(relaxed);
  }

  lemma RelaxedAll(t: Template, seen: set<Role>, r: Role)
    ensures EdgesFrom(t, seen + {r}) == EdgesFrom(t, seen) + set v | v in Downstreams(t.edges, r) :: Edge(r, v)
  {
    forall d {
      DownstreamsFeed(t, r, d);
    }
  }

  /** What the inner loop keeps while r's edges to `todo` are still to be relaxed. */
  ghost predicate Relaxing(t: Template, seen: set<Role>, r: Role, todo: set<Role>, sent: map<Role, real>,
                           accum: map<Role, real>, remaining: map<Role, int>, resolved: map<Role, real>,
                           queue: seq<Role>, relaxed: seq<Edge>) {
    && todo <= Downstreams(t.edges, r)
    && MidRelax(t, seen, r, todo, sent, accum, remaining)
    && QueueAccounts(t, sent, remaining, resolved, queue)
    && seen + {r} <= Elements(queue)
    && Distinct(relaxed)
    && Elements(relaxed) == EdgesFrom(t, seen) + set d | d in Downstreams(t.edges, r) - todo :: Edge(r, d)
  }

  lemma RelaxNext(t: Template, seen: set<Role>, r: Role, todo: set<Role>, sent: map<Role, real>,
                  accum: map<Role, real>, remaining: map<Role, int>, resolved: map<Role, real>, queue: seq<Role>,
                  relaxed: seq<Edge>, d: Role)
    requires WellFormed(t) && Relaxing(t, seen, r, todo, sent, accum, remaining, resolved, queue, relaxed)
    requires r !in seen && sent.Keys == seen + {r} && d in todo
    ensures d in accum && d in remaining && d !in resolved
    ensures var accum', remaining' := accum[d := accum[d] + sent[r]], remaining[d := remaining[d] - 1];
            if remaining'[d] == 0 then
              Relaxing(t, seen, r, todo - {d}, sent, accum', remaining', resolved[d := accum'[d]],
                       queue + [d], relaxed + [Edge(r, d)])
            else
              Relaxing(t, seen, r, todo - {d}, sent, accum', remaining', resolved, queue, relaxed + [Edge(r, d)])
  {
    hide Tally, QueueAccounts, Settled, Downstreams, Upstreams, EdgesFrom, Distinct;
    DownstreamsFeed(t, r, d);
    FeedsDeclared(t, r, d);
    RelaxOne(t, seen, r, todo, d, sent, accum, remaining);
    var downs := Downstreams(t.edges, r);
    RelaxedOnce(t, seen, r, downs - todo, relaxed, d);
    assert downs - todo + {d} == downs - (todo - {d});
    var total := accum[d] + sent[r];
    if remaining[d] == 1 {
      LastUpstreamHeard(t, seen + {r}, sent, d, r, total);
    }
    QueueAfter(t, sent, remaining, resolved, queue, d, total);
  }

  lemma FeedsDeclared(t: Template, u: Role, d: Role)
    requires WellFormed(t) && Feeds(t, u, d)
    ensures u in t.roles && d in t.roles
  {
  }

  /** The inner loop: r's total egress is added to each downstream once, and a downstream whose last
      upstream this was joins the queue. */
  method Relax(t: Template, r: Role, downs: set<Role>, egress: real, ghost seen: set<Role>, ghost sent: map<Role, real>,
               resolved0: map<Role, real>, accum0: map<Role, real>, remaining0: map<Role, int>, queue0: seq<Role>,
               ghost relaxed0: seq<Edge>)
    returns (resolved: map<Role, real>, accum: map<Role, real>, remaining: map<Role, int>, queue: seq<Role>,
             ghost relaxed: seq<Edge>)
    requires WellFormed(t) && r !in seen && sent.Keys == seen + {r} && sent[r] == egress
    requires downs == Downstreams(t.edges, r)
    requires Relaxing(t, seen, r, downs, sent, accum0, remaining0, resolved0, queue0, relaxed0)
    ensures Relaxing(t, seen, r, {}, sent, accum, remaining, resolved, queue, relaxed)
    ensures queue0 <= queue
    ensures forall d | d in resolved0 :: d in resolved && resolved[d] == resolved0[d]
  {
    hide *;
    resolved, accum, remaining, queue, relaxed := resolved0, accum0, remaining0, queue0, relaxed0;
    var todo := downs;
    while todo != {}
      invariant Relaxing(t, seen, r, todo, sent, accum, remaining, resolved, queue, relaxed)
      invariant queue0 <= queue
      invariant forall d | d in resolved0 :: d in resolved && resolved[d] == resolved0[d]
    {
      var d :| d in todo;
      RelaxNext(t, seen, r, todo, sent, accum, remaining, resolved, queue, relaxed, d);
      accum := accum[d := accum[d] + egress];
      remaining := remaining[d := remaining[d] - 1];
      relaxed := relaxed + [Edge(r, d)];
      todo := todo - {d};
      if remaining[d] == 0 {
        resolved := resolved[d := accum[d]];
        queue := queue + [d];
      }
    }
  }

  // ---- what the final state of the queue says ----

  lemma {:induction false} WalkStaysQueued(t: Template, queue: seq<Role>, p: seq<Role>, j: nat) returns (i: nat)
    requires IsTopological(t, queue) && IsWalk(t, p) && |p| >= 2
    requires j < |queue| && queue[j] == p[|p| - 1]
    ensures i < j && queue[i] == p[0]
    decreases |p|
  {
    var last := |p| - 1;
    assert Steps(t, p, last - 1);
    UpstreamsFeed(t, p[last - 1], p[last]);
    var k :| 0 <= k < j && queue[k] == p[last - 1];
    if last == 1 {
      i := k;
    } else {
      var q := p[..last];
      forall n
        ensures Steps(t, q, n)
      {
        assert Steps(t, p, n);
      }
      i := WalkStaysQueued(t, queue, q, k);
    }
  }

  /** Whatever feeds a queued role was queued before it, so no cycle is ever queued. */
  lemma {:induction false} QueuedIsAcyclic(t: Template, queue: seq<Role>, r: Role)
    requires IsTopological(t, queue) && r in queue
    ensures !BelowCycle(t, r)
  {
    if BelowCycle(t, r) {
      var c :| OnCycle(t, c) && Reaches(t, c, r);
      var p: seq<Role> :| IsWalk(t, p) && |p| >= 2 && p[0] == c && p[|p| - 1] == r;
      var q: seq<Role> :| IsWalk(t, q) && |q| >= 2 && q[0] == c && q[|q| - 1] == c;
      var j :| 0 <= j < |queue| && queue[j] == r;
      var i := WalkStaysQueued(t, queue, p, j);
      var k := WalkStaysQueued(t, queue, q, i);
    }
  }

  lemma StillWaiting(t: Template, seen: set<Role>, sent: map<Role, real>, v: Role, accum: real, remaining: int)
    requires WellFormed(t) && Tally(Upstreams(t.edges, v), seen, sent, accum, remaining) && remaining != 0
    ensures HasUpstreamIn(t, t.roles.Keys - seen, v)
  {
    var waiting := Upstreams(t.edges, v) - seen;
    assert waiting != {};
    var u :| u in waiting;
    UpstreamsFeed(t, u, v);
    assert u in t.roles.Keys - seen;
  }

  /** Roles that never entered the queue wait for one another. */
  lemma {:induction false} UnresolvedIsBelowCycle(t: Template, sent: map<Role, real>, accum: map<Role, real>,
                                                  remaining: map<Role, int>, resolved: map<Role, real>,
                                                  queue: seq<Role>)
    requires WellFormed(t) && Consistent(t, Elements(queue), sent, accum, remaining)
    requires QueueAccounts(t, sent, remaining, resolved, queue)
    ensures forall v | v in t.roles && v !in resolved :: BelowCycle(t, v)
  {
    hide Tally, Settled;
    var d := t.roles.Keys - Elements(queue);
    forall v | v in d
      ensures HasUpstreamIn(t, d, v)
    {
      StillWaiting(t, Elements(queue), sent, v, accum[v], remaining[v]);
    }
    forall v | v in t.roles && v !in resolved
      ensures BelowCycle(t, v)
    {
      assert v in d;
      StuckMeansCycle(t, d, v);
    }
  }

  lemma SettledSolves(t: Template, sent: map<Role, real>, resolved: map<Role, real>, d: Role)
    requires d in resolved && Settled(t, sent, d, resolved[d])
    requires forall u | u in sent :: u in resolved && u in t.roles && sent[u] == RoleEgress(t.roles[u], resolved[u])
    ensures Resolves(t, resolved, d)
  {
    SumCongruent(Upstreams(t.edges, d), Lookup(sent), Contribution(t, resolved));
  }

  lemma InitialAccounts(t: Template, accum: map<Role, real>, remaining: map<Role, int>)
    requires accum == map r | r in t.roles :: 0.0
    requires remaining == map r | r in t.roles :: |Upstreams(t.edges, r)|
    ensures Consistent(t, {}, map[], accum, remaining)
  {
    forall d | d in t.roles
      ensures Tally(Upstreams(t.edges, d), {}, map[], accum[d], remaining[d])
    {
      EmptyTally(Upstreams(t.edges, d));
    }
  }

  /** Seeding: the roles without upstreams, in declaration order, take the input signal. */
  method Seed(t: Template, remaining: map<Role, int>) returns (resolved: map<Role, real>, queue: seq<Role>)
    requires WellFormed(t)
    requires remaining == map r | r in t.roles :: |Upstreams(t.edges, r)|
    ensures QueueAccounts(t, map[], remaining, resolved, queue)
  {
    resolved, queue := map[], [];
    assert IsTopological(t, queue);
    hide IsTopological, Upstreams, QueueAccounts;
    for i := 0 to |t.order|
      invariant Elements(queue) == resolved.Keys == set r | r in t.order[..i] && Upstreams(t.edges, r) == {}
      invariant IsTopological(t, queue)
      invariant forall d | d in resolved :: resolved[d] == SourceX(t.x, d)
    {
      var r := t.order[i];
      assert r in Elements(t.order);
      assert t.order[..i + 1] == t.order[..i] + [r];
      if remaining[r] == 0 {
        assert r !in t.order[..i];
        assert r !in Elements(queue);
        EnqueueKeepsOrder(t, queue, r);
        resolved := resolved[r := SourceX(t.x, r)];
        queue := queue + [r];
      }
    }
    assert t.order[..|t.order|] == t.order;
    SeedAccounts(t, remaining, resolved, queue);
  }

  lemma SeedAccounts(t: Template, remaining: map<Role, int>, resolved: map<Role, real>, queue: seq<Role>)
    requires WellFormed(t) && IsTopological(t, queue)
    requires remaining == map r | r in t.roles :: |Upstreams(t.edges, r)|
    requires Elements(queue) == resolved.Keys == set r | r in t.order && Upstreams(t.edges, r) == {}
    requires forall d | d in resolved :: resolved[d] == SourceX(t.x, d)
    ensures QueueAccounts(t, map[], remaining, resolved, queue)
  {
    hide Upstreams;
    forall d | d in t.roles
      ensures d in resolved <==> remaining[d] == 0
    {
      assert d in Elements(t.order);
    }
  }

  lemma QueueFacts(t: Template, sent: map<Role, real>, remaining: map<Role, int>, resolved: map<Role, real>,
                   queue: seq<Role>)
    requires QueueAccounts(t, sent, remaining, resolved, queue)
    ensures IsTopological(t, queue) && Elements(queue) == resolved.Keys <= t.roles.Keys
    ensures |queue| == |resolved| <= |t.roles|
    ensures |queue| == |t.roles| ==> Elements(queue) == t.roles.Keys
  {
    DistinctSize(queue);
    SubsetSize(Elements(queue), t.roles.Keys);
    assert |resolved| == |resolved.Keys| && |t.roles| == |t.roles.Keys|;
  }

  /** Recording what r sends changes no book that has not counted r. */
  lemma SendingKeepsAccounts(t: Template, sent: map<Role, real>, r: Role, egress: real, accum: map<Role, real>,
                             remaining: map<Role, int>, resolved: map<Role, real>, queue: seq<Role>)
    requires r !in sent
    requires Consistent(t, sent.Keys, sent, accum, remaining)
    requires QueueAccounts(t, sent, remaining, resolved, queue)
    ensures Consistent(t, sent.Keys, sent[r := egress], accum, remaining)
    ensures QueueAccounts(t, sent[r := egress], remaining, resolved, queue)
  {
    hide Tally, Settled, Upstreams;
    forall d | d in t.roles
      ensures Tally(Upstreams(t.edges, d), sent.Keys, sent[r := egress], accum[d], remaining[d])
    {
      TallyExtended(Upstreams(t.edges, d), sent.Keys, sent, sent[r := egress], accum[d], remaining[d]);
    }
    forall d | d in resolved
      ensures Settled(t, sent[r := egress], d, resolved[d])
    {
      SettledExtended(t, sent, r, egress, d, resolved[d]);
    }
  }

  lemma SettledExtended(t: Template, sent: map<Role, real>, r: Role, egress: real, d: Role, x: real)
    requires r !in sent && Settled(t, sent, d, x)
    ensures Settled(t, sent[r := egress], d, x)
  {
    var up := Upstreams(t.edges, d);
    if up <= sent.Keys {
      SumCongruent(up, Lookup(sent), Lookup(sent[r := egress]));
    }
  }

  /** With every queued role popped: success means all roles were queued and the map solves the equations. */
  lemma FinalAccounts(t: Template, sent: map<Role, real>, accum: map<Role, real>, remaining: map<Role, int>,
                      resolved: map<Role, real>, queue: seq<Role>)
    requires WellFormed(t) && Consistent(t, Elements(queue), sent, accum, remaining)
    requires QueueAccounts(t, sent, remaining, resolved, queue)
    requires sent.Keys == Elements(queue)
    requires forall u | u in sent :: u in resolved && u in t.roles && sent[u] == RoleEgress(t.roles[u], resolved[u])
    ensures forall v :: v in t.roles && v !in resolved <==> BelowCycle(t, v)
    ensures resolved.Keys == t.roles.Keys <==> !HasCycle(t)
    ensures resolved.Keys == t.roles.Keys ==> resolved == ResolvedX(t)
  {
    hide Tally, Settled;
    UnresolvedIsBelowCycle(t, sent, accum, remaining, resolved, queue);
    forall v | BelowCycle(t, v)
      ensures v in t.roles && v !in resolved
    {
      BelowCycleIsDeclared(t, v);
      if v in queue {
        QueuedIsAcyclic(t, queue, v);
      }
    }
    CycleIsBelowItself(t);
    if resolved.Keys == t.roles.Keys {
      forall d | d in resolved
        ensures Resolves(t, resolved, d)
      {
        SettledSolves(t, sent, resolved, d);
      }
      AtMostOneSolution(t, t, resolved, ResolvedX(t));
    } else {
      var v :| v in t.roles && v !in resolved;
      assert BelowCycle(t, v);
    }
  }

  ghost predicate SentAgrees(t: Template, sent: map<Role, real>, resolved: map<Role, real>) {
    forall u | u in sent :: u in resolved && u in t.roles && sent[u] == RoleEgress(t.roles[u], resolved[u])
  }

  /** What the queue loop keeps after `head` pops. */
  ghost predicate Running(t: Template, head: nat, sent: map<Role, real>, accum: map<Role, real>,
                          remaining: map<Role, int>,
                          resolved: map<Role, real>, queue: seq<Role>, relaxed: seq<Edge>) {
    && head <= |queue|
    && sent.Keys == Elements(queue[..head])
    && Consistent(t, sent.Keys, sent, accum, remaining)
    && QueueAccounts(t, sent, remaining, resolved, queue)
    && SentAgrees(t, sent, resolved)
    && Distinct(relaxed) && Elements(relaxed) == EdgesFrom(t, sent.Keys)
  }

  lemma StartRunning(t: Template, accum: map<Role, real>, remaining: map<Role, int>, resolved: map<Role, real>,
                     queue: seq<Role>)
    requires Consistent(t, {}, map[], accum, remaining)
    requires QueueAccounts(t, map[], remaining, resolved, queue)
    ensures Running(t, 0, map[], accum, remaining, resolved, queue, [])
  {
    hide Consistent, QueueAccounts;
    var none: map<Role, real> := map[];
    assert none.Keys == {} && EdgesFrom(t, {}) == {};
  }

  lemma RunningBounds(t: Template, head: nat, sent: map<Role, real>, accum: map<Role, real>, remaining: map<Role, int>,
                      resolved: map<Role, real>, queue: seq<Role>, relaxed: seq<Edge>)
    requires Running(t, head, sent, accum, remaining, resolved, queue, relaxed)
    ensures head <= |queue| <= |t.roles|
    ensures head < |queue| ==> queue[head] in resolved && queue[head] in t.roles
  {
    hide Consistent, QueueAccounts, SentAgrees, EdgesFrom;
    QueueFacts(t, sent, remaining, resolved, queue);
    if head < |queue| {
      TakeOne(queue, head);
    }
  }

  /** Popping the head of the queue opens the relaxation of its edges. */
  lemma Pop(t: Template, head: nat, sent: map<Role, real>, accum: map<Role, real>, remaining: map<Role, int>,
            resolved: map<Role, real>, queue: seq<Role>, relaxed: seq<Edge>, r: Role, egress: real)
    requires Running(t, head, sent, accum, remaining, resolved, queue, relaxed)
    requires head < |queue| && queue[head] == r
    ensures r !in sent
    ensures Relaxing(t, sent.Keys, r, Downstreams(t.edges, r), sent[r := egress], accum, remaining, resolved, queue,
            relaxed)
  {
    hide Consistent, QueueAccounts, SentAgrees, EdgesFrom, MidRelax, Downstreams, Upstreams;
    QueueFacts(t, sent, remaining, resolved, queue);
    TakeOne(queue, head);
    SendingKeepsAccounts(t, sent, r, egress, accum, remaining, resolved, queue);
    BeginRelax(t, sent.Keys, r, sent[r := egress], accum, remaining);
    PrefixElements(queue, head);
    var none: set<Role> := Downstreams(t.edges, r) - Downstreams(t.edges, r);
    assert none == {};
  }

  lemma PrefixElements<T>(s: seq<T>, k: nat)
    requires k <= |s|
    ensures Elements(s[..k]) <= Elements(s)
  {
  }

  /** Once all its edges are relaxed, the popped role counts as sent. */
  lemma Popped(t: Template, head: nat, sent: map<Role, real>, r: Role, resolved0: map<Role, real>, queue0: seq<Role>,
               accum: map<Role, real>, remaining: map<Role, int>, resolved: map<Role, real>, queue: seq<Role>,
               relaxed: seq<Edge>)
    requires head < |queue0| && queue0[head] == r && queue0 <= queue && sent.Keys == Elements(queue0[..head])
    requires r in t.roles && r in resolved0 && SentAgrees(t, sent, resolved0)
    requires forall d | d in resolved0 :: d in resolved && resolved[d] == resolved0[d]
    requires Relaxing(t, sent.Keys, r, {}, sent[r := RoleEgress(t.roles[r], resolved0[r])], accum, remaining, resolved,
             queue, relaxed)
    ensures Running(t, head + 1, sent[r := RoleEgress(t.roles[r], resolved0[r])], accum, remaining, resolved, queue,
            relaxed)
  {
    hide Tally, QueueAccounts, EdgesFrom, Downstreams, Upstreams, RoleEgress;
    var sent' := sent[r := RoleEgress(t.roles[r], resolved0[r])];
    assert queue[..head + 1] == queue0[..head + 1];
    TakeOne(queue0, head);
    assert sent'.Keys == sent.Keys + {r};
    RelaxedAll(t, sent.Keys, r);
    assert Downstreams(t.edges, r) - {} == Downstreams(t.edges, r);
  }

  /** The whole pass. It fails exactly on cyclic role graphs, naming exactly the roles on or below a
      cycle; otherwise it returns the one solution of the equations. `queue` and `relaxed` record the
      order in which roles were queued and edges relaxed, `pops` how often the loop ran. */
  method ResolveX(t: Template)
    returns (r: Result<map<Role, real>, set<Role>>, ghost queue: seq<Role>, ghost relaxed: seq<Edge>, ghost pops: nat)
    requires WellFormed(t)
    ensures r.Success? <==> !HasCycle(t)
    ensures r.Success? ==> r.value == ResolvedX(t)
    ensures r.Failure? ==> forall v :: v in r.error <==> BelowCycle(t, v)
    ensures IsTopological(t, queue) && pops == |queue|
    ensures Distinct(relaxed) && Elements(relaxed) == EdgesFrom(t, Elements(queue))
    ensures r.Success? ==> Elements(queue) == t.roles.Keys && pops == |t.roles|
    ensures r.Success? ==> Elements(relaxed) == DistinctEdges(t)
  {
    hide *;
    var upstreams, downstreams := BuildAdjacency(t);
    TableLookup(t, upstreams, downstreams);
    var accum := map r | r in t.roles :: 0.0;
    var remaining := map r | r in t.roles :: |upstreams[r]|;
    ghost var sent: map<Role, real> := map[];
    InitialAccounts(t, accum, remaining);
    var resolved, pending := Seed(t, remaining);
    StartRunning(t, accum, remaining, resolved, pending);
    relaxed, pops := [], 0;
    var head := 0;
    RunningBounds(t, head, sent, accum, remaining, resolved, pending, relaxed);
    while head < |pending|
      invariant pops == head <= |pending| <= |t.roles|
      invariant Running(t, head, sent, accum, remaining, resolved, pending, relaxed)
      decreases |t.roles| - head
    {
      RunningBounds(t, head, sent, accum, remaining, resolved, pending, relaxed);
      var role := pending[head];
      var egress := RoleEgress(t.roles[role], resolved[role]);
      Pop(t, head, sent, accum, remaining, resolved, pending, relaxed, role, egress);
      RunningSent(t, head, sent, accum, remaining, resolved, pending, relaxed);
      ghost var resolved0, queue0, sent0 := resolved, pending, sent;
      sent := sent[role := egress];
      resolved, accum, remaining, pending, relaxed :=
        Relax(t, role, downstreams[role], egress, sent0.Keys, sent, resolved, accum, remaining, pending, relaxed);
      Popped(t, head, sent0, role, resolved0, queue0, accum, remaining, resolved, pending, relaxed);
      head, pops := head + 1, pops + 1;
      RunningBounds(t, head, sent, accum, remaining, resolved, pending, relaxed);
    }
    queue := pending;
    AllPopped(t, sent, accum, remaining, resolved, queue, relaxed);
    if |resolved| != |t.roles| {
      r := Failure(set v | v in t.roles && v !in resolved);
    } else {
      r := Success(resolved);
    }
  }

  lemma TableLookup(t: Template, upstreams: map<Role, set<Role>>, downstreams: map<Role, set<Role>>)
    requires UpstreamTable(t, t.edges, upstreams) && DownstreamTable(t, t.edges, downstreams)
    ensures upstreams.Keys == downstreams.Keys == t.roles.Keys
    ensures forall r {:trigger upstreams[r]} | r in t.roles :: upstreams[r] == Upstreams(t.edges, r)
    ensures forall r {:trigger downstreams[r]} | r in t.roles :: downstreams[r] == Downstreams(t.edges, r)
  {
  }

  lemma RunningSent(t: Template, head: nat, sent: map<Role, real>, accum: map<Role, real>, remaining: map<Role, int>,
                    resolved: map<Role, real>, queue: seq<Role>, relaxed: seq<Edge>)
    requires Running(t, head, sent, accum, remaining, resolved, queue, relaxed)
    ensures head <= |queue| && sent.Keys == Elements(queue[..head]) && SentAgrees(t, sent, resolved)
  {
  }

  lemma AllPopped(t: Template, sent: map<Role, real>, accum: map<Role, real>, remaining: map<Role, int>,
                  resolved: map<Role, real>, queue: seq<Role>, relaxed: seq<Edge>)
    requires WellFormed(t) && Running(t, |queue|, sent, accum, remaining, resolved, queue, relaxed)
    ensures IsTopological(t, queue) && |queue| == |resolved|
    ensures forall v :: v in t.roles && v !in resolved <==> BelowCycle(t, v)
    ensures |resolved| == |t.roles| <==> !HasCycle(t)
    ensures !HasCycle(t) ==>
            resolved == ResolvedX(t) && Elements(queue) == t.roles.Keys && Elements(relaxed) == DistinctEdges(t)
    ensures Distinct(relaxed) && Elements(relaxed) == EdgesFrom(t, Elements(queue))
  {
    hide Consistent, QueueAccounts, EdgesFrom, HasCycle, BelowCycle, IsTopological;
    assert queue[..|queue|] == queue;
    QueueFacts(t, sent, remaining, resolved, queue);
    FinalAccounts(t, sent, accum, remaining, resolved, queue);
    AllRelaxed(t);
    assert |resolved| == |resolved.Keys| && |t.roles| == |t.roles.Keys|;
  }

  lemma AllRelaxed(t: Template)
    requires WellFormed(t)
    ensures EdgesFrom(t, t.roles.Keys) == DistinctEdges(t)
  {
  }
}
