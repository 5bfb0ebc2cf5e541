/** The merge and the dotted assignment on dictionaries in the heap, updated in place. */
module Dicts {
  import opened Prelude
  import opened Json
  import opened DotKeys

  /** A dictionary entry: a value that is not an object, or another dictionary. */
  datatype Slot = Leaf(value: Json) | Sub(dict: Dict)

  class Dict {
    var fields: map<Name, Slot>

    constructor ()
      ensures fields == map[]
    {
      fields := map[];
    }
  }

  /** The tree of dictionaries below a slot, as the specification sees it. */
  datatype Shape = Value(value: Json) | Node(dict: Dict, kids: map<Name, Shape>)

  ghost function Refs(s: Shape): set<Dict> {
    match s
    case Value(_) => {}
    case Node(d, kids) => {d} + KidRefs(s)
  }

  ghost function KidRefs(s: Shape): set<Dict>
    requires s.Node?
    decreases s, 0
  {
    set k, d | k in s.kids && d in Refs(s.kids[k]) :: d
  }

  function SlotOf(s: Shape): Slot {
    match s
    case Value(v) => Leaf(v)
    case Node(d, _) => Sub(d)
  }

  /** The JSON value the tree stands for. */
  ghost function Content(s: Shape): Json {
    match s
    case Value(v) => v
    case Node(_, kids) => Obj(map k | k in kids :: Content(kids[k]))
  }

  /** No dictionary occurs twice. */
  ghost predicate IsTree(s: Shape) {
    match s
    case Value(v) => !v.Obj?
    case Node(d, kids) =>
      && (forall k | k in kids :: IsTree(kids[k]) && d !in Refs(kids[k]))
      && (forall j, k | j in kids && k in kids && j != k :: Refs(kids[j]) !! Refs(kids[k]))
  }

  ghost function Kid(s: Shape, k: Name): Shape
    requires s.Node?
  {
    if k in s.kids then s.kids[k] else Value(Null)
  }

  lemma KidRefsIn(s: Shape, k: Name)
    requires s.Node?
    ensures Refs(Kid(s, k)) <= Refs(s)
    ensures IsTree(s) ==> IsTree(Kid(s, k)) && s.dict !in Refs(Kid(s, k))
    ensures IsTree(s) ==> forall j | j != k :: Refs(Kid(s, j)) !! Refs(Kid(s, k))
  {
  }

  lemma KidRefsSub(s: Shape, k: Name)
    requires s.Node? && k in s.kids
    ensures Refs(s.kids[k]) <= Refs(s)
  {
  }

  /** The heap agrees with the shape. */
  ghost predicate Holds(s: Shape)
    reads Refs(s)
    decreases s
  {
    match s
    case Value(_) => true
    case Node(d, kids) =>
      && d.fields == (map k | k in kids :: SlotOf(kids[k]))
      && forall k | k in kids :: (KidRefsSub(s, k); Holds(kids[k]))
  }

  ghost predicate Apart(s: Shape, k: Name, kid: Shape)
    requires s.Node?
  {
    s.dict !in Refs(kid) && forall j | j in s.kids && j != k :: Refs(s.kids[j]) !! Refs(kid)
  }

  lemma ReplacedIsTree(s: Shape, k: Name, kid: Shape)
    requires s.Node? && IsTree(s) && IsTree(kid) && Apart(s, k, kid)
    ensures IsTree(Node(s.dict, s.kids[k := kid]))
  {
    hide Refs;
  }

  lemma ReplacedRefs(s: Shape, k: Name, kid: Shape)
    requires s.Node?
    ensures Refs(Node(s.dict, s.kids[k := kid])) <= Refs(s) + Refs(kid)
  {
    var s' := Node(s.dict, s.kids[k := kid]);
    forall d | d in KidRefs(s')
      ensures d in Refs(s) + Refs(kid)
    {
      var j :| j in s'.kids && d in Refs(s'.kids[j]);
      if j != k {
        KidRefsIn(s, j);
      }
    }
  }

  lemma ReplacedContent(s: Shape, k: Name, kid: Shape)
    requires s.Node?
    ensures Content(Node(s.dict, s.kids[k := kid])) == Obj(Content(s).fields[k := Content(kid)])
  {
  }

  // ---- merging ----

  ghost function Own(bs: Shape, ps: Shape, k: Name): set<Dict>
    requires bs.Node? && ps.Node?
  {
    Refs(Kid(bs, k)) + Refs(Kid(ps, k))
  }

  ghost function MergedValue(bs: Shape, ps: Shape, k: Name): Json
    requires bs.Node? && ps.Node? && k in ps.kids
  {
    Merge(Content(Kid(bs, k)), Content(ps.kids[k]))
  }

  /** Halfway through a merge: the keys of `todo` are still as in the base. `made` are the new dictionaries. */
  ghost predicate Merging(bs: Shape, ps: Shape, rs: Shape, todo: set<Name>, made: set<Dict>) {
    && bs.Node? && ps.Node? && rs.Node?
    && IsTree(rs) && todo <= ps.kids.Keys
    && rs.dict in made && made !! Refs(bs) && made !! Refs(ps)
    && rs.kids.Keys == bs.kids.Keys + (ps.kids.Keys - todo)
    && forall k {:trigger rs.kids[k]} | k in rs.kids ::
         && Refs(rs.kids[k]) <= Own(bs, ps, k) + made
         && if k in ps.kids && k !in todo then Content(rs.kids[k]) == MergedValue(bs, ps, k)
            else k in bs.kids && rs.kids[k] == bs.kids[k]
  }

  lemma OwnsAreApart(bs: Shape, ps: Shape, j: Name, k: Name)
    requires bs.Node? && ps.Node? && IsTree(bs) && IsTree(ps) && Refs(bs) !! Refs(ps) && j != k
    ensures Own(bs, ps, j) !! Own(bs, ps, k)
    ensures Own(bs, ps, k) <= Refs(bs) + Refs(ps)
  {
    KidRefsIn(bs, j);
    KidRefsIn(bs, k);
    KidRefsIn(ps, j);
    KidRefsIn(ps, k);
    hide Refs, IsTree, Kid;
  }

  lemma MergingStep(bs: Shape, ps: Shape, rs: Shape, todo: set<Name>, made: set<Dict>, k: Name, kid: Shape,
                    more: set<Dict>)
    requires Merging(bs, ps, rs, todo, made) && IsTree(bs) && IsTree(ps) && Refs(bs) !! Refs(ps)
    requires k in todo && IsTree(kid) && Content(kid) == MergedValue(bs, ps, k)
    requires Refs(kid) <= Own(bs, ps, k) + more
    requires more !! made && more !! Refs(bs) && more !! Refs(ps)
    ensures Merging(bs, ps, Node(rs.dict, rs.kids[k := kid]), todo - {k}, made + more)
  {
    hide Refs, IsTree, Content, MergedValue, Own;
    forall j | j in rs.kids && j != k
      ensures Refs(rs.kids[j]) !! Refs(kid)
    {
      OwnsAreApart(bs, ps, j, k);
      OwnsAreApart(bs, ps, k, j);
    }
    OwnsAreApart(bs, ps, OtherName(k), k);
    ReplacedIsTree(rs, k, kid);
  }

  ghost function OtherName(k: Name): (j: Name)
    ensures j != k
  {
    Name(k.text + "'")
  }

  lemma MergingRefs(bs: Shape, ps: Shape, rs: Shape, todo: set<Name>, made: set<Dict>)
    requires Merging(bs, ps, rs, todo, made)
    ensures Refs(rs) <= Refs(bs) + Refs(ps) + made
  {
    hide IsTree, Content;
    forall k | k in rs.kids
      ensures Refs(rs.kids[k]) <= Refs(bs) + Refs(ps) + made
    {
      KidRefsIn(bs, k);
      KidRefsIn(ps, k);
      hide Refs;
    }
    RefsBound(rs, Refs(bs) + Refs(ps) + made);
  }

  lemma MergedContent(bs: Shape, ps: Shape, rs: Shape, made: set<Dict>)
    requires Merging(bs, ps, rs, {}, made)
    ensures IsTree(rs) && Content(rs) == Merge(Content(bs), Content(ps))
  {
    hide Refs, IsTree, Own;
    forall k | k in rs.kids
      ensures Content(rs.kids[k]) == if k in ps.kids then MergedValue(bs, ps, k) else Content(bs.kids[k])
    {
    }
  }

  lemma RefsBound(s: Shape, bound: set<Dict>)
    requires s.Node? && s.dict in bound && forall k | k in s.kids :: Refs(s.kids[k]) <= bound
    ensures Refs(s) <= bound
  {
  }

  lemma StartMerging(bs: Shape, ps: Shape, r: Dict)
    requires bs.Node? && ps.Node? && IsTree(bs) && r !in Refs(bs) && r !in Refs(ps)
    ensures Merging(bs, ps, Node(r, bs.kids), ps.kids.Keys, {r})
  {
    forall k | k in bs.kids
      ensures r !in Refs(bs.kids[k])
    {
      KidRefsIn(bs, k);
    }
  }

  lemma HeapEntries(s: Shape)
    requires s.Node? && Holds(s)
    ensures s.dict.fields.Keys == s.kids.Keys
    ensures forall k | k in s.kids :: s.dict.fields[k] == SlotOf(s.kids[k]) && Holds(s.kids[k])
  {
  }

  lemma HeapEntry(s: Shape, k: Name)
    requires s.Node? && Holds(s)
    ensures k in s.dict.fields <==> k in s.kids
    ensures k in s.kids ==> s.dict.fields[k] == SlotOf(s.kids[k]) && Holds(s.kids[k])
  {
  }

  lemma StartHolds(s: Shape, r: Dict)
    requires s.Node? && Holds(s) && r.fields == s.dict.fields
    ensures Holds(Node(r, s.kids))
  {
  }

  /** Copy the base's entries, then let the patch's replace them or merge with them. Nothing that existed
      before is changed, though the result shares sub-dictionaries with both arguments. `known` are the
      dictionaries of both arguments. */
  method DeepMerge(base: Dict, patch: Dict, ghost bs: Shape, ghost ps: Shape, ghost known: set<Dict>)
    returns (r: Dict, ghost rs: Shape, ghost made: set<Dict>)
    requires bs.Node? && bs.dict == base && IsTree(bs) && Holds(bs)
    requires ps.Node? && ps.dict == patch && IsTree(ps) && Holds(ps)
    requires Refs(bs) !! Refs(ps) && known == Refs(bs) + Refs(ps)
    ensures rs.Node? && rs.dict == r && IsTree(rs) && Holds(rs)
    ensures r in made && fresh(made) && Refs(rs) <= known + made
    ensures Content(rs) == Merge(Content(bs), Content(ps))
    decreases ps
  {
    hide Refs, KidRefs, IsTree, Content, Merging, MergedValue, Own, Apart, Holds, Merge;
    r := new Dict();
    r.fields := base.fields;
    made := {r};
    StartMerging(bs, ps, r);
    rs := Node(r, bs.kids);
    var todo := patch.fields.Keys;
    assert todo == ps.kids.Keys by {
      HeapEntries(ps);
    }
    StartHolds(bs, r);
    assert r !in known;
    while todo != {}
      invariant fresh(made) && rs.Node? && rs.dict == r && r in made
      invariant todo <= ps.kids.Keys
      invariant Merging(bs, ps, rs, todo, made)
      invariant Holds(bs) && Holds(ps) && Holds(rs)
    {
      var k :| k in todo;
      HeapEntry(ps, k);
      HeapEntry(rs, k);
      ghost var kid := ps.kids[k];
      ghost var more := {};
      EntryToMerge(bs, ps, rs, todo, made, k);
      MergingRefs(bs, ps, rs, todo, made);
      var entry := patch.fields[k];
      if k in r.fields && r.fields[k].Sub? && patch.fields[k].Sub? {
        var d;
        ghost var own := Refs(bs.kids[k]) + Refs(ps.kids[k]);
        d, kid, more := DeepMerge(r.fields[k].dict, patch.fields[k].dict, bs.kids[k], ps.kids[k], own);
        entry := Sub(d);
      }
      assert r !in Refs(kid);
      label stored:
      r.fields := r.fields[k := entry];
      StoredHolds@stored(rs, known + made, k, kid);
      MergingStep(bs, ps, rs, todo, made, k, kid, more);
      rs := Node(r, rs.kids[k := kid]);
      made := made + more;
      todo := todo - {k};
    }
    MergingRefs(bs, ps, rs, todo, made);
    MergedContent(bs, ps, rs, made);
  }

  /** The entry under a key still to do is the base's own, apart from everything merged so far. */
  lemma EntryToMerge(bs: Shape, ps: Shape, rs: Shape, todo: set<Name>, made: set<Dict>, k: Name)
    requires Merging(bs, ps, rs, todo, made) && IsTree(bs) && IsTree(ps) && Refs(bs) !! Refs(ps) && k in todo
    ensures IsTree(rs) && k in ps.kids && IsTree(ps.kids[k]) && Refs(ps.kids[k]) <= Own(bs, ps, k)
    ensures k in rs.kids <==> k in bs.kids
    ensures k in bs.kids ==>
              && rs.kids[k] == bs.kids[k] && IsTree(bs.kids[k]) && Own(bs, ps, k) == Refs(bs.kids[k]) + Refs(ps.kids[k])
              && Refs(bs.kids[k]) !! Refs(ps.kids[k])
    ensures Own(bs, ps, k) <= Refs(bs) + Refs(ps)
    ensures !(k in bs.kids && bs.kids[k].Node? && ps.kids[k].Node?) ==> Content(ps.kids[k]) == MergedValue(bs, ps, k)
    ensures k in bs.kids ==> MergedValue(bs, ps, k) == Merge(Content(bs.kids[k]), Content(ps.kids[k]))
  {
    KidRefsIn(ps, k);
    KidRefsIn(bs, k);
    hide Refs;
  }

  // ---- the walk along a dotted path ----

  ghost function At(s: Shape, path: seq<Name>): Shape
    decreases |path|
  {
    if path == [] then s else if s.Node? then At(Kid(s, path[0]), path[1..]) else Value(Null)
  }

  /** The shape with what lies at the path replaced. */
  ghost function Grafted(s: Shape, path: seq<Name>, kid: Shape): Shape
    decreases |path|
  {
    if path == [] then kid
    else if s.Node? then Node(s.dict, s.kids[path[0] := Grafted(Kid(s, path[0]), path[1..], kid)])
    else s
  }

  lemma {:induction false} AtIsTree(s: Shape, path: seq<Name>)
    requires IsTree(s)
    ensures IsTree(At(s, path)) && Refs(At(s, path)) <= Refs(s)
    decreases |path|
  {
    if path != [] && s.Node? {
      KidRefsIn(s, path[0]);
      AtIsTree(Kid(s, path[0]), path[1..]);
    }
  }

  lemma {:induction false} AtHolds(s: Shape, path: seq<Name>)
    requires IsTree(s) && Holds(s)
    ensures Holds(At(s, path))
    decreases |path|
  {
    if path != [] && s.Node? {
      AtHolds(Kid(s, path[0]), path[1..]);
    }
  }

  lemma {:induction false} AtStep(s: Shape, path: seq<Name>, k: Name)
    requires At(s, path).Node?
    ensures At(s, path + [k]) == Kid(At(s, path), k)
    decreases |path|
  {
    if path == [] {
      assert [k][1..] == [];
    } else {
      assert (path + [k])[1..] == path[1..] + [k];
      AtStep(Kid(s, path[0]), path[1..], k);
    }
  }

  lemma {:induction false} GraftedTree(s: Shape, path: seq<Name>, kid: Shape)
    requires IsTree(s) && IsTree(kid) && (path == [] || At(s, path[..|path| - 1]).Node?)
    requires Refs(kid) * Refs(s) <= Refs(At(s, path))
    ensures IsTree(Grafted(s, path, kid))
    ensures Refs(Grafted(s, path, kid)) <= Refs(s) + Refs(kid)
    decreases |path|
  {
    if path != [] {
      var front, k, tail := path[..|path| - 1], path[0], path[1..];
      if |path| > 1 {
        assert front[0] == k && front[1..] == tail[..|tail| - 1];
      }
      var was := Kid(s, k);
      KidRefsIn(s, k);
      GraftedTree(was, tail, kid);
      AtIsTree(was, tail);
      ReplacedRefs(s, k, Grafted(was, tail, kid));
      GraftIsApart(s, k, Grafted(was, tail, kid), kid);
      ReplacedIsTree(s, k, Grafted(was, tail, kid));
    }
  }

  lemma GraftIsApart(s: Shape, k: Name, grafted: Shape, kid: Shape)
    requires s.Node? && IsTree(s)
    requires Refs(kid) * Refs(s) <= Refs(Kid(s, k)) && Refs(grafted) <= Refs(Kid(s, k)) + Refs(kid)
    ensures Apart(s, k, grafted)
  {
    KidRefsIn(s, k);
    assert s.dict in Refs(s);
    forall j | j in s.kids && j != k
      ensures Refs(s.kids[j]) !! Refs(grafted)
    {
      KidRefsIn(s, j);
      hide Refs;
    }
  }

  lemma {:induction false} GraftedAt(s: Shape, path: seq<Name>, kid: Shape)
    requires path == [] || At(s, path[..|path| - 1]).Node?
    ensures At(Grafted(s, path, kid), path) == kid
    ensures path != [] ==> Grafted(s, path, kid).Node? && s.Node? && Grafted(s, path, kid).dict == s.dict
    decreases |path|
  {
    if path != [] {
      if |path| > 1 {
        assert path[..|path| - 1][1..] == path[1..][..|path| - 2];
      }
      GraftedAt(Kid(s, path[0]), path[1..], kid);
    }
  }

  /** A dictionary added on the way to the leaf makes no difference to what the walk ends with. */
  lemma {:induction false} DetourIsAbsorbed(s: Shape, path: seq<Name>, d: Dict, whole: Path, value: Json)
    requires path != [] && path < whole && IsTree(s)
    requires At(s, path[..|path| - 1]).Node? && !At(s, path).Node?
    ensures s.Node? && Grafted(s, path, Node(d, map[])).Node?
    ensures Put(Content(Grafted(s, path, Node(d, map[]))).fields, whole, value) == Put(Content(s).fields, whole, value)
    decreases |path|
  {
    var k := path[0];
    var kid := Kid(s, k);
    var kid' := Grafted(kid, path[1..], Node(d, map[]));
    assert whole[0] == k;
    KidContent(s, k);
    ReplacedContent(s, k, kid');
    if |path| == 1 {
      assert path[1..] == [];
      assert Content(Node(d, map[])) == Obj(map[]);
    } else {
      assert path[..|path| - 1][1..] == path[1..][..|path| - 2];
      DetourIsAbsorbed(kid, path[1..], d, whole[1..], value);
    }
    assert At(s, []) == s && (|path| > 1 ==> kid.Node? && kid'.Node?);
    InnerPut(Content(s).fields, Content(kid'), whole, value);
    hide Put, IsTree;
  }

  /** Below the first step of a longer path only the object found there matters. */
  lemma InnerPut(fields: map<Name, Json>, inner: Json, path: Path, value: Json)
    requires |path| > 1
    ensures inner.Obj? ==>
            Put(fields[path[0] := inner], path, value) == fields[path[0] := Obj(Put(inner.fields, path[1..], value))]
    ensures var next := Get(fields, path[0]);
            Put(fields, path, value) ==
                fields[path[0] := Obj(Put(if next.Obj? then next.fields else map[], path[1..], value))]
  {
  }

  lemma KidContent(s: Shape, k: Name)
    requires s.Node?
    ensures Content(Kid(s, k)) == Get(Content(s).fields, k)
    ensures IsTree(s) ==> (Kid(s, k).Node? <==> Get(Content(s).fields, k).Obj?)
  {
    if IsTree(s) {
      assert IsTree(Kid(s, k));
    }
  }

  /** Storing at the leaf is what the walk does to the content. */
  lemma {:induction false} LeafIsPut(s: Shape, path: Path, kid: Shape, value: Json)
    requires IsTree(s) && At(s, path[..|path| - 1]).Node?
    requires var here := Content(At(s, path));
             Content(kid) == if here.Obj? && value.Obj? then Merge(here, value) else value
    ensures s.Node? && Content(Grafted(s, path, kid)) == Obj(Put(Content(s).fields, path, value))
    decreases |path|
  {
    var k := path[0];
    KidContent(s, k);
    if |path| == 1 {
      assert path[1..] == [];
      ReplacedContent(s, k, kid);
    } else {
      assert path[..|path| - 1][1..] == path[1..][..|path| - 2];
      LeafIsPut(Kid(s, k), path[1..], kid, value);
      ReplacedContent(s, k, Grafted(Kid(s, k), path[1..], kid));
    }
  }

  /** Changing one entry of the dictionary at the path keeps heap and shape in step. */
  twostate lemma {:induction false} GraftedHolds(new s: Shape, known: set<Dict>, new path: seq<Name>, new k: Name,
                                                 new kid: Shape)
    requires IsTree(s) && Refs(s) <= known && At(s, path).Node?
    requires old(allocated(s)) && old(Holds(s))
    requires Holds(kid)
    requires At(s, path).dict in known
    requires At(s, path).dict.fields == old(At(s, path).dict.fields)[k := SlotOf(kid)]
    requires unchanged(known - {At(s, path).dict})
    ensures Holds(Grafted(s, path + [k], kid))
    decreases |path|
  {
    var step, tail := (path + [k])[0], (path + [k])[1..];
    var c, grafted := At(s, path).dict, Grafted(Kid(s, step), tail, kid);
    GraftSiblings(s, path, step);
    if path == [] {
      assert tail == [];
    } else {
      assert tail == path[1..] + [k];
      GraftedHolds(Kid(s, step), known, path[1..], k, kid);
      assert step in s.kids && SlotOf(grafted) == SlotOf(s.kids[step]);
    }
    forall j | j in s.kids && j != step
      ensures Holds(s.kids[j])
    {
      assert old(Holds(s.kids[j]));
      assert Refs(s.kids[j]) <= known - {c};
      hide Refs, IsTree, At, Grafted;
    }
    assert s.dict.fields == old(s.dict.fields)[step := SlotOf(grafted)];
    assert old(s.dict.fields) == map j | j in s.kids :: SlotOf(s.kids[j]);
    hide Refs, IsTree, At;
    RegraftedHolds(s, step, grafted);
  }

  lemma RegraftedHolds(s: Shape, k: Name, kid: Shape)
    requires s.Node? && s.dict.fields == (map j | j in s.kids :: SlotOf(s.kids[j]))[k := SlotOf(kid)]
    requires Holds(kid) && forall j | j in s.kids && j != k :: Holds(s.kids[j])
    ensures Holds(Node(s.dict, s.kids[k := kid]))
  {
  }

  /** The case of the root itself. */
  twostate lemma StoredHolds(new s: Shape, known: set<Dict>, new k: Name, new kid: Shape)
    requires IsTree(s) && Refs(s) <= known && s.Node?
    requires old(allocated(s)) && old(Holds(s))
    requires Holds(kid)
    requires s.dict.fields == old(s.dict.fields)[k := SlotOf(kid)]
    requires unchanged(known - {s.dict})
    ensures Holds(Node(s.dict, s.kids[k := kid]))
  {
    assert s.dict in Refs(s) && At(s, []) == s && [] + [k] == [k] && [k][1..] == [];
    GraftedHolds(s, known, [], k, kid);
    assert Grafted(s, [k], kid) == Node(s.dict, s.kids[k := kid]);
  }

  lemma GraftSiblings(s: Shape, path: seq<Name>, step: Name)
    requires IsTree(s) && At(s, path).Node? && (path == [] || path[0] == step)
    ensures forall j | j in s.kids && j != step :: Refs(s.kids[j]) <= Refs(s) - {At(s, path).dict}
    ensures IsTree(Kid(s, step)) && Refs(Kid(s, step)) <= Refs(s)
    ensures path != [] ==> At(s, path).dict != s.dict
  {
    KidRefsIn(s, step);
    assert At(s, path).dict in Refs(At(s, path));
    if path != [] {
      AtIsTree(Kid(s, step), path[1..]);
    }
    forall j | j in s.kids && j != step
      ensures Refs(s.kids[j]) <= Refs(s) - {At(s, path).dict}
    {
      KidRefsIn(s, j);
      hide Refs;
    }
  }

  /** What the heap shows at the path, and one step further. */
  lemma HereAndNext(s: Shape, path: seq<Name>, k: Name)
    requires IsTree(s) && Holds(s) && At(s, path).Node?
    ensures At(s, path).dict in Refs(s) - Refs(At(s, path + [k]))
    ensures var c, next := At(s, path).dict, At(s, path + [k]);
            && (k in c.fields && c.fields[k].Sub? <==> next.Node?)
            && (next.Node? ==> c.fields[k].dict == next.dict)
    ensures IsTree(At(s, path + [k])) && Holds(At(s, path + [k])) && Refs(At(s, path + [k])) <= Refs(s)
  {
    var here := At(s, path);
    AtIsTree(s, path);
    AtHolds(s, path);
    AtStep(s, path, k);
    HeapEntries(here);
    KidRefsIn(here, k);
    AtIsTree(s, path + [k]);
    AtHolds(s, path + [k]);
    assert here.dict in Refs(here);
  }

  /** Store a value at a dotted path: dictionaries on the way are entered, anything else on the way is
      replaced by an empty one. `known` holds the dictionaries of the tree, `other` those of the value. */
  method Assign(root: Dict, path: Path, value: Slot, ghost s: Shape, ghost v: Shape, ghost known: set<Dict>,
                ghost other: set<Dict>)
    returns (ghost s': Shape, ghost made: set<Dict>)
    requires s.Node? && s.dict == root && IsTree(s) && Holds(s) && Refs(s) <= known
    requires SlotOf(v) == value && IsTree(v) && Holds(v) && Refs(v) <= other && known !! other
    modifies known
    ensures s'.Node? && s'.dict == root && IsTree(s') && Holds(s')
    ensures fresh(made) && Refs(s') <= known + other + made
    ensures Content(s') == Obj(Put(Content(s).fields, path, Content(v)))
  {
    hide Refs, KidRefs, IsTree, Content, Holds, Merge, Put, At, Grafted;
    var cursor := root;
    s', made := s, {};
    AtRoot(s);
    assert path[..0] == [];
    for i := 0 to |path| - 1
      invariant s'.Node? && s'.dict == root && IsTree(s') && Holds(s') && Holds(v)
      invariant At(s', path[..i]).Node? && At(s', path[..i]).dict == cursor
      invariant fresh(made) && Refs(s') <= known + made
      invariant Put(ContentFields(s'), path, Content(v)) == Put(ContentFields(s), path, Content(v))
    {
      var part := path[i];
      HereAndNext(s', path[..i], part);
      assert path[..i + 1] == path[..i] + [part];
      if part in cursor.fields && cursor.fields[part].Sub? {
        cursor := cursor.fields[part].dict;
      } else {
        var next := new Dict();
        ghost var empty := Node(next, map[]);
        EmptyDict(empty);
        Grafting(s', path[..i], part, empty);
        DetourIsAbsorbed(s', path[..i + 1], next, path, Content(v));
        label stored:
        cursor.fields := cursor.fields[part := Sub(next)];
        GraftedHolds@stored(s', known + made, path[..i], part, empty);
        cursor := next;
        s', made := Grafted(s', path[..i + 1], empty), made + {next};
      }
    }
    var leaf := path[|path| - 1];
    ghost var front := path[..|path| - 1];
    assert front + [leaf] == path;
    HereAndNext(s', front, leaf);
    var entry := value;
    ghost var kid, more := v, {};
    if leaf in cursor.fields && cursor.fields[leaf].Sub? && value.Sub? {
      var d;
      ghost var was := At(s', path);
      d, kid, more := DeepMerge(cursor.fields[leaf].dict, value.dict, was, v, Refs(was) + Refs(v));
      entry := Sub(d);
    }
    LeafContent(s', path, v);
    Grafting(s', front, leaf, kid);
    LeafIsPut(s', path, kid, Content(v));
    label stored:
    cursor.fields := cursor.fields[leaf := entry];
    GraftedHolds@stored(s', known + made, front, leaf, kid);
    s', made := Grafted(s', path, kid), made + more;
  }

  lemma LeafContent(s: Shape, path: seq<Name>, v: Shape)
    requires IsTree(s) && IsTree(v)
    ensures At(s, path).Node? <==> Content(At(s, path)).Obj?
    ensures v.Node? <==> Content(v).Obj?
  {
    AtIsTree(s, path);
  }

  ghost function ContentFields(s: Shape): map<Name, Json>
    requires s.Node?
  {
    Content(s).fields
  }

  lemma AtRoot(s: Shape)
    ensures At(s, []) == s
  {
  }

  lemma EmptyDict(s: Shape)
    requires s.Node? && s.kids == map[] && s.dict.fields == map[]
    ensures IsTree(s) && Holds(s) && Refs(s) == {s.dict}
  {
  }

  /** A new subtree apart from the rest may be grafted over what is at the path. */
  lemma Grafting(s: Shape, path: seq<Name>, k: Name, kid: Shape)
    requires IsTree(s) && IsTree(kid) && At(s, path).Node?
    requires Refs(kid) * Refs(s) <= Refs(At(s, path + [k]))
    ensures var s' := Grafted(s, path + [k], kid);
            IsTree(s') && s'.Node? && s.Node? && s'.dict == s.dict && Refs(s') <= Refs(s) + Refs(kid) &&
                At(s', path + [k]) == kid
  {
    assert (path + [k])[..|path + [k]| - 1] == path;
    GraftedTree(s, path + [k], kid);
    GraftedAt(s, path + [k], kid);
  }

  // ---- expanding and patching ----

  method ExpandDotKeys(src: Source) returns (r: Slot, ghost s: Shape, ghost made: set<Dict>)
    ensures SlotOf(s) == r && IsTree(s) && Holds(s) && Refs(s) <= made && fresh(made)
    ensures Content(s) == Expanded(src)
    ensures r.Sub? <==> src.Members?
    decreases src
  {
    hide Refs, KidRefs, IsTree, Content, Holds, Merge, Put, Expanded;
    match src
    case Plain(text) =>
      r, s, made := Leaf(Atom(text)), Value(Atom(text)), {};
      LeafShape(src);
    case Nothing =>
      r, s, made := Leaf(Null), Value(Null), {};
      LeafShape(src);
    case Members(ms) =>
      var result := new Dict();
      s, made := Node(result, map[]), {result};
      EmptyDict(s);
      EmptyContent(result);
      for i := 0 to |ms|
        invariant s.Node? && s.dict == result && IsTree(s) && Holds(s) && Refs(s) <= made && fresh(made)
        invariant Content(s) == Obj(Assigned(ms[..i]))
      {
        assert ms[i] in ms;
        var value, v, other := ExpandDotKeys(ms[i].value);
        ghost var more;
        s, more := Assign(result, SplitDots(ms[i].key), value, s, v, made, other);
        made := made + other + more;
        assert ms[..i + 1][..i] == ms[..i];
      }
      assert ms[..|ms|] == ms;
      r := Sub(result);
      ExpandedMembers(ms);
  }

  lemma LeafShape(src: Source)
    requires !src.Members?
    ensures var s := Value(Expanded(src)); IsTree(s) && Holds(s) && Refs(s) == {} && Content(s) == Expanded(src)
    ensures src.Plain? ==> Expanded(src) == Atom(src.text)
    ensures src.Nothing? ==> Expanded(src) == Null
  {
  }

  lemma EmptyContent(d: Dict)
    ensures Content(Node(d, map[])) == Obj(map[])
  {
  }

  lemma ExpandedMembers(ms: seq<Member>)
    ensures Expanded(Members(ms)) == Obj(Assigned(ms))
  {
  }

  lemma Sanitized(xs: Shape, d: Dict)
    requires xs.Node? && IsTree(xs) && Holds(xs)
    requires d !in Refs(xs) && d.fields == xs.dict.fields - {NAME}
    ensures var ps := Node(d, xs.kids - {NAME});
            && IsTree(ps) && Holds(ps) && Refs(ps) <= Refs(xs) + {d}
            && Content(ps) == Obj(Content(xs).fields - {NAME})
  {
    SanitizedContent(xs, d);
    SanitizedRefs(xs, d);
    SanitizedTree(xs, d);
    SanitizedHolds(xs, d);
    hide *;
  }

  lemma SanitizedRefs(xs: Shape, d: Dict)
    requires xs.Node?
    ensures Refs(Node(d, xs.kids - {NAME})) <= Refs(xs) + {d}
  {
    var ps := Node(d, xs.kids - {NAME});
    forall k | k in ps.kids
      ensures Refs(ps.kids[k]) <= Refs(xs)
    {
      KidRefsSub(xs, k);
    }
    RefsBound(ps, Refs(xs) + {d});
    hide Refs;
  }

  lemma SanitizedTree(xs: Shape, d: Dict)
    requires xs.Node? && IsTree(xs) && d !in Refs(xs)
    ensures IsTree(Node(d, xs.kids - {NAME}))
  {
    forall k | k in xs.kids
      ensures d !in Refs(xs.kids[k])
    {
      KidRefsSub(xs, k);
    }
    hide Refs;
  }

  lemma SanitizedHolds(xs: Shape, d: Dict)
    requires xs.Node? && Holds(xs) && d.fields == xs.dict.fields - {NAME}
    ensures Holds(Node(d, xs.kids - {NAME}))
  {
    HeapEntries(xs);
    hide Refs;
  }

  lemma SanitizedContent(xs: Shape, d: Dict)
    requires xs.Node?
    ensures Content(Node(d, xs.kids - {NAME})) == Obj(Content(xs).fields - {NAME})
  {
  }

  lemma Named(s: Shape, name: Name)
    requires s.Node? && IsTree(s)
    ensures var s' := Node(s.dict, s.kids[NAME := Value(Atom(name))]);
            IsTree(s') && Refs(s') <= Refs(s) && Content(s') == Obj(Content(s).fields[NAME := Atom(name)])
  {
    var v := Value(Atom(name));
    ReplacedIsTree(s, NAME, v);
    ReplacedRefs(s, NAME, v);
    ReplacedContent(s, NAME, v);
  }

  /** The existing template is left as it was, and the merged one is a new dictionary. */
  method PatchTemplate(name: Name, existing: Dict, patch: seq<Member>, ghost es: Shape, ghost known: set<Dict>)
    returns (merged: Dict, ghost s: Shape, ghost made: set<Dict>)
    requires es.Node? && es.dict == existing && IsTree(es) && Holds(es) && known == Refs(es)
    ensures s.Node? && s.dict == merged && IsTree(s) && Holds(s)
    ensures merged in made && fresh(made) && Refs(s) <= known + made
    ensures Content(s) == MergedTemplate(Atom(name), Content(es), patch)
  {
    hide Refs, KidRefs, IsTree, Content, Holds, Merge, Put;
    var expanded, xs, others := ExpandDotKeys(Members(patch));
    var sanitized := new Dict();
    sanitized.fields := expanded.dict.fields - {NAME};
    ghost var ps := Node(sanitized, xs.kids - {NAME});
    Sanitized(xs, sanitized);
    merged, s, made := DeepMerge(existing, sanitized, es, ps, known + Refs(ps));
    label stored:
    merged.fields := merged.fields[NAME := Leaf(Atom(name))];
    LeafShape(Plain(name));
    StoredHolds@stored(s, known + others + {sanitized} + made, NAME, Value(Atom(name)));
    Named(s, name);
    s := Node(merged, s.kids[NAME := Value(Atom(name))]);
    made := made + others + {sanitized};
  }
}
