/** Dotted patches: expansion of dot-path keys, and what one patch means assignment by assignment. */
module DotKeys {
  import opened Prelude
  import opened Json

  /** A patch as it is read: members in order, keys possibly dotted. */
  datatype Source = Plain(text: Name) | Nothing | Members(members: seq<Member>)

  datatype Member = Member(key: string, value: Source)

  type Path = p: seq<Name> | p != [] witness [Name("")]

  /** Splitting at every dot always yields at least one part. */
  function SplitDots(key: string): Path {
    if key == "" then [Name("")]
    else
      var parts := SplitDots(key[1..]);
      if key[0] == '.' then [Name("")] + parts
      else [Name([key[0]] + parts[0].text)] + parts[1..]
  }

  function Get(fields: map<Name, Json>, k: Name): Json {
    if k in fields then fields[k] else Null
  }

  /** The walk to a leaf: objects on the way are entered, anything else on the way is replaced by an
      empty object; two objects meeting at the leaf are merged. */
  function Put(fields: map<Name, Json>, path: Path, value: Json): map<Name, Json>
    decreases |path|
  {
    var next := Get(fields, path[0]);
    if |path| == 1 then
      fields[path[0] := if next.Obj? && value.Obj? then Merge(next, value) else value]
    else
      fields[path[0] := Obj(Put(if next.Obj? then next.fields else map[], path[1..], value))]
  }

  /** The nested singleton {p0: {p1: ... value}}. */
  function Nest(path: seq<Name>, value: Json): Json {
    if path == [] then value else Obj(map[path[0] := Nest(path[1..], value)])
  }

  lemma MergeSingleton(fields: map<Name, Json>, k: Name, value: Json)
    ensures Merge(Obj(fields), Obj(map[k := value])) == Obj(fields[k := Merge(Get(fields, k), value)])
  {
  }

  /** The walk is a deep merge with a nested singleton. */
  lemma {:induction false} PutIsMerge(fields: map<Name, Json>, path: Path, value: Json)
    ensures Obj(Put(fields, path, value)) == Merge(Obj(fields), Nest(path, value))
    decreases |path|
  {
    var next := Get(fields, path[0]);
    if |path| == 1 {
      assert Nest(path, value) == Obj(map[path[0] := value]) by {
        assert path[1..] == [];
      }
      MergeSingleton(fields, path[0], value);
    } else {
      var tail := path[1..];
      MergeSingleton(fields, path[0], Nest(tail, value));
      PutIsMerge(if next.Obj? then next.fields else map[], tail, value);
      if !next.Obj? {
        MergeIntoEmpty(Nest(tail, value));
      }
    }
  }

  lemma MergeIntoEmpty(patch: Json)
    requires patch.Obj?
    ensures Merge(Obj(map[]), patch) == patch
  {
  }

  /** What expanding a source yields. */
  function Expanded(src: Source): Json
    decreases src
  {
    match src
    case Plain(text) => Atom(text)
    case Nothing => Null
    case Members(ms) => Obj(Assigned(ms))
  }

  /** The members assigned one after another into an empty object. */
  function Assigned(ms: seq<Member>): map<Name, Json>
    decreases ms
  {
    if ms == [] then map[]
    else
      var last := ms[|ms| - 1];
      assert last in ms;
      Put(Assigned(ms[..|ms| - 1]), SplitDots(last.key), Expanded(last.value))
  }

  // ---- splitting keys ----

  /** The parts with a dot between each two. */
  function Joined(parts: Path): string {
    if |parts| == 1 then parts[0].text else parts[0].text + "." + Joined(parts[1..])
  }

  ghost predicate NoDots(parts: seq<Name>) {
    forall part | part in parts :: '.' !in part.text
  }

  lemma SplitAhead(c: char, key: string)
    ensures var parts := SplitDots(key);
            SplitDots([c] + key) == if c == '.' then [Name("")] + parts else [Name([c] + parts[0].text)] + parts[1..]
  {
    assert ([c] + key)[1..] == key;
  }

  lemma JoinedAhead(first: string, rest: Path)
    ensures Joined([Name(first)] + rest) == first + "." + Joined(rest)
    ensures Joined([Name(first)]) == first
  {
    assert ([Name(first)] + rest)[1..] == rest;
  }

  /** Putting a character before the first part puts it before the joined text. */
  lemma JoinedLonger(c: char, first: string, rest: seq<Name>)
    ensures Joined([Name([c] + first)] + rest) == [c] + Joined([Name(first)] + rest)
  {
    if rest == [] {
      JoinedAhead([c] + first, [Name("")]);
      JoinedAhead(first, [Name("")]);
    } else {
      JoinedAhead([c] + first, rest);
      JoinedAhead(first, rest);
      assert [c] + first + "." + Joined(rest) == [c] + (first + "." + Joined(rest));
    }
  }

  lemma {:induction false} SplitJoins(key: string)
    ensures NoDots(SplitDots(key)) && Joined(SplitDots(key)) == key
  {
    if key != "" {
      var c, parts := key[0], SplitDots(key[1..]);
      SplitJoins(key[1..]);
      assert key == [c] + key[1..];
      SplitAhead(c, key[1..]);
      assert parts == [parts[0]] + parts[1..] && parts[0] == Name(parts[0].text);
      JoinedAhead("", parts);
      JoinedLonger(c, parts[0].text, parts[1..]);
      hide SplitDots, Joined;
    }
  }

  lemma {:induction false} JoinSplits(parts: Path)
    requires NoDots(parts)
    ensures SplitDots(Joined(parts)) == parts
    decreases |parts|, |parts[0].text|
  {
    var first, rest := parts[0].text, parts[1..];
    assert parts == [Name(first)] + rest;
    if first != "" {
      var c, tail := first[0], first[1..];
      var shorter := [Name(tail)] + rest;
      assert first == [c] + tail && parts[0] in parts;
      JoinSplits(shorter);
      JoinedLonger(c, tail, rest);
      SplitAhead(c, Joined(shorter));
      hide SplitDots, Joined;
    } else if rest != [] {
      JoinSplits(rest);
      JoinedAhead("", rest);
      SplitAhead('.', Joined(rest));
      assert "" + "." + Joined(rest) == ['.'] + Joined(rest);
      hide SplitDots, Joined;
    }
  }

  /** The split of a key is the one list of dot-free parts that joins back to it, empty parts included. */
  lemma {:induction false} SplitIsExact(key: string, parts: Path)
    ensures parts == SplitDots(key) <==> NoDots(parts) && Joined(parts) == key
  {
    SplitJoins(key);
    if NoDots(parts) {
      JoinSplits(parts);
    }
  }

  // ---- nothing to expand ----

  /** Members whose keys have no dots, each key once. */
  ghost predicate ArePlain(ms: seq<Member>) {
    && (forall m | m in ms :: '.' !in m.key)
    && forall i, j | 0 <= i < j < |ms| :: ms[i].key != ms[j].key
  }

  lemma PlainKey(key: string)
    requires '.' !in key
    ensures SplitDots(key) == [Name(key)]
  {
    SplitIsExact(key, [Name(key)]);
  }

  /** Without dots expansion only expands the values: every key stays, with its own value, and nothing else appears.
      What is not an object stays as it is. */
  lemma {:induction false} PlainMembersStay(ms: seq<Member>, text: Name)
    requires ArePlain(ms)
    ensures Expanded(Plain(text)) == Atom(text) && Expanded(Nothing) == Null
    ensures Expanded(Members(ms)).Obj?
    ensures var fields := Expanded(Members(ms)).fields;
            && (forall k :: k in fields <==> exists m :: m in ms && Name(m.key) == k)
            && forall m | m in ms :: Name(m.key) in fields && fields[Name(m.key)] == Expanded(m.value)
  {
    if ms != [] {
      var front, last := ms[..|ms| - 1], ms[|ms| - 1];
      assert ms == front + [last];
      PlainMembersStay(front, text);
      PlainKey(last.key);
      assert Name(last.key) !in Assigned(front);
    }
  }

  // ---- patching a template ----

  const NAME := Name("name")

  /** The merged template: `name` always comes from the URL, never from the patch. */
  function MergedTemplate(name: Json, existing: Json, patch: seq<Member>): Json
    requires existing.Obj?
  {
    var sanitized := Assigned(patch) - {NAME};
    Obj(Merge(existing, Obj(sanitized)).fields[NAME := name])
  }

  /** Applying the same assignments in separate requests. */
  function OneAtATime(name: Json, existing: Json, ms: seq<Member>): (j: Json)
    requires existing.Obj?
    ensures j.Obj?
  {
    if ms == [] then existing
    else MergedTemplate(name, OneAtATime(name, existing, ms[..|ms| - 1]), ms[|ms| - 1..])
  }

  ghost predicate Incomparable(p: seq<Name>, q: seq<Name>) {
    !(p <= q) && !(q <= p)
  }

  /** No path is a prefix of another. */
  ghost predicate PrefixFree(ms: seq<Member>) {
    forall i, j | 0 <= i < j < |ms| :: Incomparable(SplitDots(ms[i].key), SplitDots(ms[j].key))
  }

  /** What one assignment does to a template; an assignment below `name` does nothing. */
  function Effect(m: Member): Json {
    var path := SplitDots(m.key);
    if path[0] == NAME then Obj(map[]) else Nest(path, Expanded(m.value))
  }

  function Fold(base: Json, ms: seq<Member>): (j: Json)
    requires base.Obj?
    ensures j.Obj?
  {
    if ms == [] then base else Merge(Fold(base, ms[..|ms| - 1]), Effect(ms[|ms| - 1]))
  }

  function Below(path: Path, value: Json): Json {
    if |path| == 1 then value else Nest(path[1..], value)
  }

  lemma PutAt(fields: map<Name, Json>, path: Path, value: Json)
    ensures Put(fields, path, value) == fields[path[0] := Merge(Get(fields, path[0]), Below(path, value))]
  {
    PutIsMerge(fields, path, value);
    NestUnfolds(path, value);
    MergeSingleton(fields, path[0], Below(path, value));
  }

  lemma MergeWithoutName(fields: map<Name, Json>, path: Path, value: Json)
    ensures Put(fields, path, value) - {NAME} ==
            Merge(Obj(fields - {NAME}), if path[0] == NAME then Obj(map[]) else Nest(path, value)).fields
  {
    hide Put, Merge, Nest, Below;
    PutAt(fields, path, value);
    if path[0] == NAME {
      MergeNothing(Obj(fields - {NAME}));
    } else {
      PutAt(fields - {NAME}, path, value);
      PutIsMerge(fields - {NAME}, path, value);
      UpdateElsewhere(fields, path[0], Merge(Get(fields, path[0]), Below(path, value)));
    }
  }

  lemma UpdateElsewhere(fields: map<Name, Json>, k: Name, value: Json)
    requires k != NAME
    ensures fields[k := value] - {NAME} == (fields - {NAME})[k := value]
    ensures Get(fields - {NAME}, k) == Get(fields, k)
  {
  }

  lemma NestUnfolds(path: Path, value: Json)
    ensures Nest(path, value) == Obj(map[path[0] := Below(path, value)])
  {
    if |path| == 1 {
      assert path[1..] == [];
    }
  }

  lemma MergeNothing(base: Json)
    requires base.Obj?
    ensures Merge(base, Obj(map[])) == base
  {
  }

  /** The expanded patch without `name` is the fold of the effects of its assignments. */
  lemma {:induction false} SanitizedIsFold(ms: seq<Member>)
    ensures Obj(Assigned(ms) - {NAME}) == Fold(Obj(map[]), ms)
  {
    if ms != [] {
      var front, last := ms[..|ms| - 1], ms[|ms| - 1];
      SanitizedIsFold(front);
      MergeWithoutName(Assigned(front), SplitDots(last.key), Expanded(last.value));
    }
  }

  // ---- one request against many ----

  lemma {:induction false} NestsCoexist(p: seq<Name>, v: Json, q: seq<Name>, w: Json)
    requires Incomparable(p, q)
    ensures NoObjectOverOther(Nest(p, v), Nest(q, w))
  {
    if p[0] == q[0] {
      TailsIncomparable(p, q);
      NestsCoexist(p[1..], v, q[1..], w);
    }
  }

  lemma TailsIncomparable(p: seq<Name>, q: seq<Name>)
    requires Incomparable(p, q) && p[0] == q[0]
    ensures Incomparable(p[1..], q[1..])
  {
    assert p == [p[0]] + p[1..] && q == [q[0]] + q[1..];
  }

  lemma {:induction false} CoexistenceMerges(x: Json, y: Json, q: Json)
    requires NoObjectOverOther(x, q) && NoObjectOverOther(y, q)
    ensures NoObjectOverOther(Merge(x, y), q)
    decreases y
  {
    if x.Obj? && y.Obj? && q.Obj? {
      var merged := Merge(x, y);
      forall k | k in merged.fields && k in q.fields
        ensures NoObjectOverOther(merged.fields[k], q.fields[k])
      {
        if k in x.fields && k in y.fields {
          CoexistenceMerges(x.fields[k], y.fields[k], q.fields[k]);
        }
      }
    }
  }

  lemma EffectsCoexist(m: Member, n: Member)
    requires Incomparable(SplitDots(m.key), SplitDots(n.key))
    ensures NoObjectOverOther(Effect(m), Effect(n))
  {
    NestsCoexist(SplitDots(m.key), Expanded(m.value), SplitDots(n.key), Expanded(n.value));
  }

  lemma {:induction false} FoldCoexists(ms: seq<Member>, n: Member)
    requires forall m | m in ms :: Incomparable(SplitDots(m.key), SplitDots(n.key))
    ensures NoObjectOverOther(Fold(Obj(map[]), ms), Effect(n))
  {
    if ms != [] {
      FoldCoexists(ms[..|ms| - 1], n);
      EffectsCoexist(ms[|ms| - 1], n);
      CoexistenceMerges(Fold(Obj(map[]), ms[..|ms| - 1]), Effect(ms[|ms| - 1]), Effect(n));
    }
  }

  /** Merging the whole patch at once is merging its assignments one by one. */
  lemma {:induction false} FoldIsMerge(base: Json, ms: seq<Member>)
    requires base.Obj? && PrefixFree(ms)
    ensures Fold(base, ms) == Merge(base, Fold(Obj(map[]), ms))
  {
    if ms == [] {
      MergeNothing(base);
    } else {
      var front, last := ms[..|ms| - 1], ms[|ms| - 1];
      FoldIsMerge(base, front);
      FoldCoexists(front, last);
      MergeAssociates(base, Fold(Obj(map[]), front), Effect(last));
    }
  }

  // ---- order does not matter ----

  lemma {:induction false} NestsCommute(t: Json, p: seq<Name>, v: Json, q: seq<Name>, w: Json)
    requires Incomparable(p, q)
    ensures Merge(Merge(t, Nest(p, v)), Nest(q, w)) == Merge(Merge(t, Nest(q, w)), Nest(p, v))
    decreases |p|
  {
    var fields := if t.Obj? then t.fields else map[];
    var pv, qw := Nest(p[1..], v), Nest(q[1..], w);
    assert Nest(p, v) == Obj(map[p[0] := pv]) && Nest(q, w) == Obj(map[q[0] := qw]);
    hide Merge, Nest;
    var f1 := fields[p[0] := Merge(Get(fields, p[0]), pv)];
    var f2 := fields[q[0] := Merge(Get(fields, q[0]), qw)];
    MergeAtKey(t, p[0], pv);
    MergeAtKey(t, q[0], qw);
    MergeSingleton(f1, q[0], qw);
    MergeSingleton(f2, p[0], pv);
    if p[0] == q[0] {
      TailsIncomparable(p, q);
      NestsCommute(Get(fields, p[0]), p[1..], v, q[1..], w);
    }
    UpdatesCommute(fields, p[0], pv, q[0], qw);
  }

  lemma UpdatesCommute(fields: map<Name, Json>, k: Name, a: Json, l: Name, b: Json)
    requires k == l ==> Merge(Merge(Get(fields, k), a), b) == Merge(Merge(Get(fields, k), b), a)
    ensures var f1, f2 := fields[k := Merge(Get(fields, k), a)], fields[l := Merge(Get(fields, l), b)];
            f1[l := Merge(Get(f1, l), b)] == f2[k := Merge(Get(f2, k), a)]
  {
    hide Merge;
  }

  lemma MergeAtKey(t: Json, k: Name, v: Json)
    ensures var fields := if t.Obj? then t.fields else map[];
            Merge(t, Obj(map[k := v])) == Obj(fields[k := Merge(Get(fields, k), v)])
  {
    if t.Obj? {
      MergeSingleton(t.fields, k, v);
    }
  }

  lemma {:induction false} EffectsCommute(t: Json, m: Member, n: Member)
    requires t.Obj? && Incomparable(SplitDots(m.key), SplitDots(n.key))
    ensures Merge(Merge(t, Effect(m)), Effect(n)) == Merge(Merge(t, Effect(n)), Effect(m))
  {
    MergeNothing(t);
    MergeNothing(Merge(t, Effect(m)));
    MergeNothing(Merge(t, Effect(n)));
    NestsCommute(t, SplitDots(m.key), Expanded(m.value), SplitDots(n.key), Expanded(n.value));
  }

  lemma RemoveBeforeLast<T>(s: seq<T>, i: nat)
    requires i < |s| - 1
    ensures var n := |s| - 1; s[..i] + s[i + 1..] == s[..n][..i] + s[..n][i + 1..] + [s[n]]
  {
  }

  /** An assignment may be moved to the end. */
  lemma {:induction false} MoveToEnd(base: Json, ms: seq<Member>, i: nat)
    requires base.Obj? && PrefixFree(ms) && i < |ms|
    ensures Fold(base, ms) == Merge(Fold(base, ms[..i] + ms[i + 1..]), Effect(ms[i]))
    decreases |ms|
  {
    hide Merge, Effect, SplitDots, Incomparable;
    var n := |ms| - 1;
    if i == n {
      assert ms[..i] + ms[i + 1..] == ms[..n];
    } else {
      MoveToEnd(base, ms[..n], i);
      RemoveBeforeLast(ms, i);
      var rest := ms[..n][..i] + ms[..n][i + 1..];
      assert (rest + [ms[n]])[..|rest|] == rest;
      EffectsCommute(Fold(base, rest), ms[i], ms[n]);
    }
  }

  lemma {:induction false} FoldPermutes(base: Json, ms: seq<Member>, ns: seq<Member>)
    requires base.Obj? && PrefixFree(ms) && multiset(ms) == multiset(ns)
    ensures Fold(base, ms) == Fold(base, ns)
    decreases |ns|
  {
    hide Merge, Effect;
    assert |ms| == |multiset(ms)| == |multiset(ns)| == |ns|;
    if ns != [] {
      var last := ns[|ns| - 1];
      RemoveAt(ns, |ns| - 1);
      assert ns[..|ns| - 1] + ns[|ns|..] == ns[..|ns| - 1];
      assert last in multiset(ms);
      var i :| 0 <= i < |ms| && ms[i] == last;
      var rest := ms[..i] + ms[i + 1..];
      RemoveAt(ms, i);
      RemovalKeepsPrefixFree(ms, i);
      FoldPermutes(base, rest, ns[..|ns| - 1]);
      MoveToEnd(base, ms, i);
    }
  }

  lemma RemovalKeepsPrefixFree(ms: seq<Member>, i: nat)
    requires PrefixFree(ms) && i < |ms|
    ensures PrefixFree(ms[..i] + ms[i + 1..])
  {
  }

  lemma NamedMerge(name: Json, base: Json, patch: Json)
    requires base.Obj? && patch.Obj? && NAME !in patch.fields
    ensures Merge(Obj(base.fields[NAME := name]), patch) == Obj(Merge(base, patch).fields[NAME := name])
  {
  }

  lemma EffectLacksName(m: Member)
    ensures Effect(m).Obj? && NAME !in Effect(m).fields
  {
  }

  lemma {:induction false} OneAtATimeIsFold(name: Json, existing: Json, ms: seq<Member>)
    requires existing.Obj? && ms != []
    ensures OneAtATime(name, existing, ms) == Obj(Fold(existing, ms).fields[NAME := name])
  {
    hide Merge, Effect, MergedTemplate;
    var n := |ms| - 1;
    assert ms[n..] == [ms[n]];
    if n == 0 {
      assert ms[..n] == [];
      SingleEffect(name, existing, ms[n]);
    } else {
      OneAtATimeIsFold(name, existing, ms[..n]);
      OneMore(name, Fold(existing, ms[..n]), ms[n]);
    }
  }

  lemma {:induction false} OneMore(name: Json, base: Json, m: Member)
    requires base.Obj?
    ensures MergedTemplate(name, Obj(base.fields[NAME := name]), [m]) ==
            Obj(Merge(base, Effect(m)).fields[NAME := name])
  {
    SingleEffect(name, Obj(base.fields[NAME := name]), m);
    EffectLacksName(m);
    NamedMerge(name, base, Effect(m));
    hide Merge, Effect, MergedTemplate;
    var merged := Merge(base, Effect(m)).fields;
    assert merged[NAME := name][NAME := name] == merged[NAME := name];
  }

  lemma SingleEffect(name: Json, existing: Json, m: Member)
    requires existing.Obj?
    ensures MergedTemplate(name, existing, [m]) == Obj(Merge(existing, Effect(m)).fields[NAME := name])
  {
    SanitizedIsFold([m]);
    EffectLacksName(m);
    MergeIntoEmpty(Effect(m));
    assert [m][..0] == [];
    assert Fold(Obj(map[]), [m]) == Merge(Fold(Obj(map[]), []), Effect(m));
  }

  /** One dotted patch equals its assignments sent one at a time, in any order, when no path is a prefix
      of another. */
  lemma {:induction false} PatchEqualsItsAssignments(name: Json, existing: Json, patch: seq<Member>, sent: seq<Member>)
    requires existing.Obj? && patch != [] && PrefixFree(patch)
    requires multiset(sent) == multiset(patch)
    ensures MergedTemplate(name, existing, patch) == OneAtATime(name, existing, sent)
  {
    assert |sent| == |multiset(sent)| == |multiset(patch)| == |patch|;
    SanitizedIsFold(patch);
    FoldIsMerge(existing, patch);
    FoldPermutes(existing, patch, sent);
    OneAtATimeIsFold(name, existing, sent);
  }

  /** Sending the same patch again changes nothing. */
  lemma {:induction false} PatchIsIdempotent(name: Json, existing: Json, patch: seq<Member>)
    requires existing.Obj?
    ensures MergedTemplate(name, MergedTemplate(name, existing, patch), patch) == MergedTemplate(name, existing, patch)
  {
    var p := Obj(Assigned(patch) - {NAME});
    NamedMerge(name, Merge(existing, p), p);
    MergeIdempotent(existing, p);
  }
}
