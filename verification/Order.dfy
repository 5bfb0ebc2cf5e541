/** Lexicographic order on names, and sorting by name. */
module Order {
  import opened Prelude

  predicate Before(a: string, b: string) {
    if b == "" then false
    else if a == "" then true
    else a[0] < b[0] || (a[0] == b[0] && Before(a[1..], b[1..]))
  }

  predicate NameBefore(a: Name, b: Name) {
    Before(a.text, b.text)
  }

  lemma {:induction false} BeforeTransitive(a: string, b: string, c: string)
    requires Before(a, b) && Before(b, c)
    ensures Before(a, c)
  {
    if a != "" && a[0] == b[0] == c[0] {
      BeforeTransitive(a[1..], b[1..], c[1..]);
    }
  }

  lemma {:induction false} BeforeTotal(a: string, b: string)
    ensures a == b <==> !Before(a, b) && !Before(b, a)
    ensures !(Before(a, b) && Before(b, a))
  {
    if a != "" && b != "" && a[0] == b[0] {
      BeforeTotal(a[1..], b[1..]);
      assert a == [a[0]] + a[1..] && b == [b[0]] + b[1..];
    }
  }

  lemma NameOrder()
    ensures forall a, b, c | NameBefore(a, b) && NameBefore(b, c) :: NameBefore(a, c)
    ensures forall a, b :: a == b <==> !NameBefore(a, b) && !NameBefore(b, a)
    ensures forall a, b :: !(NameBefore(a, b) && NameBefore(b, a))
  {
    forall a: Name, b: Name, c: Name | NameBefore(a, b) && NameBefore(b, c)
      ensures NameBefore(a, c)
    {
      BeforeTransitive(a.text, b.text, c.text);
    }
    forall a: Name, b: Name
      ensures a == b <==> !NameBefore(a, b) && !NameBefore(b, a)
      ensures !(NameBefore(a, b) && NameBefore(b, a))
    {
      BeforeTotal(a.text, b.text);
    }
  }

  /** Insertion behind every entry that does not come later, so that sorting is stable. */
  function Insert<T>(x: T, s: seq<T>, key: T -> Name): seq<T> {
    if s == [] then [x]
    else if NameBefore(key(x), key(s[0])) then [x] + s
    else [s[0]] + Insert(x, s[1..], key)
  }

  function SortBy<T>(s: seq<T>, key: T -> Name): seq<T> {
    if s == [] then [] else Insert(s[|s| - 1], SortBy(s[..|s| - 1], key), key)
  }

  ghost predicate Sorted<T>(s: seq<T>, key: T -> Name) {
    forall i, j | 0 <= i < j < |s| :: !NameBefore(key(s[j]), key(s[i]))
  }

  ghost predicate DistinctKeys<T>(s: seq<T>, key: T -> Name) {
    forall i, j | 0 <= i < j < |s| :: key(s[i]) != key(s[j])
  }

  lemma {:induction false} InsertPermutes<T>(x: T, s: seq<T>, key: T -> Name)
    ensures multiset(Insert(x, s, key)) == multiset(s) + multiset{x}
  {
    hide NameBefore;
    if s != [] {
      assert s == [s[0]] + s[1..];
      InsertPermutes(x, s[1..], key);
    }
  }

  lemma InsertMembers<T>(x: T, s: seq<T>, key: T -> Name, j: nat)
    requires j < |Insert(x, s, key)|
    ensures Insert(x, s, key)[j] == x || Insert(x, s, key)[j] in s
  {
    InsertPermutes(x, s, key);
    assert Insert(x, s, key)[j] in multiset(Insert(x, s, key));
    hide Insert;
  }

  lemma NotBeforeEarlier(a: Name, b: Name, c: Name)
    requires NameBefore(a, b) && !NameBefore(c, b)
    ensures !NameBefore(c, a)
  {
    if NameBefore(c, a) {
      BeforeTransitive(c.text, a.text, b.text);
    }
  }

  lemma SortedCons<T>(x: T, s: seq<T>, key: T -> Name)
    requires Sorted(s, key) && forall j | 0 <= j < |s| :: !NameBefore(key(s[j]), key(x))
    ensures Sorted([x] + s, key)
  {
    hide NameBefore;
  }

  lemma {:induction false} InsertSorts<T>(x: T, s: seq<T>, key: T -> Name)
    requires Sorted(s, key)
    ensures Sorted(Insert(x, s, key), key)
  {
    hide NameBefore;
    if s != [] && NameBefore(key(x), key(s[0])) {
      BeforeTotal(key(x).text, key(s[0]).text);
      forall j | 0 <= j < |s|
        ensures !NameBefore(key(s[j]), key(x))
      {
        AtOrAfterFirst(s, key, j);
        NotBeforeEarlier(key(x), key(s[0]), key(s[j]));
      }
      SortedCons(x, s, key);
    } else if s != [] {
      InsertSorts(x, s[1..], key);
      var rest := Insert(x, s[1..], key);
      forall j | 0 <= j < |rest|
        ensures !NameBefore(key(rest[j]), key(s[0]))
      {
        InsertMembers(x, s[1..], key, j);
        if rest[j] in s[1..] {
          var k :| 1 <= k < |s| && s[k] == rest[j];
        }
      }
      SortedCons(s[0], rest, key);
    }
  }

  lemma AtOrAfterFirst<T>(s: seq<T>, key: T -> Name, j: nat)
    requires Sorted(s, key) && j < |s|
    ensures !NameBefore(key(s[j]), key(s[0]))
  {
    BeforeTotal(key(s[0]).text, key(s[0]).text);
  }

  /** Sorting permutes its input into name order. */
  lemma {:induction false} SortSorts<T>(s: seq<T>, key: T -> Name)
    ensures Sorted(SortBy(s, key), key)
    ensures multiset(SortBy(s, key)) == multiset(s)
  {
    if s != [] {
      SortSorts(s[..|s| - 1], key);
      InsertSorts(s[|s| - 1], SortBy(s[..|s| - 1], key), key);
      InsertPermutes(s[|s| - 1], SortBy(s[..|s| - 1], key), key);
      assert s == s[..|s| - 1] + [s[|s| - 1]];
    }
  }

  lemma SameHead<T>(a: seq<T>, b: seq<T>, key: T -> Name)
    requires Sorted(a, key) && Sorted(b, key)
    requires DistinctKeys(a, key)
    requires multiset(a) == multiset(b) && a != [] && b != []
    ensures a[0] == b[0]
  {
    hide NameBefore;
    NameOrder();
    assert a[0] in multiset(b) && b[0] in multiset(a);
    var k :| 0 <= k < |b| && b[k] == a[0];
    var m :| 0 <= m < |a| && a[m] == b[0];
    if m > 0 {
      assert !NameBefore(key(a[m]), key(a[0])) && !NameBefore(key(b[k]), key(b[0]));
    }
  }

  lemma DropFirst<T>(s: seq<T>)
    requires s != []
    ensures s == [s[0]] + s[1..] && multiset(s[1..]) == multiset(s) - multiset{s[0]}
  {
    assert s == [s[0]] + s[1..];
  }

  lemma {:induction false} SortedUnique<T>(a: seq<T>, b: seq<T>, key: T -> Name)
    requires Sorted(a, key) && Sorted(b, key)
    requires DistinctKeys(a, key)
    requires multiset(a) == multiset(b)
    ensures a == b
  {
    hide NameBefore;
    assert |a| == |multiset(a)| == |multiset(b)| == |b|;
    if a != [] {
      SameHead(a, b, key);
      DropFirst(a);
      DropFirst(b);
      SortedUnique(a[1..], b[1..], key);
    }
  }

  lemma DistinctKeysPermuted<T>(a: seq<T>, b: seq<T>, key: T -> Name)
    requires DistinctKeys(a, key) && multiset(a) == multiset(b)
    ensures DistinctKeys(b, key)
  {
    forall i, j | 0 <= i < j < |b|
      ensures key(b[i]) != key(b[j])
    {
      TwiceInMultiset(b, i, j);
      assert b[i] in multiset(a) && b[j] in multiset(a);
      if b[i] == b[j] {
        assert multiset(a)[b[i]] >= 2;
        assert Distinct(a);
        DistinctOnce(a, b[i]);
      }
    }
  }

  lemma TwiceInMultiset<T>(b: seq<T>, i: nat, j: nat)
    requires i < j < |b|
    ensures b[i] == b[j] ==> multiset(b)[b[i]] >= 2
  {
    assert b == b[..i] + [b[i]] + b[i + 1..j] + [b[j]] + b[j + 1..];
  }

  /** The order in which entries with distinct names were listed does not survive sorting. */
  lemma {:induction false} SortForgetsOrder<T>(a: seq<T>, b: seq<T>, key: T -> Name)
    requires DistinctKeys(a, key) && multiset(a) == multiset(b)
    ensures SortBy(a, key) == SortBy(b, key)
  {
    SortSorts(a, key);
    SortSorts(b, key);
    DistinctKeysPermuted(a, SortBy(a, key), key);
    SortedUnique(SortBy(a, key), SortBy(b, key), key);
  }
}
