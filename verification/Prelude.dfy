/** Shared vocabulary: optional values, error results, sums over finite sets and pigeonhole facts. */
module Prelude {

  /** A role, pod, tier, app or address name. */
  datatype Name = Name(text: string)

  datatype Option<+T> = None | Some(value: T)

  datatype Result<+T, +E> = Success(value: T) | Failure(error: E)

  function Find<K(==), V>(m: map<K, V>, k: K): Option<V> {
    if k in m then Some(m[k]) else None
  }

  function Greater(a: real, b: real): real {
    if a >= b then a else b
  }

  ghost function Elements<T>(s: seq<T>): set<T> {
    set x | x in s
  }

  ghost predicate Distinct<T>(s: seq<T>) {
    forall i, j | 0 <= i < j < |s| :: s[i] != s[j]
  }

  /** The sum of `f` over a finite set; the order of summation does not matter (SumRemove). */
  ghost function Sum<K(!new)>(s: set<K>, f: K -> real): real {
    if s == {} then 0.0
    else
      var k :| k in s;
      f(k) + Sum(s - {k}, f)
  }

  lemma {:induction false} SumRemove<K(!new)>(s: set<K>, f: K -> real, k: K)
    requires k in s
    ensures Sum(s, f) == f(k) + Sum(s - {k}, f)
    decreases |s|
  {
    var j :| j in s && Sum(s, f) == f(j) + Sum(s - {j}, f);
    if j != k {
      SumRemove(s - {j}, f, k);
      SumRemove(s - {k}, f, j);
      assert s - {j} - {k} == s - {k} - {j};
    }
  }

  lemma SumInsert<K(!new)>(s: set<K>, f: K -> real, k: K)
    requires k !in s
    ensures Sum(s + {k}, f) == Sum(s, f) + f(k)
  {
    SumRemove(s + {k}, f, k);
    assert s + {k} - {k} == s;
  }

  lemma {:induction false} SumCongruent<K(!new)>(s: set<K>, f: K -> real, g: K -> real)
    requires forall k | k in s :: f(k) == g(k)
    ensures Sum(s, f) == Sum(s, g)
    decreases |s|
  {
    if s != {} {
      var k :| k in s && Sum(s, f) == f(k) + Sum(s - {k}, f);
      SumCongruent(s - {k}, f, g);
      SumRemove(s, g, k);
    }
  }

  lemma {:induction false} SumMonotone<K(!new)>(s: set<K>, f: K -> real, g: K -> real)
    requires forall k | k in s :: f(k) <= g(k)
    ensures Sum(s, f) <= Sum(s, g)
    decreases |s|
  {
    if s != {} {
      var k :| k in s && Sum(s, f) == f(k) + Sum(s - {k}, f);
      SumMonotone(s - {k}, f, g);
      SumRemove(s, g, k);
    }
  }

  lemma SumsDiffer<K(!new)>(s: set<K>, f: K -> real, g: K -> real) returns (k: K)
    requires Sum(s, f) != Sum(s, g)
    ensures k in s && f(k) != g(k)
  {
    if forall j | j in s :: f(j) == g(j) {
      SumCongruent(s, f, g);
    }
    k :| k in s && f(k) != g(k);
  }

  lemma SumsExceed<K(!new)>(s: set<K>, f: K -> real, g: K -> real) returns (k: K)
    requires Sum(s, f) > Sum(s, g)
    ensures k in s && f(k) > g(k)
  {
    if forall j | j in s :: f(j) <= g(j) {
      SumMonotone(s, f, g);
    }
    k :| k in s && f(k) > g(k);
  }

  /** Renaming the index set along an injection leaves the sum alone. */
  lemma {:induction false} SumRenamed<J(!new), K(!new)>(s: set<J>, image: set<K>, phi: map<J, K>,
                                        f: J -> real, g: K -> real)
    requires s <= phi.Keys
    requires forall i, j | i in s && j in s && phi[i] == phi[j] :: i == j
    requires image == set j | j in s :: phi[j]
    requires forall j | j in s :: f(j) == g(phi[j])
    ensures Sum(s, f) == Sum(image, g)
    decreases |s|
  {
    if s == {} {
      assert image == {};
    } else {
      var j :| j in s && Sum(s, f) == f(j) + Sum(s - {j}, f);
      assert phi[j] in image;
      assert image - {phi[j]} == set i | i in s - {j} :: phi[i];
      SumRenamed(s - {j}, image - {phi[j]}, phi, f, g);
      SumRemove(image, g, phi[j]);
    }
  }

  lemma ElementsSplit<T>(s: seq<T>)
    requires s != []
    ensures Elements(s) == Elements(s[..|s| - 1]) + {s[|s| - 1]}
  {
    var front, last := s[..|s| - 1], s[|s| - 1];
    assert s == front + [last];
  }

  lemma TakeOne<T>(s: seq<T>, k: nat)
    requires k < |s|
    ensures Elements(s[..k + 1]) == Elements(s[..k]) + {s[k]}
    ensures s[k] in Elements(s)
    ensures Distinct(s) ==> s[k] !in Elements(s[..k])
  {
    assert s[..k + 1] == s[..k] + [s[k]];
  }

  lemma {:induction false} DistinctSize<T>(s: seq<T>)
    requires Distinct(s)
    ensures |Elements(s)| == |s|
  {
    if s == [] {
      assert Elements(s) == {};
    } else {
      var front, last := s[..|s| - 1], s[|s| - 1];
      ElementsSplit(s);
      DistinctSize(front);
      assert last !in Elements(front);
    }
  }

  lemma {:induction false} DistinctOnce<T>(s: seq<T>, x: T)
    requires Distinct(s)
    ensures multiset(s)[x] <= 1
  {
    if s != [] {
      var n := |s| - 1;
      assert s == s[..n] + [s[n]];
      DistinctOnce(s[..n], x);
    }
  }

  lemma {:induction false} SubsetSize<T>(a: set<T>, b: set<T>)
    requires a <= b
    ensures |a| <= |b|
    ensures |a| == |b| ==> a == b
  {
    assert b == a + (b - a);
    assert |b| == |a| + |b - a|;
  }

  lemma RemoveAt<T>(s: seq<T>, i: nat)
    requires i < |s|
    ensures multiset(s[..i] + s[i + 1..]) == multiset(s) - multiset{s[i]}
  {
    assert s == s[..i] + [s[i]] + s[i + 1..];
  }

  /** More entries than values: two entries coincide. */
  lemma Pigeonhole<T>(s: seq<T>, d: set<T>)
    requires forall x | x in s :: x in d
    requires |s| > |d|
    ensures exists i, j :: 0 <= i < j < |s| && s[i] == s[j]
  {
    if Distinct(s) {
      DistinctSize(s);
      SubsetSize(Elements(s), d);
    }
  }

  /** A product, named so that proofs can keep the solver from expanding it. */
  function Times(k: real, u: real): real { k * u }

  lemma TimesPlus(k: real, u: real, v: real)
    ensures Times(k, u + v) == Times(k, u) + Times(k, v)
  {
  }

  lemma TimesOrder(k: real, u: real, v: real)
    requires k > 0.0
    ensures u <= v <==> Times(k, u) <= Times(k, v)
  {
    if u <= v {
      ProductOrder(k, u, v);
    } else {
      ProductStrict(k, v, u);
    }
  }

  lemma Divided(m: real, n: real)
    requires n != 0.0
    ensures n * (m / n) == m
  {
  }

  lemma Quotient(n: real, v: real, r: real)
    requires n > 0.0 && r == Times(n, v)
    ensures r / n == v
  {
    Divided(r, n);
    assert Times(n, r / n) == r;
    TimesOrder(n, v, r / n);
    TimesOrder(n, r / n, v);
    hide Times;
  }

  lemma ProductOrder(k: real, u: real, v: real)
    requires k > 0.0 && u <= v
    ensures k * u <= k * v
  {
  }

  lemma ProductMonotone(k: real, u: real, v: real)
    requires k >= 0.0 && u <= v
    ensures Times(k, u) <= Times(k, v)
  {
    if k > 0.0 {
      ProductOrder(k, u, v);
    } else {
      assert Times(0.0, u) == 0.0 == Times(0.0, v);
    }
  }

  lemma ProductStrict(k: real, u: real, v: real)
    requires k > 0.0 && u < v
    ensures k * u < k * v
  {
  }
}
