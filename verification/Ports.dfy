/** First-fit assignment of port offsets to the pods that open connections. */
module Ports {
  import opened Prelude
  import opened RoleModel

  /** A named source pod and the target roles it connects to. */
  datatype Client = Client(role: Role, pod: Name, targets: seq<Role>)

  ghost predicate Share(a: seq<Role>, b: seq<Role>) {
    exists t :: t in a && t in b
  }

  /** Offsets already claimed by an earlier client that shares a target with `targets`. */
  ghost function Taken(cs: seq<Client>, os: seq<nat>, targets: seq<Role>): set<nat>
    requires |os| == |cs|
  {
    set j | 0 <= j < |cs| && Share(cs[j].targets, targets) :: os[j]
  }

  /** Offsets claimed on one target role. */
  ghost function UsedBy(cs: seq<Client>, os: seq<nat>, t: Role): set<nat>
    requires |os| == |cs|
  {
    set j | 0 <= j < |cs| && t in cs[j].targets :: os[j]
  }

  ghost predicate IsFirstFree(k: nat, s: set<nat>) {
    k !in s && forall j: nat | j < k :: j in s
  }

  lemma {:induction false} InitialSegmentSize(s: set<nat>, k: nat)
    requires forall j: nat | j < k :: j in s
    ensures k <= |s|
  {
    if k > 0 {
      InitialSegmentSize(s - {k - 1}, k - 1);
    }
  }

  ghost function FirstFreeFrom(s: set<nat>, k: nat): (r: nat)
    requires forall j: nat | j < k :: j in s
    ensures IsFirstFree(r, s)
    decreases |s| - k
  {
    if k !in s then k
    else
      InitialSegmentSize(s, k + 1);
      FirstFreeFrom(s, k + 1)
  }

  /** The colouring: each client takes the least offset no earlier client sharing a target holds. */
  ghost function Offsets(cs: seq<Client>): (os: seq<nat>)
    ensures |os| == |cs|
  {
    if cs == [] then []
    else
      var front := cs[..|cs| - 1];
      Offsets(front) + [FirstFreeFrom(Taken(front, Offsets(front), cs[|cs| - 1].targets), 0)]
  }

  lemma {:induction false} OffsetsPrefix(cs: seq<Client>, n: nat)
    requires n <= |cs|
    ensures Offsets(cs)[..n] == Offsets(cs[..n])
  {
    if n == |cs| {
      assert cs[..n] == cs;
    } else {
      var front := cs[..|cs| - 1];
      OffsetsPrefix(front, n);
      assert front[..n] == cs[..n];
    }
  }

  lemma OffsetAt(cs: seq<Client>, j: nat)
    requires j < |cs|
    ensures IsFirstFree(Offsets(cs)[j], Taken(cs[..j], Offsets(cs)[..j], cs[j].targets))
  {
    OffsetsPrefix(cs, j + 1);
    OffsetsPrefix(cs, j);
    assert cs[..j + 1][..j] == cs[..j];
    assert Offsets(cs)[j] == Offsets(cs)[..j + 1][j];
  }

  /** Two clients that share a target never hold the same offset. */
  lemma {:induction false} SharersDiffer(cs: seq<Client>, i: nat, j: nat)
    requires i < j < |cs| && Share(cs[i].targets, cs[j].targets)
    ensures Offsets(cs)[i] != Offsets(cs)[j]
  {
    OffsetAt(cs, j);
    assert cs[..j][i] == cs[i];
    assert Offsets(cs)[..j][i] in Taken(cs[..j], Offsets(cs)[..j], cs[j].targets);
  }

  /** The earlier clients that share a target with client j. */
  ghost function EarlierSharers(cs: seq<Client>, j: nat): set<nat>
    requires j < |cs|
  {
    set i: nat | i < j && Share(cs[i].targets, cs[j].targets)
  }

  ghost function Image<T>(indices: set<nat>, f: seq<T>): set<T> {
    set i | i in indices && i < |f| :: f[i]
  }

  lemma ImageRemove<T>(indices: set<nat>, f: seq<T>, k: nat)
    requires k in indices && k < |f|
    ensures Image(indices, f) == Image(indices - {k}, f) + {f[k]}
  {
  }

  lemma {:induction false} ImageSize<T>(indices: set<nat>, f: seq<T>)
    requires forall i | i in indices :: i < |f|
    ensures |Image(indices, f)| <= |indices|
    ensures (forall i, j | i in indices && j in indices && f[i] == f[j] :: i == j) ==> |Image(indices, f)| == |indices|
    decreases |indices|
  {
    if k :| k in indices {
      ImageSize(indices - {k}, f);
      ImageRemove(indices, f, k);
    } else {
      assert Image(indices, f) == {};
    }
  }

  /** Offset k is held by an earlier client that shares a target with client j. */
  ghost predicate HeldBySharer(cs: seq<Client>, j: nat, k: nat)
    requires j < |cs|
  {
    k in Image(EarlierSharers(cs, j), Offsets(cs))
  }

  lemma {:induction false} TakenIsHeld(cs: seq<Client>, j: nat)
    requires j < |cs|
    ensures Taken(cs[..j], Offsets(cs)[..j], cs[j].targets) == Image(EarlierSharers(cs, j), Offsets(cs))
  {
    var os, before := Offsets(cs), cs[..j];
    forall i: nat | i < j
      ensures before[i] == cs[i] && os[..j][i] == os[i]
    {
    }
  }

  /** Bound of first fit: every smaller offset is held by an earlier sharer, so a client's offset is at
      most the number of earlier clients it shares a target with. */
  lemma {:induction false} OffsetBounded(cs: seq<Client>, j: nat)
    requires j < |cs|
    ensures Offsets(cs)[j] <= |EarlierSharers(cs, j)|
    ensures forall k: nat | k < Offsets(cs)[j] :: HeldBySharer(cs, j, k)
  {
    hide Offsets, Taken, EarlierSharers, Image;
    OffsetAt(cs, j);
    TakenIsHeld(cs, j);
    var sharers := EarlierSharers(cs, j);
    assert forall i | i in sharers :: i < |Offsets(cs)| by {
      SharersAreEarlier(cs, j);
    }
    ImageSize(sharers, Offsets(cs));
    InitialSegmentSize(Image(sharers, Offsets(cs)), Offsets(cs)[j]);
  }

  lemma SharersAreEarlier(cs: seq<Client>, j: nat)
    requires j < |cs|
    ensures forall i | i in EarlierSharers(cs, j) :: i < j && Share(cs[i].targets, cs[j].targets)
  {
  }

  /** The pods connecting to t, as indices into the client list. */
  ghost function Connecting(cs: seq<Client>, t: Role): set<nat> {
    set j: nat | j < |cs| && t in cs[j].targets
  }

  /** n server slots on t: one more than the largest offset used on it, none when unused. */
  ghost predicate IsServerCount(n: nat, used: set<nat>) {
    && (forall k | k in used :: k < n)
    && (if used == {} then n == 0 else n >= 1 && n - 1 in used)
  }

  ghost function ServerCount(used: set<nat>): (n: nat)
    ensures IsServerCount(n, used)
  {
    ServerCountExists(used);
    var n: nat :| IsServerCount(n, used);
    n
  }

  lemma {:induction false} ServerCountExists(used: set<nat>)
    ensures exists n: nat :: IsServerCount(n, used)
    decreases |used|
  {
    if k :| k in used {
      ServerCountExists(used - {k});
      var n: nat :| IsServerCount(n, used - {k});
      assert used == used - {k} + {k};
      assert IsServerCount(if k + 1 > n then k + 1 else n, used);
    } else {
      assert IsServerCount(0, used);
    }
  }

  lemma ServerCountUnique(m: nat, n: nat, used: set<nat>)
    requires IsServerCount(m, used) && IsServerCount(n, used)
    ensures m == n
  {
  }

  lemma UsedByConnecting(cs: seq<Client>, t: Role)
    ensures UsedBy(cs, Offsets(cs), t) == Image(Connecting(cs, t), Offsets(cs))
    ensures |UsedBy(cs, Offsets(cs), t)| == |Connecting(cs, t)|
  {
    var os, conn := Offsets(cs), Connecting(cs, t);
    forall i, j | i in conn && j in conn && os[i] == os[j]
      ensures i == j
    {
      assert Share(cs[i].targets, cs[j].targets) && Share(cs[j].targets, cs[i].targets);
      if i < j {
        SharersDiffer(cs, i, j);
      } else if j < i {
        SharersDiffer(cs, j, i);
      }
    }
    ImageSize(conn, os);
  }

  lemma {:induction false} BelowSize(s: set<nat>, n: nat)
    requires forall k | k in s :: k < n
    ensures |s| <= n
  {
    if n > 0 {
      BelowSize(s - {n - 1}, n - 1);
      SubsetSize(s, (s - {n - 1}) + {n - 1});
    } else {
      assert s == {};
    }
  }

  /** A target never opens fewer servers than pods connect to it. */
  lemma {:induction false} EnoughServers(cs: seq<Client>, t: Role, n: nat)
    requires IsServerCount(n, UsedBy(cs, Offsets(cs), t))
    ensures |Connecting(cs, t)| <= n
  {
    UsedByConnecting(cs, t);
    BelowSize(UsedBy(cs, Offsets(cs), t), n);
  }

  // ---- when first fit is plain counting ----

  /** The clients before j that connect to t. */
  ghost function EarlierOn(cs: seq<Client>, j: nat, t: Role): set<nat>
    requires j <= |cs|
  {
    set i: nat | i < j && t in cs[i].targets
  }

  /** Whenever a client's turn comes, all its targets have equally many clients already. */
  ghost predicate Balanced(cs: seq<Client>) {
    forall j, t, u | 0 <= j < |cs| && t in cs[j].targets && u in cs[j].targets ::
      |EarlierOn(cs, j, t)| == |EarlierOn(cs, j, u)|
  }

  /** Client j's offset is what a counter kept on each of its targets would say. */
  ghost predicate CountsUp(cs: seq<Client>, j: nat)
    requires j < |cs|
  {
    forall t | t in cs[j].targets :: Offsets(cs)[j] == |EarlierOn(cs, j, t)|
  }

  ghost predicate Below(k: nat, m: nat) {
    k < m
  }

  ghost function UpTo(m: nat): set<nat> {
    set k: nat | k < m && Below(k, m)
  }

  lemma FirstFreeUpTo(k: nat, m: nat)
    requires IsFirstFree(k, UpTo(m))
    ensures k == m
  {
    UpToHas(k, m);
    UpToHas(m, m);
  }

  lemma NextUpTo(m: nat)
    ensures UpTo(m + 1) == UpTo(m) + {m}
  {
    forall k: nat
      ensures k in UpTo(m + 1) <==> k in UpTo(m) + {m}
    {
      UpToHas(k, m);
      UpToHas(k, m + 1);
    }
  }

  lemma UpToHas(k: nat, m: nat)
    ensures k in UpTo(m) <==> k < m
  {
    assert Below(k, m) <==> k < m;
  }

  lemma CountUpTo(n: nat, m: nat)
    requires IsServerCount(n, UpTo(m))
    ensures n == m
  {
    if m > 0 {
      UpToHas(m - 1, m);
    }
  }

  lemma {:induction false} HeldAreCounted(cs: seq<Client>, n: nat, t: Role)
    requires n <= |cs| && forall i | 0 <= i < n :: CountsUp(cs, i)
    ensures Image(EarlierOn(cs, n, t), Offsets(cs)) == UpTo(|EarlierOn(cs, n, t)|)
    decreases n
  {
    hide Offsets;
    if n == 0 {
      assert EarlierOn(cs, 0, t) == {};
    } else {
      var last := n - 1;
      HeldAreCounted(cs, last, t);
      assert CountsUp(cs, last);
      NextUpTo(|EarlierOn(cs, last, t)|);
      if t in cs[last].targets {
        assert EarlierOn(cs, n, t) == EarlierOn(cs, last, t) + {last};
        assert EarlierOn(cs, n, t) - {last} == EarlierOn(cs, last, t);
        ImageRemove(EarlierOn(cs, n, t), Offsets(cs), last);
        hide Image, UpTo, EarlierOn;
      } else {
        assert EarlierOn(cs, n, t) == EarlierOn(cs, last, t);
      }
    }
  }

  /** With equal counts, the offsets that sharers hold are those below the count. */
  lemma SharersHold(cs: seq<Client>, j: nat, t: Role)
    requires Balanced(cs) && j < |cs| && t in cs[j].targets && forall i | 0 <= i < j :: CountsUp(cs, i)
    ensures Image(EarlierSharers(cs, j), Offsets(cs)) == UpTo(|EarlierOn(cs, j, t)|)
  {
    var os, sharers := Offsets(cs), EarlierSharers(cs, j);
    HeldAreCounted(cs, j, t);
    hide Offsets;
    forall i | i in EarlierOn(cs, j, t)
      ensures i in sharers
    {
      assert Share(cs[i].targets, cs[j].targets);
    }
    forall i | i in sharers
      ensures os[i] in UpTo(|EarlierOn(cs, j, t)|)
    {
      var u :| u in cs[i].targets && u in cs[j].targets;
      HeldAreCounted(cs, j, u);
      assert i in EarlierOn(cs, j, u) && os[i] in Image(EarlierOn(cs, j, u), os);
    }
  }

  lemma {:induction false} BalancedCounts(cs: seq<Client>, j: nat)
    requires Balanced(cs) && j < |cs|
    ensures CountsUp(cs, j)
    decreases j
  {
    forall i | 0 <= i < j
      ensures CountsUp(cs, i)
    {
      BalancedCounts(cs, i);
    }
    OffsetAt(cs, j);
    TakenIsHeld(cs, j);
    hide Offsets, Taken, Image, Balanced;
    forall t | t in cs[j].targets
      ensures Offsets(cs)[j] == |EarlierOn(cs, j, t)|
    {
      SharersHold(cs, j, t);
      FirstFreeUpTo(Offsets(cs)[j], |EarlierOn(cs, j, t)|);
    }
  }

  /** First fit gives every client the count of earlier clients on each of its targets if and only if those counts
      agree for every client. */
  lemma {:induction false} CountingExactlyWhen(cs: seq<Client>)
    ensures (forall j | 0 <= j < |cs| :: CountsUp(cs, j)) <==> Balanced(cs)
  {
    if Balanced(cs) {
      forall j | 0 <= j < |cs|
        ensures CountsUp(cs, j)
      {
        BalancedCounts(cs, j);
      }
    }
    if forall j | 0 <= j < |cs| :: CountsUp(cs, j) {
      forall j, t, u | 0 <= j < |cs| && t in cs[j].targets && u in cs[j].targets
        ensures |EarlierOn(cs, j, t)| == |EarlierOn(cs, j, u)|
      {
        assert CountsUp(cs, j);
      }
    }
  }

  /** Then first fit wastes nothing: exactly one server per connecting pod. */
  lemma {:induction false} ExactServers(cs: seq<Client>, t: Role, n: nat)
    requires Balanced(cs)
    requires IsServerCount(n, UsedBy(cs, Offsets(cs), t))
    ensures n == |Connecting(cs, t)|
  {
    CountingExactlyWhen(cs);
    HeldAreCounted(cs, |cs|, t);
    assert EarlierOn(cs, |cs|, t) == Connecting(cs, t);
    var m := |Connecting(cs, t)|;
    UsedByConnecting(cs, t);
    hide Offsets;
    assert UsedBy(cs, Offsets(cs), t) == UpTo(m);
    CountUpTo(n, m);
  }

  /** With one target per client the counts always agree. */
  lemma SingleTargetsBalance(cs: seq<Client>)
    requires forall j | 0 <= j < |cs| :: |cs[j].targets| == 1
    ensures Balanced(cs)
  {
  }
}
