/** Inter-tier link shaping: validating the declared pairs and planning what each node shapes towards whom. */
module LinkPlan {
  import opened Prelude
  import opened Order

  type Tier = Name

  // ---- declared values ----

  datatype TimeUnit = Us | Ms | S

  /** A latency value as the template gives it; `amount` is never negative. */
  datatype Duration = NotADuration | Duration(amount: real, unit: TimeUnit)

  function Micros(unit: TimeUnit): real {
    match unit
    case Us => 1.0
    case Ms => 1000.0
    case S => 1000000.0
  }

  const MAX_RTT_US := 10000000

  function ParseDuration(d: Duration): Option<nat> {
    if d.NotADuration? then None
    else
      var us := (d.amount * Micros(d.unit)).Floor;
      if us < 2 || us > MAX_RTT_US then None else Some(us)
  }

  datatype RateUnit = Kbps | Mbps | Gbps

  datatype Rate = NotARate | Rate(amount: real, unit: RateUnit)

  function BytesPer(unit: RateUnit): real {
    match unit
    case Kbps => 125.0
    case Mbps => 125000.0
    case Gbps => 125000000.0
  }

  function BytesPerSecond(r: Rate): Option<nat> {
    if r.NotARate? || r.amount <= 0.0 then None else Some((r.amount * BytesPer(r.unit)).Floor)
  }

  function ParseRate(r: Rate): Option<Rate> {
    if BytesPerSecond(r).Some? then Some(r) else None
  }

  /** A whole number of microseconds is accepted as it is from 2 up to ten seconds; a thousand of one unit are one of
      the
      next. */
  lemma {:induction false} Durations(n: int, amount: real)
    ensures ParseDuration(Duration(n as real, Us)) == if 2 <= n <= 10_000_000 then Some(n) else None
    ensures ParseDuration(Duration(1000.0 * amount, Us)) == ParseDuration(Duration(amount, Ms))
    ensures ParseDuration(Duration(1000.0 * amount, Ms)) == ParseDuration(Duration(amount, S))
    ensures ParseDuration(NotADuration) == None
  {
    ParseIs(n as real);
    ParseIs(1000.0 * amount);
    ParseIs(amount);
    hide ParseDuration;
  }

  function InRange(us: real): Option<nat> {
    if us.Floor < 2 || us.Floor > MAX_RTT_US then None else Some(us.Floor)
  }

  lemma ParseIs(amount: real)
    ensures ParseDuration(Duration(amount, Us)) == InRange(amount)
    ensures ParseDuration(Duration(amount, Ms)) == InRange(1000.0 * amount)
    ensures ParseDuration(Duration(amount, S)) == InRange(1000000.0 * amount)
    ensures ParseDuration(NotADuration) == None
  {
    InMicros(amount);
    hide Micros;
  }

  lemma InMicros(amount: real)
    ensures amount * Micros(Us) == amount
    ensures amount * Micros(Ms) == 1000.0 * amount
    ensures amount * Micros(S) == 1000000.0 * amount
  {
  }

  /** Eight thousand kilobits per second are a million bytes; a thousand of one unit are one of the next. Every positive
      rate is accepted and nothing else is. */
  lemma {:induction false} Rates(n: int, amount: real, r: Rate)
    ensures n > 0 ==> BytesPerSecond(Rate(8.0 * n as real, Kbps)) == Some(1000 * n)
    ensures BytesPerSecond(Rate(1000.0 * amount, Kbps)) == BytesPerSecond(Rate(amount, Mbps))
    ensures BytesPerSecond(Rate(1000.0 * amount, Mbps)) == BytesPerSecond(Rate(amount, Gbps))
    ensures ParseRate(r) == if r.Rate? && r.amount > 0.0 then Some(r) else None
  {
    BytesAre(8.0 * n as real);
    BytesAre(1000.0 * amount);
    BytesAre(amount);
    PositiveRates(r);
    hide BytesPerSecond, ParseRate;
  }

  lemma PositiveRates(r: Rate)
    ensures ParseRate(r) == if r.Rate? && r.amount > 0.0 then Some(r) else None
  {
  }

  function InWholeBytes(amount: real, bytes: real): Option<nat> {
    if amount <= 0.0 || bytes < 0.0 then None else Some(bytes.Floor)
  }

  lemma BytesAre(amount: real)
    ensures BytesPerSecond(Rate(amount, Kbps)) == InWholeBytes(amount, 125.0 * amount)
    ensures BytesPerSecond(Rate(amount, Mbps)) == InWholeBytes(amount, 125000.0 * amount)
    ensures BytesPerSecond(Rate(amount, Gbps)) == InWholeBytes(amount, 125000000.0 * amount)
  {
    InBytes(amount);
    hide BytesPer;
  }

  lemma InBytes(amount: real)
    ensures amount * BytesPer(Kbps) == 125.0 * amount
    ensures amount * BytesPer(Mbps) == 125000.0 * amount
    ensures amount * BytesPer(Gbps) == 125000000.0 * amount
  {
  }

  /** An accepted rate need not be positive: it is exactly from one byte per second on. */
  lemma {:induction false} AcceptedRates(r: Rate)
    ensures ParseRate(r).Some? ==> (BytesPerSecond(r).value > 0 <==> r.amount * BytesPer(r.unit) >= 1.0)
    ensures var tiny := Rate(0.001, Kbps); ParseRate(tiny) == Some(tiny) && ToTc(BytesPerSecond(tiny).value) == Gbit(0)
  {
    assert (0.001 * BytesPer(Kbps)).Floor == 0;
  }

  datatype TcRate = Gbit(n: nat) | Mbit(n: nat) | Bit(n: nat)

  function InBits(r: TcRate): nat {
    match r
    case Gbit(n) => n * 1000000000
    case Mbit(n) => n * 1000000
    case Bit(n) => n
  }

  /** The rate handed to tc: bits per second in the largest unit that divides it. */
  function ToTc(bytes: nat): (r: TcRate)
    ensures InBits(r) == 8 * bytes
    ensures r.Gbit? <==> 8 * bytes % 1000000000 == 0
    ensures r.Mbit? ==> 8 * bytes % 1000000 == 0
    ensures r.Bit? ==> 8 * bytes % 1000000 != 0
  {
    var bits := bytes * 8;
    if bits % 1000000000 == 0 then Gbit(bits / 1000000000)
    else if bits % 1000000 == 0 then Mbit(bits / 1000000)
    else Bit(bits)
  }

  // ---- declared pairs ----

  datatype Pair = Pair(lo: Tier, hi: Tier)

  function KeyOf(a: Tier, b: Tier): Pair {
    if NameBefore(b, a) then Pair(b, a) else Pair(a, b)
  }

  lemma KeySymmetric(a: Tier, b: Tier)
    ensures KeyOf(a, b) == KeyOf(b, a)
    ensures KeyOf(a, b) in {Pair(a, b), Pair(b, a)}
    ensures !NameBefore(KeyOf(a, b).hi, KeyOf(a, b).lo)
  {
    NameOrder();
  }

  datatype Declared<V> = Declared(a: Tier, b: Tier, value: V)

  /** One row of the declaration; `peers` is None when it is not an object. */
  datatype Row<V> = Row(tier: Tier, peers: Option<seq<Peer<V>>>)

  datatype Peer<V> = Peer(tier: Tier, value: V)

  datatype Declaration<V> = Omitted | NotAnObject | Rows(rows: seq<Row<V>>)

  const NAMELESS := Name("")

  function RowLinks<V>(a: Tier, peers: seq<Peer<V>>): seq<Declared<V>> {
    seq(|peers|, i requires 0 <= i < |peers| => Declared(a, peers[i].tier, peers[i].value))
  }

  function Links<V>(rows: seq<Row<V>>): seq<Declared<V>> {
    if rows == [] then []
    else
      var last := rows[|rows| - 1];
      Links(rows[..|rows| - 1]) + if last.peers.Some? then RowLinks(last.tier, last.peers.value) else []
  }

  ghost predicate WellShaped<V>(rows: seq<Row<V>>) {
    forall row | row in rows :: row.tier != NAMELESS && row.peers.Some?
  }

  ghost predicate LinkOk<V, W>(l: Declared<V>, parse: V -> Option<W>) {
    l.a != NAMELESS && l.b != NAMELESS && l.a != l.b && parse(l.value).Some?
  }

  ghost predicate PairsOnce<V>(links: seq<Declared<V>>) {
    forall i, j | 0 <= i < j < |links| :: KeyOf(links[i].a, links[i].b) != KeyOf(links[j].a, links[j].b)
  }

  ghost predicate Acceptable<V, W>(links: seq<Declared<V>>, parse: V -> Option<W>) {
    (forall l | l in links :: LinkOk(l, parse)) && PairsOnce(links)
  }

  /** The accepted value of every pair. */
  function Table<V, W>(links: seq<Declared<V>>, parse: V -> Option<W>): map<Pair, W> {
    if links == [] then map[]
    else
      var l := links[|links| - 1];
      var front := Table(links[..|links| - 1], parse);
      if parse(l.value).Some? then front[KeyOf(l.a, l.b) := parse(l.value).value] else front
  }

  lemma {:induction false} TableKeys<V, W>(links: seq<Declared<V>>, parse: V -> Option<W>)
    requires forall l | l in links :: LinkOk(l, parse)
    ensures forall k :: k in Table(links, parse) <==> exists l :: l in links && KeyOf(l.a, l.b) == k
  {
    hide KeyOf;
    if links != [] {
      var front, last := links[..|links| - 1], links[|links| - 1];
      assert links == front + [last];
      TableKeys(front, parse);
    }
  }

  lemma {:induction false} TableValues<V, W>(links: seq<Declared<V>>, parse: V -> Option<W>, l: Declared<V>)
    requires Acceptable(links, parse) && l in links
    ensures KeyOf(l.a, l.b) in Table(links, parse) && Table(links, parse)[KeyOf(l.a, l.b)] == parse(l.value).value
  {
    hide KeyOf;
    var n := |links| - 1;
    if links[n] != l {
      assert l in links[..n];
      TableValues(links[..n], parse, l);
      var i :| 0 <= i < n && links[i] == l;
    }
  }

  lemma RowsSplit<V>(rows: seq<Row<V>>, i: nat)
    requires i < |rows|
    ensures Links(rows[..i + 1]) ==
            Links(rows[..i]) + if rows[i].peers.Some? then RowLinks(rows[i].tier, rows[i].peers.value) else []
    ensures WellShaped(rows[..i + 1]) <==> WellShaped(rows[..i]) && rows[i].tier != NAMELESS && rows[i].peers.Some?
  {
    assert rows[..i + 1][..i] == rows[..i];
    assert rows[..i + 1] == rows[..i] + [rows[i]];
  }

  lemma {:induction false} LinksPrefix<V>(rows: seq<Row<V>>, n: nat)
    requires n <= |rows|
    ensures Links(rows[..n]) <= Links(rows)
    decreases |rows|
  {
    if n == |rows| {
      assert rows[..n] == rows;
    } else {
      LinksPrefix(rows[..|rows| - 1], n);
      assert rows[..|rows| - 1][..n] == rows[..n];
    }
  }

  lemma NotAcceptable<V, W>(links: seq<Declared<V>>, l: Declared<V>, all: seq<Declared<V>>, parse: V -> Option<W>)
    requires forall m | m in links :: LinkOk(m, parse)
    requires links + [l] <= all
    requires !LinkOk(l, parse) || KeyOf(l.a, l.b) in Table(links, parse)
    ensures !Acceptable(all, parse)
  {
    hide KeyOf;
    assert all[|links|] == l;
    assert l in all;
    TableKeys(links, parse);
    if KeyOf(l.a, l.b) in Table(links, parse) {
      var m :| m in links && KeyOf(m.a, m.b) == KeyOf(l.a, l.b);
      var i :| 0 <= i < |links| && links[i] == m;
      assert all[i] == m;
    }
  }

  lemma AcceptableExtend<V, W>(links: seq<Declared<V>>, l: Declared<V>, parse: V -> Option<W>)
    requires Acceptable(links, parse) && LinkOk(l, parse) && KeyOf(l.a, l.b) !in Table(links, parse)
    ensures Acceptable(links + [l], parse)
    ensures Table(links + [l], parse) == Table(links, parse)[KeyOf(l.a, l.b) := parse(l.value).value]
  {
    hide KeyOf;
    TableKeys(links, parse);
    assert (links + [l])[..|links|] == links;
    forall i | 0 <= i < |links|
      ensures KeyOf(links[i].a, links[i].b) != KeyOf(l.a, l.b)
    {
      assert links[i] in links;
    }
  }

  /** The inner loop: one tier's peers. */
  method ValidateRow<V, W>(a: Tier, peers: seq<Peer<V>>, found0: map<Pair, W>, parse: V -> Option<W>,
                           ghost before: seq<Declared<V>>, ghost all: seq<Declared<V>>)
    returns (found: Option<map<Pair, W>>)
    requires a != NAMELESS && Acceptable(before, parse) && found0 == Table(before, parse)
    requires before + RowLinks(a, peers) <= all
    ensures found.Some? ==>
            Acceptable(before + RowLinks(a, peers), parse) && found.value == Table(before + RowLinks(a, peers), parse)
    ensures found.None? ==> !Acceptable(all, parse)
  {
    hide KeyOf, Table;
    ghost var row := RowLinks(a, peers);
    var pairs := found0;
    assert before + row[..0] == before;
    for j := 0 to |peers|
      invariant Acceptable(before + row[..j], parse)
      invariant pairs == Table(before + row[..j], parse)
    {
      ghost var links, l := before + row[..j], row[j];
      assert links + [l] == before + row[..j + 1] <= all;
      var key := KeyOf(a, peers[j].tier);
      if peers[j].tier == NAMELESS || a == peers[j].tier || key in pairs || parse(peers[j].value).None? {
        NotAcceptable(links, l, all, parse);
        return None;
      }
      AcceptableExtend(links, l, parse);
      pairs := pairs[key := parse(peers[j].value).value];
    }
    assert before + row[..|peers|] == before + row;
    found := Some(pairs);
  }

  /** Every pair is well formed and given once, in either orientation. */
  ghost predicate Accepted<V, W>(d: Declaration<V>, parse: V -> Option<W>) {
    d.Omitted? || (d.Rows? && WellShaped(d.rows) && Acceptable(Links(d.rows), parse))
  }

  function TableOf<V, W>(d: Declaration<V>, parse: V -> Option<W>): map<Pair, W> {
    if d.Rows? then Table(Links(d.rows), parse) else map[]
  }

  method ValidatePairs<V, W>(d: Declaration<V>, parse: V -> Option<W>) returns (pairs: Option<map<Pair, W>>)
    ensures pairs.Some? <==> Accepted(d, parse)
    ensures pairs.Some? ==> pairs.value == TableOf(d, parse)
  {
    if d.Omitted? {
      return Some(map[]);
    }
    if d.NotAnObject? {
      return None;
    }
    var found: map<Pair, W> := map[];
    hide KeyOf, LinkOk, Table;
    assert Table<V, W>([], parse) == map[] by {
      NoLinks<V, W>(parse);
    }
    for i := 0 to |d.rows|
      invariant WellShaped(d.rows[..i]) && Acceptable(Links(d.rows[..i]), parse)
      invariant found == Table(Links(d.rows[..i]), parse)
    {
      var row := d.rows[i];
      RowsSplit(d.rows, i);
      if row.tier == NAMELESS || row.peers.None? {
        assert row in d.rows;
        return None;
      }
      LinksPrefix(d.rows, i + 1);
      var rowPairs := ValidateRow(row.tier, row.peers.value, found, parse, Links(d.rows[..i]), Links(d.rows));
      if rowPairs.None? {
        return None;
      }
      found := rowPairs.value;
    }
    assert d.rows[..|d.rows|] == d.rows;
    pairs := Some(found);
  }

  lemma NoLinks<V, W>(parse: V -> Option<W>)
    ensures Table<V, W>([], parse) == map[]
  {
  }

  // ---- orientation does not matter ----

  /** A declared pair without its orientation. */
  datatype Unoriented<V> = Unoriented(pair: Pair, value: V)

  function Normal<V>(l: Declared<V>): Unoriented<V> {
    Unoriented(KeyOf(l.a, l.b), l.value)
  }

  function Normals<V>(links: seq<Declared<V>>): (ns: seq<Unoriented<V>>)
    ensures |ns| == |links|
  {
    seq(|links|, i requires 0 <= i < |links| => Normal(links[i]))
  }

  ghost predicate NormalOk<V, W>(n: Unoriented<V>, parse: V -> Option<W>) {
    n.pair.lo != NAMELESS && n.pair.hi != NAMELESS && n.pair.lo != n.pair.hi && parse(n.value).Some?
  }

  lemma OkIsUnoriented<V, W>(l: Declared<V>, parse: V -> Option<W>)
    ensures LinkOk(l, parse) <==> NormalOk(Normal(l), parse)
  {
    KeySymmetric(l.a, l.b);
    hide KeyOf;
  }

  lemma PairAtMostOnce<V>(links: seq<Declared<V>>, i: nat, j: nat)
    requires PairsOnce(links) && i < |links| && j < |links| && Normal(links[i]).pair == Normal(links[j]).pair
    ensures i == j
  {
    hide KeyOf;
  }

  /** If one of two lists of links with the same unoriented content is acceptable, so is the other, and with
      the same table. */
  lemma {:induction false} SameLinksSameTable<V, W>(links: seq<Declared<V>>, flipped: seq<Declared<V>>,
                                                    parse: V -> Option<W>)
    requires multiset(Normals(links)) == multiset(Normals(flipped))
    requires Acceptable(links, parse)
    ensures Acceptable(flipped, parse)
    ensures Table(flipped, parse) == Table(links, parse)
  {
    hide KeyOf, Table;
    forall m | m in flipped
      ensures LinkOk(m, parse)
      ensures exists l :: l in links && Normal(l) == Normal(m)
    {
      var l := Counterpart(flipped, links, m);
      OkIsUnoriented(l, parse);
      OkIsUnoriented(m, parse);
    }
    PairsStayUnique(links, flipped);
    forall k
      ensures k in Table(flipped, parse) <==> k in Table(links, parse)
      ensures k in Table(links, parse) ==> Table(flipped, parse)[k] == Table(links, parse)[k]
    {
      SameEntry(links, flipped, parse, k);
    }
  }

  function LinksOf<V>(d: Declaration<V>): seq<Declared<V>> {
    if d.Rows? then Links(d.rows) else []
  }

  /** Two declarations that differ only in which end of a pair each value is listed under, and in what order.
      Leaving the field out and declaring no pairs come to the same. */
  ghost predicate SameUpToOrientation<V>(d: Declaration<V>, e: Declaration<V>) {
    && (d.NotAnObject? <==> e.NotAnObject?)
    && ((d.Rows? && !WellShaped(d.rows)) <==> (e.Rows? && !WellShaped(e.rows)))
    && multiset(Normals(LinksOf(d))) == multiset(Normals(LinksOf(e)))
  }

  lemma AcceptedMeans<V, W>(d: Declaration<V>, parse: V -> Option<W>)
    ensures Accepted(d, parse) <==>
            !d.NotAnObject? && !(d.Rows? && !WellShaped(d.rows)) && Acceptable(LinksOf(d), parse)
    ensures TableOf(d, parse) == Table(LinksOf(d), parse)
  {
    hide WellShaped, LinkOk, KeyOf;
    assert Links<V>([]) == [];
  }

  /** An accepted declaration, link by link: every tier and peer has a name, no tier is its own peer, every value
      parses,
      and no two links join the same two tiers. */
  lemma {:induction false} AcceptedInFull<V, W>(d: Declaration<V>, parse: V -> Option<W>)
    ensures Accepted(d, parse) <==>
            && !d.NotAnObject?
            && (d.Rows? ==> forall row | row in d.rows :: row.tier != Name("") && row.peers.Some?)
            && (forall l | l in LinksOf(d) :: l.b != Name("") && l.a != Name("") && l.a != l.b && parse(l.value).Some?)
            && forall i, j | 0 <= i < j < |LinksOf(d)| ::
                 {LinksOf(d)[i].a, LinksOf(d)[i].b} != {LinksOf(d)[j].a, LinksOf(d)[j].b}
  {
    AcceptedMeans(d, parse);
    hide Accepted, LinksOf;
    forall i, j | 0 <= i < j < |LinksOf(d)|
      ensures {LinksOf(d)[i].a, LinksOf(d)[i].b} != {LinksOf(d)[j].a, LinksOf(d)[j].b} <==>
              KeyOf(LinksOf(d)[i].a, LinksOf(d)[i].b) != KeyOf(LinksOf(d)[j].a, LinksOf(d)[j].b)
    {
      SameKeySamePair(LinksOf(d)[i].a, LinksOf(d)[i].b, LinksOf(d)[j].a, LinksOf(d)[j].b);
    }
    hide KeyOf;
  }

  lemma SameKeySamePair(a: Tier, b: Tier, c: Tier, e: Tier)
    ensures KeyOf(a, b) == KeyOf(c, e) <==> {a, b} == {c, e}
  {
    KeySymmetric(a, b);
    KeySymmetric(c, e);
    hide KeyOf;
    if {a, b} == {c, e} {
      assert a in {c, e} && b in {c, e} && c in {a, b} && e in {a, b};
    }
  }

  /** The links are the peers of the rows. */
  lemma {:induction false} LinksAreRowPeers<V>(rows: seq<Row<V>>, l: Declared<V>)
    ensures l in Links(rows) <==>
            exists row :: row in rows && row.tier == l.a && row.peers.Some? && Peer(l.b, l.value) in row.peers.value
  {
    if rows != [] {
      var front, last := rows[..|rows| - 1], rows[|rows| - 1];
      assert rows == front + [last];
      LinksAreRowPeers(front, l);
      if last.peers.Some? {
        RowLinksArePeers(last.tier, last.peers.value, l);
      }
      hide RowLinks;
    }
  }

  lemma RowLinksArePeers<V>(a: Tier, peers: seq<Peer<V>>, l: Declared<V>)
    ensures l in RowLinks(a, peers) <==> l.a == a && Peer(l.b, l.value) in peers
  {
    if l.a == a && Peer(l.b, l.value) in peers {
      var i :| 0 <= i < |peers| && peers[i] == Peer(l.b, l.value);
      assert RowLinks(a, peers)[i] == l;
    }
  }

  /** Flipping or moving declared pairs changes neither whether the declaration is accepted nor its table. */
  lemma {:induction false} OrientationIsIrrelevant<V, W>(d: Declaration<V>, e: Declaration<V>, parse: V -> Option<W>)
    requires SameUpToOrientation(d, e)
    ensures Accepted(d, parse) <==> Accepted(e, parse)
    ensures Accepted(d, parse) ==> TableOf(d, parse) == TableOf(e, parse)
  {
    AcceptedMeans(d, parse);
    AcceptedMeans(e, parse);
    hide Accepted, TableOf, Acceptable, Table, LinksOf, Normals, WellShaped;
    if Acceptable(LinksOf(d), parse) {
      SameLinksSameTable(LinksOf(d), LinksOf(e), parse);
    }
    if Acceptable(LinksOf(e), parse) {
      SameLinksSameTable(LinksOf(e), LinksOf(d), parse);
    }
  }

  lemma Counterpart<V>(from: seq<Declared<V>>, to: seq<Declared<V>>, l: Declared<V>) returns (m: Declared<V>)
    requires multiset(Normals(from)) == multiset(Normals(to)) && l in from
    ensures m in to && Normal(m) == Normal(l)
  {
    hide KeyOf;
    var i :| 0 <= i < |from| && from[i] == l;
    assert Normals(from)[i] in multiset(Normals(to));
    var j :| 0 <= j < |to| && Normals(to)[j] == Normal(l);
    m := to[j];
  }

  lemma PairsStayUnique<V>(links: seq<Declared<V>>, flipped: seq<Declared<V>>)
    requires multiset(Normals(links)) == multiset(Normals(flipped)) && PairsOnce(links)
    ensures PairsOnce(flipped)
  {
    hide KeyOf;
    var ns, fs := Normals(links), Normals(flipped);
    forall i, j | 0 <= i < j < |flipped|
      ensures KeyOf(flipped[i].a, flipped[i].b) != KeyOf(flipped[j].a, flipped[j].b)
    {
      var l := Counterpart(flipped, links, flipped[i]);
      var m := Counterpart(flipped, links, flipped[j]);
      if Normal(flipped[i]).pair == Normal(flipped[j]).pair {
        var p :| 0 <= p < |links| && links[p] == l;
        var q :| 0 <= q < |links| && links[q] == m;
        PairAtMostOnce(links, p, q);
        assert fs[i] == fs[j] == ns[p];
        assert Distinct(ns);
        DistinctOnce(ns, ns[p]);
        TwiceInMultiset(fs, i, j);
      }
    }
  }

  lemma SameEntry<V, W>(links: seq<Declared<V>>, flipped: seq<Declared<V>>, parse: V -> Option<W>, k: Pair)
    requires multiset(Normals(links)) == multiset(Normals(flipped))
    requires Acceptable(links, parse) && Acceptable(flipped, parse)
    ensures k in Table(flipped, parse) <==> k in Table(links, parse)
    ensures k in Table(links, parse) ==> Table(flipped, parse)[k] == Table(links, parse)[k]
  {
    hide KeyOf, Table;
    TableKeys(links, parse);
    TableKeys(flipped, parse);
    if k in Table(links, parse) {
      var l :| l in links && KeyOf(l.a, l.b) == k;
      var m := Counterpart(links, flipped, l);
      TableValues(links, parse, l);
      TableValues(flipped, parse, m);
    }
    if k in Table(flipped, parse) {
      var m :| m in flipped && KeyOf(m.a, m.b) == k;
      var l := Counterpart(flipped, links, m);
      TableValues(links, parse, l);
    }
  }
}
