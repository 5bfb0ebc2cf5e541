/** The rolling sample window behind the published CPU and network rates. */
module Sampler {
  import opened Prelude

  /** A cumulative counter read at a monotonic time. */
  datatype Sample = Sample(t: real, count: int)

  ghost predicate TimesNeverDecrease(h: seq<Sample>) {
    forall i, j | 0 <= i < j < |h| :: h[i].t <= h[j].t
  }

  ghost predicate CountsNeverDecrease(h: seq<Sample>) {
    forall i, j | 0 <= i < j < |h| :: h[i].count <= h[j].count
  }

  ghost function FirstSince(h: seq<Sample>, cutoff: real): nat {
    if h == [] || h[0].t >= cutoff then 0 else 1 + FirstSince(h[1..], cutoff)
  }

  /** Where the window over a full history starts: at the first sample no older than `span`, but never
      past the last two. */
  ghost function WindowStart(h: seq<Sample>, span: real): (k: nat)
    ensures k <= |h|
  {
    if |h| <= 2 then 0
    else
      var first := FirstSince(h, h[|h| - 1].t - span);
      if first <= |h| - 2 then first else |h| - 2
  }

  lemma {:induction false} FirstSinceIs(h: seq<Sample>, cutoff: real)
    requires TimesNeverDecrease(h)
    ensures FirstSince(h, cutoff) <= |h|
    ensures forall i | 0 <= i < |h| :: h[i].t >= cutoff <==> i >= FirstSince(h, cutoff)
  {
    if h != [] && h[0].t < cutoff {
      FirstSinceIs(h[1..], cutoff);
      forall i | 0 <= i < |h|
        ensures h[i].t >= cutoff <==> i >= FirstSince(h, cutoff)
      {
        if i > 0 {
          assert h[i] == h[1..][i - 1];
        }
      }
    }
  }

  /** A sample is in the window exactly when it is recent enough or one of the last two. */
  lemma {:induction false} WindowMembers(h: seq<Sample>, span: real, i: nat)
    requires TimesNeverDecrease(h) && i < |h|
    ensures i >= WindowStart(h, span) <==> h[i].t >= h[|h| - 1].t - span || i + 2 >= |h|
  {
    if |h| > 2 {
      FirstSinceIs(h, h[|h| - 1].t - span);
    }
  }

  /** An incrementally pruned deque. `history` is every sample ever pushed. */
  class Window {
    const span: real
    var samples: seq<Sample>
    var published: Option<real>
    ghost var history: seq<Sample>

    ghost predicate Valid()
      reads this
    {
      TimesNeverDecrease(history) && samples == history[WindowStart(history, span)..]
    }

    constructor (span: real)
      ensures this.span == span && Valid() && history == [] && published == None
    {
      this.span, samples, published, history := span, [], None, [];
    }

    /** Append, then drop old samples from the front while more than two remain. */
    method Push(s: Sample)
      requires Valid() && (history != [] ==> history[|history| - 1].t <= s.t)
      modifies this`samples, this`history
      ensures Valid() && history == old(history) + [s]
    {
      hide WindowStart;
      ghost var start := WindowStart(history, span);
      ghost var before := history;
      history := history + [s];
      samples := samples + [s];
      StartAdvances(before, s, span);
      var cutoff := s.t - span;
      ghost var k := start;
      while |samples| > 2 && samples[0].t < cutoff
        invariant history == before + [s]
        invariant start <= k <= WindowStart(history, span)
        invariant samples == history[k..]
        decreases |samples|
      {
        WindowMembers(history, span, k);
        samples := samples[1..];
        k := k + 1;
      }
      if k < WindowStart(history, span) {
        WindowMembers(history, span, k);
      }
    }

    /** Oldest to newest over elapsed time, over the window of the history; no rate until two samples span a
        positive time. */
    method Rate() returns (r: Option<real>)
      requires Valid()
      ensures var w := history[WindowStart(history, span)..];
              && (r.Some? <==> |w| >= 2 && w[0].t < w[|w| - 1].t)
              && (r.Some? ==> AveragesOver(w, r.value))
    {
      assert samples == history[WindowStart(history, span)..];
      hide *;
      r := None;
      if |samples| >= 2 {
        var first, last := samples[0], samples[|samples| - 1];
        if last.t > first.t {
          r := Some((last.count - first.count) as real / (last.t - first.t));
          RateIsWithinBounds(samples, r.value);
        }
      }
    }

    /** Publish the window's rate; when the window spans no time the previous one is published again. */
    method Publish() returns (gauge: Option<real>)
      requires Valid()
      modifies this`published
      ensures Valid() && gauge == published
      ensures var w := history[WindowStart(history, span)..];
              if |w| >= 2 && w[0].t < w[|w| - 1].t then gauge.Some? && AveragesOver(w, gauge.value)
              else gauge == old(published)
    {
      hide WindowStart, AveragesOver;
      var rate := Rate();
      if rate.Some? {
        published := rate;
      }
      gauge := published;
    }
  }

  /** Pushing a later sample never moves the start of the window back. */
  lemma StartAdvances(h: seq<Sample>, s: Sample, span: real)
    requires TimesNeverDecrease(h) && (h != [] ==> h[|h| - 1].t <= s.t)
    ensures TimesNeverDecrease(h + [s])
    ensures WindowStart(h, span) <= WindowStart(h + [s], span)
  {
    var all := h + [s];
    var start := WindowStart(h, span);
    if start > 0 {
      WindowMembers(h, span, start - 1);
      WindowMembers(all, span, start - 1);
    }
  }

  // ---- the rate and the intervals of the window ----

  /** Every interval gains at least what rate lo gives; over an interval of no time that is nothing. */
  ghost predicate GainsAtLeast(w: seq<Sample>, lo: real) {
    forall i, j | 0 <= i && j == i + 1 < |w| :: Times(lo, w[j].t - w[i].t) <= (w[j].count - w[i].count) as real
  }

  ghost predicate GainsAtMost(w: seq<Sample>, hi: real) {
    forall i, j | 0 <= i && j == i + 1 < |w| :: (w[j].count - w[i].count) as real <= Times(hi, w[j].t - w[i].t)
  }

  /** The rate accounts for everything counted over the window, is not negative when the counter never goes
      back, and keeps every bound that all the intervals keep. */
  ghost predicate AveragesOver(w: seq<Sample>, rate: real)
    requires w != []
  {
    && rate * (w[|w| - 1].t - w[0].t) == (w[|w| - 1].count - w[0].count) as real
    && (CountsNeverDecrease(w) ==> rate >= 0.0)
    && (forall lo :: GainsAtLeast(w, lo) ==> lo <= rate)
    && (forall hi :: GainsAtMost(w, hi) ==> rate <= hi)
  }

  lemma {:induction false} TotalGain(w: seq<Sample>, k: real)
    requires w != []
    ensures GainsAtLeast(w, k) ==> Times(k, w[|w| - 1].t - w[0].t) <= (w[|w| - 1].count - w[0].count) as real
    ensures GainsAtMost(w, k) ==> (w[|w| - 1].count - w[0].count) as real <= Times(k, w[|w| - 1].t - w[0].t)
  {
    var n := |w| - 1;
    if n > 0 {
      TotalGain(w[..n], k);
      TimesPlus(k, w[n - 1].t - w[0].t, w[n].t - w[n - 1].t);
    }
    hide Times;
  }

  /** The quotient over the whole window lies between any bounds on its intervals, so between the slowest and
      the fastest of them. */
  lemma {:induction false} RateIsWithinBounds(w: seq<Sample>, rate: real)
    requires |w| >= 2 && w[0].t < w[|w| - 1].t
    requires rate == (w[|w| - 1].count - w[0].count) as real / (w[|w| - 1].t - w[0].t)
    ensures AveragesOver(w, rate)
  {
    var gained, elapsed := (w[|w| - 1].count - w[0].count) as real, w[|w| - 1].t - w[0].t;
    RateTimesElapsed(gained, elapsed);
    forall k
      ensures GainsAtLeast(w, k) ==> k <= rate
      ensures GainsAtMost(w, k) ==> rate <= k
    {
      TotalGain(w, k);
      TimesOrder(elapsed, k, rate);
      TimesOrder(elapsed, rate, k);
    }
  }

  lemma RateTimesElapsed(gained: real, elapsed: real)
    requires elapsed > 0.0
    ensures Times(gained / elapsed, elapsed) == gained
    ensures gained >= 0.0 ==> gained / elapsed >= 0.0
  {
  }

  function Gained(w: seq<Sample>, i: nat): real
    requires i + 1 < |w|
  {
    (w[i + 1].count - w[i].count) as real
  }

  function Elapsed(w: seq<Sample>, i: nat): real
    requires i + 1 < |w|
  {
    w[i + 1].t - w[i].t
  }

  function IntervalRate(w: seq<Sample>, i: nat): real
    requires i + 1 < |w| && w[i].t < w[i + 1].t
  {
    Gained(w, i) / Elapsed(w, i)
  }

  lemma {:induction false} SlowInterval(w: seq<Sample>, r: real) returns (i: nat)
    requires |w| >= 2
    requires (w[|w| - 1].count - w[0].count) as real <= Times(r, w[|w| - 1].t - w[0].t)
    ensures i + 1 < |w| && Gained(w, i) <= Times(r, Elapsed(w, i))
  {
    var n := |w| - 1;
    if Gained(w, n - 1) <= Times(r, Elapsed(w, n - 1)) {
      i := n - 1;
    } else {
      TimesPlus(r, w[n - 1].t - w[0].t, w[n].t - w[n - 1].t);
      assert (w[n].count - w[n - 1].count) as real > Times(r, w[n].t - w[n - 1].t);
      if n == 1 {
        assert false;
      }
      i := SlowInterval(w[..n], r);
    }
  }

  lemma {:induction false} FastInterval(w: seq<Sample>, r: real) returns (i: nat)
    requires |w| >= 2
    requires (w[|w| - 1].count - w[0].count) as real >= Times(r, w[|w| - 1].t - w[0].t)
    ensures i + 1 < |w| && Gained(w, i) >= Times(r, Elapsed(w, i))
  {
    var n := |w| - 1;
    if Gained(w, n - 1) >= Times(r, Elapsed(w, n - 1)) {
      i := n - 1;
    } else {
      TimesPlus(r, w[n - 1].t - w[0].t, w[n].t - w[n - 1].t);
      assert (w[n].count - w[n - 1].count) as real < Times(r, w[n].t - w[n - 1].t);
      if n == 1 {
        assert false;
      }
      i := FastInterval(w[..n], r);
    }
  }

  /** When the clock advances between samples, the rate lies between those of two intervals. */
  lemma {:induction false} RateIsBetweenIntervals(w: seq<Sample>, rate: real) returns (slow: nat, fast: nat)
    requires |w| >= 2 && forall i, j | 0 <= i < j < |w| :: w[i].t < w[j].t
    requires rate == (w[|w| - 1].count - w[0].count) as real / (w[|w| - 1].t - w[0].t)
    ensures slow + 1 < |w| && IntervalRate(w, slow) <= rate
    ensures fast + 1 < |w| && rate <= IntervalRate(w, fast)
  {
    var gained, elapsed := (w[|w| - 1].count - w[0].count) as real, w[|w| - 1].t - w[0].t;
    RateTimesElapsed(gained, elapsed);
    slow := SlowInterval(w, rate);
    fast := FastInterval(w, rate);
    RateTimesElapsed(Gained(w, slow), Elapsed(w, slow));
    RateTimesElapsed(Gained(w, fast), Elapsed(w, fast));
    TimesOrder(Elapsed(w, slow), IntervalRate(w, slow), rate);
    TimesOrder(Elapsed(w, fast), rate, IntervalRate(w, fast));
  }
}
