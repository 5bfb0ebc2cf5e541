/** The least-squares calibration fit. */
module Fit {
  import opened Prelude

  datatype Point = Point(x: real, y: real)

  datatype Line = Line(a: real, b: real, r2: real)

  function SumX(ps: seq<Point>): real {
    if ps == [] then 0.0 else SumX(ps[..|ps| - 1]) + ps[|ps| - 1].x
  }

  function SumY(ps: seq<Point>): real {
    if ps == [] then 0.0 else SumY(ps[..|ps| - 1]) + ps[|ps| - 1].y
  }

  function SumXX(ps: seq<Point>): real {
    if ps == [] then 0.0 else SumXX(ps[..|ps| - 1]) + ps[|ps| - 1].x * ps[|ps| - 1].x
  }

  function SumXY(ps: seq<Point>): real {
    if ps == [] then 0.0 else SumXY(ps[..|ps| - 1]) + ps[|ps| - 1].x * ps[|ps| - 1].y
  }

  function Square(v: real): real { v * v }

  function Residual(p: Point, a: real, b: real): real {
    p.y - (a * p.x + b)
  }

  /** The squared error of the line y = a*x + b. */
  function SquaredError(ps: seq<Point>, a: real, b: real): real {
    if ps == [] then 0.0
    else SquaredError(ps[..|ps| - 1], a, b) + Square(Residual(ps[|ps| - 1], a, b))
  }

  function Denominator(ps: seq<Point>): real {
    |ps| as real * SumXX(ps) - SumX(ps) * SumX(ps)
  }

  function Fit(ps: seq<Point>): Line {
    if ps == [] then Line(0.0, 0.0, 0.0)
    else
      var n := |ps| as real;
      var denom := Denominator(ps);
      if denom == 0.0 then Line(0.0, SumY(ps) / n, 0.0)
      else
        var a := (n * SumXY(ps) - SumX(ps) * SumY(ps)) / denom;
        var b := (SumY(ps) - a * SumX(ps)) / n;
        var total, rest := SquaredError(ps, 0.0, SumY(ps) / n), SquaredError(ps, a, b);
        Line(a, b, if total > 0.0 then 1.0 - rest / total else 1.0)
  }

  // ---- sums of residuals ----


  ghost function ResidualSum(ps: seq<Point>, a: real, b: real): real {
    if ps == [] then 0.0 else ResidualSum(ps[..|ps| - 1], a, b) + Residual(ps[|ps| - 1], a, b)
  }

  ghost function WeightedResidualSum(ps: seq<Point>, a: real, b: real): real {
    if ps == [] then 0.0
    else WeightedResidualSum(ps[..|ps| - 1], a, b) + Times(ps[|ps| - 1].x, Residual(ps[|ps| - 1], a, b))
  }

  lemma {:induction false} ResidualSums(ps: seq<Point>, a: real, b: real)
    ensures ResidualSum(ps, a, b) == SumY(ps) - Times(a, SumX(ps)) - Times(b, |ps| as real)
    ensures WeightedResidualSum(ps, a, b) == SumXY(ps) - Times(a, SumXX(ps)) - Times(b, SumX(ps))
  {
    if ps != [] {
      var front, p := ps[..|ps| - 1], ps[|ps| - 1];
      ResidualSums(front, a, b);
      ResidualParts(p, a, b);
      TimesPlus(a, SumX(front), p.x);
      TimesPlus(b, |front| as real, 1.0);
      TimesPlus(a, SumXX(front), p.x * p.x);
      TimesPlus(b, SumX(front), p.x);
      hide Times, Residual;
      assert |ps| as real == |front| as real + 1.0;
    } else {
      assert Times(a, 0.0) == 0.0 && Times(b, 0.0) == 0.0;
    }
  }

  lemma ResidualParts(p: Point, a: real, b: real)
    ensures Residual(p, a, b) == p.y - Times(a, p.x) - Times(b, 1.0)
    ensures Times(p.x, Residual(p, a, b)) == p.x * p.y - Times(a, p.x * p.x) - Times(b, p.x)
  {
    assert p.x * (p.y - (a * p.x + b)) == p.x * p.y - a * (p.x * p.x) - b * p.x;
  }

  /** The sum of squared differences between two lines over the points. */
  ghost function LineDistance(ps: seq<Point>, d: real, e: real): (r: real)
    ensures r >= 0.0
  {
    if ps == [] then 0.0
    else
      SquareNonNegative(Times(d, ps[|ps| - 1].x) + e);
      LineDistance(ps[..|ps| - 1], d, e) + Square(Times(d, ps[|ps| - 1].x) + e)
  }

  lemma TimesPositive(k: real, u: real)
    requires k > 0.0 && u > 0.0
    ensures Times(k, u) > 0.0
  {
  }

  lemma SquareIsTimes(v: real)
    ensures Square(v) == Times(v, v) == Times(-v, -v)
  {
  }

  lemma SquareNonNegative(v: real)
    ensures Square(v) >= 0.0
    ensures Square(v) == 0.0 ==> v == 0.0
  {
    if v != 0.0 {
      hide Times, Square;
      var w := if v > 0.0 then v else -v;
      SquareIsTimes(v);
      TimesPositive(w, w);
    }
  }

  lemma ResidualShift(p: Point, a: real, b: real, d: real, e: real)
    ensures Square(Residual(p, a - d, b - e)) ==
            Square(Residual(p, a, b)) + Times(2.0 * d, Times(p.x, Residual(p, a, b))) +
                Times(2.0 * e, Residual(p, a, b))
            + Square(Times(d, p.x) + e)
  {
    var r, s := Residual(p, a, b), d * p.x + e;
    assert Residual(p, a - d, b - e) == r + s by {
      assert (a - d) * p.x == a * p.x - d * p.x;
    }
    assert Square(r + s) == Square(r) + 2.0 * (r * s) + Square(s);
    assert r * s == d * (p.x * r) + e * r;
  }

  /** The error of any line in terms of another line's error and residual sums. */
  lemma {:induction false} ErrorShift(ps: seq<Point>, a: real, b: real, d: real, e: real)
    ensures SquaredError(ps, a - d, b - e) ==
            SquaredError(ps, a, b) + Times(2.0 * d, WeightedResidualSum(ps, a, b)) +
                Times(2.0 * e, ResidualSum(ps, a, b))
            + LineDistance(ps, d, e)
  {
    hide Times, Square, Residual;
    if ps == [] {
      ZeroTimes(2.0 * d);
      ZeroTimes(2.0 * e);
    } else {
      var front, p := ps[..|ps| - 1], ps[|ps| - 1];
      ErrorShift(front, a, b, d, e);
      ResidualShift(p, a, b, d, e);
      TimesPlus(2.0 * d, WeightedResidualSum(front, a, b), Times(p.x, Residual(p, a, b)));
      TimesPlus(2.0 * e, ResidualSum(front, a, b), Residual(p, a, b));
    }
  }

  lemma ZeroTimes(k: real)
    ensures Times(k, 0.0) == 0.0
  {
  }

  /** With both residual sums zero, the gap to any other line is the squared distance of the lines. */
  lemma {:induction false} NormalEquations(ps: seq<Point>, a: real, b: real, a': real, b': real)
    requires ResidualSum(ps, a, b) == 0.0 && WeightedResidualSum(ps, a, b) == 0.0
    ensures SquaredError(ps, a', b') == SquaredError(ps, a, b) + LineDistance(ps, a - a', b - b')
  {
    hide Times, Square;
    ErrorShift(ps, a, b, a - a', b - b');
    ZeroTimes(2.0 * (a - a'));
    ZeroTimes(2.0 * (b - b'));
  }

  // ---- the denominator ----

  ghost predicate SameX(ps: seq<Point>) {
    forall p, q | p in ps && q in ps :: p.x == q.x
  }

  ghost function Spread(ps: seq<Point>, c: real): real {
    if ps == [] then 0.0 else Spread(ps[..|ps| - 1], c) + Square(ps[|ps| - 1].x - c)
  }

  lemma {:induction false} SpreadSums(ps: seq<Point>, c: real)
    ensures Spread(ps, c) == SumXX(ps) - Times(2.0 * c, SumX(ps)) + Times(c * c, |ps| as real)
  {
    if ps != [] {
      var front, p := ps[..|ps| - 1], ps[|ps| - 1];
      SpreadSums(front, c);
      TimesPlus(2.0 * c, SumX(front), p.x);
      TimesPlus(c * c, |front| as real, 1.0);
      assert Square(p.x - c) == p.x * p.x - Times(2.0 * c, p.x) + Times(c * c, 1.0);
      hide Times, Square;
      assert |ps| as real == |front| as real + 1.0;
    } else {
      assert Times(2.0 * c, 0.0) == 0.0 && Times(c * c, 0.0) == 0.0;
    }
  }

  lemma {:induction false} SpreadZero(ps: seq<Point>, c: real)
    ensures Spread(ps, c) >= 0.0
    ensures Spread(ps, c) == 0.0 <==> forall p | p in ps :: p.x == c
  {
    if ps != [] {
      var front, p := ps[..|ps| - 1], ps[|ps| - 1];
      SpreadZero(front, c);
      SquareNonNegative(p.x - c);
      assert p.x == c ==> Square(p.x - c) == 0.0;
      assert ps == front + [p];
    }
  }

  /** n times the spread around the mean. */
  lemma {:induction false} DenominatorIsSpread(ps: seq<Point>)
    requires ps != []
    ensures Denominator(ps) == |ps| as real * Spread(ps, SumX(ps) / |ps| as real)
  {
    hide Times, SumX, SumXX, Spread;
    var n, sx, sxx := |ps| as real, SumX(ps), SumXX(ps);
    var c := sx / n;
    Divided(sx, n);
    SpreadSums(ps, c);
    MeanSpread(n, c, sx, sxx, Spread(ps, c));
  }

  lemma MeanSpread(n: real, c: real, sx: real, sxx: real, spread: real)
    requires n * c == sx
    requires spread == sxx - Times(2.0 * c, sx) + Times(c * c, n)
    ensures n * sxx - sx * sx == n * spread
  {
    assert n * Times(2.0 * c, sx) == 2.0 * (n * c) * sx;
    assert n * Times(c * c, n) == (n * c) * (n * c);
  }

  /** The slope cannot be fitted exactly when all x are equal. */
  lemma {:induction false} DenominatorZero(ps: seq<Point>)
    ensures Denominator(ps) == 0.0 <==> SameX(ps)
  {
    if ps != [] {
      var n := |ps| as real;
      var c := SumX(ps) / n;
      DenominatorIsSpread(ps);
      SpreadZero(ps, c);
      assert n > 0.0;
      assert n * Spread(ps, c) == 0.0 <==> Spread(ps, c) == 0.0;
      if SameX(ps) {
        SameXSum(ps, ps[0].x);
        assert c == ps[0].x;
      }
    }
  }

  lemma {:induction false} SameXSum(ps: seq<Point>, x: real)
    requires forall p | p in ps :: p.x == x
    ensures SumX(ps) == |ps| as real * x
  {
    if ps != [] {
      SameXSum(ps[..|ps| - 1], x);
      assert ps[|ps| - 1] in ps;
    }
  }

  // ---- the fit ----

  ghost predicate IsBestLine(ps: seq<Point>, a: real, b: real) {
    forall a', b' :: SquaredError(ps, a, b) <= SquaredError(ps, a', b')
  }

  lemma BestAgainst(ps: seq<Point>, a: real, b: real, a': real, b': real)
    requires IsBestLine(ps, a, b)
    ensures SquaredError(ps, a, b) <= SquaredError(ps, a', b')
  {
  }

  lemma BestByNormalEquations(ps: seq<Point>, a: real, b: real)
    requires ResidualSum(ps, a, b) == 0.0 && WeightedResidualSum(ps, a, b) == 0.0
    ensures IsBestLine(ps, a, b)
  {
    forall a', b'
      ensures SquaredError(ps, a, b) <= SquaredError(ps, a', b')
    {
      NormalEquations(ps, a, b, a', b');
    }
  }

  /** The general branch solves both normal equations. */
  lemma SlopeSolvesNormalEquations(ps: seq<Point>)
    requires Denominator(ps) != 0.0
    ensures ps != []
    ensures ResidualSum(ps, Fit(ps).a, Fit(ps).b) == 0.0 && WeightedResidualSum(ps, Fit(ps).a, Fit(ps).b) == 0.0
  {
    hide Times, SumX, SumY, SumXX, SumXY, SquaredError, ResidualSum, WeightedResidualSum;
    assert ps != [] by {
      NoPointsNoDenominator(ps);
    }
    var n := |ps| as real;
    var a, b := Slope(n, SumX(ps), SumY(ps), SumXX(ps), SumXY(ps));
    assert a == Fit(ps).a && b == Fit(ps).b;
    ResidualSums(ps, a, b);
  }

  lemma NoPointsNoDenominator(ps: seq<Point>)
    ensures ps == [] ==> Denominator(ps) == 0.0
  {
  }

  lemma Slope(n: real, sx: real, sy: real, sxx: real, sxy: real) returns (a: real, b: real)
    requires n > 0.0 && n * sxx - sx * sx != 0.0
    ensures a == (n * sxy - sx * sy) / (n * sxx - sx * sx)
    ensures b == (sy - a * sx) / n
    ensures sy - Times(a, sx) - Times(b, n) == 0.0
    ensures sxy - Times(a, sxx) - Times(b, sx) == 0.0
  {
    a := (n * sxy - sx * sy) / (n * sxx - sx * sx);
    b := (sy - a * sx) / n;
    Divided(n * sxy - sx * sy, n * sxx - sx * sx);
    Divided(sy - a * sx, n);
    SolveNormalEquations(n, sx, sy, sxx, sxy, a, b);
  }

  lemma SolveNormalEquations(n: real, sx: real, sy: real, sxx: real, sxy: real, a: real, b: real)
    requires n > 0.0
    requires (n * sxx - sx * sx) * a == n * sxy - sx * sy
    requires n * b == sy - a * sx
    ensures sy - Times(a, sx) - Times(b, n) == 0.0
    ensures sxy - Times(a, sxx) - Times(b, sx) == 0.0
  {
    var rest := sxy - a * sxx - b * sx;
    assert n * rest == n * sxy - a * (n * sxx) - (n * b) * sx;
    assert (n * b) * sx == sy * sx - a * (sx * sx);
    assert n * rest == 0.0;
  }

  /** With all x equal, the mean of y makes the residuals cancel. */
  lemma MeanSolvesNormalEquations(ps: seq<Point>)
    requires ps != [] && SameX(ps)
    ensures ResidualSum(ps, 0.0, SumY(ps) / |ps| as real) == 0.0
    ensures WeightedResidualSum(ps, 0.0, SumY(ps) / |ps| as real) == 0.0
  {
    var n := |ps| as real;
    var b := SumY(ps) / n;
    Divided(SumY(ps), n);
    ResidualSums(ps, 0.0, b);
    assert Times(0.0, SumX(ps)) == 0.0;
    WeightedBySameX(ps, ps[0].x, 0.0, b);
    ZeroTimes(ps[0].x);
  }

  lemma {:induction false} WeightedBySameX(ps: seq<Point>, x: real, a: real, b: real)
    requires forall p | p in ps :: p.x == x
    ensures WeightedResidualSum(ps, a, b) == Times(x, ResidualSum(ps, a, b))
  {
    if ps == [] {
      ZeroTimes(x);
    } else {
      var front, p := ps[..|ps| - 1], ps[|ps| - 1];
      WeightedBySameX(front, x, a, b);
      TimesPlus(x, ResidualSum(front, a, b), Residual(p, a, b));
      assert p in ps;
      hide Times, Residual;
    }
  }

  /** In every branch, with no assumption on the points, the fit minimises the squared error over all lines. */
  lemma {:induction false} FitIsBest(ps: seq<Point>)
    ensures IsBestLine(ps, Fit(ps).a, Fit(ps).b)
  {
    if ps != [] {
      DenominatorZero(ps);
      if Denominator(ps) == 0.0 {
        MeanSolvesNormalEquations(ps);
      } else {
        SlopeSolvesNormalEquations(ps);
      }
      BestByNormalEquations(ps, Fit(ps).a, Fit(ps).b);
    }
  }

  lemma {:induction false} DistanceZero(ps: seq<Point>, d: real, e: real)
    ensures LineDistance(ps, d, e) == 0.0 <==> forall p | p in ps :: d * p.x + e == 0.0
  {
    if ps != [] {
      var front, p := ps[..|ps| - 1], ps[|ps| - 1];
      DistanceZero(front, d, e);
      SquareNonNegative(Times(d, p.x) + e);
      assert Times(d, p.x) == d * p.x;
      assert Times(d, p.x) + e == 0.0 ==> Square(Times(d, p.x) + e) == 0.0;
      hide Square, Times;
      assert ps == front + [p];
    }
  }

  lemma TwoPointsFixLine(ps: seq<Point>, d: real, e: real)
    requires !SameX(ps)
    requires forall p | p in ps :: d * p.x + e == 0.0
    ensures d == 0.0 && e == 0.0
  {
    var p, q :| p in ps && q in ps && p.x != q.x;
    assert d * (p.x - q.x) == 0.0;
  }

  /** With two distinct x, the fit is the only minimiser. */
  lemma {:induction false} FitIsUniqueBest(ps: seq<Point>, a: real, b: real)
    requires !SameX(ps) && IsBestLine(ps, a, b)
    ensures a == Fit(ps).a && b == Fit(ps).b
  {
    hide *;
    var f := Fit(ps);
    DenominatorZero(ps);
    SlopeSolvesNormalEquations(ps);
    FitIsBest(ps);
    BestAgainst(ps, a, b, f.a, f.b);
    BestAgainst(ps, f.a, f.b, a, b);
    NormalEquations(ps, f.a, f.b, a, b);
    DistanceZero(ps, f.a - a, f.b - b);
    TwoPointsFixLine(ps, f.a - a, f.b - b);
  }

  lemma {:induction false} ErrorNonNegative(ps: seq<Point>, a: real, b: real)
    ensures SquaredError(ps, a, b) >= 0.0
  {
    if ps != [] {
      ErrorNonNegative(ps[..|ps| - 1], a, b);
      SquareNonNegative(Residual(ps[|ps| - 1], a, b));
    }
  }

  lemma RatioBounds(rest: real, total: real)
    requires 0.0 <= rest <= total && total > 0.0
    ensures 0.0 <= rest / total <= 1.0
  {
  }

  /** R squared never leaves [0, 1]. */
  lemma {:induction false} RSquaredBounds(ps: seq<Point>)
    ensures 0.0 <= Fit(ps).r2 <= 1.0
  {
    if ps != [] && Denominator(ps) != 0.0 {
      var f := Fit(ps);
      var mean := SumY(ps) / |ps| as real;
      FitIsBest(ps);
      assert SquaredError(ps, f.a, f.b) <= SquaredError(ps, 0.0, mean);
      ErrorNonNegative(ps, f.a, f.b);
      if SquaredError(ps, 0.0, mean) > 0.0 {
        RatioBounds(SquaredError(ps, f.a, f.b), SquaredError(ps, 0.0, mean));
      }
    }
  }

  lemma {:induction false} ExactLineError(ps: seq<Point>, a: real, b: real)
    requires forall p | p in ps :: p.y == a * p.x + b
    ensures SquaredError(ps, a, b) == 0.0
  {
    if ps != [] {
      ExactLineError(ps[..|ps| - 1], a, b);
      assert ps[|ps| - 1] in ps;
      assert Residual(ps[|ps| - 1], a, b) == 0.0;
    }
  }

  /** Points on a line with two distinct x give that line back, with R squared 1. */
  lemma {:induction false} FitRecoversLine(ps: seq<Point>, a: real, b: real)
    requires !SameX(ps) && forall p | p in ps :: p.y == a * p.x + b
    ensures Fit(ps) == Line(a, b, 1.0)
  {
    ExactLineError(ps, a, b);
    forall a', b'
      ensures SquaredError(ps, a, b) <= SquaredError(ps, a', b')
    {
      ErrorNonNegative(ps, a', b');
    }
    FitIsUniqueBest(ps, a, b);
    DenominatorZero(ps);
  }

  // ---- what R squared is ----

  ghost predicate SameY(ps: seq<Point>) {
    forall p, q | p in ps && q in ps :: p.y == q.y
  }

  lemma {:induction false} SameYSum(ps: seq<Point>, y: real)
    requires forall p | p in ps :: p.y == y
    ensures SumY(ps) == |ps| as real * y
  {
    if ps != [] {
      SameYSum(ps[..|ps| - 1], y);
      assert |ps| as real * y == |ps[..|ps| - 1]| as real * y + y;
    }
  }

  lemma ShareLeft(r2: real, rest: real, total: real)
    requires total > 0.0 && r2 == 1.0 - rest / total
    ensures Times(1.0 - r2, total) == rest
  {
    assert 1.0 - r2 == rest / total;
  }

  lemma FittedSquare(ps: seq<Point>)
    requires ps != [] && Denominator(ps) != 0.0
    ensures var line, mean := Fit(ps), SumY(ps) / |ps| as real;
            var total, rest := SquaredError(ps, 0.0, mean), SquaredError(ps, line.a, line.b);
            line.r2 == if total > 0.0 then 1.0 - rest / total else 1.0
  {
  }

  /** With two distinct x, one minus R squared is the fitted line's share of the error that the mean of y leaves;
      without
      them, and without points, R squared is 0. */
  lemma {:induction false} RSquaredIsTheShareExplained(ps: seq<Point>)
    ensures !SameX(ps) ==>
              ps != [] &&
              Times(1.0 - Fit(ps).r2, SquaredError(ps, 0.0, SumY(ps) / |ps| as real)) ==
                  SquaredError(ps, Fit(ps).a, Fit(ps).b)
    ensures !SameX(ps) && SameY(ps) ==> Fit(ps).r2 == 1.0
    ensures ps == [] || SameX(ps) ==> Fit(ps).r2 == 0.0
  {
    DenominatorZero(ps);
    if !SameX(ps) {
      var mean, line := SumY(ps) / |ps| as real, Fit(ps);
      var total, rest := SquaredError(ps, 0.0, mean), SquaredError(ps, line.a, line.b);
      FittedSquare(ps);
      FitIsBest(ps);
      BestAgainst(ps, line.a, line.b, 0.0, mean);
      ErrorNonNegative(ps, 0.0, mean);
      ErrorNonNegative(ps, line.a, line.b);
      if SameY(ps) {
        var y := ps[0].y;
        assert forall p | p in ps :: p.y == y by {
          assert ps[0] in ps;
        }
        SameYMean(ps, y);
        ExactLineError(ps, 0.0, y);
      }
      hide Fit, SquaredError, SumY, SameX, Denominator, IsBestLine;
      if total > 0.0 {
        ShareLeft(line.r2, rest, total);
      } else {
        assert Times(0.0, total) == 0.0;
      }
    }
  }

  lemma SameYMean(ps: seq<Point>, y: real)
    requires ps != [] && forall p | p in ps :: p.y == y
    ensures SumY(ps) / |ps| as real == y
  {
    SameYSum(ps, y);
    var n := |ps| as real;
    assert SumY(ps) == Times(n, y);
    hide SumY, Times;
    Quotient(n, y, SumY(ps));
  }
}
