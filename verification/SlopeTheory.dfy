/** What the trajectory slope means: it belongs to the unique best line, it points
    the way the scores move, and its size is bounded at every length. */
module SlopeTheory {
  import opened Sums
  import opened LeastSquares

  // ---- Least squares --------------------------------------------------------

  /** Height of a line over the centre of the data. */
  function Offset(ys: seq<real>, intercept: real, slope: real): real
    requires |ys| >= 2
  {
    intercept + slope * Mean(Positions(|ys|)) - Mean(ys)
  }

  /** Residuals of the line of this slope through the centre of the data. */
  function CentredResiduals(ys: seq<real>, slope: real): (r: seq<real>)
    requires |ys| >= 2
    ensures |r| == |ys|
  {
    seq(|ys|, i requires 0 <= i < |ys| => Centred(ys)[i] - slope * Centred(Positions(|ys|))[i])
  }

  lemma ResidualFromCentre(y: real, x: real, xm: real, ym: real, v: real, u: real, a: real, b: real, c: real, one: real)
    requires v == y - ym && u == x - xm && c == a + b * xm - ym && one == 1.0
    ensures y - (a + b * x) == (v - b * u) - c * one
  {
  }

  lemma CentredResidualsSumToZero(ys: seq<real>, slope: real, ones: seq<real>)
    requires |ys| == |ones| >= 2 && forall i :: 0 <= i < |ys| ==> ones[i] == 1.0
    ensures Dot(CentredResiduals(ys, slope), ones) == 0.0
  {
    var u, v := Centred(Positions(|ys|)), Centred(ys);
    CentredSumsToZero(Positions(|ys|));
    CentredSumsToZero(ys);
    DotWithOnes(u, ones);
    DotWithOnes(v, ones);
    DotDifference(CentredResiduals(ys, slope), v, slope, u, ones);
    SameFactor(slope, Dot(u, ones), 0.0);
  }

  lemma ResidualsFromCentre(ys: seq<real>, a: real, b: real, ones: seq<real>)
    requires |ys| == |ones| >= 2 && forall i :: 0 <= i < |ys| ==> ones[i] == 1.0
    ensures forall i :: 0 <= i < |ys| ==>
              Residuals(ys, a, b)[i] == CentredResiduals(ys, b)[i] - Offset(ys, a, b) * ones[i]
  {
    hide Mean;
    hide Positions;
    var xs := Positions(|ys|);
    forall i | 0 <= i < |ys|
      ensures Residuals(ys, a, b)[i] == CentredResiduals(ys, b)[i] - Offset(ys, a, b) * ones[i]
    {
      ResidualFromCentre(ys[i], xs[i], Mean(xs), Mean(ys), Centred(ys)[i], Centred(xs)[i], a, b,
                         Offset(ys, a, b), ones[i]);
    }
  }

  /** Moving a line off the centre adds the square of the move, once per score. */
  lemma OffsetCost(ys: seq<real>, a: real, b: real)
    requires |ys| >= 2
    ensures ResidualSum(ys, a, b)
            == Dot(CentredResiduals(ys, b), CentredResiduals(ys, b)) + Square(Offset(ys, a, b)) * |ys| as real
  {
    hide Sum;
    hide Products;
    hide Dot;
    hide Offset;
    hide Residuals;
    hide CentredResiduals;
    var ones := seq(|ys|, i => 1.0);
    ResidualsFromCentre(ys, a, b, ones);
    CentredResidualsSumToZero(ys, b, ones);
    Pythagoras(Residuals(ys, a, b), CentredResiduals(ys, b), Offset(ys, a, b), ones);
    DotWithOnes(ones, ones);
    SumConstant(ones, 1.0);
    SameFactor(Square(Offset(ys, a, b)), Dot(ones, ones), |ys| as real);
  }

  /** The normal equation: what the computed slope leaves is orthogonal to position. */
  lemma NormalEquation(ys: seq<real>)
    requires |ys| >= 2
    ensures Dot(CentredResiduals(ys, Slope(ys)), Centred(Positions(|ys|))) == 0.0
  {
    var u := Centred(Positions(|ys|));
    SlopeTimesDenominator(ys);
    DotDifference(CentredResiduals(ys, Slope(ys)), Centred(ys), Slope(ys), u, u);
    DotCommutes(u, Centred(ys));
  }

  /** Turning a line away from the computed slope adds the square of the turn. */
  lemma TurnCost(ys: seq<real>, b: real)
    requires |ys| >= 2
    ensures Dot(CentredResiduals(ys, b), CentredResiduals(ys, b))
            == Dot(CentredResiduals(ys, Slope(ys)), CentredResiduals(ys, Slope(ys)))
               + Square(b - Slope(ys)) * Dot(Centred(Positions(|ys|)), Centred(Positions(|ys|)))
  {
    hide Sum;
    hide Products;
    hide Slope;
    hide Centred;
    hide Positions;
    var u, v := Centred(Positions(|ys|)), Centred(ys);
    NormalEquation(ys);
    forall i | 0 <= i < |ys|
      ensures CentredResiduals(ys, b)[i] == CentredResiduals(ys, Slope(ys))[i] - (b - Slope(ys)) * u[i]
    {
      Turned(v[i], b, Slope(ys), u[i]);
    }
    Pythagoras(CentredResiduals(ys, b), CentredResiduals(ys, Slope(ys)), b - Slope(ys), u);
  }

  lemma Turned(v: real, b: real, beta: real, u: real)
    ensures v - b * u == (v - beta * u) - (b - beta) * u
  {
  }

  lemma SlopeTimesDenominator(ys: seq<real>)
    requires |ys| >= 2
    ensures Slope(ys) * Dot(Centred(Positions(|ys|)), Centred(Positions(|ys|)))
            == Dot(Centred(Positions(|ys|)), Centred(ys))
    ensures Dot(Centred(Positions(|ys|)), Centred(Positions(|ys|))) > 0.0
  {
    DenominatorClosedForm(|ys|);
    QuotientTimes(Numerator(ys), Denominator(|ys|));
    SameFactor(Slope(ys), Denominator(|ys|), Dot(Centred(Positions(|ys|)), Centred(Positions(|ys|))));
  }

  lemma ScaledSquare(x: real, scale: real)
    requires scale > 0.0
    ensures Square(x) * scale >= 0.0
    ensures Square(x) * scale == 0.0 <==> x == 0.0
  {
    if x != 0.0 {
      ProductPositive(Square(x), scale);
    }
  }

  /** The computed line has the least residual sum, and every other line a greater one. */
  lemma LeastSquaresOptimal(ys: seq<real>, intercept: real, slope: real)
    requires |ys| >= 2
    ensures ResidualSum(ys, Intercept(ys), Slope(ys)) <= ResidualSum(ys, intercept, slope)
    ensures ResidualSum(ys, Intercept(ys), Slope(ys)) == ResidualSum(ys, intercept, slope)
            <==> intercept == Intercept(ys) && slope == Slope(ys)
  {
    OptimalUpToOffset(ys, intercept, slope);
    SameLine(intercept, slope, Intercept(ys), Slope(ys), Mean(Positions(|ys|)), Mean(ys));
  }

  lemma OptimalUpToOffset(ys: seq<real>, a: real, b: real)
    requires |ys| >= 2
    ensures ResidualSum(ys, Intercept(ys), Slope(ys)) <= ResidualSum(ys, a, b)
    ensures ResidualSum(ys, Intercept(ys), Slope(ys)) == ResidualSum(ys, a, b)
            <==> b == Slope(ys) && Offset(ys, a, b) == 0.0
  {
    SlopeTimesDenominator(ys);
    OffsetCost(ys, Intercept(ys), Slope(ys));
    ScaledSquare(Offset(ys, Intercept(ys), Slope(ys)), |ys| as real);
    assert Offset(ys, Intercept(ys), Slope(ys)) == 0.0;
    OffsetCost(ys, a, b);
    TurnCost(ys, b);
    ScaledSquare(Offset(ys, a, b), |ys| as real);
    ScaledSquare(b - Slope(ys), Dot(Centred(Positions(|ys|)), Centred(Positions(|ys|))));
  }

  lemma SameLine(a: real, b: real, a': real, b': real, xm: real, ym: real)
    requires a' == ym - b' * xm
    ensures b == b' ==> (a + b * xm - ym == 0.0 <==> a == a')
  {
  }

  /** Scores that lie on a line have that line's slope, at every length. */
  lemma ExactLine(ys: seq<real>, a: real, b: real)
    requires |ys| >= 2
    requires forall i :: 0 <= i < |ys| ==> ys[i] == a + b * Positions(|ys|)[i]
    ensures Slope(ys) == b && Intercept(ys) == a
  {
    var exact := Residuals(ys, a, b);
    forall i | 0 <= i < |ys| ensures exact[i] == 0.0 {
      assert Residual(ys, a, b, i) == 0.0;
    }
    DotScaled(exact, 0.0, exact, exact);
    DotSelfNonnegative(Residuals(ys, Intercept(ys), Slope(ys)));
    LeastSquaresOptimal(ys, a, b);
  }

  lemma DotSelfNonnegative(s: seq<real>)
    ensures Dot(s, s) >= 0.0
  {
    forall i | 0 <= i < |s| ensures 0.0 <= Products(s, s)[i] {
      ProductNonnegative(s[i], s[i]);
    }
    SumNonnegative(Products(s, s));
  }

  // ---- The slope as one weighted sum ----------------------------------------

  /** No spread to divide by: the slope is a fixed integer combination of the
      scores, over `n(n+1)`. */
  lemma SlopeIsRampSum(ys: seq<real>)
    requires |ys| >= 2
    ensures var n := |ys| as real; Slope(ys) * (n * (n + 1.0)) == 6.0 * Dot(Ramp(|ys|), ys)
  {
    hide *;
    var u := Centred(Positions(|ys|));
    RampDot(|ys|, ys);
    CentredSumsToZero(Positions(|ys|));
    DotShifted(u, ys, Mean(ys), Centred(ys));
    SameFactor(Mean(ys), Sum(u), 0.0);
    SpreadCleared(|ys|);
    SlopeTimesDenominator(ys);
    ClearedSlope(Slope(ys), Dot(u, u), |ys| as real - 1.0, Dot(u, ys), Dot(Ramp(|ys|), ys),
                 |ys| as real * (|ys| as real + 1.0));
  }

  lemma ClearedSlope(beta: real, D: real, m: real, num: real, ramp: real, N: real)
    requires beta * D == num && D * (12.0 * m) == N && ramp == (2.0 * m) * num
    ensures beta * N == 6.0 * ramp
  {
  }

  lemma RampSumsToZero(n: nat)
    requires n >= 2
    ensures Sum(Ramp(n)) == 0.0
  {
    CentredSumsToZero(Positions(n));
    forall i | 0 <= i < n ensures Ramp(n)[i] == (2.0 * (n as real - 1.0)) * Centred(Positions(n))[i] {
      RampIsScaledDeviation(n, i);
    }
    SumScaled(Ramp(n), 2.0 * (n as real - 1.0), Centred(Positions(n)));
    SameFactor(2.0 * (n as real - 1.0), Sum(Centred(Positions(n))), 0.0);
  }

  lemma OppositeSlopes(ys: seq<real>, zs: seq<real>)
    requires |ys| >= 2 && |zs| == |ys|
    requires Dot(Ramp(|ys|), zs) == -Dot(Ramp(|ys|), ys)
    ensures Slope(zs) == -Slope(ys)
  {
    hide *;
    SlopeIsRampSum(ys);
    SlopeIsRampSum(zs);
    ProductPositive(|ys| as real, |ys| as real + 1.0);
    CancelFactor(Slope(zs), -Slope(ys), |ys| as real * (|ys| as real + 1.0));
  }

  lemma SignOfFactor(a: real, f: real, p: real)
    requires f > 0.0 && a * f == p
    ensures a > 0.0 <==> p > 0.0
    ensures a < 0.0 <==> p < 0.0
  {
    if a > 0.0 {
      ProductPositive(a, f);
    } else if a < 0.0 {
      ProductPositive(-a, f);
    }
  }

  lemma SlopeSign(ys: seq<real>)
    requires |ys| >= 2
    ensures Slope(ys) > 0.0 <==> Dot(Ramp(|ys|), ys) > 0.0
    ensures Slope(ys) < 0.0 <==> Dot(Ramp(|ys|), ys) < 0.0
  {
    hide *;
    SlopeIsRampSum(ys);
    ProductPositive(|ys| as real, |ys| as real + 1.0);
    SignOfFactor(Slope(ys), |ys| as real * (|ys| as real + 1.0), 6.0 * Dot(Ramp(|ys|), ys));
  }

  // ---- Direction ------------------------------------------------------------

  ghost predicate Nondecreasing(ys: seq<real>) {
    forall i, j :: 0 <= i <= j < |ys| ==> ys[i] <= ys[j]
  }

  ghost predicate Nonincreasing(ys: seq<real>) {
    forall i, j :: 0 <= i <= j < |ys| ==> ys[i] >= ys[j]
  }

  ghost predicate Constant(ys: seq<real>) {
    forall i, j :: 0 <= i < |ys| && 0 <= j < |ys| ==> ys[i] == ys[j]
  }

  lemma SameSignDot(a: seq<real>, b: seq<real>, k: nat)
    requires |a| == |b| && k < |a|
    requires forall i :: 0 <= i < |a| ==> (a[i] <= 0.0 && b[i] <= 0.0) || (0.0 <= a[i] && 0.0 <= b[i])
    requires a[k] != 0.0 && b[k] != 0.0
    ensures Dot(a, b) > 0.0
  {
    forall i | 0 <= i < |a| ensures 0.0 <= Products(a, b)[i] {
      ProductNonnegative(a[i], b[i]);
    }
    SumNonnegative(Products(a, b));
    ProductPositive(a[k], b[k]);
    assert Products(a, b)[k] > 0.0;
  }

  /** Scores that only rise, and rise somewhere, have a positive ramp sum:
      measured from the middle score, both factors of every term agree in sign. */
  lemma RisingRamp(ys: seq<real>)
    requires |ys| >= 2 && Nondecreasing(ys) && !Constant(ys)
    ensures Dot(Ramp(|ys|), ys) > 0.0
  {
    hide Sum;
    hide Products;
    var n, h := |ys|, (|ys| - 1) / 2;
    var moved := seq(n, i requires 0 <= i < n => ys[i] - ys[h]);
    RampSumsToZero(n);
    DotShifted(Ramp(n), ys, ys[h], moved);
    SameFactor(ys[h], Sum(Ramp(n)), 0.0);
    assert ys[0] < ys[n - 1];
    SameSignDot(Ramp(n), moved, if ys[0] < ys[h] then 0 else n - 1);
  }

  function Negated(ys: seq<real>): (r: seq<real>)
    ensures |r| == |ys|
  {
    seq(|ys|, i requires 0 <= i < |ys| => -ys[i])
  }

  lemma NegatedScores(ys: seq<real>)
    requires |ys| >= 2
    ensures Dot(Ramp(|ys|), Negated(ys)) == -Dot(Ramp(|ys|), ys)
    ensures Slope(Negated(ys)) == -Slope(ys)
  {
    DotCommutes(Ramp(|ys|), ys);
    DotCommutes(Ramp(|ys|), Negated(ys));
    DotScaled(Negated(ys), -1.0, ys, Ramp(|ys|));
    OppositeSlopes(ys, Negated(ys));
  }

  /** The slope has the sign of the change: up, down, or none at all. */
  lemma DirectionIsRight(ys: seq<real>)
    requires |ys| >= 2
    ensures Constant(ys) ==> Slope(ys) == 0.0
    ensures Nondecreasing(ys) && !Constant(ys) ==> Slope(ys) > 0.0
    ensures Nonincreasing(ys) && !Constant(ys) ==> Slope(ys) < 0.0
  {
    if Constant(ys) {
      ExactLine(ys, ys[0], 0.0);
    } else if Nondecreasing(ys) {
      RisingRamp(ys);
      SlopeSign(ys);
    } else if Nonincreasing(ys) {
      var flipped := Negated(ys);
      assert Nondecreasing(flipped);
      assert !Constant(flipped) by {
        var i, j :| 0 <= i < |ys| && 0 <= j < |ys| && ys[i] != ys[j];
        assert flipped[i] != flipped[j];
      }
      RisingRamp(flipped);
      NegatedScores(ys);
      SlopeSign(ys);
    }
  }

  lemma ReversedRamp(ys: seq<real>, back: seq<real>)
    requires |ys| >= 2 && |back| == |ys|
    requires forall i :: 0 <= i < |ys| ==> back[i] == ys[|ys| - 1 - i]
    ensures Dot(Ramp(|ys|), back) == -Dot(Ramp(|ys|), ys)
  {
    var r := Ramp(|ys|);
    SumReversed(Products(r, ys), Products(Negated(r), back));
    DotScaled(Negated(r), -1.0, r, back);
  }

  /** Read backwards, a conversation has exactly the opposite slope. */
  lemma ReversedScores(ys: seq<real>, back: seq<real>)
    requires |ys| >= 2 && |back| == |ys|
    requires forall i :: 0 <= i < |ys| ==> back[i] == ys[|ys| - 1 - i]
    ensures Slope(back) == -Slope(ys)
  {
    ReversedRamp(ys, back);
    OppositeSlopes(ys, back);
  }

  // ---- Size -----------------------------------------------------------------

  ghost predicate UnitRange(ys: seq<real>) {
    forall i :: 0 <= i < |ys| ==> -1.0 <= ys[i] <= 1.0
  }

  /** The scores that climb as hard as scores can: all bad, then all good. */
  function Leap(n: nat): (r: seq<real>)
    ensures |r| == n
  {
    seq(n, i => if i < n / 2 then -1.0 else 1.0)
  }

  /** The steepest slope scores in [-1, 1] can have at length n. */
  function Steepest(n: nat): real
    requires n >= 2
  {
    var h := n / 2;
    12.0 * (h as real * (n - h) as real) / (n as real * (n as real + 1.0))
  }

  lemma {:induction false} AbsoluteRamp(n: nat, a: seq<real>)
    requires |a| <= n
    requires forall i :: 0 <= i < |a| ==>
               a[i] == if i < n / 2 then (n as real - 1.0) - 2.0 * i as real else 2.0 * i as real - (n as real - 1.0)
    ensures var k, h, N := |a| as real, (n / 2) as real, n as real;
            Sum(a) == if |a| <= n / 2 then k * (N - k) else h * (N - h) + (k - h) * (k + h - N)
  {
    if |a| > 0 {
      AbsoluteRamp(n, a[..|a| - 1]);
      AbsoluteStep((|a| - 1) as real, (n / 2) as real, n as real);
    }
  }

  lemma AbsoluteStep(k: real, h: real, N: real)
    ensures k * (N - k) + ((N - 1.0) - 2.0 * k) == (k + 1.0) * (N - (k + 1.0))
    ensures (k - h) * (k + h - N) + (2.0 * k - (N - 1.0)) == (k + 1.0 - h) * (k + 1.0 + h - N)
    ensures k == h ==> k * (N - k) == h * (N - h) + (k - h) * (k + h - N)
  {
  }

  /** The step sequence collects every deviation with a positive sign. */
  lemma LeapRampSum(n: nat)
    requires n >= 2
    ensures Dot(Ramp(n), Leap(n)) == 2.0 * ((n / 2) as real * (n - n / 2) as real)
  {
    AbsoluteRamp(n, Products(Ramp(n), Leap(n)));
    DoubledHalf((n / 2) as real, n as real);
    assert (n - n / 2) as real == n as real - (n / 2) as real;
  }

  lemma DoubledHalf(h: real, N: real)
    ensures h * (N - h) + (N - h) * (N + h - N) == 2.0 * (h * (N - h))
  {
  }

  lemma RampSumAtMost(ys: seq<real>)
    requires |ys| >= 2 && UnitRange(ys)
    ensures Dot(Ramp(|ys|), ys) <= Dot(Ramp(|ys|), Leap(|ys|))
  {
    var n := |ys|;
    forall i | 0 <= i < n ensures Products(Ramp(n), ys)[i] <= Products(Ramp(n), Leap(n))[i] {
      if i < n / 2 {
        ProductNonnegative(Ramp(n)[i], -1.0 - ys[i]);
      } else {
        ProductNonnegative(Ramp(n)[i], 1.0 - ys[i]);
      }
    }
    SumMonotone(Products(Ramp(n), ys), Products(Ramp(n), Leap(n)));
  }

  lemma LeapIsSteepest(n: nat)
    requires n >= 2
    ensures Slope(Leap(n)) == Steepest(n)
  {
    hide Sum;
    hide Products;
    hide Slope;
    SlopeIsRampSum(Leap(n));
    LeapRampSum(n);
    ProductPositive(n as real, n as real + 1.0);
    QuotientIs(12.0 * ((n / 2) as real * (n - n / 2) as real), n as real * (n as real + 1.0), Slope(Leap(n)));
  }

  lemma OrderedSlopes(ys: seq<real>, zs: seq<real>)
    requires |ys| == |zs| >= 2
    requires Dot(Ramp(|ys|), ys) <= Dot(Ramp(|ys|), zs)
    ensures Slope(ys) <= Slope(zs)
  {
    hide *;
    SlopeIsRampSum(ys);
    SlopeIsRampSum(zs);
    ProductPositive(|ys| as real, |ys| as real + 1.0);
    OrderedFactors(Slope(ys), Slope(zs), |ys| as real * (|ys| as real + 1.0));
  }

  /** Sharp at every length: no scores in [-1, 1] are steeper than the step, either
      way; the bound is `3n/(n+1)` for even n, and always under 3. */
  lemma SharpSlopeBound(ys: seq<real>)
    requires |ys| >= 2 && UnitRange(ys)
    ensures -Steepest(|ys|) <= Slope(ys) <= Steepest(|ys|)
    ensures UnitRange(Leap(|ys|)) && Slope(Leap(|ys|)) == Steepest(|ys|)
    ensures Steepest(|ys|) <= 3.0 * |ys| as real / (|ys| as real + 1.0) < 3.0
    ensures |ys| % 2 == 0 ==> Steepest(|ys|) == 3.0 * |ys| as real / (|ys| as real + 1.0)
  {
    var n := |ys|;
    LeapIsSteepest(n);
    RampSumAtMost(ys);
    OrderedSlopes(ys, Leap(n));
    NegatedScores(ys);
    RampSumAtMost(Negated(ys));
    OrderedSlopes(Negated(ys), Leap(n));
    SteepestSize(n);
  }

  lemma SteepestSize(n: nat)
    requires n >= 2
    ensures Steepest(n) <= 3.0 * n as real / (n as real + 1.0) < 3.0
    ensures n % 2 == 0 ==> Steepest(n) == 3.0 * n as real / (n as real + 1.0)
  {
    var N, h, q := n as real, (n / 2) as real, 3.0 * n as real / (n as real + 1.0);
    assert (n - n / 2) as real == N - h;
    HalfProduct(N, h);
    ProductPositive(N, N + 1.0);
    QuotientTimes(12.0 * (h * (N - h)), N * (N + 1.0));
    QuotientTimes(3.0 * N, N + 1.0);
    ThreeTimes(q, N);
    assert Steepest(n) * (N * (N + 1.0)) <= q * (N * (N + 1.0));
    OrderedFactors(Steepest(n), q, N * (N + 1.0));
    OrderedFactors(q, 3.0, N + 1.0);
    if n % 2 == 0 {
      assert 2.0 * h == N;
      assert 12.0 * (h * (N - h)) == 3.0 * (N * N);
      CancelFactor(Steepest(n), q, N * (N + 1.0));
    }
  }

  lemma HalfProduct(N: real, h: real)
    ensures 12.0 * (h * (N - h)) <= 3.0 * (N * N)
  {
    assert 3.0 * (N * N) - 12.0 * (h * (N - h)) == 3.0 * Square(N - 2.0 * h);
  }

  lemma ThreeTimes(q: real, N: real)
    requires q * (N + 1.0) == 3.0 * N
    ensures q * (N * (N + 1.0)) == 3.0 * (N * N)
    ensures q != 3.0
  {
  }
}
