/** The slope behind `sentiment_trajectory`: an ordinary least-squares fit of the
    scores against normalised position. */
module LeastSquares {
  import opened Sums

  /** Normalised positions `i / (n - 1)`. */
  function Positions(n: nat): (r: seq<real>)
    requires n >= 2
    ensures |r| == n
  {
    seq(n, i requires 0 <= i < n => i as real / (n - 1) as real)
  }

  function Mean(s: seq<real>): real
    requires s != []
  {
    Sum(s) / |s| as real
  }

  /** Deviations from the mean. */
  function Centred(s: seq<real>): (r: seq<real>)
    requires s != []
    ensures |r| == |s|
    ensures forall i :: 0 <= i < |s| ==> r[i] == s[i] - Mean(s)
  {
    var mean := Mean(s);
    seq(|s|, i requires 0 <= i < |s| => s[i] - mean)
  }

  function Numerator(ys: seq<real>): real
    requires |ys| >= 2
  {
    Dot(Centred(Positions(|ys|)), Centred(ys))
  }

  function Denominator(n: nat): real
    requires n >= 2
  {
    Dot(Centred(Positions(n)), Centred(Positions(n)))
  }

  /** The computed slope; `DenominatorClosedForm` is why the division is safe. */
  function Slope(ys: seq<real>): real
    requires |ys| >= 2
  {
    DenominatorClosedForm(|ys|);
    Numerator(ys) / Denominator(|ys|)
  }

  // ---- The denominator in closed form ---------------------------------------

  lemma CentredSumsToZero(s: seq<real>)
    requires s != []
    ensures Sum(Centred(s)) == 0.0
  {
    var shift := seq(|s|, i => -Mean(s));
    SumConstant(shift, -Mean(s));
    SumAdd(Centred(s), s, shift);
    QuotientTimes(Sum(s), |s| as real);
  }

  lemma SumOfQuotients(a: real, b: real, c: real)
    requires c != 0.0 && a + b == c
    ensures a / c + b / c == 1.0
  {
    QuotientTimes(a, c);
    QuotientTimes(b, c);
    Distribute(c, a / c, b / c);
    CancelFactor(a / c + b / c, 1.0, c);
  }

  lemma PairsSum(xs: seq<real>, back: seq<real>)
    requires |xs| == |back|
    requires forall i :: 0 <= i < |xs| ==> back[i] == xs[|xs| - 1 - i]
    requires forall i :: 0 <= i < |xs| ==> xs[i] + back[i] == 1.0
    ensures 2.0 * Sum(xs) == |xs| as real
  {
    hide Sum;
    var ones := seq(|xs|, i => 1.0);
    SumReversed(xs, back);
    SumConstant(ones, 1.0);
    SumAdd(ones, xs, back);
  }

  lemma MeanPosition(n: nat)
    requires n >= 2
    ensures Mean(Positions(n)) == 0.5
  {
    hide Sum;
    var xs := Positions(n);
    var back := seq(n, i requires 0 <= i < n => xs[n - 1 - i]);
    forall i | 0 <= i < n ensures xs[i] + back[i] == 1.0 {
      SumOfQuotients(i as real, (n - 1 - i) as real, (n - 1) as real);
    }
    PairsSum(xs, back);
    QuotientIs(Sum(xs), n as real, 0.5);
  }

  /** Twice the deviation of each index from the middle index. */
  function Ramp(n: nat): (r: seq<real>)
    ensures |r| == n
    ensures forall i :: 0 <= i < n ==> r[i] == 2.0 * i as real - (n as real - 1.0)
  {
    seq(n, i requires 0 <= i < n => 2.0 * i as real - (n as real - 1.0))
  }

  /** Deviations of the positions are the ramp, scaled by `2(n-1)`. */
  lemma RampIsScaledDeviation(n: nat, i: nat)
    requires i < n && n >= 2
    ensures Ramp(n)[i] == (2.0 * (n as real - 1.0)) * Centred(Positions(n))[i]
  {
    MeanPosition(n);
    QuotientTimes(i as real, (n - 1) as real);
    HalfDeviation(i as real, n as real - 1.0, Positions(n)[i], Centred(Positions(n))[i]);
  }

  lemma HalfDeviation(i: real, m: real, x: real, u: real)
    requires x * m == i && u == x - 0.5
    ensures 2.0 * i - m == (2.0 * m) * u
  {
  }

  lemma {:induction false} OddSquares(r: seq<real>, m: real)
    requires forall i :: 0 <= i < |r| ==> r[i] == 2.0 * i as real - m
    ensures var k := |r| as real;
            3.0 * Dot(r, r) == 2.0 * (k - 1.0) * k * (2.0 * k - 1.0) - 6.0 * m * k * (k - 1.0) + 3.0 * k * m * m
  {
    if |r| > 0 {
      var j := |r| - 1;
      OddSquares(r[..j], m);
      DotLast(r, r);
      OddSquaresStep(Dot(r[..j], r[..j]), j as real, m, r[j], Dot(r, r));
    }
  }

  lemma OddSquaresStep(total: real, j: real, m: real, last: real, after: real)
    requires last == 2.0 * j - m && after == total + Times(last, last)
    requires 3.0 * total == 2.0 * (j - 1.0) * j * (2.0 * j - 1.0) - 6.0 * m * j * (j - 1.0) + 3.0 * j * m * m
    ensures var k := j + 1.0;
            3.0 * after
            == 2.0 * (k - 1.0) * k * (2.0 * k - 1.0) - 6.0 * m * k * (k - 1.0) + 3.0 * k * m * m
  {
  }

  lemma RampSpread(n: nat)
    requires n >= 2
    ensures var N := n as real; 3.0 * Dot(Ramp(n), Ramp(n)) == N * (N - 1.0) * (N + 1.0)
  {
    OddSquares(Ramp(n), n as real - 1.0);
    RampSpreadTotal(n as real);
  }

  lemma RampSpreadTotal(N: real)
    ensures 2.0 * (N - 1.0) * N * (2.0 * N - 1.0) - 6.0 * (N - 1.0) * N * (N - 1.0) + 3.0 * N * (N - 1.0) * (N - 1.0)
            == N * (N - 1.0) * (N + 1.0)
  {
  }

  lemma RampDot(n: nat, ys: seq<real>)
    requires n >= 2 && |ys| == n
    ensures Dot(Ramp(n), ys) == (2.0 * (n as real - 1.0)) * Dot(Centred(Positions(n)), ys)
  {
    forall i | 0 <= i < n ensures Ramp(n)[i] == (2.0 * (n as real - 1.0)) * Centred(Positions(n))[i] {
      RampIsScaledDeviation(n, i);
    }
    DotScaled(Ramp(n), 2.0 * (n as real - 1.0), Centred(Positions(n)), ys);
  }

  /** The denominator depends on the length alone, and is positive at every length. */
  lemma DenominatorClosedForm(n: nat)
    requires n >= 2
    ensures var N := n as real; Denominator(n) == N * (N + 1.0) / (12.0 * (N - 1.0))
    ensures Denominator(n) > 0.0
  {
    hide Sum;
    hide Products;
    hide Centred;
    hide Positions;
    RampSpread(n);
    RampDot(n, Ramp(n));
    DotCommutes(Centred(Positions(n)), Ramp(n));
    RampDot(n, Centred(Positions(n)));
    Cleared(n as real, Dot(Ramp(n), Ramp(n)), Dot(Ramp(n), Centred(Positions(n))), Denominator(n));
  }

  lemma SpreadCleared(n: nat)
    requires n >= 2
    ensures Dot(Centred(Positions(n)), Centred(Positions(n))) * (12.0 * (n as real - 1.0)) == n as real * (n as real + 1.0)
  {
    DenominatorClosedForm(n);
    QuotientTimes(n as real * (n as real + 1.0), 12.0 * (n as real - 1.0));
  }

  lemma Cleared(N: real, spread: real, half: real, d: real)
    requires N >= 2.0
    requires 3.0 * spread == N * (N - 1.0) * (N + 1.0)
    requires spread == (2.0 * (N - 1.0)) * half
    requires half == (2.0 * (N - 1.0)) * d
    ensures d == N * (N + 1.0) / (12.0 * (N - 1.0))
    ensures d > 0.0
  {
    ClearedProduct(N, N - 1.0, spread, half, d);
    QuotientIs(N * (N + 1.0), 12.0 * (N - 1.0), d);
    ProductPositive(N, N + 1.0);
    if d <= 0.0 {
      ProductNonnegative(-d, 12.0 * (N - 1.0));
    }
  }

  lemma ClearedProduct(N: real, m: real, spread: real, half: real, d: real)
    requires m > 0.0
    requires 3.0 * spread == N * m * (N + 1.0) && spread == (2.0 * m) * half && half == (2.0 * m) * d
    ensures d * (12.0 * m) == N * (N + 1.0)
  {
    assert spread == (d * (4.0 * m)) * m;
    CancelFactor(d * (12.0 * m), N * (N + 1.0), m);
  }

  // ---- Residuals ------------------------------------------------------------

  function Intercept(ys: seq<real>): real
    requires |ys| >= 2
  {
    Mean(ys) - Slope(ys) * Mean(Positions(|ys|))
  }

  /** Height of score i over the line `intercept + slope * x`. */
  function Residual(ys: seq<real>, intercept: real, slope: real, i: nat): real
    requires |ys| >= 2 && i < |ys|
  {
    ys[i] - (intercept + slope * Positions(|ys|)[i])
  }

  function Residuals(ys: seq<real>, intercept: real, slope: real): (r: seq<real>)
    requires |ys| >= 2
    ensures |r| == |ys|
  {
    seq(|ys|, i requires 0 <= i < |ys| => Residual(ys, intercept, slope, i))
  }

  /** Sum of the squared residuals of a line. */
  function ResidualSum(ys: seq<real>, intercept: real, slope: real): real
    requires |ys| >= 2
  {
    Dot(Residuals(ys, intercept, slope), Residuals(ys, intercept, slope))
  }
}
