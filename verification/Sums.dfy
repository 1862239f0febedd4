/** Finite sums of reals, the arithmetic both metrics are built from.
    Products of two unknowns are handled in lemmas of their own, one identity each. */
module Sums {

  function Sum(s: seq<real>): real {
    if |s| == 0 then 0.0 else Sum(s[..|s| - 1]) + s[|s| - 1]
  }

  function Times(a: real, b: real): real {
    a * b
  }

  /** Pointwise products, the summands of a weighted sum. */
  function Products(w: seq<real>, y: seq<real>): (r: seq<real>)
    requires |w| == |y|
  {
    seq(|w|, i requires 0 <= i < |w| => Times(w[i], y[i]))
  }

  function Dot(w: seq<real>, y: seq<real>): real
    requires |w| == |y|
  {
    Sum(Products(w, y))
  }

  function Pow(d: real, k: nat): real {
    if k == 0 then 1.0 else d * Pow(d, k - 1)
  }

  // ---- Products of reals ----------------------------------------------------

  lemma ProductPositive(a: real, b: real)
    requires (0.0 < a && 0.0 < b) || (a < 0.0 && b < 0.0)
    ensures 0.0 < a * b
  {
  }

  lemma ProductNonnegative(a: real, b: real)
    requires (0.0 <= a && 0.0 <= b) || (a <= 0.0 && b <= 0.0)
    ensures 0.0 <= a * b
  {
  }

  lemma ProductMonotone(w: real, x: real, y: real)
    requires 0.0 <= w && x <= y
    ensures w * x <= w * y
  {
    ProductNonnegative(w, y - x);
  }

  lemma Distribute(a: real, x: real, y: real)
    ensures a * (x + y) == a * x + a * y
  {
  }

  lemma SameFactor(a: real, x: real, y: real)
    requires x == y
    ensures a * x == a * y
  {
  }

  lemma CancelFactor(a: real, b: real, f: real)
    requires f != 0.0 && a * f == b * f
    ensures a == b
  {
    assert (a - b) * f == 0.0;
  }

  lemma QuotientIs(a: real, b: real, q: real)
    requires b != 0.0 && q * b == a
    ensures a / b == q
  {
  }

  lemma QuotientTimes(a: real, b: real)
    requires b != 0.0
    ensures (a / b) * b == a
  {
  }

  // ---- Sums -----------------------------------------------------------------

  lemma SumLast(s: seq<real>)
    requires s != []
    ensures Sum(s) == Sum(s[..|s| - 1]) + s[|s| - 1]
  {
  }

  lemma SumEmpty(s: seq<real>)
    requires |s| == 0
    ensures Sum(s) == 0.0
  {
  }

  lemma {:induction false} SumAppend(s: seq<real>, t: seq<real>)
    ensures Sum(s + t) == Sum(s) + Sum(t)
  {
    if |t| == 0 {
      assert s + t == s;
    } else {
      SumAppend(s, t[..|t| - 1]);
      assert (s + t)[..|s + t| - 1] == s + t[..|t| - 1];
    }
  }

  lemma {:induction false} SumAdd(r: seq<real>, s: seq<real>, t: seq<real>)
    requires |r| == |s| == |t|
    requires forall i :: 0 <= i < |r| ==> r[i] == s[i] + t[i]
    ensures Sum(r) == Sum(s) + Sum(t)
  {
    if |r| > 0 {
      SumAdd(r[..|r| - 1], s[..|s| - 1], t[..|t| - 1]);
    }
  }

  lemma {:induction false} SumScaled(r: seq<real>, a: real, s: seq<real>)
    requires |r| == |s|
    requires forall i :: 0 <= i < |r| ==> r[i] == a * s[i]
    ensures Sum(r) == a * Sum(s)
  {
    if |r| > 0 {
      var n := |r| - 1;
      SumScaled(r[..n], a, s[..n]);
      Distribute(a, Sum(s[..n]), s[n]);
    }
  }

  lemma {:induction false} SumConstant(s: seq<real>, c: real)
    requires forall i :: 0 <= i < |s| ==> s[i] == c
    ensures Sum(s) == |s| as real * c
  {
    if |s| > 0 {
      SumConstant(s[..|s| - 1], c);
      Distribute(c, (|s| - 1) as real, 1.0);
    }
  }

  lemma {:induction false} SumMonotone(s: seq<real>, t: seq<real>)
    requires |s| == |t|
    requires forall i :: 0 <= i < |s| ==> s[i] <= t[i]
    ensures Sum(s) <= Sum(t)
  {
    if |s| > 0 {
      SumMonotone(s[..|s| - 1], t[..|t| - 1]);
    }
  }

  lemma {:induction false} SumNonnegative(s: seq<real>)
    requires forall i :: 0 <= i < |s| ==> 0.0 <= s[i]
    ensures 0.0 <= Sum(s)
    ensures forall k :: 0 <= k < |s| ==> s[k] <= Sum(s)
  {
    if |s| > 0 {
      var front := s[..|s| - 1];
      SumNonnegative(front);
      assert forall k :: 0 <= k < |front| ==> s[k] == front[k];
    }
  }

  lemma {:induction false} SumUpdate(s: seq<real>, k: nat, v: real)
    requires k < |s|
    ensures Sum(s[k := v]) == Sum(s) - s[k] + v
  {
    var n := |s| - 1;
    if k == n {
      assert s[k := v][..n] == s[..n];
    } else {
      SumUpdate(s[..n], k, v);
      assert s[k := v][..n] == s[..n][k := v];
    }
  }

  lemma {:induction false} SumReversed(s: seq<real>, t: seq<real>)
    requires |s| == |t|
    requires forall i :: 0 <= i < |s| ==> t[i] == s[|s| - 1 - i]
    ensures Sum(s) == Sum(t)
  {
    if |s| > 0 {
      var n := |s| - 1;
      SumReversed(s[..n], t[1..]);
      assert t == t[..1] + t[1..];
      SumAppend(t[..1], t[1..]);
      assert Sum(t[..1]) == Sum(t[..1][..0]) + t[0];
    }
  }

  // ---- Weighted sums --------------------------------------------------------

  lemma DotLast(a: seq<real>, b: seq<real>)
    requires |a| == |b| > 0
    ensures var n := |a| - 1; Dot(a, b) == Dot(a[..n], b[..n]) + Times(a[n], b[n])
  {
    hide Times;
    var n := |a| - 1;
    assert Products(a, b)[..n] == Products(a[..n], b[..n]);
  }

  lemma DotEmpty(a: seq<real>, b: seq<real>)
    requires |a| == |b| == 0
    ensures Dot(a, b) == 0.0
  {
  }

  lemma DotCommutes(a: seq<real>, b: seq<real>)
    requires |a| == |b|
    ensures Dot(a, b) == Dot(b, a)
  {
    forall i | 0 <= i < |a| ensures Times(a[i], b[i]) == Times(b[i], a[i]) {
    }
    assert Products(a, b) == Products(b, a);
  }

  lemma {:induction false} DotScaled(c: seq<real>, k: real, u: seq<real>, y: seq<real>)
    requires |c| == |u| == |y|
    requires forall i :: 0 <= i < |c| ==> c[i] == k * u[i]
    ensures Dot(c, y) == k * Dot(u, y)
  {
    hide *;
    if |c| > 0 {
      var n := |c| - 1;
      DotScaled(c[..n], k, u[..n], y[..n]);
      DotLast(c, y);
      DotLast(u, y);
      ScaledStep(k, Dot(u[..n], y[..n]), c[n], u[n], y[n], Dot(u, y));
    } else {
      DotEmpty(c, y);
      DotEmpty(u, y);
    }
  }

  lemma ScaledStep(k: real, before: real, c: real, u: real, y: real, after: real)
    requires c == k * u && after == before + Times(u, y)
    ensures k * before + Times(c, y) == k * after
  {
  }

  /** Moving all values by one amount moves the sum by that amount of weight. */
  lemma {:induction false} DotShifted(u: seq<real>, y: seq<real>, shift: real, moved: seq<real>)
    requires |u| == |y| == |moved|
    requires forall i :: 0 <= i < |u| ==> moved[i] == y[i] - shift
    ensures Dot(u, moved) == Dot(u, y) - shift * Sum(u)
  {
    hide *;
    if |u| > 0 {
      var n := |u| - 1;
      SumLast(u);
      DotShifted(u[..n], y[..n], shift, moved[..n]);
      DotLast(u, moved);
      DotLast(u, y);
      ShiftedStep(Sum(u[..n]), u[n], y[n], moved[n], shift, Sum(u));
    } else {
      DotEmpty(u, moved);
      DotEmpty(u, y);
      SumEmpty(u);
    }
  }

  lemma ShiftedStep(s: real, u: real, y: real, moved: real, shift: real, s': real)
    requires moved == y - shift && s' == s + u
    ensures -(shift * s) + Times(u, moved) == Times(u, y) - shift * s'
  {
  }

  lemma {:induction false} DotDifference(z: seq<real>, x: seq<real>, t: real, y: seq<real>, w: seq<real>)
    requires |z| == |x| == |y| == |w|
    requires forall i :: 0 <= i < |z| ==> z[i] == x[i] - t * y[i]
    ensures Dot(z, w) == Dot(x, w) - t * Dot(y, w)
  {
    hide *;
    if |z| > 0 {
      var n := |z| - 1;
      var z', x', y', w' := z[..n], x[..n], y[..n], w[..n];
      assert forall i :: 0 <= i < n ==> z'[i] == z[i] && x'[i] == x[i] && y'[i] == y[i];
      DotDifference(z', x', t, y', w');
      DotLast(z, w);
      DotLast(x, w);
      DotLast(y, w);
      DifferenceStep(Dot(z', w'), Dot(x', w'), Dot(y', w'), z[n], x[n], t, y[n], w[n], Dot(z, w), Dot(x, w), Dot(y, w));
    } else {
      DotEmpty(z, w);
      DotEmpty(x, w);
      DotEmpty(y, w);
    }
  }

  lemma DifferenceStep(zw: real, xw: real, yw: real, z: real, x: real, t: real, y: real, w: real,
                       zw': real, xw': real, yw': real)
    requires zw == xw - t * yw && z == x - t * y
    requires zw' == zw + Times(z, w) && xw' == xw + Times(x, w) && yw' == yw + Times(y, w)
    ensures zw' == xw' - t * yw'
  {
    DifferenceProduct(z, x, t, y, w);
    DistributeTimes(t, yw, Times(y, w), yw');
  }

  lemma DifferenceProduct(z: real, x: real, t: real, y: real, w: real)
    requires z == x - t * y
    ensures Times(z, w) == Times(x, w) - t * Times(y, w)
  {
  }

  lemma DistributeTimes(t: real, a: real, b: real, c: real)
    requires c == a + b
    ensures t * c == t * a + t * b
  {
  }

  lemma {:induction false} DotMonotone(w: seq<real>, x: seq<real>, y: seq<real>)
    requires |w| == |x| == |y|
    requires forall i :: 0 <= i < |w| ==> 0.0 <= w[i] && x[i] <= y[i]
    ensures Dot(w, x) <= Dot(w, y)
  {
    hide *;
    if |w| > 0 {
      var n := |w| - 1;
      DotMonotone(w[..n], x[..n], y[..n]);
      DotLast(w, x);
      DotLast(w, y);
      TimesMonotone(w[n], x[n], y[n]);
    } else {
      DotEmpty(w, x);
      DotEmpty(w, y);
    }
  }

  lemma TimesMonotone(w: real, x: real, y: real)
    requires 0.0 <= w && x <= y
    ensures Times(w, x) <= Times(w, y)
  {
    ProductMonotone(w, x, y);
  }

  lemma DotUpdate(w: seq<real>, y: seq<real>, k: nat, v: real)
    requires |w| == |y| && k < |w|
    ensures Dot(w, y[k := v]) == Dot(w, y) - Times(w[k], y[k]) + Times(w[k], v)
  {
    hide Times;
    hide Sum;
    assert Products(w, y[k := v]) == Products(w, y)[k := Times(w[k], v)];
    SumUpdate(Products(w, y), k, Times(w[k], v));
  }

  // ---- Orthogonality --------------------------------------------------------

  lemma TimesPositive(a: real, b: real)
    requires (0.0 < a && 0.0 < b) || (a < 0.0 && b < 0.0)
    ensures Times(a, b) > 0.0
  {
    ProductPositive(a, b);
  }

  function Square(e: real): (r: real)
    ensures r >= 0.0
    ensures e != 0.0 ==> r > 0.0
  {
    if e == 0.0 then 0.0 else TimesPositive(e, e); Times(e, e)
  }

  lemma OrthogonalStep(z: seq<real>, x: seq<real>, t: real, y: seq<real>)
    requires |z| == |x| == |y|
    requires forall i :: 0 <= i < |z| ==> z[i] == x[i] - t * y[i]
    requires Dot(x, y) == 0.0
    ensures Dot(x, z) == Dot(x, x)
    ensures Dot(y, z) == -t * Dot(y, y)
  {
    DotDifference(z, x, t, y, x);
    DotCommutes(x, y);
    SameFactor(t, Dot(y, x), 0.0);
    DotCommutes(x, z);
    DotDifference(z, x, t, y, y);
    DotCommutes(y, z);
  }

  /** Pythagoras: a step along an orthogonal direction adds its own square. */
  lemma Pythagoras(z: seq<real>, x: seq<real>, t: real, y: seq<real>)
    requires |z| == |x| == |y|
    requires forall i :: 0 <= i < |z| ==> z[i] == x[i] - t * y[i]
    requires Dot(x, y) == 0.0
    ensures Dot(z, z) == Dot(x, x) + Square(t) * Dot(y, y)
  {
    hide *;
    DotDifference(z, x, t, y, z);
    OrthogonalStep(z, x, t, y);
    PythagorasStep(Dot(z, z), Dot(x, z), Dot(y, z), Dot(y, y), t);
  }

  lemma PythagorasStep(zz: real, xz: real, yz: real, yy: real, t: real)
    requires zz == xz - t * yz && yz == -t * yy
    ensures zz == xz + Square(t) * yy
  {
  }

  // ---- Powers ---------------------------------------------------------------

  lemma {:induction false} PowPositive(d: real, k: nat)
    requires 0.0 < d
    ensures 0.0 < Pow(d, k)
  {
    if k > 0 {
      PowPositive(d, k - 1);
      ProductPositive(d, Pow(d, k - 1));
    }
  }

  /** Powers of a factor in (0, 1] shrink as the exponent grows. */
  lemma {:induction false} PowAntitone(d: real, j: nat, k: nat)
    requires 0.0 < d <= 1.0 && j <= k
    ensures Pow(d, k) <= Pow(d, j)
  {
    if j < k {
      PowAntitone(d, j, k - 1);
      PowPositive(d, k - 1);
      ProductNonnegative(1.0 - d, Pow(d, k - 1));
    }
  }

  lemma OrderedFactors(a: real, b: real, f: real)
    requires f > 0.0 && a * f <= b * f
    ensures a <= b
  {
    if b < a {
      ProductPositive(a - b, f);
    }
  }

  lemma DotWithOnes(s: seq<real>, ones: seq<real>)
    requires |s| == |ones| && forall i :: 0 <= i < |s| ==> ones[i] == 1.0
    ensures Dot(s, ones) == Sum(s)
  {
    forall i | 0 <= i < |s| ensures Products(s, ones)[i] == s[i] {
      SameFactor(s[i], ones[i], 1.0);
    }
    assert Products(s, ones) == s;
  }
}
