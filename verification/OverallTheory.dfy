/** What the overall score means: a weighted mean whose weights grow towards the end
    of the conversation and with the confidence of the turn. */
module OverallTheory {
  import opened Config
  import opened Sums
  import opened Metrics

  ghost predicate Confident(pairs: seq<Pair>) {
    forall i :: 0 <= i < |pairs| ==> 0.0 <= pairs[i].confidence
  }

  lemma WeightAt(pairs: seq<Pair>, decay: Decay, i: nat)
    requires i < |pairs|
    ensures 0.0 <= pairs[i].confidence ==> 0.0 <= Weights(pairs, decay)[i]
    ensures 0.0 < pairs[i].confidence ==> 0.0 < Weights(pairs, decay)[i]
  {
    var power := Pow(decay, |pairs| - 1 - i);
    PowPositive(decay, |pairs| - 1 - i);
    if 0.0 < pairs[i].confidence {
      ProductPositive(power, pairs[i].confidence);
    } else if pairs[i].confidence == 0.0 {
      SameFactor(power, pairs[i].confidence, 0.0);
    }
  }

  lemma WeightsNonnegative(pairs: seq<Pair>, decay: Decay)
    requires Confident(pairs)
    ensures forall i :: 0 <= i < |pairs| ==> 0.0 <= Weights(pairs, decay)[i]
    ensures 0.0 <= Sum(Weights(pairs, decay))
  {
    forall i | 0 <= i < |pairs| ensures 0.0 <= Weights(pairs, decay)[i] {
      WeightAt(pairs, decay, i);
    }
    SumNonnegative(Weights(pairs, decay));
  }

  // ---- A mean ---------------------------------------------------------------

  lemma DotConstant(w: seq<real>, y: seq<real>, c: real)
    requires |w| == |y| && forall i :: 0 <= i < |y| ==> y[i] == c
    ensures Dot(w, y) == c * Sum(w)
  {
    hide Sum;
    forall i | 0 <= i < |w| ensures Products(w, y)[i] == c * w[i] {
      SameFactor(w[i], y[i], c);
    }
    SumScaled(Products(w, y), c, w);
  }

  lemma QuotientBetween(n: real, total: real, lo: real, hi: real)
    requires total > 0.0 && lo * total <= n <= hi * total
    ensures lo <= n / total <= hi
  {
    QuotientTimes(n, total);
    OrderedFactors(lo, n / total, total);
    OrderedFactors(n / total, hi, total);
  }

  lemma WeightedBetween(w: seq<real>, y: seq<real>, lo: real, hi: real)
    requires |w| == |y|
    requires forall i :: 0 <= i < |w| ==> 0.0 <= w[i] && lo <= y[i] <= hi
    ensures lo * Sum(w) <= Dot(w, y) <= hi * Sum(w)
  {
    hide *;
    var low, high := seq(|w|, i => lo), seq(|w|, i => hi);
    DotConstant(w, low, lo);
    DotConstant(w, high, hi);
    DotMonotone(w, low, y);
    DotMonotone(w, y, high);
  }

  /** The score lies between the least and the greatest score it averages, whichever
      branch computes it. */
  lemma BetweenExtremes(pairs: seq<Pair>, decay: Decay, lo: real, hi: real)
    requires pairs != [] && Confident(pairs)
    requires forall i :: 0 <= i < |pairs| ==> lo <= pairs[i].signed <= hi
    ensures lo <= OverallScore(pairs, decay) <= hi
  {
    hide Sum;
    hide Products;
    hide Weights;
    var w, y := Weights(pairs, decay), Signed(pairs);
    WeightsNonnegative(pairs, decay);
    if Sum(w) == 0.0 {
      var ones := seq(|pairs|, i => 1.0);
      SumConstant(ones, 1.0);
      WeightedBetween(ones, y, lo, hi);
      DotCommutes(ones, y);
      DotWithOnes(y, ones);
      QuotientBetween(Sum(y), |pairs| as real, lo, hi);
    } else {
      WeightedBetween(w, y, lo, hi);
      QuotientBetween(Dot(w, y), Sum(w), lo, hi);
    }
  }

  // ---- The part each turn plays ---------------------------------------------

  /** The fraction of the score that turn k decides. */
  function Share(pairs: seq<Pair>, decay: real, k: nat): real
    requires k < |pairs|
  {
    var w := Weights(pairs, decay);
    if Sum(w) == 0.0 then 1.0 / |pairs| as real else w[k] / Sum(w)
  }

  lemma ScoreWeights(pairs: seq<Pair>, decay: real, k: nat, signed: real)
    requires k < |pairs|
    ensures var changed := pairs[k := pairs[k].(signed := signed)];
            Weights(changed, decay) == Weights(pairs, decay) && Signed(changed) == Signed(pairs)[k := signed]
  {
    var changed := pairs[k := pairs[k].(signed := signed)];
    forall i | 0 <= i < |pairs| ensures Weights(changed, decay)[i] == Weights(pairs, decay)[i] {
    }
  }

  /** Changing one score moves the result by exactly that turn's share of the change:
      with nonnegative confidences, never the wrong way and never further. */
  lemma ScoreResponse(pairs: seq<Pair>, decay: Decay, k: nat, signed: real)
    requires k < |pairs| && Confident(pairs)
    ensures var changed := pairs[k := pairs[k].(signed := signed)];
            OverallScore(changed, decay)
            == OverallScore(pairs, decay) + Share(pairs, decay, k) * (signed - pairs[k].signed)
    ensures 0.0 <= Share(pairs, decay, k) <= 1.0
  {
    hide Sum;
    hide Products;
    hide Weights;
    var w, y := Weights(pairs, decay), Signed(pairs);
    ScoreWeights(pairs, decay, k, signed);
    WeightsNonnegative(pairs, decay);
    SumNonnegative(w);
    if Sum(w) == 0.0 {
      SumUpdate(y, k, signed);
      MovedQuotient(Sum(y), 1.0, y[k], signed, |pairs| as real, Sum(y[k := signed]));
      QuotientBetween(1.0, |pairs| as real, 0.0, 1.0);
    } else {
      DotUpdate(w, y, k, signed);
      MovedQuotient(Dot(w, y), w[k], y[k], signed, Sum(w), Dot(w, y[k := signed]));
      QuotientBetween(w[k], Sum(w), 0.0, 1.0);
    }
  }

  lemma MovedQuotient(n: real, w: real, before: real, after: real, total: real, n': real)
    requires total != 0.0 && n' == n - Times(w, before) + Times(w, after)
    ensures n' / total == n / total + (w / total) * (after - before)
  {
    QuotientTimes(n, total);
    QuotientTimes(w, total);
    MovedProduct(n, w, before, after, total, n / total, w / total);
    QuotientIs(n', total, n / total + (w / total) * (after - before));
  }

  lemma MovedProduct(n: real, w: real, before: real, after: real, total: real, q: real, share: real)
    requires q * total == n && share * total == w
    ensures (q + share * (after - before)) * total == n - Times(w, before) + Times(w, after)
  {
  }

  lemma WeightOrder(pairs: seq<Pair>, decay: Decay, i: nat, j: nat)
    requires i <= j < |pairs| && 0.0 <= pairs[i].confidence == pairs[j].confidence
    ensures Weights(pairs, decay)[i] <= Weights(pairs, decay)[j]
  {
    var c, low, high := pairs[i].confidence, Pow(decay, |pairs| - 1 - i), Pow(decay, |pairs| - 1 - j);
    PowAntitone(decay, |pairs| - 1 - j, |pairs| - 1 - i);
    ProductMonotone(c, low, high);
    assert Times(low, c) <= Times(high, c);
  }

  /** Of two equally confident turns, the later has the greater share. */
  lemma LaterCountsMore(pairs: seq<Pair>, decay: Decay, i: nat, j: nat)
    requires i <= j < |pairs| && Confident(pairs) && pairs[i].confidence == pairs[j].confidence
    ensures Share(pairs, decay, i) <= Share(pairs, decay, j)
  {
    hide Sum;
    hide Weights;
    WeightsNonnegative(pairs, decay);
    WeightOrder(pairs, decay, i, j);
    var w := Weights(pairs, decay);
    if Sum(w) != 0.0 {
      SameQuotientOrder(w[i], w[j], Sum(w));
    }
  }

  lemma SameQuotientOrder(a: real, b: real, total: real)
    requires total > 0.0 && a <= b
    ensures a / total <= b / total
  {
    QuotientTimes(a, total);
    QuotientTimes(b, total);
    OrderedFactors(a / total, b / total, total);
  }

  function WithConfidence(pairs: seq<Pair>, k: nat, confidence: real): (r: seq<Pair>)
    requires k < |pairs|
  {
    pairs[k := pairs[k].(confidence := confidence)]
  }

  lemma ConfidenceWeights(pairs: seq<Pair>, decay: Decay, k: nat, confidence: real) returns (added: real)
    requires k < |pairs| && pairs[k].confidence < confidence
    ensures added > 0.0
    ensures Weights(WithConfidence(pairs, k, confidence), decay)
            == Weights(pairs, decay)[k := Weights(pairs, decay)[k] + added]
    ensures Signed(WithConfidence(pairs, k, confidence)) == Signed(pairs)
  {
    hide Times;
    hide Pow;
    var power := Pow(decay, |pairs| - 1 - k);
    PowPositive(decay, |pairs| - 1 - k);
    RaisedWeight(power, pairs[k].confidence, confidence);
    added := Times(power, confidence) - Times(power, pairs[k].confidence);
    forall i | 0 <= i < |pairs|
      ensures Weights(WithConfidence(pairs, k, confidence), decay)[i]
              == Weights(pairs, decay)[k := Weights(pairs, decay)[k] + added][i]
    {
    }
  }

  lemma RaisedWeight(power: real, before: real, after: real)
    requires power > 0.0 && before < after
    ensures Times(power, before) < Times(power, after)
  {
    ProductPositive(power, after - before);
  }

  /** Raising one turn's confidence moves the score strictly between where it was and
      that turn's own score, and leaves it there if it was there already. */
  lemma ConfidenceResponse(pairs: seq<Pair>, decay: Decay, k: nat, confidence: real)
    requires k < |pairs| && Confident(pairs) && Sum(Weights(pairs, decay)) > 0.0
    requires pairs[k].confidence < confidence
    ensures var before, target := OverallScore(pairs, decay), pairs[k].signed;
            var after := OverallScore(WithConfidence(pairs, k, confidence), decay);
            && (before < target ==> before < after < target)
            && (before > target ==> before > after > target)
            && (before == target ==> after == target)
  {
    hide Sum;
    hide Products;
    hide Weights;
    hide Pow;
    var w, y := Weights(pairs, decay), Signed(pairs);
    var added := ConfidenceWeights(pairs, decay, k, confidence);
    RaisedSums(w, y, k, added);
    TowardsTarget(Dot(w, y), Sum(w), added, y[k], Dot(w[k := w[k] + added], y), Sum(w[k := w[k] + added]));
  }

  lemma RaisedSums(w: seq<real>, y: seq<real>, k: nat, added: real)
    requires |w| == |y| && k < |w|
    ensures Sum(w[k := w[k] + added]) == Sum(w) + added
    ensures Dot(w[k := w[k] + added], y) == Dot(w, y) + added * y[k]
  {
    hide Sum;
    hide Products;
    SumUpdate(w, k, w[k] + added);
    DotCommutes(w, y);
    DotCommutes(w[k := w[k] + added], y);
    DotUpdate(y, w, k, w[k] + added);
    AddedProduct(y[k], w[k], added);
  }

  lemma AddedProduct(y: real, w: real, added: real)
    ensures Times(y, w + added) == Times(y, w) + added * y
  {
  }

  lemma TowardsTarget(n: real, total: real, added: real, y: real, n': real, total': real)
    requires total > 0.0 && added > 0.0 && n' == n + added * y && total' == total + added
    ensures var before, after := n / total, n' / total';
            && (before < y ==> before < after < y)
            && (before > y ==> before > after > y)
            && (before == y ==> after == y)
  {
    var before, after := n / total, n' / total';
    QuotientTimes(n, total);
    QuotientTimes(n', total');
    SplitDistance(before, after, y, n, total, added);
    if before < y {
      ProductPositive(y - before, added);
      ProductPositive(y - before, total);
    } else if before > y {
      ProductPositive(before - y, added);
      ProductPositive(before - y, total);
    }
    SignOf(after - before, total + added);
    SignOf(y - after, total + added);
  }

  lemma SplitDistance(before: real, after: real, y: real, n: real, total: real, added: real)
    requires before * total == n && after * (total + added) == n + added * y
    ensures (after - before) * (total + added) == (y - before) * added
    ensures (y - after) * (total + added) == (y - before) * total
    ensures (before - y) * added == -((y - before) * added)
    ensures (before - y) * total == -((y - before) * total)
    ensures before == y ==> (y - before) * added == 0.0 && (y - before) * total == 0.0
  {
  }

  lemma SignOf(x: real, f: real)
    requires f > 0.0
    ensures x * f > 0.0 <==> x > 0.0
    ensures x * f < 0.0 <==> x < 0.0
  {
    if x > 0.0 {
      ProductPositive(x, f);
    } else if x < 0.0 {
      ProductPositive(-x, f);
    }
  }

  // ---- One pass -------------------------------------------------------------

  /** Total weight, accumulated turn by turn. */
  function RunningWeight(pairs: seq<Pair>, decay: real): real {
    if pairs == [] then 0.0
    else Times(decay, RunningWeight(pairs[..|pairs| - 1], decay)) + pairs[|pairs| - 1].confidence
  }

  /** Weighted total, accumulated turn by turn. */
  function RunningTotal(pairs: seq<Pair>, decay: real): real {
    if pairs == [] then 0.0
    else
      var last := pairs[|pairs| - 1];
      Times(decay, RunningTotal(pairs[..|pairs| - 1], decay)) + Times(last.confidence, last.signed)
  }

  lemma EarlierWeights(pairs: seq<Pair>, decay: real)
    requires pairs != []
    ensures var n := |pairs| - 1;
            var w, earlier := Weights(pairs, decay), Weights(pairs[..n], decay);
            && w[n] == pairs[n].confidence
            && forall i :: 0 <= i < n ==> w[..n][i] == decay * earlier[i]
  {
    var n := |pairs| - 1;
    forall i | 0 <= i < n ensures Weights(pairs, decay)[i] == decay * Weights(pairs[..n], decay)[i] {
      assert Pow(decay, n - i) == decay * Pow(decay, n - 1 - i);
      Reassociate(Pow(decay, n - i), decay, Pow(decay, n - 1 - i), pairs[i].confidence);
    }
  }

  lemma Reassociate(p: real, a: real, b: real, c: real)
    requires p == a * b
    ensures p * c == a * (b * c)
  {
  }

  lemma ShorterSigned(pairs: seq<Pair>)
    requires pairs != []
    ensures Signed(pairs)[..|pairs| - 1] == Signed(pairs[..|pairs| - 1])
    ensures Signed(pairs)[|pairs| - 1] == pairs[|pairs| - 1].signed
  {
  }

  lemma TimesIs(a: real, b: real)
    ensures Times(a, b) == a * b
  {
  }

  lemma {:induction false} RunningWeightIsSum(pairs: seq<Pair>, decay: Decay)
    ensures Sum(Weights(pairs, decay)) == RunningWeight(pairs, decay)
  {
    hide Weights;
    hide Times;
    hide Sum;
    if pairs != [] {
      var n := |pairs| - 1;
      var w, earlier := Weights(pairs, decay), Weights(pairs[..n], decay);
      RunningWeightIsSum(pairs[..n], decay);
      EarlierWeights(pairs, decay);
      SumLast(w);
      SumScaled(w[..n], decay, earlier);
      TimesIs(decay, Sum(earlier));
    } else {
      SumEmpty(Weights(pairs, decay));
    }
  }

  lemma {:induction false} RunningTotalIsDot(pairs: seq<Pair>, decay: Decay)
    ensures Dot(Weights(pairs, decay), Signed(pairs)) == RunningTotal(pairs, decay)
  {
    hide Weights;
    hide Times;
    hide Dot;
    hide Signed;
    if pairs != [] {
      var n := |pairs| - 1;
      var w, earlier, y := Weights(pairs, decay), Weights(pairs[..n], decay), Signed(pairs);
      RunningTotalIsDot(pairs[..n], decay);
      EarlierWeights(pairs, decay);
      ShorterSigned(pairs);
      DotLast(w, y);
      DotScaled(w[..n], decay, earlier, y[..n]);
      TimesIs(decay, Dot(earlier, y[..n]));
    } else {
      DotEmpty(Weights(pairs, decay), Signed(pairs));
    }
  }

  /** The score can be computed in one pass over the conversation, decaying what has
      been seen whenever a turn arrives. */
  lemma OnePassForm(pairs: seq<Pair>, decay: Decay)
    requires pairs != [] && RunningWeight(pairs, decay) != 0.0
    ensures OverallScore(pairs, decay) == RunningTotal(pairs, decay) / RunningWeight(pairs, decay)
  {
    RunningWeightIsSum(pairs, decay);
    RunningTotalIsDot(pairs, decay);
  }

  // ---- Order ----------------------------------------------------------------

  ghost predicate SimilarlyOrdered(w: seq<real>, z: seq<real>)
    requires |w| == |z|
  {
    || (forall i, j :: 0 <= i <= j < |w| ==> w[i] <= w[j] && z[i] <= z[j])
    || (forall i, j :: 0 <= i <= j < |w| ==> w[i] >= w[j] && z[i] >= z[j])
  }

  lemma SwapGain(wk: real, wn: real, yk: real, yn: real)
    requires (wk <= wn && yn <= yk) || (wk >= wn && yn >= yk)
    ensures Times(wk, yk) + Times(wn, yn) <= Times(wk, yn) + Times(wn, yk)
  {
    ProductNonnegative(wn - wk, yk - yn);
    assert (wn - wk) * (yk - yn) == -wk * yk + wk * yn - wn * yn + wn * yk;
  }

  /** The sequence with the values at k and at the end exchanged. */
  function SwapLast(y: seq<real>, k: nat): (r: seq<real>)
    requires k < |y|
    ensures |r| == |y| && r[|y| - 1] == y[k]
    ensures multiset(r) == multiset(y)
  {
    y[k := y[|y| - 1]][|y| - 1 := y[k]]
  }

  lemma SwapToEnd(w: seq<real>, y: seq<real>, k: nat)
    requires |w| == |y| && k < |w|
    requires var n := |w| - 1; (w[k] <= w[n] && y[n] <= y[k]) || (w[k] >= w[n] && y[n] >= y[k])
    ensures Dot(w, y) <= Dot(w, SwapLast(y, k))
  {
    hide Products;
    hide Sum;
    hide Times;
    var n := |w| - 1;
    if k < n {
      DotUpdate(w, y, k, y[n]);
      DotUpdate(w, y[k := y[n]], n, y[k]);
      SwapGain(w[k], w[n], y[k], y[n]);
    } else {
      assert SwapLast(y, k) == y;
    }
  }

  lemma LastValues(y: seq<real>, z: seq<real>) returns (k: nat, j: nat)
    requires |y| == |z| > 0 && multiset(y) == multiset(z)
    ensures k < |y| && y[k] == z[|z| - 1]
    ensures j < |z| && z[j] == y[|y| - 1]
  {
    assert z[|z| - 1] in multiset(y);
    k :| 0 <= k < |y| && y[k] == z[|z| - 1];
    assert y[|y| - 1] in multiset(z);
    j :| 0 <= j < |z| && z[j] == y[|y| - 1];
  }

  lemma DropLast(y: seq<real>, z: seq<real>)
    requires |y| == |z| > 0 && multiset(y) == multiset(z) && y[|y| - 1] == z[|z| - 1]
    ensures multiset(y[..|y| - 1]) == multiset(z[..|z| - 1])
  {
    var n := |y| - 1;
    assert y == y[..n] + [y[n]] && z == z[..n] + [z[n]];
    assert multiset(y[..n]) == multiset(y) - multiset{y[n]};
    assert multiset(z[..n]) == multiset(z) - multiset{z[n]};
  }

  lemma SwapAllowed(w: seq<real>, y: seq<real>, z: seq<real>, k: nat, j: nat)
    requires |w| == |y| == |z| > 0 && k < |w| && j < |w|
    requires SimilarlyOrdered(w, z) && y[k] == z[|z| - 1] && z[j] == y[|y| - 1]
    ensures var n := |w| - 1; (w[k] <= w[n] && y[n] <= y[k]) || (w[k] >= w[n] && y[n] >= y[k])
  {
  }

  /** One exchange puts the right value last, for no smaller a weighted sum. */
  lemma BetterLast(w: seq<real>, y: seq<real>, z: seq<real>) returns (better: seq<real>)
    requires |w| == |y| == |z| > 0
    requires multiset(y) == multiset(z) && SimilarlyOrdered(w, z)
    ensures |better| == |y| && better[|y| - 1] == z[|z| - 1]
    ensures Dot(w, y) <= Dot(w, better)
    ensures multiset(better[..|y| - 1]) == multiset(z[..|y| - 1])
  {
    hide *;
    var k, j := LastValues(y, z);
    SwapAllowed(w, y, z, k, j);
    SwapToEnd(w, y, k);
    better := SwapLast(y, k);
    DropLast(better, z);
  }

  /** Rearrangement inequality: of all orders of the same values, the one that runs
      with the weights has the greatest weighted sum. */
  lemma {:induction false} Rearrangement(w: seq<real>, y: seq<real>, z: seq<real>)
    requires |w| == |y| == |z|
    requires multiset(y) == multiset(z) && SimilarlyOrdered(w, z)
    ensures Dot(w, y) <= Dot(w, z)
  {
    hide Sum;
    hide Products;
    if |w| > 0 {
      var n := |w| - 1;
      var better := BetterLast(w, y, z);
      DotLast(w, better);
      DotLast(w, z);
      assert SimilarlyOrdered(w[..n], z[..n]);
      Rearrangement(w[..n], better[..n], z[..n]);
    } else {
      assert y == z;
    }
  }

  ghost predicate EquallyConfident(pairs: seq<Pair>, confidence: real) {
    forall i :: 0 <= i < |pairs| ==> pairs[i].confidence == confidence
  }

  lemma RisingWeights(pairs: seq<Pair>, decay: Decay, confidence: real)
    requires confidence > 0.0 && EquallyConfident(pairs, confidence)
    ensures forall i, j :: 0 <= i <= j < |pairs| ==> Weights(pairs, decay)[i] <= Weights(pairs, decay)[j]
    ensures pairs != [] ==> Sum(Weights(pairs, decay)) > 0.0
  {
    hide Sum;
    hide Weights;
    var n := |pairs|;
    forall i, j | 0 <= i <= j < n ensures Weights(pairs, decay)[i] <= Weights(pairs, decay)[j] {
      WeightOrder(pairs, decay, i, j);
    }
    WeightsNonnegative(pairs, decay);
    SumNonnegative(Weights(pairs, decay));
    if pairs != [] {
      WeightAt(pairs, decay, 0);
    }
  }

  /** For equally confident turns, no order of the same scores beats the ascending
      one, and none falls below the descending one. */
  lemma RecencyOrderIsExtremal(pairs: seq<Pair>, rising: seq<Pair>, falling: seq<Pair>, decay: Decay, confidence: real)
    requires pairs != [] && confidence > 0.0
    requires EquallyConfident(pairs, confidence)
    requires EquallyConfident(rising, confidence) && EquallyConfident(falling, confidence)
    requires multiset(Signed(pairs)) == multiset(Signed(rising)) == multiset(Signed(falling))
    requires forall i, j :: 0 <= i <= j < |rising| ==> rising[i].signed <= rising[j].signed
    requires forall i, j :: 0 <= i <= j < |falling| ==> falling[i].signed >= falling[j].signed
    ensures |rising| == |falling| == |pairs|
    ensures OverallScore(falling, decay) <= OverallScore(pairs, decay) <= OverallScore(rising, decay)
  {
    assert |multiset(Signed(pairs))| == |pairs|;
    assert |multiset(Signed(rising))| == |rising|;
    assert |multiset(Signed(falling))| == |falling|;
    var w := Weights(pairs, decay);
    assert Weights(rising, decay) == w && Weights(falling, decay) == w;
    RisingWeights(pairs, decay, confidence);
    Rearrangement(w, Signed(pairs), Signed(rising));
    SameQuotientOrder(Dot(w, Signed(pairs)), Dot(w, Signed(rising)), Sum(w));
    FallingIsLeast(w, Signed(pairs), Signed(falling));
    SameQuotientOrder(Dot(w, Signed(falling)), Dot(w, Signed(pairs)), Sum(w));
  }

  lemma FallingIsLeast(w: seq<real>, y: seq<real>, z: seq<real>)
    requires |w| == |y| == |z| && multiset(y) == multiset(z)
    requires forall i, j :: 0 <= i <= j < |w| ==> w[i] <= w[j]
    requires forall i, j :: 0 <= i <= j < |z| ==> z[i] >= z[j]
    ensures Dot(w, z) <= Dot(w, y)
  {
    var flipped := Scaled(-1.0, w);
    DotScaled(flipped, -1.0, w, y);
    DotScaled(flipped, -1.0, w, z);
    Rearrangement(flipped, y, z);
  }

  function Scaled(a: real, s: seq<real>): (r: seq<real>)
    ensures |r| == |s|
  {
    seq(|s|, i requires 0 <= i < |s| => a * s[i])
  }
}
