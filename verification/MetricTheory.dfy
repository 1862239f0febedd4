/** The reported metrics: when they exist, what silence does to them, the ranges they
    keep through rounding, and the sign they show. */
module MetricTheory {
  import opened Config
  import opened Sums
  import opened LeastSquares
  import opened SlopeTheory
  import opened OverallTheory
  import opened Metrics

  // ---- Silence --------------------------------------------------------------

  lemma {:induction false} ScoredPairsAppend(a: seq<TurnScore>, b: seq<TurnScore>)
    ensures ScoredPairs(a + b) == ScoredPairs(a) + ScoredPairs(b)
  {
    if a == [] {
      assert a + b == b;
    } else {
      assert (a + b)[1..] == a[1..] + b;
      ScoredPairsAppend(a[1..], b);
    }
  }

  /** A turn without a signal, wherever it stands, leaves both metrics as they were. */
  lemma SilenceIsInvisible(turns: seq<TurnScore>, at: nat, silent: TurnScore, cfg: Config, tanh: real -> real)
    requires at <= |turns| && silent.Unscored?
    ensures var longer := turns[..at] + [silent] + turns[at..];
            && OverallSentiment(longer, cfg) == OverallSentiment(turns, cfg)
            && SentimentTrajectory(longer, cfg, tanh) == SentimentTrajectory(turns, cfg, tanh)
  {
    var longer := turns[..at] + [silent] + turns[at..];
    ScoredPairsAppend(turns[..at] + [silent], turns[at..]);
    ScoredPairsAppend(turns[..at], [silent]);
    ScoredPairsAppend(turns[..at], turns[at..]);
    assert turns == turns[..at] + turns[at..];
    assert ScoredPairs(longer) == ScoredPairs(turns);
  }

  function CountScored(turns: seq<TurnScore>): nat {
    if turns == [] then 0 else (if turns[0].Scored? then 1 else 0) + CountScored(turns[1..])
  }

  lemma {:induction false} PairsAreTheScored(turns: seq<TurnScore>)
    ensures |ScoredPairs(turns)| == CountScored(turns)
    ensures forall p :: p in ScoredPairs(turns) ==> exists t :: t in turns && t.Scored? && p == Pair(t.signed, t.confidence)
    ensures ScoredPairs(turns) == [] <==> forall t :: t in turns ==> t.Unscored?
  {
    if turns != [] {
      var t, rest := turns[0], turns[1..];
      PairsAreTheScored(rest);
      assert forall u :: u in turns <==> u == t || u in rest;
      if t.Scored? {
        assert ScoredPairs(turns) == [Pair(t.signed, t.confidence)] + ScoredPairs(rest);
        assert t in turns;
      } else {
        assert ScoredPairs(turns) == ScoredPairs(rest);
      }
    }
  }

  /** When every turn carries a signal, each gives its own pair, in its own place. */
  lemma {:induction false} EachScoredTurnHasItsPair(turns: seq<TurnScore>)
    requires forall t :: t in turns ==> t.Scored?
    ensures |ScoredPairs(turns)| == CountScored(turns) == |turns|
    ensures forall i :: 0 <= i < |turns| ==> ScoredPairs(turns)[i] == Pair(turns[i].signed, turns[i].confidence)
  {
    if turns != [] {
      EachScoredTurnHasItsPair(turns[1..]);
      assert turns[0] in turns;
    }
  }

  /** Null means not measurable: no signal for one metric, fewer than two for the other. */
  lemma NullMeansUnmeasurable(turns: seq<TurnScore>, cfg: Config, tanh: real -> real)
    ensures OverallSentiment(turns, cfg).None? <==> forall t :: t in turns ==> t.Unscored?
    ensures SentimentTrajectory(turns, cfg, tanh).None? <==> CountScored(turns) < 2
    ensures OverallSentiment(turns, cfg).Some? ==>
              OverallSentiment(turns, cfg).value.nScored == CountScored(turns)
    ensures SentimentTrajectory(turns, cfg, tanh).Some? ==>
              var t := SentimentTrajectory(turns, cfg, tanh).value;
              t.nScored == CountScored(turns) && (t.meaningful <==> CountScored(turns) >= cfg.meaningfulMinTurns)
  {
    PairsAreTheScored(turns);
  }

  // ---- Rounding -------------------------------------------------------------

  lemma RoundingMonotone(x: real, y: real)
    requires x <= y
    ensures Round4(x) <= Round4(y)
  {
    var below, above := (x * 10000.0).Floor, (y * 10000.0).Floor;
    assert below <= above;
    assert RoundHalfEven(x * 10000.0) <= RoundHalfEven(y * 10000.0);
  }

  /** `r` is a whole number of ten-thousandths, no other is nearer to `x`, and if another is
      as near, `r` is the even one. */
  predicate IsRounded(r: real, x: real) {
    var k := (r * 10000.0).Floor;
    && k as real == r * 10000.0
    && -0.5 <= k as real - x * 10000.0 <= 0.5
    && (k as real - x * 10000.0 == 0.5 || k as real - x * 10000.0 == -0.5 ==> k % 2 == 0)
  }

  /** There is exactly one such number, and rounding finds it. */
  lemma RoundingIs(x: real, r: real)
    ensures Round4(x) == r <==> IsRounded(r, x)
  {
    var k := RoundHalfEven(x * 10000.0);
    HalfEvenIsNearest(x * 10000.0);
    TenThousandths(k, Round4(x));
    hide RoundHalfEven;
    if IsRounded(r, x) {
      var j := (r * 10000.0).Floor;
      NearestIsOne(x * 10000.0, j, k);
      TenThousandths(j, r);
    }
  }

  lemma TenThousandths(k: int, r: real)
    ensures r == k as real / 10000.0 <==> r * 10000.0 == k as real
    ensures r == k as real / 10000.0 ==> (r * 10000.0).Floor == k
  {
  }

  lemma HalfEvenIsNearest(y: real)
    ensures var k := RoundHalfEven(y);
            && -0.5 <= k as real - y <= 0.5
            && (k as real - y == 0.5 || k as real - y == -0.5 ==> k % 2 == 0)
  {
  }

  lemma NearestIsOne(y: real, j: int, k: int)
    requires -0.5 <= j as real - y <= 0.5 && -0.5 <= k as real - y <= 0.5
    requires j as real - y == 0.5 || j as real - y == -0.5 ==> j % 2 == 0
    requires k as real - y == 0.5 || k as real - y == -0.5 ==> k % 2 == 0
    ensures j == k
  {
  }

  /** Rounding moves a value by at most half a unit in the fourth decimal. */
  lemma RoundingIsNear(x: real)
    ensures -0.00005 <= Round4(x) - x <= 0.00005
  {
  }

  lemma RoundingFixes(k: int)
    ensures Round4(k as real) == k as real
  {
    assert (k as real * 10000.0).Floor == k * 10000;
  }

  lemma RoundingKeepsRange(x: real, lo: int, hi: int)
    requires lo as real <= x <= hi as real
    ensures lo as real <= Round4(x) <= hi as real
  {
    RoundingFixes(lo);
    RoundingFixes(hi);
    RoundingMonotone(lo as real, x);
    RoundingMonotone(x, hi as real);
  }

  // ---- Ranges ---------------------------------------------------------------

  /** What the classifier promises of each score. */
  ghost predicate InRange(turns: seq<TurnScore>) {
    forall t :: t in turns && t.Scored? ==> -1.0 <= t.signed <= 1.0 && 0.0 <= t.confidence <= 1.0
  }

  lemma PairsInRange(turns: seq<TurnScore>)
    requires InRange(turns)
    ensures UnitRange(Signed(ScoredPairs(turns)))
    ensures forall i :: 0 <= i < |ScoredPairs(turns)| ==> -1.0 <= ScoredPairs(turns)[i].signed <= 1.0
    ensures Confident(ScoredPairs(turns))
  {
    PairsAreTheScored(turns);
    var pairs := ScoredPairs(turns);
    forall i | 0 <= i < |pairs| ensures -1.0 <= pairs[i].signed <= 1.0 && 0.0 <= pairs[i].confidence {
      assert pairs[i] in pairs;
    }
  }

  /** Both metrics stay in [-1, 1] after rounding, and the slope in [-3, 3]. */
  lemma ReportedRanges(turns: seq<TurnScore>, cfg: Config, tanh: real -> real)
    requires InRange(turns) && TanhLike(tanh)
    ensures OverallSentiment(turns, cfg).Some? ==> -1.0 <= OverallSentiment(turns, cfg).value.score <= 1.0
    ensures SentimentTrajectory(turns, cfg, tanh).Some? ==>
              var t := SentimentTrajectory(turns, cfg, tanh).value;
              -1.0 <= t.value <= 1.0 && -3.0 <= t.slope <= 3.0
  {
    hide OverallScore;
    hide Slope;
    hide Round4;
    PairsInRange(turns);
    var pairs := ScoredPairs(turns);
    if pairs != [] {
      BetweenExtremes(pairs, cfg.recencyDecay, -1.0, 1.0);
      RoundingKeepsRange(OverallScore(pairs, cfg.recencyDecay), -1, 1);
    }
    if |pairs| >= 2 {
      SharpSlopeBound(Signed(pairs));
      RoundingKeepsRange(Slope(Signed(pairs)), -3, 3);
      RoundingKeepsRange(tanh(Slope(Signed(pairs)) / cfg.trajectoryDivisor), -1, 1);
    }
  }

  // ---- Sign -----------------------------------------------------------------

  lemma TanhSign(tanh: real -> real, x: real)
    requires TanhLike(tanh)
    ensures x > 0.0 <==> tanh(x) > 0.0
    ensures x < 0.0 <==> tanh(x) < 0.0
  {
    assert tanh(-0.0) == -tanh(0.0);
    if x > 0.0 {
      assert tanh(0.0) < tanh(x);
    } else if x < 0.0 {
      assert tanh(x) < tanh(0.0);
    }
  }

  lemma QuotientSign(beta: real, divisor: PositiveReal)
    ensures beta / divisor > 0.0 <==> beta > 0.0
    ensures beta / divisor < 0.0 <==> beta < 0.0
  {
    QuotientTimes(beta, divisor);
    SignOf(beta / divisor, divisor);
  }

  /** The unrounded trajectory value shows which way the scores moved, and a flat
      conversation reports exactly zero, never null. */
  lemma TrajectoryShowsDirection(turns: seq<TurnScore>, cfg: Config, tanh: real -> real)
    requires TanhLike(tanh) && CountScored(turns) >= 2
    ensures SentimentTrajectory(turns, cfg, tanh).Some?
    ensures |ScoredPairs(turns)| >= 2
    ensures var ys := Signed(ScoredPairs(turns));
            var value := tanh(Slope(ys) / cfg.trajectoryDivisor);
            var reported := SentimentTrajectory(turns, cfg, tanh).value;
            && (Nondecreasing(ys) && !Constant(ys) ==> value > 0.0 && reported.value >= 0.0 && reported.slope >= 0.0)
            && (Nonincreasing(ys) && !Constant(ys) ==> value < 0.0 && reported.value <= 0.0 && reported.slope <= 0.0)
            && (Constant(ys) ==> reported.value == 0.0 && reported.slope == 0.0)
  {
    hide Slope;
    hide Round4;
    PairsAreTheScored(turns);
    var ys := Signed(ScoredPairs(turns));
    var x := Slope(ys) / cfg.trajectoryDivisor;
    DirectionIsRight(ys);
    QuotientSign(Slope(ys), cfg.trajectoryDivisor);
    TanhSign(tanh, x);
    RoundedSign(tanh(x));
    RoundedSign(Slope(ys));
  }

  lemma RoundedSign(x: real)
    ensures x >= 0.0 ==> Round4(x) >= 0.0
    ensures x <= 0.0 ==> Round4(x) <= 0.0
  {
    RoundingFixes(0);
    if x >= 0.0 {
      RoundingMonotone(0.0, x);
    }
    if x <= 0.0 {
      RoundingMonotone(x, 0.0);
    }
  }

  // ---- What is reported ------------------------------------------------------

  /** The score reported is the rounded quotient of the two running totals at the configured
      recency, or the rounded plain mean if their weight is zero; the label is that of the
      quotient before rounding, on the right side of the configured threshold. */
  lemma OverallIsReported(turns: seq<TurnScore>, cfg: Config)
    requires ScoredPairs(turns) != []
    ensures var pairs := ScoredPairs(turns);
            var weight, total := RunningWeight(pairs, cfg.recencyDecay), RunningTotal(pairs, cfg.recencyDecay);
            var exact := if weight == 0.0 then Sum(Signed(pairs)) / |pairs| as real else total / weight;
            && OverallSentiment(turns, cfg).Some?
            && var reported := OverallSentiment(turns, cfg).value;
            && IsRounded(reported.score, exact)
            && (reported.lbl == Label.Positive <==> exact >= cfg.labelThreshold)
            && (reported.lbl == Negative <==> exact + cfg.labelThreshold <= 0.0)
            && (reported.basis == SingleTurn <==> CountScored(turns) == 1)
            && reported.nScored == CountScored(turns)
  {
    hide Sum;
    hide Weights;
    hide Products;
    hide Signed;
    hide Round4;
    hide IsRounded;
    hide RunningWeight;
    hide RunningTotal;
    var pairs := ScoredPairs(turns);
    PairsAreTheScored(turns);
    hide ScoredPairs;
    RunningWeightIsSum(pairs, cfg.recencyDecay);
    RunningTotalIsDot(pairs, cfg.recencyDecay);
    var score := OverallScore(pairs, cfg.recencyDecay);
    RoundingIs(score, Round4(score));
  }

  /** The slope reported is the rounded slope of the line that leaves the least residual, and
      the value the rounded `tanh` of that slope over the configured divisor. */
  lemma TrajectoryIsReported(turns: seq<TurnScore>, cfg: Config, tanh: real -> real, a: real, b: real)
    requires |ScoredPairs(turns)| >= 2
    requires var ys := Signed(ScoredPairs(turns));
             forall a', b' :: ResidualSum(ys, a, b) <= ResidualSum(ys, a', b')
    ensures SentimentTrajectory(turns, cfg, tanh).Some?
    ensures var reported := SentimentTrajectory(turns, cfg, tanh).value;
            && IsRounded(reported.slope, b)
            && IsRounded(reported.value, tanh(b / cfg.trajectoryDivisor))
  {
    hide ResidualSum;
    hide Slope;
    hide Intercept;
    hide Round4;
    hide IsRounded;
    hide Signed;
    hide ScoredPairs;
    var ys := Signed(ScoredPairs(turns));
    LeastSquaresOptimal(ys, a, b);
    assert ResidualSum(ys, a, b) <= ResidualSum(ys, Intercept(ys), Slope(ys));
    RoundingIs(b, Round4(b));
    RoundingIs(tanh(b / cfg.trajectoryDivisor), Round4(tanh(b / cfg.trajectoryDivisor)));
  }

  /** Scores on a line: the slope reported is the line's. */
  lemma LineIsReported(turns: seq<TurnScore>, cfg: Config, tanh: real -> real, a: real, b: real)
    requires var ys := Signed(ScoredPairs(turns));
             |ys| >= 2 && forall i :: 0 <= i < |ys| ==> ys[i] == a + b * Positions(|ys|)[i]
    ensures SentimentTrajectory(turns, cfg, tanh).Some?
    ensures var reported := SentimentTrajectory(turns, cfg, tanh).value;
            && IsRounded(reported.slope, b)
            && IsRounded(reported.value, tanh(b / cfg.trajectoryDivisor))
  {
    hide Slope;
    hide Round4;
    hide IsRounded;
    hide Signed;
    hide ScoredPairs;
    ExactLine(Signed(ScoredPairs(turns)), a, b);
    RoundingIs(b, Round4(b));
    RoundingIs(tanh(b / cfg.trajectoryDivisor), Round4(tanh(b / cfg.trajectoryDivisor)));
  }

  // ---- Mirror image ---------------------------------------------------------

  function Mirror(turn: TurnScore): TurnScore {
    if turn.Scored? then turn.(signed := -turn.signed) else turn
  }

  function MirrorAll(turns: seq<TurnScore>): (r: seq<TurnScore>)
    ensures |r| == |turns|
  {
    seq(|turns|, i requires 0 <= i < |turns| => Mirror(turns[i]))
  }

  function Opposite(lbl: Label): Label {
    match lbl
    case Negative => Label.Positive
    case Neutral => Neutral
    case Positive => Negative
  }

  lemma {:induction false} MirroredPairs(turns: seq<TurnScore>)
    ensures var pairs, mirrored := ScoredPairs(turns), ScoredPairs(MirrorAll(turns));
            && |mirrored| == |pairs|
            && forall i :: 0 <= i < |pairs| ==> mirrored[i] == Pair(-pairs[i].signed, pairs[i].confidence)
  {
    if turns != [] {
      MirroredPairs(turns[1..]);
      assert MirrorAll(turns)[1..] == MirrorAll(turns[1..]);
    }
  }

  lemma RoundingIsOdd(x: real)
    ensures Round4(-x) == -Round4(x)
  {
    var y := x * 10000.0;
    assert (-x) * 10000.0 == -y;
    HalfEvenIsOdd(y);
  }

  lemma HalfEvenIsOdd(y: real)
    ensures RoundHalfEven(-y) == -RoundHalfEven(y)
  {
    var below := y.Floor;
    if y == below as real {
      assert (-y).Floor == -below;
    } else {
      assert (-y).Floor == -below - 1;
    }
  }

  lemma NegatedDot(w: seq<real>, y: seq<real>)
    requires |w| == |y|
    ensures Dot(w, Negated(y)) == -Dot(w, y)
    ensures Sum(Negated(y)) == -Sum(y)
  {
    hide Sum;
    hide Products;
    hide Dot;
    DotCommutes(w, y);
    DotCommutes(w, Negated(y));
    DotScaled(Negated(y), -1.0, y, w);
    SumScaled(Negated(y), -1.0, y);
  }

  lemma NegatedQuotient(a: real, b: real)
    requires b != 0.0
    ensures (-a) / b == -(a / b)
  {
  }

  lemma MirroredScore(pairs: seq<Pair>, mirrored: seq<Pair>, decay: real)
    requires pairs != [] && |mirrored| == |pairs|
    requires forall i :: 0 <= i < |pairs| ==> mirrored[i] == Pair(-pairs[i].signed, pairs[i].confidence)
    ensures OverallScore(mirrored, decay) == -OverallScore(pairs, decay)
    ensures Signed(mirrored) == Negated(Signed(pairs))
  {
    hide Sum;
    hide Pow;
    hide Products;
    assert Weights(mirrored, decay) == Weights(pairs, decay);
    assert Signed(mirrored) == Negated(Signed(pairs));
    hide Weights;
    var w := Weights(pairs, decay);
    NegatedDot(w, Signed(pairs));
    if Sum(w) == 0.0 {
      NegatedQuotient(Sum(Signed(pairs)), |pairs| as real);
    } else {
      NegatedQuotient(Dot(w, Signed(pairs)), Sum(w));
    }
  }

  /** Turn every score into its opposite: the overall score and the trajectory are the exact
      opposites, rounding included, the label is the opposite label, and the rest stays. */
  lemma MirrorImage(turns: seq<TurnScore>, cfg: Config, tanh: real -> real)
    requires TanhLike(tanh)
    ensures var a, b := OverallSentiment(turns, cfg), OverallSentiment(MirrorAll(turns), cfg);
            && (a.Some? <==> b.Some?)
            && (a.Some? ==> b.value == a.value.(lbl := Opposite(a.value.lbl), score := -a.value.score))
    ensures var a, b := SentimentTrajectory(turns, cfg, tanh), SentimentTrajectory(MirrorAll(turns), cfg, tanh);
            && (a.Some? <==> b.Some?)
            && (a.Some? ==> b.value == a.value.(value := -a.value.value, slope := -a.value.slope))
  {
    hide OverallScore;
    hide Round4;
    hide Slope;
    hide Negated;
    MirroredPairs(turns);
    var pairs, mirrored := ScoredPairs(turns), ScoredPairs(MirrorAll(turns));
    hide ScoredPairs;
    if pairs != [] {
      MirroredScore(pairs, mirrored, cfg.recencyDecay);
      RoundingIsOdd(OverallScore(pairs, cfg.recencyDecay));
    }
    if |pairs| >= 2 {
      var beta := Slope(Signed(pairs));
      NegatedScores(Signed(pairs));
      NegatedQuotient(beta, cfg.trajectoryDivisor);
      assert tanh(-(beta / cfg.trajectoryDivisor)) == -tanh(beta / cfg.trajectoryDivisor);
      RoundingIsOdd(tanh(beta / cfg.trajectoryDivisor));
      RoundingIsOdd(beta);
    }
  }
}
