/** The two conversation-level metrics: functions of the scored customer turns. */
module Metrics {
  import opened Prelude
  import opened Config
  import opened LeastSquares
  import opened Sums

  datatype Pair = Pair(signed: real, confidence: real)

  datatype Basis = SingleTurn | RecencyConfidenceWeightedMean

  datatype Overall = Overall(lbl: Label, score: real, nScored: nat, basis: Basis)

  datatype Trajectory = Trajectory(value: real, slope: real, nScored: nat, meaningful: bool)

  /** (signed, confidence) of the turns that carried a signal, in order. */
  function ScoredPairs(turns: seq<TurnScore>): seq<Pair> {
    if |turns| == 0 then []
    else if turns[0].Scored? then
      [Pair(turns[0].signed, turns[0].confidence)] + ScoredPairs(turns[1..])
    else
      ScoredPairs(turns[1..])
  }

  function Signed(pairs: seq<Pair>): (r: seq<real>)
    ensures |r| == |pairs|
  {
    seq(|pairs|, i requires 0 <= i < |pairs| => pairs[i].signed)
  }

  /** Weight of turn i among n: the decay to the power n-1-i, times its confidence. */
  function Weights(pairs: seq<Pair>, decay: real): (r: seq<real>)
    ensures |r| == |pairs|
  {
    var n := |pairs|;
    seq(n, i requires 0 <= i < n =>
      Times(Pow(decay, n - 1 - i), pairs[i].confidence))
  }

  /** The unrounded overall score. */
  function OverallScore(pairs: seq<Pair>, decay: real): real
    requires pairs != []
  {
    var weights := Weights(pairs, decay);
    var total := Sum(weights);
    if total == 0.0 then
      Sum(Signed(pairs)) / |pairs| as real
    else
      Dot(weights, Signed(pairs)) / total
  }

  function LabelOf(score: real, threshold: real): Label {
    if score <= -threshold then Negative
    else if score >= threshold then Positive
    else Neutral
  }

  /** `round(x, 4)`: the nearest multiple of 1/10000, ties to the even one. */
  function Round4(x: real): real {
    RoundHalfEven(x * 10000.0) as real / 10000.0
  }

  function RoundHalfEven(y: real): int {
    var below := y.Floor;
    var rest := y - below as real;
    if rest < 0.5 then below
    else if rest > 0.5 then below + 1
    else if below % 2 == 0 then below
    else below + 1
  }

  function OverallSentiment(turns: seq<TurnScore>, cfg: Config): Option<Overall> {
    var scored := ScoredPairs(turns);
    var n := |scored|;
    if n == 0 then None
    else
      var score := OverallScore(scored, cfg.recencyDecay);
      Some(Overall(
             LabelOf(score, cfg.labelThreshold),
             Round4(score),
             n,
             if n == 1 then SingleTurn else RecencyConfidenceWeightedMean))
  }

  function SentimentTrajectory(turns: seq<TurnScore>, cfg: Config, tanh: real -> real): Option<Trajectory>
  {
    var scored := ScoredPairs(turns);
    var n := |scored|;
    if n < 2 then None
    else
      var beta := Slope(Signed(scored));
      Some(Trajectory(
             Round4(tanh(beta / cfg.trajectoryDivisor)),
             Round4(beta),
             n,
             n >= cfg.meaningfulMinTurns))
  }
}
