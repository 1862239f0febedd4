/** The tunables the modelled code reads, and the foreign functions it calls. */
module Config {

  datatype Label = Negative | Neutral | Positive

  /** What the scorer says about one text. */
  datatype TurnScore =
    | Scored(lbl: Label, signed: real, confidence: real)
    | Unscored(reason: string)

  type PositiveReal = x: real | 0.0 < x witness 1.0

  /** A value of `exp(-lambda)` for a recency lambda of at least 0. */
  type Decay = x: real | 0.0 < x <= 1.0 witness 1.0

  datatype Config = Config(
    modelName: string,
    modelRevision: string,
    batchSize: int,
    emptyTextPolicy: string,
    recencyDecay: Decay,         // exp(-recency_lambda)
    labelThreshold: PositiveReal,
    trajectoryDivisor: PositiveReal,
    meaningfulMinTurns: int,
    scoreAgentTurns: bool,
    leaseSeconds: int,
    maxDelivery: int,
    claimBatch: int,
    schemaVersion: string)

  /** The calls the model cannot see into: the classifier on one text, the test
      for a letter, digit or emoji, and the hyperbolic tangent. */
  datatype Foreign = Foreign(
    classify: string -> TurnScore,
    hasSignal: string -> bool,
    tanh: real -> real)

  datatype Env = Env(cfg: Config, foreign: Foreign)

  /** All that is used of `tanh`: odd, strictly increasing, bounded by one. */
  ghost predicate TanhLike(tanh: real -> real) {
    && (forall x :: tanh(-x) == -tanh(x))
    && (forall x, y :: x < y ==> tanh(x) < tanh(y))
    && (forall x :: -1.0 < tanh(x) < 1.0)
  }
}
