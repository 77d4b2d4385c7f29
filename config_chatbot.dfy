/** The chatbot's configuration constants that `validate_config` reads, and
    the validator itself (03_CHATBOT/config/config_chatbot.py). */
module ConfigChatbot {

  /** The parts of the configuration the validator looks at:
      `FILTERING_CONFIG['rating_thresholds']` excellent/good,
      `QUALITY_SCORING['weights']` (name and weight, in dictionary order) and
      `FILTERING_CONFIG['sentiment_thresholds']` positive/negative. */
  datatype Config = Config(
    excellent: real,
    good: real,
    weights: seq<(string, real)>,
    positive: real,
    negative: real)

  /** `QUALITY_SCORING['weights']` as shipped. */
  const QualityWeights: seq<(string, real)> := [
    ("rating_listing", 0.3),
    ("sentiment_score", 0.3),
    ("avg_review_rating", 0.2),
    ("cleanliness_rating", 0.2)
  ]

  /** The shipped configuration. */
  const Shipped: Config := Config(3.5, 3.0, QualityWeights, 0.7, 0.3)

  /** `DISPLAY_CONFIG['quality_badges']`: threshold and label, in dictionary
      order (highest threshold first). */
  const QualityBadges: seq<(real, string)> := [
    (4.5, "🏆 EXCELLENT"),
    (4.0, "⭐ TRÈS BON"),
    (3.5, "👍 BON"),
    (0.0, "📍 CORRECT")
  ]

  /** One entry of the list `validate_config` returns. The weight-sum error
      carries the total it found (the source prints it into the message). */
  datatype ConfigError =
    | ThresholdOrder
    | WeightSum(total: real)
    | SentimentOrder

  /** Position of each kind of error in the validator's fixed order. */
  function Rank(e: ConfigError): nat {
    match e
    case ThresholdOrder => 0
    case WeightSum(_) => 1
    case SentimentOrder => 2
  }

  function Abs(x: real): real { if x < 0.0 then -x else x }

  /** `sum(QUALITY_SCORING['weights'].values())`. */
  function WeightTotal(ws: seq<(string, real)>): real {
    if |ws| == 0 then 0.0 else WeightTotal(ws[..|ws| - 1]) + ws[|ws| - 1].1
  }

  /** The three consistency conditions the validator checks. */
  predicate IsConsistent(cfg: Config) {
    && cfg.excellent > cfg.good
    && Abs(WeightTotal(cfg.weights) - 1.0) <= 0.01
    && cfg.positive > cfg.negative
  }

  /** `validate_config`: collects one error per failed check, in the order
      threshold, weights, sentiment. */
  method ValidateConfig(cfg: Config) returns (errors: seq<ConfigError>)
    ensures errors == [] <==> IsConsistent(cfg)
    ensures ThresholdOrder in errors <==> cfg.excellent <= cfg.good
    ensures WeightSum(WeightTotal(cfg.weights)) in errors <==> Abs(WeightTotal(cfg.weights) - 1.0) > 0.01
    ensures forall e :: e in errors && e.WeightSum? ==> e.total == WeightTotal(cfg.weights)
    ensures SentimentOrder in errors <==> cfg.positive <= cfg.negative
    ensures forall i, j :: 0 <= i < j < |errors| ==> Rank(errors[i]) < Rank(errors[j])
    ensures |errors| <= 3
  {
    errors := [];
    if cfg.excellent <= cfg.good {
      errors := errors + [ThresholdOrder];
    }
    var totalWeight := WeightTotal(cfg.weights);
    if Abs(totalWeight - 1.0) > 0.01 {
      errors := errors + [WeightSum(totalWeight)];
    }
    if cfg.positive <= cfg.negative {
      errors := errors + [SentimentOrder];
    }
  }

  /** The shipped weights sum to exactly 1.0 and both threshold pairs are in
      order. */
  lemma ShippedIsConsistent()
    ensures WeightTotal(Shipped.weights) == 1.0
    ensures IsConsistent(Shipped)
  {
    var w := QualityWeights;
    assert WeightTotal(w[..1]) == 0.3 by { assert w[..1][..0] == []; }
    assert WeightTotal(w[..2]) == 0.6 by { assert w[..2][..1] == w[..1]; }
    assert WeightTotal(w[..3]) == 0.8 by { assert w[..3][..2] == w[..2]; }
    assert w[..4][..3] == w[..3];
  }

  /** What the final test asserts: validating the shipped configuration
      reports no error. */
  method ValidateShippedConfig() returns (errors: seq<ConfigError>)
    ensures errors == []
  {
    ShippedIsConsistent();
    errors := ValidateConfig(Shipped);
  }
}
