/** The z-score detector of the processing worker. */
module Detector {
  import opened Wrappers
  import opened Decimal

  const SIX_DECIMALS: real := 1000000.0
  const FOUR_DECIMALS: real := 10000.0

  /** Threshold and version, read from the environment when the worker starts. */
  datatype Config = Config(threshold: real, modelVersion: string)

  datatype Details = Details(absoluteDeviation: real, zScore: real, threshold: real, uncertainty: real)

  datatype AnomalyResult = AnomalyResult(
    anomalyScore: real, isAnomaly: bool, deviationPct: real, confidence: real,
    modelVersion: string, details: Details)

  /** ValueError for a non-positive uncertainty, ZeroDivisionError for a zero threshold. */
  datatype Failure = UncertaintyNotPositive | ThresholdIsZero

  function ZScore(measured: real, reference: real, uncertainty: real): real
    requires uncertainty > 0.0
  {
    Abs(measured - reference) / uncertainty
  }

  function DeviationPct(measured: real, reference: real): real {
    if reference != 0.0 then Abs(measured - reference) / Abs(reference) * 100.0 else 0.0
  }

  /** 0.5 on the threshold, growing with the distance from it in thresholds, cut at 1. */
  function Confidence(z: real, threshold: real): real
    requires threshold != 0.0
  {
    var margin := Abs(z - threshold) / threshold;
    Min(1.0, 0.5 + margin * 0.5)
  }

  function Analyze(cfg: Config, measured: real, reference: real, uncertainty: real): Result<AnomalyResult, Failure> {
    if uncertainty <= 0.0 then Err(UncertaintyNotPositive)
    else
      var z := ZScore(measured, reference, uncertainty);
      if cfg.threshold == 0.0 then Err(ThresholdIsZero)
      else
        Ok(AnomalyResult(
          Round(z, SIX_DECIMALS), z > cfg.threshold, Round(DeviationPct(measured, reference), SIX_DECIMALS),
          Round(Confidence(z, cfg.threshold), FOUR_DECIMALS),
          cfg.modelVersion, Details(Abs(measured - reference), z, cfg.threshold, uncertainty)))
  }

  /**
   What the published numbers mean, with every quotient multiplied out: the verdict compares the deviation
   with threshold uncertainties, score and percentage are off by at most half a unit of the sixth decimal.
   */
  lemma AnalyzeMeans(cfg: Config, measured: real, reference: real, uncertainty: real)
    requires cfg.threshold != 0.0 && uncertainty > 0.0
    ensures var r := Analyze(cfg, measured, reference, uncertainty).value;
            var deviation := Abs(measured - reference);
            && (r.isAnomaly <==> deviation > cfg.threshold * uncertainty)
            && IsQuotient(r.anomalyScore, deviation, uncertainty, SIX_DECIMALS)
            && (if reference == 0.0 then r.deviationPct == 0.0
                else IsQuotient(r.deviationPct, deviation * 100.0, Abs(reference), SIX_DECIMALS))
  {
    QuotientAbove(Abs(measured - reference), cfg.threshold, uncertainty);
    RoundQuotient(Abs(measured - reference), uncertainty, SIX_DECIMALS);
    PercentMeans(measured, reference);
  }

  /** The inputs are refused if and only if the uncertainty is not positive or, if it is, the threshold is zero. */
  lemma AnalyzeRefuses(cfg: Config, measured: real, reference: real, uncertainty: real)
    ensures var r := Analyze(cfg, measured, reference, uncertainty);
            && (r == Err(UncertaintyNotPositive) <==> uncertainty <= 0.0)
            && (r == Err(ThresholdIsZero) <==> uncertainty > 0.0 && cfg.threshold == 0.0)
            && (r.Ok? <==> uncertainty > 0.0 && cfg.threshold != 0.0)
  {}

  /** The details hold the model's version, its threshold and the score before it was rounded. */
  lemma DetailsMean(cfg: Config, measured: real, reference: real, uncertainty: real)
    requires cfg.threshold != 0.0 && uncertainty > 0.0
    ensures var r := Analyze(cfg, measured, reference, uncertainty).value;
            && r.modelVersion == cfg.modelVersion && r.details.threshold == cfg.threshold
            && r.details.uncertainty == uncertainty && r.details.absoluteDeviation == Abs(measured - reference)
            && r.details.zScore * uncertainty == Abs(measured - reference)
  {
    Unscale(Abs(measured - reference), uncertainty);
  }

  /** The published score is the one in the details, rounded half to even at the sixth decimal. */
  lemma ScoreIsRounded(cfg: Config, measured: real, reference: real, uncertainty: real)
    requires cfg.threshold != 0.0 && uncertainty > 0.0
    ensures var r := Analyze(cfg, measured, reference, uncertainty).value;
            Rounds(r.anomalyScore, r.details.zScore, 1000000.0)
  {
    RoundRounds(ZScore(measured, reference, uncertainty), SIX_DECIMALS);
  }

  /** Score and percentage are published with six decimals, the confidence with four. */
  lemma PublishedDecimals(cfg: Config, measured: real, reference: real, uncertainty: real)
    requires cfg.threshold != 0.0 && uncertainty > 0.0
    ensures var r := Analyze(cfg, measured, reference, uncertainty).value;
            && OnGrid(r.anomalyScore, 1000000.0) && OnGrid(r.deviationPct, 1000000.0)
            && OnGrid(r.confidence, 10000.0)
  {
    var z := ZScore(measured, reference, uncertainty);
    RoundIsOnGrid(z, SIX_DECIMALS);
    RoundIsOnGrid(DeviationPct(measured, reference), SIX_DECIMALS);
    RoundIsOnGrid(Confidence(z, cfg.threshold), FOUR_DECIMALS);
  }

  lemma PercentMeans(measured: real, reference: real)
    ensures var pct := Round(DeviationPct(measured, reference), SIX_DECIMALS);
            if reference == 0.0 then pct == 0.0
            else IsQuotient(pct, Abs(measured - reference) * 100.0, Abs(reference), SIX_DECIMALS)
  {
    RoundOnGrid(0.0, SIX_DECIMALS);
    if reference != 0.0 {
      Regroup(Abs(measured - reference), 100.0, Abs(reference));
      RoundQuotient(Abs(measured - reference) * 100.0, Abs(reference), SIX_DECIMALS);
    }
  }

  /** Confidence is 1 once the score is a whole threshold away from it, and falls linearly to 0.5 on it. */
  lemma ConfidenceMeans(cfg: Config, measured: real, reference: real, uncertainty: real)
    requires cfg.threshold > 0.0 && uncertainty > 0.0
    ensures var confidence := Analyze(cfg, measured, reference, uncertainty).value.confidence;
            var distance := Abs(ZScore(measured, reference, uncertainty) - cfg.threshold);
            if distance >= cfg.threshold then confidence == 1.0
            else IsQuotient(confidence, cfg.threshold + distance, 2.0 * cfg.threshold, FOUR_DECIMALS)
  {
    var z := ZScore(measured, reference, uncertainty);
    var distance := Abs(z - cfg.threshold);
    Halfway(z, cfg.threshold);
    RoundOnGrid(1.0, FOUR_DECIMALS);
    RoundQuotient(cfg.threshold + distance, 2.0 * cfg.threshold, FOUR_DECIMALS);
  }

  /** Below a negative threshold's own size the same line is followed downwards; it is never cut. */
  lemma ConfidenceMeansNegative(cfg: Config, measured: real, reference: real, uncertainty: real)
    requires cfg.threshold < 0.0 && uncertainty > 0.0
    ensures var confidence := Analyze(cfg, measured, reference, uncertainty).value.confidence;
            var distance := Abs(ZScore(measured, reference, uncertainty) - cfg.threshold);
            IsQuotient(confidence, -cfg.threshold - distance, 2.0 * -cfg.threshold, FOUR_DECIMALS)
  {
    var z := ZScore(measured, reference, uncertainty);
    NegativeHalfway(z, cfg.threshold);
    RoundQuotient(-cfg.threshold - Abs(z - cfg.threshold), 2.0 * -cfg.threshold, FOUR_DECIMALS);
  }

  lemma NegativeHalfway(z: real, threshold: real)
    requires threshold < 0.0
    ensures var distance := Abs(z - threshold);
            Confidence(z, threshold) == (-threshold - distance) / (2.0 * -threshold)
  {
    var distance := Abs(z - threshold);
    var margin := distance / threshold;
    assert margin * threshold == distance;
    assert margin <= 0.0;
    var c := 0.5 + margin * 0.5;
    assert c * (2.0 * -threshold) == -threshold - distance;
    Unscale(c, 2.0 * -threshold);
  }

  lemma Halfway(z: real, threshold: real)
    requires threshold > 0.0
    ensures var distance := Abs(z - threshold);
            Confidence(z, threshold)
            == if distance >= threshold then 1.0 else (threshold + distance) / (2.0 * threshold)
  {
    var distance := Abs(z - threshold);
    Unscale(distance, threshold);
    var c := 0.5 + distance / threshold * 0.5;
    if distance >= threshold {
      DivOrder(threshold, distance, threshold);
    } else {
      DivOrder(distance, threshold, threshold);
      assert c * (2.0 * threshold) == threshold + distance;
      Unscale(c, 2.0 * threshold);
    }
  }

  /** The published score never contradicts the verdict when the threshold has at most six decimals. */
  lemma VerdictSurvivesRounding(cfg: Config, measured: real, reference: real, uncertainty: real)
    requires OnGrid(cfg.threshold, SIX_DECIMALS)
    ensures var r := Analyze(cfg, measured, reference, uncertainty);
            r.Ok? ==> if r.value.isAnomaly then r.value.anomalyScore >= cfg.threshold
                      else r.value.anomalyScore <= cfg.threshold
  {
    var r := Analyze(cfg, measured, reference, uncertainty);
    if r.Ok? {
      var z := r.value.details.zScore;
      RoundOnGrid(cfg.threshold, SIX_DECIMALS);
      if z > cfg.threshold {
        RoundMonotone(cfg.threshold, z, SIX_DECIMALS);
      } else {
        RoundMonotone(z, cfg.threshold, SIX_DECIMALS);
      }
    }
  }

  /** Half a unit of the sixth decimal above the threshold, or on it when the threshold's last digit is odd. */
  predicate ClearOf(z: real, threshold: real) {
    var gap := z * SIX_DECIMALS - threshold * SIX_DECIMALS;
    gap > 0.5 || (gap == 0.5 && (threshold * SIX_DECIMALS).Floor % 2 != 0)
  }

  /**
   Testing the published score against the threshold again is not the verdict: it repeats it exactly when
   the raw score is at most the threshold or clear of it.
   */
  lemma ScoreRepeatsVerdict(cfg: Config, measured: real, reference: real, uncertainty: real)
    requires OnGrid(cfg.threshold, SIX_DECIMALS) && cfg.threshold != 0.0 && uncertainty > 0.0
    ensures var r := Analyze(cfg, measured, reference, uncertainty).value;
            var z := ZScore(measured, reference, uncertainty);
            (r.isAnomaly <==> r.anomalyScore > cfg.threshold) <==> z <= cfg.threshold || ClearOf(z, cfg.threshold)
  {
    var z := ZScore(measured, reference, uncertainty);
    VerdictSurvivesRounding(cfg, measured, reference, uncertainty);
    if z > cfg.threshold {
      RoundedAbove(z, cfg.threshold);
    }
  }

  lemma RoundedAbove(z: real, threshold: real)
    requires OnGrid(threshold, SIX_DECIMALS) && z > threshold
    ensures Round(z, SIX_DECIMALS) > threshold <==> ClearOf(z, threshold)
  {
    ToEvenAbove(z * SIX_DECIMALS, (threshold * SIX_DECIMALS).Floor);
    RatioAbove(ToEven(z * SIX_DECIMALS), threshold, SIX_DECIMALS);
  }

  /** A score just above the threshold is an anomaly whose published score is the threshold itself. */
  lemma PublishedScoreCanHideAnomaly()
    ensures var r := Analyze(Config(3.0, "1.0.0"), 103.0000004, 100.0, 1.0);
            r.Ok? && r.value.isAnomaly && r.value.anomalyScore == 3.0
  {
    assert Abs(103.0000004 - 100.0) / 1.0 == 3.0000004;
    assert 3.0000004 * SIX_DECIMALS == 3000000.4;
    assert (3000000.4).Floor == 3000000;
  }

  lemma ConfidenceSign(z: real, threshold: real)
    requires threshold != 0.0 && z >= 0.0
    ensures threshold > 0.0 ==> 0.5 <= Confidence(z, threshold) <= 1.0
    ensures threshold < 0.0 ==> Confidence(z, threshold) <= 0.0
  {
    if threshold < 0.0 {
      var margin := Abs(z - threshold) / threshold;
      assert margin * threshold == z - threshold;
      assert (margin + 1.0) * threshold == z;
    }
  }

  /** The confidence lies in [0.5, 1] exactly when the configured threshold is positive. */
  lemma ConfidenceInRange(cfg: Config, measured: real, reference: real, uncertainty: real)
    requires uncertainty > 0.0 && cfg.threshold != 0.0
    ensures var r := Analyze(cfg, measured, reference, uncertainty).value;
            0.5 <= r.confidence <= 1.0 <==> cfg.threshold > 0.0
  {
    var z := ZScore(measured, reference, uncertainty);
    var c := Confidence(z, cfg.threshold);
    ConfidenceSign(z, cfg.threshold);
    RoundOnGrid(0.0, FOUR_DECIMALS);
    RoundOnGrid(0.5, FOUR_DECIMALS);
    RoundOnGrid(1.0, FOUR_DECIMALS);
    if cfg.threshold > 0.0 {
      RoundMonotone(c, 1.0, FOUR_DECIMALS);
      RoundMonotone(0.5, c, FOUR_DECIMALS);
    } else {
      RoundMonotone(c, 0.0, FOUR_DECIMALS);
    }
  }

  /** The further a score is from a positive threshold, the higher the published confidence. */
  lemma ConfidenceMonotone(cfg: Config, m1: real, r1: real, u1: real, m2: real, r2: real, u2: real)
    requires cfg.threshold > 0.0 && u1 > 0.0 && u2 > 0.0
    requires Abs(ZScore(m1, r1, u1) - cfg.threshold) <= Abs(ZScore(m2, r2, u2) - cfg.threshold)
    ensures Analyze(cfg, m1, r1, u1).value.confidence <= Analyze(cfg, m2, r2, u2).value.confidence
  {
    var z1, z2 := ZScore(m1, r1, u1), ZScore(m2, r2, u2);
    ConfidenceOrder(z1, z2, cfg.threshold);
    RoundMonotone(Confidence(z1, cfg.threshold), Confidence(z2, cfg.threshold), FOUR_DECIMALS);
  }

  lemma ConfidenceOrder(z1: real, z2: real, threshold: real)
    requires threshold > 0.0 && Abs(z1 - threshold) <= Abs(z2 - threshold)
    ensures Confidence(z1, threshold) <= Confidence(z2, threshold)
  {
    DivOrder(Abs(z1 - threshold), Abs(z2 - threshold), threshold);
  }

  lemma ScaledRatio(a: real, b: real, c: real)
    requires b != 0.0 && c > 0.0
    ensures c * b != 0.0 && (c * a) / (c * b) == a / b
  {
    assert a == a / b * b;
    assert c * a == a / b * (c * b);
  }

  lemma ScaledAbs(a: real, c: real)
    requires c > 0.0
    ensures Abs(c * a) == c * Abs(a)
  {}

  lemma ZScoreScales(measured: real, reference: real, uncertainty: real, c: real)
    requires c > 0.0 && uncertainty > 0.0
    ensures c * uncertainty > 0.0
    ensures ZScore(c * measured, c * reference, c * uncertainty) == ZScore(measured, reference, uncertainty)
  {
    assert c * measured - c * reference == c * (measured - reference);
    ScaledAbs(measured - reference, c);
    ScaledRatio(Abs(measured - reference), uncertainty, c);
  }

  lemma DeviationScales(measured: real, reference: real, c: real)
    requires c > 0.0
    ensures DeviationPct(c * measured, c * reference) == DeviationPct(measured, reference)
  {
    if reference != 0.0 {
      assert c * reference != 0.0;
      assert c * measured - c * reference == c * (measured - reference);
      ScaledAbs(measured - reference, c);
      ScaledAbs(reference, c);
      ScaledRatio(Abs(measured - reference), Abs(reference), c);
    }
  }

  /** Units do not matter: scaling all three inputs keeps verdict, score, deviation and confidence. */
  lemma UnitsDoNotMatter(cfg: Config, measured: real, reference: real, uncertainty: real, c: real)
    requires c > 0.0
    ensures var a := Analyze(cfg, measured, reference, uncertainty);
            var b := Analyze(cfg, c * measured, c * reference, c * uncertainty);
            a.Ok? == b.Ok? && (a.Ok? ==>
              a.value.(details := b.value.details) == b.value && a.value.details.zScore == b.value.details.zScore)
  {
    assert (c * uncertainty <= 0.0) == (uncertainty <= 0.0);
    if uncertainty > 0.0 {
      ZScoreScales(measured, reference, uncertainty, c);
      DeviationScales(measured, reference, c);
    }
  }
}
