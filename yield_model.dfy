/**
 * The yield formula used to label the training data of the yield predictor, and the confidence
 * interval put around a prediction. Training and inference of the regression model itself are not
 * part of this model.
 */
module YieldModel {
  import opened Draws

  /** The features of one batch that the yield formula reads. */
  datatype BatchFeatures = BatchFeatures(
    cellDensity48h: real,
    viability48h: real,
    mediaQuality: real,
    lactateRate: real,
    tempVariance: real,
    phVariance: real,
    passage: int)

  const BaseYield: real := 90.0
  const MinYield: real := 75.0
  const MaxYield: real := 98.0

  /** The batch every feature of which sits at the formula's reference point. */
  const Reference: BatchFeatures := BatchFeatures(1.2, 96.0, 95.0, 0.2, 0.0, 0.0, 15)

  /** Positive factors: early density, viability, media quality; lactate counts against. */
  function YieldVariation(f: BatchFeatures): real {
    (f.cellDensity48h - 1.2) * 10.0
    + (f.viability48h - 96.0) * 0.5
    + (f.mediaQuality - 95.0) * 0.3
    - (f.lactateRate - 0.2) * 15.0
  }

  /** Stability penalty: process variances and the cell-line passage number. */
  function StabilityPenalty(f: BatchFeatures): real {
    - f.tempVariance * 20.0
    - f.phVariance * 15.0
    - (f.passage - 15) as real * 0.1
  }

  /** The yield before clipping, with the normal noise draw `noise` added. */
  function RawYield(f: BatchFeatures, noise: real): real {
    BaseYield + YieldVariation(f) + StabilityPenalty(f) + noise
  }

  /** The labelled yield: the raw yield clipped to [75, 98]. */
  function Yield(f: BatchFeatures, noise: real): (r: real)
    ensures MinYield <= r <= MaxYield
    ensures MinYield <= RawYield(f, noise) <= MaxYield ==> r == RawYield(f, noise)
    ensures RawYield(f, noise) < MinYield ==> r == MinYield
    ensures RawYield(f, noise) > MaxYield ==> r == MaxYield
  {
    Clamp(MinYield, MaxYield, RawYield(f, noise))
  }

  /** At the reference features and without noise the formula gives exactly the base yield. */
  lemma ReferenceYield()
    ensures RawYield(Reference, 0.0) == BaseYield
    ensures Yield(Reference, 0.0) == BaseYield
  {
  }

  /**
   * `g` is at least as favourable a batch as `f`: no lower density, viability or media quality,
   * and no higher lactate rate, variances or passage number.
   */
  predicate AtLeastAsFavourable(g: BatchFeatures, f: BatchFeatures) {
    && g.cellDensity48h >= f.cellDensity48h
    && g.viability48h >= f.viability48h
    && g.mediaQuality >= f.mediaQuality
    && g.lactateRate <= f.lactateRate
    && g.tempVariance <= f.tempVariance
    && g.phVariance <= f.phVariance
    && g.passage <= f.passage
  }

  /** Before clipping, the yield is monotone in every feature, in the direction the formula gives it. */
  lemma RawYieldMonotone(f: BatchFeatures, g: BatchFeatures, noise: real)
    requires AtLeastAsFavourable(g, f)
    ensures RawYield(g, noise) >= RawYield(f, noise)
  {
    assert YieldVariation(g) >= YieldVariation(f);
    assert StabilityPenalty(g) >= StabilityPenalty(f);
  }

  /** Clipping keeps that order. */
  lemma YieldMonotone(f: BatchFeatures, g: BatchFeatures, noise: real)
    requires AtLeastAsFavourable(g, f)
    ensures Yield(g, noise) >= Yield(f, noise)
  {
    RawYieldMonotone(f, g, noise);
  }

  /** The marginal effect of each feature on the raw yield, as the formula's coefficients state it. */
  lemma Sensitivities(f: BatchFeatures, noise: real, d: real)
    ensures RawYield(f.(cellDensity48h := f.cellDensity48h + d), noise) == RawYield(f, noise) + 10.0 * d
    ensures RawYield(f.(viability48h := f.viability48h + d), noise) == RawYield(f, noise) + 0.5 * d
    ensures RawYield(f.(mediaQuality := f.mediaQuality + d), noise) == RawYield(f, noise) + 0.3 * d
    ensures RawYield(f.(lactateRate := f.lactateRate + d), noise) == RawYield(f, noise) - 15.0 * d
    ensures RawYield(f.(tempVariance := f.tempVariance + d), noise) == RawYield(f, noise) - 20.0 * d
    ensures RawYield(f.(phVariance := f.phVariance + d), noise) == RawYield(f, noise) - 15.0 * d
    ensures RawYield(f.(passage := f.passage + 1), noise) == RawYield(f, noise) - 0.1
  {
  }

  /** A 95% confidence interval around a prediction, 1.96 standard errors on each side. */
  datatype Interval = Interval(low: real, high: real)

  const ZScore95: real := 1.96

  function ConfidenceInterval(predicted: real, rmse: real): (r: Interval)
    ensures rmse >= 0.0 ==> r.low <= predicted <= r.high
    ensures predicted - r.low == r.high - predicted == ZScore95 * rmse
    ensures r.high - r.low == 3.92 * rmse
  {
    Interval(predicted - ZScore95 * rmse, predicted + ZScore95 * rmse)
  }
}
