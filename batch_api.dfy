/**
 * The batch quality-control endpoints: the filtered batch list, the detailed record of one batch
 * with its QC tests, the yield prediction and the yield-trend analytics.
 */
module BatchApi {
  import opened Wrappers
  import opened Draws
  import opened Text
  import opened Seqs
  import opened EntityRecords

  /** A query parameter outside its declared bounds (HTTP 422). */
  datatype QueryError = LimitOutOfRange | DaysOutOfRange

  // ---------------------------------------------------------------- list

  predicate StatusMatches(status: Option<string>, b: BatchRecord)
  {
    !Truthy(status) || b.status == status.value
  }

  predicate ProductMatches(product: Option<string>, b: BatchRecord)
  {
    !Truthy(product) || ContainsIgnoreCase(b.productName, product.value)
  }

  /** `list_batches`: `limit` generated batches narrowed by status and then by product name, ignoring case. */
  function ListBatches(status: Option<string>, product: Option<string>, limit: int, now: int, draws: nat -> BatchDraws)
    : (r: Result<seq<BatchRecord>, QueryError>)
    ensures r.Err? <==> limit < 1 || limit > 500
    ensures r.Ok? ==> |r.value| <= limit
    ensures r.Ok? ==> forall b :: b in r.value <==>
      b in BatchRecords(limit, now, draws) && StatusMatches(status, b) && ProductMatches(product, b)
    ensures r.Ok? ==> IsSubsequence(r.value, BatchRecords(limit, now, draws))
  {
    if limit < 1 || limit > 500 then Err(LimitOutOfRange)
    else
      var all := BatchRecords(limit, now, draws);
      var byStatus := Filter((b: BatchRecord) => StatusMatches(status, b), all);
      FilterFilter((b: BatchRecord) => StatusMatches(status, b), (b: BatchRecord) => ProductMatches(product, b), all);
      Ok(Filter((b: BatchRecord) => ProductMatches(product, b), byStatus))
  }

  // ---------------------------------------------------------------- details

  /** The index of the first batch with the given id: `next((b for b in batches if ...), None)`. */
  function FirstWithId(bs: seq<BatchRecord>, batchId: string): (r: Option<nat>)
    ensures r.Some? ==>
      && r.value < |bs| && bs[r.value].batchId == batchId
      && forall k :: 0 <= k < r.value ==> bs[k].batchId != batchId
    ensures r.None? <==> forall b :: b in bs ==> b.batchId != batchId
    decreases |bs|
  {
    if bs == [] then None
    else if bs[0].batchId == batchId then Some(0)
    else
      var rest := FirstWithId(bs[1..], batchId);
      assert forall b :: b in bs <==> b == bs[0] || b in bs[1..];
      if rest.Some? then Some(rest.value + 1) else None
  }

  datatype QualityTest = QualityTest(testId: string, testName: string, resultValue: Option<real>,
                                     specification: string, result: string)

  datatype BatchDetails = BatchDetails(record: BatchRecord, qualityTests: seq<QualityTest>,
                                       cultureDurationHours: int)

  /** The potency test passes within 90 to 110 percent. */
  function PotencyResult(potency: real): (r: string)
    ensures r == "Pass" <==> 90.0 <= potency <= 110.0
    ensures r == "Pass" || r == "Fail"
  {
    if 90.0 <= potency <= 110.0 then "Pass" else "Fail"
  }

  /** The four QC tests attached to a batch; only potency is judged, the others always pass. */
  function QualityTests(batchId: string, b: BatchRecord): (ts: seq<QualityTest>)
    ensures |ts| == 4
    ensures ts[2].result == PotencyResult(b.potencyPercent) && ts[2].resultValue == Some(b.potencyPercent)
    ensures ts[1].resultValue == Some(b.purityPercent)
    ensures forall k :: 0 <= k < 4 && k != 2 ==> ts[k].result == "Pass"
    ensures forall k :: 0 <= k < 4 ==> ts[k].testId == "QC-" + batchId + "-00" + [DigitChar(k + 1)]
  {
    [ QualityTest("QC-" + batchId + "-001", "Identity (SDS-PAGE)", None, "", "Pass"),
      QualityTest("QC-" + batchId + "-002", "Purity (HPLC)", Some(b.purityPercent), ">95%", "Pass"),
      QualityTest("QC-" + batchId + "-003", "Potency (ELISA)", Some(b.potencyPercent), "90-110%",
                  PotencyResult(b.potencyPercent)),
      QualityTest("QC-" + batchId + "-004", "Endotoxin", Some(0.15), "<0.5 EU/mL", "Pass") ]
  }

  /**
   * `get_batch_details`: the first of ten generated batches with the id, or else the first batch
   * relabelled with the requested id; every request therefore gets a record.
   */
  function GetBatchDetails(batchId: string, now: int, draws: nat -> BatchDraws): (r: BatchDetails)
    ensures r.record.batchId == batchId
    ensures var bs := BatchRecords(10, now, draws);
      FirstWithId(bs, batchId).Some? ==> r.record == bs[FirstWithId(bs, batchId).value]
    ensures var bs := BatchRecords(10, now, draws);
      FirstWithId(bs, batchId).None? ==> r.record == bs[0].(batchId := batchId)
    ensures r.qualityTests == QualityTests(batchId, r.record)
  {
    var bs := BatchRecords(10, now, draws);
    var found := FirstWithId(bs, batchId);
    var b := if found.Some? then bs[found.value] else bs[0].(batchId := batchId);
    BatchDetails(b, QualityTests(batchId, b), 168)
  }

  /** The ids of the ten batches are exactly B2024-001 to B2024-010, so those are found and nothing else is. */
  lemma BatchDetailsFound(n: nat, now: int, draws: nat -> BatchDraws)
    requires 1 <= n <= 10
    ensures FirstWithId(BatchRecords(10, now, draws), BatchId(n)) == Some(n - 1)
  {
    var bs := BatchRecords(10, now, draws);
    forall k | 0 <= k < n - 1 ensures bs[k].batchId != BatchId(n) {
      PaddedIdInjective("B2024-", k + 1, n, 3);
    }
    FirstIndexUnique(bs, BatchId(n), n - 1);
  }

  /** An index whose element matches and before which nothing matches is the first match. */
  lemma {:induction false} FirstIndexUnique(bs: seq<BatchRecord>, batchId: string, i: nat)
    requires i < |bs| && bs[i].batchId == batchId
    requires forall k :: 0 <= k < i ==> bs[k].batchId != batchId
    ensures FirstWithId(bs, batchId) == Some(i)
    decreases i
  {
    if i > 0 {
      FirstIndexUnique(bs[1..], batchId, i - 1);
    }
  }

  /** Generated potency is clamped to 90-110, so the potency test of a generated batch always passes. */
  lemma GeneratedPotencyPasses(batchId: string, now: int, draws: nat -> BatchDraws)
    ensures var r := GetBatchDetails(batchId, now, draws);
      forall t :: t in r.qualityTests ==> t.result == "Pass"
  {
    var r := GetBatchDetails(batchId, now, draws);
    var bs := BatchRecords(10, now, draws);
    var found := FirstWithId(bs, batchId);
    var k := if found.Some? then found.value else 0;
    BatchAtWellFormed(k, now, draws(k));
    assert 90.0 <= r.record.potencyPercent <= 110.0;
    assert forall k :: 0 <= k < 4 ==> r.qualityTests[k].result == "Pass";
  }

  // ---------------------------------------------------------------- yield prediction

  datatype YieldPrediction = YieldPrediction(
    batchId: string, predictedYieldPercent: real, confidenceLow: real, confidenceHigh: real,
    modelVersion: string, modelConfidence: real, daysUntilHarvest: int, recommendation: string)

  const ProgressingWell: string := "Batch progressing well. Maintain current parameters."
  const ConsiderFeed: string := "Consider feed adjustment to improve yield."

  /** `predict_batch_yield`: a yield from [88, 96) with an interval 2 to 4 points wide on each side. */
  function PredictBatchYield(batchId: string, predicted: Unit, below: Unit, above: Unit): (r: YieldPrediction)
    ensures 88.0 <= r.predictedYieldPercent < 96.0
    ensures r.confidenceLow + 2.0 <= r.predictedYieldPercent <= r.confidenceLow + 4.0
    ensures r.predictedYieldPercent + 2.0 <= r.confidenceHigh <= r.predictedYieldPercent + 4.0
    ensures r.confidenceLow < r.predictedYieldPercent < r.confidenceHigh
    ensures r.recommendation == ProgressingWell <==> r.predictedYieldPercent > 90.0
    ensures r.recommendation == ProgressingWell || r.recommendation == ConsiderFeed
  {
    var y := Uniform(88.0, 96.0, predicted);
    YieldPrediction(batchId, y, y - Uniform(2.0, 4.0, below), y + Uniform(2.0, 4.0, above),
                    "yield-predictor-v1.3", 0.87, 5, if y > 90.0 then ProgressingWell else ConsiderFeed)
  }

  // ---------------------------------------------------------------- yield trends

  /** The target yield the trend counts batches against. */
  const TargetYield: real := 90.0

  datatype YieldTrends = YieldTrends(
    periodDays: int, totalBatches: nat, averageYield: real, minYield: real, maxYield: real,
    batchesBelowTarget: nat, targetAchievementRate: real, recentBatches: seq<BatchRecord>)

  predicate NonZero(y: real) { y != 0.0 }
  predicate BelowTarget(y: real) { y < TargetYield }
  predicate AtTarget(y: real) { y >= TargetYield }

  /** `[b['yield_percent'] for b in batches if b['yield_percent']]`. */
  function Yields(bs: seq<BatchRecord>): seq<real>
  {
    Filter(NonZero, Map((b: BatchRecord) => b.yieldPercent, bs))
  }

  /** The trend statistics of a list of batches; every statistic is 0 when no batch has a yield. */
  function Trends(days: int, bs: seq<BatchRecord>): (t: YieldTrends)
    ensures t.totalBatches == |bs|
    ensures t.batchesBelowTarget == Count(BelowTarget, Yields(bs))
    ensures t.batchesBelowTarget + Count(AtTarget, Yields(bs)) == |Yields(bs)|
    ensures 0.0 <= t.targetAchievementRate <= 100.0
    ensures |Yields(bs)| > 0 ==> t.minYield <= t.averageYield <= t.maxYield
    ensures |Yields(bs)| > 0 ==>
      t.averageYield == Mean(Yields(bs)) && t.minYield == Min(Yields(bs)) && t.maxYield == Max(Yields(bs))
    ensures |Yields(bs)| > 0 ==>
      t.targetAchievementRate == AchievementRate(Count(AtTarget, Yields(bs)), |Yields(bs)|)
    ensures |Yields(bs)| == 0 ==>
      && t.averageYield == 0.0 && t.minYield == 0.0 && t.maxYield == 0.0
      && t.targetAchievementRate == 0.0
    ensures t.recentBatches == bs[..if |bs| < 10 then |bs| else 10]
  {
    var ys := Yields(bs);
    var spread, targets := Spread(ys), Targets(ys);
    YieldTrends(days, |bs|, spread.0, spread.1, spread.2, targets.0, targets.1, bs[..if |bs| < 10 then |bs| else 10])
  }

  /** (average, min, max) of the yields, all 0 for no yields. */
  function Spread(ys: seq<real>): (r: (real, real, real))
    ensures |ys| > 0 ==> r == (Mean(ys), Min(ys), Max(ys))
    ensures |ys| > 0 ==> r.1 <= r.0 <= r.2
    ensures |ys| == 0 ==> r == (0.0, 0.0, 0.0)
  {
    if |ys| > 0 then
      MeanBetweenMinAndMax(ys);
      (Mean(ys), Min(ys), Max(ys))
    else (0.0, 0.0, 0.0)
  }

  /** (batches below target, achievement rate) of the yields; the rate is 0 for no yields. */
  function Targets(ys: seq<real>): (r: (nat, real))
    ensures r.0 == Count(BelowTarget, ys) && r.0 + Count(AtTarget, ys) == |ys|
    ensures 0.0 <= r.1 <= 100.0
    ensures |ys| > 0 ==> r.1 == AchievementRate(Count(AtTarget, ys), |ys|)
    ensures |ys| == 0 ==> r.1 == 0.0
  {
    CountSplit(BelowTarget, AtTarget, ys);
    (Count(BelowTarget, ys), if |ys| > 0 then AchievementRate(Count(AtTarget, ys), |ys|) else 0.0)
  }

  /** `len(at_target) / len(yields) * 100`, without the rounding. */
  function AchievementRate(atTarget: nat, total: nat): (r: real)
    requires 0 < total && atTarget <= total
    ensures 0.0 <= r <= 100.0
    ensures r * (total as real) == atTarget as real * 100.0
    ensures r == 100.0 <==> atTarget == total
  {
    QuotientBounds(atTarget as real, total as real, 0.0, 1.0);
    atTarget as real / total as real * 100.0
  }

  /** `get_yield_trends`: the trends of 50 generated batches; the product filter is accepted and never applied. */
  function GetYieldTrends(days: int, product: Option<string>, now: int, draws: nat -> BatchDraws)
    : (r: Result<YieldTrends, QueryError>)
    ensures r.Err? <==> days < 7 || days > 365
    ensures r.Ok? ==> r.value == Trends(days, BatchRecords(50, now, draws))
  {
    if days < 7 || days > 365 then Err(DaysOutOfRange) else Ok(Trends(days, BatchRecords(50, now, draws)))
  }

  /** Generated yields are clamped to [75, 98], so none is zero and every batch keeps its yield. */
  lemma GeneratedYields(n: nat, now: int, draws: nat -> BatchDraws)
    ensures |Yields(BatchRecords(n, now, draws))| == n
    ensures forall y :: y in Yields(BatchRecords(n, now, draws)) ==> 75.0 <= y <= 98.0
  {
    var bs := BatchRecords(n, now, draws);
    var raw := Map((b: BatchRecord) => b.yieldPercent, bs);
    forall k | 0 <= k < |raw| ensures NonZero(raw[k]) && 75.0 <= raw[k] <= 98.0 {
      BatchAtWellFormed(k, now, draws(k));
    }
    FilterAllPass(NonZero, raw);
  }

  /** When every yield lies in [lo, hi], so do the minimum, the average and the maximum. */
  lemma TrendsWithin(days: int, bs: seq<BatchRecord>, lo: real, hi: real)
    requires |Yields(bs)| > 0
    requires forall y :: y in Yields(bs) ==> lo <= y <= hi
    ensures lo <= Trends(days, bs).minYield <= Trends(days, bs).averageYield <= Trends(days, bs).maxYield <= hi
  {
    var ys := Yields(bs);
    assert Min(ys) in ys && Max(ys) in ys;
  }

  /**
   * No generated batch is dropped as yield-less: all 50 count, and the minimum, average and
   * maximum lie in [75, 98].
   */
  lemma GeneratedTrends(days: int, now: int, draws: nat -> BatchDraws)
    ensures var bs := BatchRecords(50, now, draws);
      var t := Trends(days, bs);
      |Yields(bs)| == 50 && 75.0 <= t.minYield <= t.averageYield <= t.maxYield <= 98.0
  {
    GeneratedYields(50, now, draws);
    TrendsWithin(days, BatchRecords(50, now, draws), 75.0, 98.0);
  }
}
