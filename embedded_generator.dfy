/**
 * The data generator embedded in the two dashboard apps. From the same per-sample draws, both copies
 * produce the same series, batches, equipment and alerts, with one difference: the standalone app's
 * samples omit the agitation reading. The apps consume their random streams differently, so the
 * same seed does not give them the same draws. The phase rule is the compact 4h/16h one, yields are drawn without clamping,
 * and statuses come from the shared 85/70 and 0.3/0.7 thresholds.
 */
module EmbeddedGenerator {
  import opened Wrappers
  import opened Draws
  import opened Text
  import opened Buckets
  import opened GrowthPhase
  import opened SensorSeries
  import EntityRecords

  /** Which app the generator is embedded in. */
  datatype App = Fixed | Standalone

  // ---------------------------------------------------------------- time series

  /** The five normal draws of one sample, with mean zero. */
  datatype CompactNoise = CompactNoise(temperature: real, ph: real, dissolvedOxygen: real, agitation: real,
                                       cellDensity: real)

  /** One sample; `agitationRpm` is absent in the standalone app. No phase and no bioreactor are stored. */
  datatype CompactSample = CompactSample(timestamp: int, temperature: real, ph: real, dissolvedOxygen: real,
                                         agitationRpm: Option<int>, cellDensity: real)

  /** Python's `int(x)`: truncation toward zero. */
  function Truncate(x: real): (r: int)
    ensures x >= 0.0 ==> r as real <= x < r as real + 1.0
    ensures x < 0.0 ==> r as real - 1.0 < x <= r as real
  {
    if x >= 0.0 then x.Floor else -((-x).Floor)
  }

  /** Sample `i` of `count`, taken `count - i` intervals before `now`. */
  function CompactSampleAt(app: App, i: int, count: int, intervalMinutes: int, now: int, n: CompactNoise)
    : (s: CompactSample)
    ensures s.timestamp == now - intervalMinutes * (count - i)
    ensures s.agitationRpm.Some? <==> app == Fixed
    ensures s.cellDensity >= 0.0
  {
    var gf := CompactClassify(ElapsedHours(i, intervalMinutes)).growthFactor;
    CompactSample(
      now - intervalMinutes * (count - i),
      37.0 + n.temperature,
      7.0 + n.ph,
      45.0 + n.dissolvedOxygen,
      if app == Fixed then Some(Truncate(120.0 + n.agitation)) else None,
      Max0(gf * 4.5 + n.cellDensity))
  }

  /** The series `generate_bioreactor_timeseries` returns, sample `i` drawing `noise(i)`. */
  function CompactSeries(app: App, hours: int, intervalMinutes: int, now: int, noise: nat -> CompactNoise)
    : (s: seq<CompactSample>)
    requires intervalMinutes != 0
    ensures |s| == SampleCount(hours, intervalMinutes)
    ensures forall i :: 0 <= i < |s| ==>
      s[i] == CompactSampleAt(app, i, SampleCount(hours, intervalMinutes), intervalMinutes, now, noise(i))
  {
    var count := SampleCount(hours, intervalMinutes);
    seq(count, i requires 0 <= i < count => CompactSampleAt(app, i, count, intervalMinutes, now, noise(i)))
  }

  /** `generate_bioreactor_timeseries`: appends one sample per index; a zero interval fails. */
  method GenerateBioreactorTimeseries(app: App, hours: int, intervalMinutes: int, now: int,
                                      noise: nat -> CompactNoise)
    returns (r: Result<seq<CompactSample>, SeriesError>)
    ensures intervalMinutes == 0 ==> r == Err(ZeroInterval)
    ensures intervalMinutes != 0 ==> r == Ok(CompactSeries(app, hours, intervalMinutes, now, noise))
  {
    if intervalMinutes == 0 {
      return Err(ZeroInterval);
    }
    var count := SampleCount(hours, intervalMinutes);
    var data: seq<CompactSample> := [];
    var i := 0;
    while i < count
      invariant 0 <= i <= count
      invariant |data| == i
      invariant forall k :: 0 <= k < i ==> data[k] == CompactSampleAt(app, k, count, intervalMinutes, now, noise(k))
    {
      var n := noise(i);
      var growthFactor := CompactClassify(ElapsedHours(i, intervalMinutes)).growthFactor;
      var agitation: Option<int> := None;
      if app == Fixed {
        agitation := Some(Truncate(120.0 + n.agitation));
      }
      var sample := CompactSample(
        now - intervalMinutes * (count - i), 37.0 + n.temperature, 7.0 + n.ph, 45.0 + n.dissolvedOxygen,
        agitation, Max0(growthFactor * 4.5 + n.cellDensity));
      assert sample == CompactSampleAt(app, i, count, intervalMinutes, now, n);
      data := data + [sample];
      i := i + 1;
    }
    assert data == CompactSeries(app, hours, intervalMinutes, now, noise);
    return Ok(data);
  }

  /**
   * Every sample has a non-negative cell density; the samples run one interval apart and end one
   * interval before `now`; only the fixed app records agitation.
   */
  lemma CompactSeriesWellFormed(app: App, hours: int, intervalMinutes: int, now: int, noise: nat -> CompactNoise)
    requires intervalMinutes != 0
    ensures forall s :: s in CompactSeries(app, hours, intervalMinutes, now, noise) ==>
      s.cellDensity >= 0.0 && (s.agitationRpm.Some? <==> app == Fixed)
    ensures forall i :: 0 < i < |CompactSeries(app, hours, intervalMinutes, now, noise)| ==>
      CompactSeries(app, hours, intervalMinutes, now, noise)[i].timestamp
        == CompactSeries(app, hours, intervalMinutes, now, noise)[i - 1].timestamp + intervalMinutes
    ensures |CompactSeries(app, hours, intervalMinutes, now, noise)| > 0 ==>
      Last(CompactSeries(app, hours, intervalMinutes, now, noise)).timestamp == now - intervalMinutes
  {
    var s := CompactSeries(app, hours, intervalMinutes, now, noise);
    var count := SampleCount(hours, intervalMinutes);
    forall i | 0 < i < |s|
      ensures s[i].timestamp == s[i - 1].timestamp + intervalMinutes
    {
      assert intervalMinutes * (count - (i - 1)) == intervalMinutes * (count - i) + intervalMinutes;
    }
  }

  function Last<T>(s: seq<T>): T
    requires |s| > 0
  {
    s[|s| - 1]
  }

  /** The two apps generate the same samples from the same draws, except for agitation. */
  lemma AppsDifferOnlyInAgitation(hours: int, intervalMinutes: int, now: int, noise: nat -> CompactNoise)
    requires intervalMinutes != 0
    ensures |CompactSeries(Standalone, hours, intervalMinutes, now, noise)|
         == |CompactSeries(Fixed, hours, intervalMinutes, now, noise)|
    ensures forall i :: 0 <= i < |CompactSeries(Fixed, hours, intervalMinutes, now, noise)| ==>
      CompactSeries(Standalone, hours, intervalMinutes, now, noise)[i]
        == CompactSeries(Fixed, hours, intervalMinutes, now, noise)[i].(agitationRpm := None)
  {
  }

  /**
   * Without noise the density follows the growth factor: 0.45 in the lag phase, 4.5 once stationary,
   * and it never falls after the lag phase.
   */
  lemma NoiselessDensityCurve(h1: real, h2: real)
    requires h1 <= h2
    ensures h1 < 4.0 ==> Max0(CompactClassify(h1).growthFactor * 4.5) == 0.45
    ensures h1 >= 16.0 ==> Max0(CompactClassify(h1).growthFactor * 4.5) == 4.5
    ensures h1 >= 4.0 ==> Max0(CompactClassify(h1).growthFactor * 4.5) <= Max0(CompactClassify(h2).growthFactor * 4.5)
  {
    if h1 >= 4.0 {
      CompactGrowthRisesAfterLag(h1, h2);
    }
  }

  // ---------------------------------------------------------------- batch records

  const CompactProducts: seq<string> := ["mAb-A", "Vaccine-X", "Insulin-Pro"]
  const CompactStatuses: seq<string> := ["In Progress", "QC Review", "Released"]

  /** The draws of one batch; the yield and quality scores are the normal draws themselves. */
  datatype CompactBatchDraws = CompactBatchDraws(product: Unit, status: Unit, yieldDraw: real, qualityDraw: real)

  datatype CompactBatch = CompactBatch(batchId: string, productName: string, status: string, yieldPercent: real,
                                       qualityScore: real)

  function CompactBatchAt(i: nat, d: CompactBatchDraws): (b: CompactBatch)
    ensures b.batchId == EntityRecords.BatchId(i + 1)
    ensures b.productName in CompactProducts && b.status in CompactStatuses
    ensures b.yieldPercent == d.yieldDraw
  {
    CompactBatch(EntityRecords.BatchId(i + 1), Choice(CompactProducts, d.product), Choice(CompactStatuses, d.status),
                 d.yieldDraw, d.qualityDraw)
  }

  function CompactBatches(numBatches: int, draws: nat -> CompactBatchDraws): (bs: seq<CompactBatch>)
    ensures |bs| == EntityRecords.RangeCount(numBatches)
    ensures forall i :: 0 <= i < |bs| ==> bs[i] == CompactBatchAt(i, draws(i))
  {
    seq(EntityRecords.RangeCount(numBatches), i requires 0 <= i => CompactBatchAt(i, draws(i)))
  }

  /** `generate_batch_records`: one batch per index, appended in order. */
  method GenerateBatchRecords(numBatches: int, draws: nat -> CompactBatchDraws) returns (batches: seq<CompactBatch>)
    ensures batches == CompactBatches(numBatches, draws)
  {
    batches := [];
    var i := 0;
    while i < numBatches
      invariant 0 <= i <= EntityRecords.RangeCount(numBatches)
      invariant |batches| == i
      invariant forall k :: 0 <= k < i ==> batches[k] == CompactBatchAt(k, draws(k))
    {
      var d := draws(i);
      var batch := CompactBatch(EntityRecords.BatchId(i + 1), Choice(CompactProducts, d.product),
                                Choice(CompactStatuses, d.status), d.yieldDraw, d.qualityDraw);
      batches := batches + [batch];
      i := i + 1;
    }
  }

  /** Batch ids are distinct, and products and statuses come from the fixed lists. */
  lemma CompactBatchesWellFormed(numBatches: int, draws: nat -> CompactBatchDraws)
    ensures forall b :: b in CompactBatches(numBatches, draws) ==>
      b.productName in CompactProducts && b.status in CompactStatuses
    ensures forall i, j :: 0 <= i < j < |CompactBatches(numBatches, draws)| ==>
      CompactBatches(numBatches, draws)[i].batchId != CompactBatches(numBatches, draws)[j].batchId
  {
    forall i, j | 0 <= i < j < |CompactBatches(numBatches, draws)|
      ensures CompactBatches(numBatches, draws)[i].batchId != CompactBatches(numBatches, draws)[j].batchId
    {
      PaddedIdInjective("B2024-", i + 1, j + 1, 3);
    }
  }

  /** Unlike the backend generator, the yield is not clamped: any draw, even above 100%, is kept. */
  lemma CompactYieldUnclamped(i: nat, d: CompactBatchDraws)
    ensures CompactBatchAt(i, d).yieldPercent == d.yieldDraw
    ensures d.yieldDraw > 100.0 ==> CompactBatchAt(i, d).yieldPercent > 100.0
  {
  }

  // ---------------------------------------------------------------- equipment

  const CompactEquipmentTypes: seq<string> := ["Bioreactor", "Centrifuge", "Lyophilizer"]

  datatype CompactEquipmentDraws = CompactEquipmentDraws(health: Unit, kind: Unit, maintenanceDays: Unit)

  /** `nextMaintenance` is the timestamp in minutes, 5 to 90 days after `now`. */
  datatype CompactEquipment = CompactEquipment(name: string, equipmentType: string, healthScore: real,
                                               status: HealthStatus, nextMaintenance: int)

  function CompactEquipmentAt(i: nat, now: int, d: CompactEquipmentDraws): (e: CompactEquipment)
    ensures 65.0 <= e.healthScore < 98.0 && e.status == HealthStatusOf(e.healthScore)
    ensures e.equipmentType in CompactEquipmentTypes
    ensures now + 5 * EntityRecords.MinutesPerDay <= e.nextMaintenance <= now + 90 * EntityRecords.MinutesPerDay
  {
    var health := Uniform(65.0, 98.0, d.health);
    CompactEquipment("Equipment-" + ZFill(NatToString(i + 1), 2), Choice(CompactEquipmentTypes, d.kind), health,
                     HealthStatusOf(health), now + RandInt(5, 90, d.maintenanceDays) * EntityRecords.MinutesPerDay)
  }

  function CompactEquipmentList(numEquipment: int, now: int, draws: nat -> CompactEquipmentDraws)
    : (es: seq<CompactEquipment>)
    ensures |es| == EntityRecords.RangeCount(numEquipment)
    ensures forall i :: 0 <= i < |es| ==> es[i] == CompactEquipmentAt(i, now, draws(i))
  {
    seq(EntityRecords.RangeCount(numEquipment), i requires 0 <= i => CompactEquipmentAt(i, now, draws(i)))
  }

  /** `generate_equipment_health`: one record per index, its status bucketed from its health. */
  method GenerateEquipmentHealth(numEquipment: int, now: int, draws: nat -> CompactEquipmentDraws)
    returns (equipment: seq<CompactEquipment>)
    ensures equipment == CompactEquipmentList(numEquipment, now, draws)
  {
    equipment := [];
    var i := 0;
    while i < numEquipment
      invariant 0 <= i <= EntityRecords.RangeCount(numEquipment)
      invariant |equipment| == i
      invariant forall k :: 0 <= k < i ==> equipment[k] == CompactEquipmentAt(k, now, draws(k))
    {
      var d := draws(i);
      var health := Uniform(65.0, 98.0, d.health);
      var status: HealthStatus;
      if health >= OperationalMin {
        status := Operational;
      } else if health >= WarningMin {
        status := Warning;
      } else {
        status := Critical;
      }
      var days := RandInt(5, 90, d.maintenanceDays);
      var e := CompactEquipment("Equipment-" + ZFill(NatToString(i + 1), 2), Choice(CompactEquipmentTypes, d.kind),
                                health, status, now + days * EntityRecords.MinutesPerDay);
      equipment := equipment + [e];
      i := i + 1;
    }
  }

  /** Health lies in [65, 98), the status is its 85/70 bucket, maintenance falls 5 to 90 days ahead. */
  lemma CompactEquipmentWellFormed(numEquipment: int, now: int, draws: nat -> CompactEquipmentDraws)
    ensures forall e :: e in CompactEquipmentList(numEquipment, now, draws) ==>
      && 65.0 <= e.healthScore < 98.0
      && e.status == HealthStatusOf(e.healthScore)
      && e.equipmentType in CompactEquipmentTypes
      && now + 5 * EntityRecords.MinutesPerDay <= e.nextMaintenance <= now + 90 * EntityRecords.MinutesPerDay
  {
  }

  /** The health range reaches all three statuses. */
  lemma CompactEquipmentStatusesReachable(i: nat, now: int, kind: Unit, days: Unit)
    ensures CompactEquipmentAt(i, now, CompactEquipmentDraws(0.0, kind, days)).status == Critical
    ensures CompactEquipmentAt(i, now, CompactEquipmentDraws(0.2, kind, days)).status == Warning
    ensures CompactEquipmentAt(i, now, CompactEquipmentDraws(0.9, kind, days)).status == Operational
  {
  }

  // ---------------------------------------------------------------- contamination alerts

  /** The draws of one alert: a Beta(2, 5) risk score, the hours back, and the bioreactor number. */
  datatype CompactAlertDraws = CompactAlertDraws(risk: Probability, hoursAgo: Unit, bioreactor: Unit)

  datatype CompactAlert = CompactAlert(timestamp: int, bioreactor: string, riskScore: real, status: RiskLevel,
                                       action: string)

  function CompactAlertAt(now: int, d: CompactAlertDraws): (a: CompactAlert)
    ensures a.status == AlertRiskLevel(a.riskScore) && a.action == AlertAction(a.status)
    ensures now - 72 * EntityRecords.MinutesPerHour <= a.timestamp <= now - EntityRecords.MinutesPerHour
  {
    var level := AlertRiskLevel(d.risk);
    CompactAlert(now - RandInt(1, 72, d.hoursAgo) * EntityRecords.MinutesPerHour,
                 "BR-" + ZFill(NatToString(RandInt(1, 5, d.bioreactor)), 2), d.risk, level, AlertAction(level))
  }

  function CompactAlerts(numAlerts: int, now: int, draws: nat -> CompactAlertDraws): (as_: seq<CompactAlert>)
    ensures |as_| == EntityRecords.RangeCount(numAlerts)
    ensures forall i :: 0 <= i < |as_| ==> as_[i] == CompactAlertAt(now, draws(i))
  {
    seq(EntityRecords.RangeCount(numAlerts), i requires 0 <= i => CompactAlertAt(now, draws(i)))
  }

  /** `generate_contamination_alerts`: one alert per index, its status and action bucketed from its score. */
  method GenerateContaminationAlerts(numAlerts: int, now: int, draws: nat -> CompactAlertDraws)
    returns (alerts: seq<CompactAlert>)
    ensures alerts == CompactAlerts(numAlerts, now, draws)
  {
    alerts := [];
    var i := 0;
    while i < numAlerts
      invariant 0 <= i <= EntityRecords.RangeCount(numAlerts)
      invariant |alerts| == i
      invariant forall k :: 0 <= k < i ==> alerts[k] == CompactAlertAt(now, draws(k))
    {
      var d := draws(i);
      var status: RiskLevel;
      if d.risk < MediumRiskMin {
        status := Low;
      } else if d.risk < HighRiskMin {
        status := Medium;
      } else {
        status := High;
      }
      var action := if status == Low then "Monitor" else if status == Medium then "Investigate" else "Immediate Action";
      var hours := RandInt(1, 72, d.hoursAgo);
      var reactor := RandInt(1, 5, d.bioreactor);
      var alert := CompactAlert(now - hours * EntityRecords.MinutesPerHour, "BR-" + ZFill(NatToString(reactor), 2),
                                d.risk, status, action);
      alerts := alerts + [alert];
      i := i + 1;
    }
  }

  /** `"BR-" + str(n).zfill(2)` for n in 1..5 is one of the five bioreactor ids. */
  lemma ReactorName(n: int)
    requires 1 <= n <= 5
    ensures "BR-" + ZFill(NatToString(n), 2) in EntityRecords.Bioreactors
  {
    assert NatToString(n) == [DigitChar(n)];
    assert ZFill(NatToString(n), 2) == "0" + [DigitChar(n)];
    assert "BR-" + ZFill(NatToString(n), 2) == EntityRecords.Bioreactors[n - 1];
  }

  /**
   * Every alert's (status, action) pair is (Low, Monitor) below 0.3, (Medium, Investigate) below 0.7 and
   * (High, Immediate Action) otherwise; it names one of the five bioreactors and lies 1 to 72 hours back.
   */
  lemma CompactAlertsWellFormed(numAlerts: int, now: int, draws: nat -> CompactAlertDraws)
    ensures forall a :: a in CompactAlerts(numAlerts, now, draws) ==>
      && (a.riskScore < 0.3 <==> a.status == Low && a.action == "Monitor")
      && (0.3 <= a.riskScore < 0.7 <==> a.status == Medium && a.action == "Investigate")
      && (a.riskScore >= 0.7 <==> a.status == High && a.action == "Immediate Action")
      && a.bioreactor in EntityRecords.Bioreactors
      && now - 72 * EntityRecords.MinutesPerHour <= a.timestamp <= now - EntityRecords.MinutesPerHour
  {
    forall a | a in CompactAlerts(numAlerts, now, draws)
      ensures a.bioreactor in EntityRecords.Bioreactors
    {
      var i :| 0 <= i < |CompactAlerts(numAlerts, now, draws)| && CompactAlerts(numAlerts, now, draws)[i] == a;
      ReactorName(RandInt(1, 5, draws(i).bioreactor));
    }
  }
}
