/**
 * The row predicates, derived columns and window aggregates of the Delta Live Tables pipeline:
 * bronze sensor and equipment rows, the silver validation and spec flags, the equipment health
 * formula, the hourly and batch aggregates, contamination risk, predictive maintenance and the
 * data-quality score. A window is a sequence of rows and each aggregate a fold over it; `rand()`
 * values are explicit draws.
 */
module Pipeline {
  import opened Wrappers
  import opened Draws
  import opened Seqs
  import opened Buckets

  // ---------------------------------------------------------------- bronze layer

  /** A raw sensor row; temperature, pH and dissolved oxygen may be null. */
  datatype SensorRow = SensorRow(
    sensorTimestamp: int, bioreactorId: string, temperature: Option<real>, ph: Option<real>,
    dissolvedOxygen: Option<real>, agitationRpm: int, pressure: real, cellDensity: real, viableCellCount: int)

  /** The seven `rand()` values one synthetic bronze sensor row draws. */
  datatype SensorRowDraws = SensorRowDraws(
    temperature: Unit, ph: Unit, dissolvedOxygen: Unit, agitation: Unit, pressure: Unit, cellDensity: Unit,
    viableCellCount: Unit)

  /** A row of the synthetic `bronze_bioreactor_sensors` stream. */
  function BronzeSensorRow(ts: int, d: SensorRowDraws): (r: SensorRow)
    ensures r.temperature.Some? && 36.9 <= r.temperature.value < 37.1
    ensures r.ph.Some? && 6.95 <= r.ph.value < 7.05
    ensures r.dissolvedOxygen.Some? && 40.0 <= r.dissolvedOxygen.value < 50.0
  {
    SensorRow(
      ts, "BR-01", Some(37.0 + (d.temperature - 0.5) * 0.2), Some(7.0 + (d.ph - 0.5) * 0.1),
      Some(45.0 + (d.dissolvedOxygen - 0.5) * 10.0), 120 + (d.agitation * 10.0).Floor,
      1.2 + (d.pressure - 0.5) * 0.04, 3.5 + d.cellDensity * 1.5, (8500000.0 + d.viableCellCount * 2000000.0).Floor)
  }

  /** A raw equipment row. */
  datatype EquipmentRow = EquipmentRow(
    sensorTimestamp: int, equipmentId: string, equipmentType: string, runtimeHours: real,
    vibrationLevel: real, equipmentTemperature: real)

  /** A row of the synthetic `bronze_equipment_sensors` stream. */
  function BronzeEquipmentRow(ts: int, runtime: Unit, vibration: Unit, temperature: Unit): (r: EquipmentRow)
    ensures 0.0 <= r.runtimeHours < 1000.0 && 0.0 <= r.vibrationLevel < 5.0
  {
    ProductSigns(1000.0, runtime);
    ProductSigns(5.0, vibration);
    EquipmentRow(ts, "BR-01", "Bioreactor", runtime * 1000.0, vibration * 5.0, 25.0 + temperature * 10.0)
  }

  // ---------------------------------------------------------------- silver sensors

  /** The three drop expectations of `silver_bioreactor_sensors`; a null value fails them. */
  predicate ValidReading(r: SensorRow)
  {
    && r.temperature.Some? && 30.0 <= r.temperature.value <= 42.0
    && r.ph.Some? && 5.0 <= r.ph.value <= 9.0
    && r.dissolvedOxygen.Some? && 0.0 <= r.dissolvedOxygen.value <= 100.0
  }

  predicate TemperatureInSpec(t: real) { 36.9 <= t <= 37.1 }
  predicate PhInSpec(ph: real) { 6.95 <= ph <= 7.05 }
  predicate DissolvedOxygenInSpec(d: real) { 40.0 <= d <= 50.0 }

  /** A validated sensor row with its spec flags. */
  datatype SilverRow = SilverRow(
    sensorTimestamp: int, bioreactorId: string, temperature: real, ph: real, dissolvedOxygen: real,
    cellDensity: real, validationTimestamp: int, withinSpecTemp: bool, withinSpecPh: bool,
    withinSpecDo: bool, allSpecsMet: bool)

  /** The silver columns of one valid row. */
  function Validate(r: SensorRow, now: int): (s: SilverRow)
    requires ValidReading(r)
    ensures s.temperature == r.temperature.value && s.ph == r.ph.value && s.dissolvedOxygen == r.dissolvedOxygen.value
    ensures s.allSpecsMet <==> TemperatureInSpec(s.temperature) && PhInSpec(s.ph) && DissolvedOxygenInSpec(s.dissolvedOxygen)
  {
    var t, ph, dO := r.temperature.value, r.ph.value, r.dissolvedOxygen.value;
    var withinT := if TemperatureInSpec(t) then true else false;
    var withinPh := if PhInSpec(ph) then true else false;
    var withinDo := if DissolvedOxygenInSpec(dO) then true else false;
    SilverRow(r.sensorTimestamp, r.bioreactorId, t, ph, dO, r.cellDensity, now, withinT, withinPh, withinDo,
              withinT && withinPh && withinDo)
  }

  /** `silver_bioreactor_sensors` over a batch of bronze rows: drop the invalid ones, flag the rest. */
  function SilverSensors(rows: seq<SensorRow>, now: int): (r: seq<SilverRow>)
    ensures |r| == Count(ValidReading, rows) <= |rows|
    ensures forall k :: 0 <= k < |r| ==> r[k] == Validate(Filter(ValidReading, rows)[k], now)
  {
    var kept := Filter(ValidReading, rows);
    seq(|kept|, k requires 0 <= k < |kept| => Validate(kept[k], now))
  }

  /** Every silver row lies in the validity bands, and its flags are exactly the spec band checks. */
  lemma SilverRowsInBands(rows: seq<SensorRow>, now: int)
    ensures forall s :: s in SilverSensors(rows, now) ==>
      && 30.0 <= s.temperature <= 42.0 && 5.0 <= s.ph <= 9.0 && 0.0 <= s.dissolvedOxygen <= 100.0
      && (s.withinSpecTemp <==> TemperatureInSpec(s.temperature))
      && (s.withinSpecPh <==> PhInSpec(s.ph))
      && (s.withinSpecDo <==> DissolvedOxygenInSpec(s.dissolvedOxygen))
      && (s.allSpecsMet <==> s.withinSpecTemp && s.withinSpecPh && s.withinSpecDo)
  {
    var r := SilverSensors(rows, now);
    var kept := Filter(ValidReading, rows);
    forall s | s in r
      ensures 30.0 <= s.temperature <= 42.0 && 5.0 <= s.ph <= 9.0 && 0.0 <= s.dissolvedOxygen <= 100.0
    {
      var k :| 0 <= k < |r| && r[k] == s;
      assert kept[k] in kept;
    }
  }

  /** Scaling a `rand()` value: `lo + (u - 0.5) * w` lies in [lo - w/2, lo + w/2). */
  lemma CenteredDraw(u: Unit, w: real)
    requires w > 0.0
    ensures -w / 2.0 <= (u - 0.5) * w < w / 2.0
  {
    ProductSigns(w, u);
    assert (u - 0.5) * w == u * w - w / 2.0;
  }

  /**
   * Every synthetic bronze row passes validation and meets all three specs: the generator's spreads
   * (0.2 in temperature, 0.1 in pH, 10 in dissolved oxygen) sit inside the spec bands.
   */
  lemma BronzeRowsMeetSpecs(ts: int, d: SensorRowDraws, now: int)
    ensures ValidReading(BronzeSensorRow(ts, d))
    ensures Validate(BronzeSensorRow(ts, d), now).allSpecsMet
  {
    CenteredDraw(d.temperature, 0.2);
    CenteredDraw(d.ph, 0.1);
    CenteredDraw(d.dissolvedOxygen, 10.0);
  }

  // ---------------------------------------------------------------- digital twin

  /** `health_score` of `silver_bioreactor_digital_twin`: 95 + 5u when all specs are met, else 70 + 10u. */
  function TwinHealth(allSpecsMet: bool, u: Unit): (h: real)
    ensures allSpecsMet ==> 95.0 <= h < 100.0
    ensures !allSpecsMet ==> 70.0 <= h < 80.0
  {
    if allSpecsMet then Uniform(95.0, 100.0, u) else Uniform(70.0, 80.0, u)
  }

  /** A reading that meets every spec always gets a higher twin health than one that does not. */
  lemma TwinHealthSeparates(u1: Unit, u2: Unit)
    ensures TwinHealth(false, u2) < TwinHealth(true, u1)
  {
  }

  // ---------------------------------------------------------------- silver equipment

  /** The drop expectation of `silver_equipment_health`. */
  predicate ValidVibration(r: EquipmentRow)
  {
    r.vibrationLevel < 10.0
  }

  /** `100 - vibration * 10 - runtime / 500`. */
  function EquipmentHealth(r: EquipmentRow): (h: real)
    ensures r.vibrationLevel >= 0.0 && r.runtimeHours >= 0.0 ==> h <= 100.0
    ensures r.vibrationLevel < 10.0 && r.runtimeHours >= 0.0 ==> h > -r.runtimeHours / 500.0
  {
    100.0 - r.vibrationLevel * 10.0 - r.runtimeHours / 500.0
  }

  datatype SilverEquipmentRow = SilverEquipmentRow(row: EquipmentRow, healthScore: real, status: HealthStatus)

  /** `silver_equipment_health`: drops rows vibrating at 10 or more, scores and buckets the rest. */
  function SilverEquipment(rows: seq<EquipmentRow>): (r: seq<SilverEquipmentRow>)
    ensures |r| == Count(ValidVibration, rows)
    ensures forall k :: 0 <= k < |r| ==> r[k].row == Filter(ValidVibration, rows)[k]
    ensures forall e :: e in r ==>
      && e.row in rows && e.row.vibrationLevel < 10.0
      && e.healthScore == EquipmentHealth(e.row) && e.status == HealthStatusOf(e.healthScore)
  {
    var kept := Filter(ValidVibration, rows);
    seq(|kept|, k requires 0 <= k < |kept| =>
      SilverEquipmentRow(kept[k], EquipmentHealth(kept[k]), HealthStatusOf(EquipmentHealth(kept[k]))))
  }

  /** Health falls with vibration and with runtime. */
  lemma EquipmentHealthMonotone(a: EquipmentRow, b: EquipmentRow)
    requires a.vibrationLevel <= b.vibrationLevel && a.runtimeHours <= b.runtimeHours
    ensures EquipmentHealth(b) <= EquipmentHealth(a)
  {
  }

  /** On the synthetic equipment stream the health lies in (48, 100] and no row is dropped. */
  lemma BronzeEquipmentHealthRange(ts: int, runtime: Unit, vibration: Unit, temperature: Unit)
    ensures var r := BronzeEquipmentRow(ts, runtime, vibration, temperature);
      ValidVibration(r) && 48.0 < EquipmentHealth(r) <= 100.0
  {
  }

  // ---------------------------------------------------------------- hourly metrics

  /** The aggregates of `gold_bioreactor_hourly_metrics` for one window; SQL nulls are `None`. */
  datatype HourlyMetrics = HourlyMetrics(
    avgTemperature: Option<real>, avgPh: Option<real>, avgDo: Option<real>, avgCellDensity: Option<real>,
    maxCellDensity: Option<real>, readingCount: nat, inSpecCount: nat, specCompliancePercent: Option<real>)

  function Temperatures(w: seq<SilverRow>): seq<real> { Map((s: SilverRow) => s.temperature, w) }
  function Phs(w: seq<SilverRow>): seq<real> { Map((s: SilverRow) => s.ph, w) }
  function DissolvedOxygens(w: seq<SilverRow>): seq<real> { Map((s: SilverRow) => s.dissolvedOxygen, w) }
  function CellDensities(w: seq<SilverRow>): seq<real> { Map((s: SilverRow) => s.cellDensity, w) }

  /** `avg(column)`: null over no rows. */
  function Avg(xs: seq<real>): (r: Option<real>)
    ensures r.Some? <==> |xs| > 0
    ensures r.Some? ==> r.value == Mean(xs)
    ensures r.Some? ==> Min(xs) <= r.value <= Max(xs)
  {
    if |xs| > 0 then
      MeanBetweenMinAndMax(xs);
      Some(Mean(xs))
    else None
  }

  predicate MeetsSpecs(s: SilverRow) { s.allSpecsMet }

  /** `in_spec / count * 100`; null when the count is 0. */
  function Percent(part: nat, whole: nat): (r: Option<real>)
    requires part <= whole
    ensures r.Some? <==> whole > 0
    ensures r.Some? ==> 0.0 <= r.value <= 100.0
    ensures r.Some? ==> r.value == part as real / whole as real * 100.0
    ensures r.Some? ==> r.value * (whole as real) == (part as real) * 100.0
    ensures r.Some? ==> (r.value == 100.0 <==> part == whole)
  {
    if whole > 0 then
      var f := Fraction(part, whole);
      assert (f * 100.0) * (whole as real) == (f * (whole as real)) * 100.0;
      Some(f * 100.0)
    else None
  }

  /** The hourly aggregates of one window. */
  function Hourly(w: seq<SilverRow>): (m: HourlyMetrics)
    ensures m.readingCount == |w|
    ensures m.inSpecCount == Count(MeetsSpecs, w) <= m.readingCount
    ensures m.specCompliancePercent.Some? <==> |w| > 0
    ensures m.specCompliancePercent.Some? ==> 0.0 <= m.specCompliancePercent.value <= 100.0
    ensures m.specCompliancePercent == Some(100.0) <==> |w| > 0 && forall s :: s in w ==> s.allSpecsMet
    ensures m.specCompliancePercent == Percent(m.inSpecCount, m.readingCount)
    ensures |w| == 0 ==> m == HourlyMetrics(None, None, None, None, None, 0, 0, None)
    ensures |w| > 0 ==>
      && m.avgTemperature == Some(Mean(Temperatures(w)))
      && m.avgPh == Some(Mean(Phs(w)))
      && m.avgDo == Some(Mean(DissolvedOxygens(w)))
      && m.avgCellDensity == Some(Mean(CellDensities(w)))
      && m.maxCellDensity == Some(Max(CellDensities(w)))
  {
    var inSpec := Count(MeetsSpecs, w);
    assert inSpec == |w| <==> forall s :: s in w ==> s.allSpecsMet by {
      CountAllIff(MeetsSpecs, w);
    }
    assert |Temperatures(w)| == |Phs(w)| == |DissolvedOxygens(w)| == |CellDensities(w)| == |w|;
    HourlyMetrics(
      Avg(Temperatures(w)), Avg(Phs(w)), Avg(DissolvedOxygens(w)), Avg(CellDensities(w)),
      if |w| > 0 then Some(Max(CellDensities(w))) else None,
      |w|, inSpec, Percent(inSpec, |w|))
  }

  /** A count reaches the length exactly when every element passes. */
  lemma {:induction false} CountAllIff<T>(p: T -> bool, s: seq<T>)
    ensures Count(p, s) == |s| <==> forall x :: x in s ==> p(x)
    decreases |s|
  {
    if s != [] {
      CountAllIff(p, s[1..]);
      assert s == [s[0]] + s[1..];
      assert forall x :: x in s <==> x == s[0] || x in s[1..];
      CountBound(p, s[1..]);
    }
  }

  // ---------------------------------------------------------------- batch analytics

  /** The per-bioreactor aggregates `gold_batch_analytics` joins onto each batch. */
  datatype BatchSensorAgg = BatchSensorAgg(
    maxCellDensityAchieved: real, avgTemperature: real, avgPh: real, processComplianceRate: real)

  /** `in_spec / count` as a fraction. */
  function Fraction(part: nat, whole: nat): (r: real)
    requires 0 < whole && part <= whole
    ensures r == part as real / whole as real
    ensures r * (whole as real) == part as real
    ensures 0.0 <= r <= 1.0
    ensures r == 1.0 <==> part == whole
  {
    var q := part as real / whole as real;
    QuotientBounds(part as real, whole as real, 0.0, 1.0);
    assert q * (whole as real) == part as real;
    q
  }

  /** The rows of one bioreactor. */
  function RowsOf(sensors: seq<SilverRow>, bioreactorId: string): (rows: seq<SilverRow>)
    ensures |rows| > 0 <==> exists s :: s in sensors && s.bioreactorId == bioreactorId
    ensures forall s :: s in rows <==> s in sensors && s.bioreactorId == bioreactorId
  {
    var rows := Filter((s: SilverRow) => s.bioreactorId == bioreactorId, sensors);
    assert |rows| > 0 ==> rows[0] in rows;
    rows
  }

  /** The aggregates of a bioreactor's silver rows; none when it has no rows (a null left join). */
  function BatchSensorAggFor(sensors: seq<SilverRow>, bioreactorId: string): (r: Option<BatchSensorAgg>)
    ensures r.Some? <==> exists s :: s in sensors && s.bioreactorId == bioreactorId
    ensures r.Some? ==> 0.0 <= r.value.processComplianceRate <= 1.0
    ensures r.Some? ==> var rows := RowsOf(sensors, bioreactorId);
      && |rows| > 0
      && r.value.maxCellDensityAchieved == Max(CellDensities(rows))
      && r.value.avgTemperature == Mean(Temperatures(rows))
      && r.value.avgPh == Mean(Phs(rows))
      && r.value.processComplianceRate == Count(MeetsSpecs, rows) as real / |rows| as real
    ensures r.Some? ==> (r.value.processComplianceRate == 1.0 <==>
      forall s :: s in sensors && s.bioreactorId == bioreactorId ==> s.allSpecsMet)
  {
    var rows := RowsOf(sensors, bioreactorId);
    if |rows| == 0 then None
    else
      assert Count(MeetsSpecs, rows) == |rows| <==> forall s :: s in rows ==> s.allSpecsMet by {
        CountAllIff(MeetsSpecs, rows);
      }
      assert |Temperatures(rows)| == |Phs(rows)| == |CellDensities(rows)| == |rows|;
      Some(BatchSensorAgg(Max(CellDensities(rows)), Mean(Temperatures(rows)), Mean(Phs(rows)),
                          Fraction(Count(MeetsSpecs, rows), |rows|)))
  }

  /** `90 + (max_cell_density_achieved - 4) * 5 + rand() * 3`; null when the density is null. */
  function PredictedYield(maxCellDensity: Option<real>, u: Unit): (y: Option<real>)
    ensures y.Some? <==> maxCellDensity.Some?
    ensures y.Some? ==> var base := 90.0 + (maxCellDensity.value - 4.0) * 5.0;
      base <= y.value < base + 3.0
  {
    if maxCellDensity.Some? then
      ProductSigns(3.0, u);
      Some(90.0 + (maxCellDensity.value - 4.0) * 5.0 + u * 3.0)
    else None
  }

  /** With the same draw, predicted yield does not fall as the peak density rises. */
  lemma PredictedYieldMonotone(d1: real, d2: real, u: Unit)
    requires d1 <= d2
    ensures PredictedYield(Some(d1), u).value <= PredictedYield(Some(d2), u).value
  {
  }

  // ---------------------------------------------------------------- contamination risk

  /** `2 * ph_instability + 5 * temp_instability`, the part of the risk that sets the level. */
  function Instability(phInstability: real, tempInstability: real): (r: real)
    ensures phInstability >= 0.0 && tempInstability >= 0.0 ==> r >= 0.0
    ensures phInstability == 0.0 && tempInstability == 0.0 ==> r == 0.0
  {
    phInstability * 2.0 + tempInstability * 5.0
  }

  /** `contamination_risk_score`: instability plus 0.3 when mean dissolved oxygen is below 40, else 0.05. */
  function ContaminationRiskScore(phInstability: real, tempInstability: real, avgDo: real): (r: real)
    ensures avgDo < 40.0 ==> r == Instability(phInstability, tempInstability) + 0.3
    ensures avgDo >= 40.0 ==> r == Instability(phInstability, tempInstability) + 0.05
    ensures phInstability >= 0.0 && tempInstability >= 0.0 ==> r >= 0.05
  {
    Instability(phInstability, tempInstability) + (if avgDo < 40.0 then 0.3 else 0.05)
  }

  /** `risk_level`: High above 0.5, Medium above 0.2, else Low, judged on the instability alone. */
  function ContaminationRiskLevel(phInstability: real, tempInstability: real): (l: RiskLevel)
    ensures l == High <==> Instability(phInstability, tempInstability) > 0.5
    ensures l == Medium <==> 0.2 < Instability(phInstability, tempInstability) <= 0.5
    ensures l == Low <==> Instability(phInstability, tempInstability) <= 0.2
  {
    var x := Instability(phInstability, tempInstability);
    if x > 0.5 then High else if x > 0.2 then Medium else Low
  }

  /**
   * The level ignores dissolved oxygen: a window with low oxygen can score 0.5 and still be Low,
   * while the same instability with high oxygen scores 0.25 lower; a score above 0.5 can still be
   * only Medium.
   */
  lemma RiskLevelIgnoresOxygen()
    ensures ContaminationRiskScore(0.05, 0.02, 30.0) == 0.5
    ensures ContaminationRiskScore(0.05, 0.02, 45.0) == 0.25
    ensures ContaminationRiskLevel(0.05, 0.02) == Low
    ensures ContaminationRiskScore(0.1, 0.03, 30.0) > 0.5 && ContaminationRiskLevel(0.1, 0.03) == Medium
  {
  }

  // ---------------------------------------------------------------- predictive maintenance

  /** A row of `gold_predictive_maintenance`. */
  datatype MaintenanceRow = MaintenanceRow(
    equipment: SilverEquipmentRow, daysUntilMaintenance: int, maintenanceUrgency: RiskLevel, alertId: string)

  /** The filter of `gold_predictive_maintenance`. */
  predicate NeedsMaintenance(e: SilverEquipmentRow) { e.healthScore < 85.0 }

  /** `gold_predictive_maintenance` over silver equipment rows; `dateStamp` is the yyyyMMdd of each row's time. */
  function PredictiveMaintenance(rows: seq<SilverEquipmentRow>, dateStamp: int -> string): (r: seq<MaintenanceRow>)
    ensures |r| <= |rows|
    ensures |r| == Count(NeedsMaintenance, rows)
    ensures forall k :: 0 <= k < |r| ==> r[k] == MaintenanceOf(Filter(NeedsMaintenance, rows)[k], dateStamp)
    ensures forall m :: m in r ==> m.equipment in rows && m.equipment.healthScore < 85.0
    ensures forall e :: e in rows && e.healthScore < 85.0 ==> exists m :: m in r && m.equipment == e
  {
    var kept := Filter(NeedsMaintenance, rows);
    var r := seq(|kept|, k requires 0 <= k < |kept| => MaintenanceOf(kept[k], dateStamp));
    assert forall k :: 0 <= k < |kept| ==> r[k].equipment == kept[k];
    r
  }

  /** The derived columns of one kept row: 7 days and High below 70, 30 and Medium below 85, else 90 and Low. */
  function MaintenanceOf(e: SilverEquipmentRow, dateStamp: int -> string): (m: MaintenanceRow)
    ensures m.equipment == e
    ensures m.maintenanceUrgency == High <==> e.healthScore < 70.0
    ensures m.maintenanceUrgency == Medium <==> 70.0 <= e.healthScore < 85.0
    ensures m.maintenanceUrgency == Low <==> e.healthScore >= 85.0
    ensures m.daysUntilMaintenance == (if m.maintenanceUrgency == High then 7
                                       else if m.maintenanceUrgency == Medium then 30 else 90)
    ensures m.alertId == "PM-" + e.row.equipmentId + "-" + dateStamp(e.row.sensorTimestamp)
  {
    var h := e.healthScore;
    MaintenanceRow(
      e, if h < 70.0 then 7 else if h < 85.0 then 30 else 90,
      if h < 70.0 then High else if h < 85.0 then Medium else Low,
      "PM-" + e.row.equipmentId + "-" + dateStamp(e.row.sensorTimestamp))
  }

  /** Behind the health < 85 filter the 90-day, Low branch never fires. */
  lemma MaintenanceLowBranchUnreachable(rows: seq<SilverEquipmentRow>, dateStamp: int -> string)
    ensures forall m :: m in PredictiveMaintenance(rows, dateStamp) ==>
      (m.equipment.healthScore < 70.0 ==> m.daysUntilMaintenance == 7 && m.maintenanceUrgency == High)
      && (m.equipment.healthScore >= 70.0 ==> m.daysUntilMaintenance == 30 && m.maintenanceUrgency == Medium)
      && m.maintenanceUrgency != Low && m.daysUntilMaintenance != 90
  {
    var r := PredictiveMaintenance(rows, dateStamp);
    forall m | m in r
      ensures m.maintenanceUrgency != Low && m.daysUntilMaintenance != 90
      ensures m.equipment.healthScore < 70.0 ==> m.daysUntilMaintenance == 7 && m.maintenanceUrgency == High
      ensures m.equipment.healthScore >= 70.0 ==> m.daysUntilMaintenance == 30 && m.maintenanceUrgency == Medium
    {
      var kept := Filter(NeedsMaintenance, rows);
      var k :| 0 <= k < |r| && r[k] == m;
      assert m == MaintenanceOf(kept[k], dateStamp);
      assert kept[k] in kept;
    }
  }

  // ---------------------------------------------------------------- data quality

  predicate InvalidTemperature(r: SensorRow)
  {
    r.temperature.None? || r.temperature.value < 30.0 || r.temperature.value > 42.0
  }

  predicate InvalidPh(r: SensorRow)
  {
    r.ph.None? || r.ph.value < 5.0 || r.ph.value > 9.0
  }

  /**
   * `monitoring_data_quality` for one window: `(total - invalid_temp - invalid_ph) / total * 100`,
   * null for an empty window. A row invalid on both counts is subtracted twice.
   */
  function DataQualityScore(w: seq<SensorRow>): (r: Option<real>)
    ensures r.Some? <==> |w| > 0
    ensures r.Some? ==> -100.0 <= r.value <= 100.0
    ensures r.Some? ==> (r.value == 100.0 <==> forall x :: x in w ==> !InvalidTemperature(x) && !InvalidPh(x))
  {
    if |w| == 0 then None
    else
      var invalidT, invalidPh := Count(InvalidTemperature, w), Count(InvalidPh, w);
      CountNoneIff(InvalidTemperature, w);
      CountNoneIff(InvalidPh, w);
      QualityBounds(|w|, invalidT, invalidPh);
      Some((|w| - invalidT - invalidPh) as real / |w| as real * 100.0)
  }

  /** Arithmetic of the score: two counts each at most the total, subtracted from it. */
  lemma QualityBounds(total: nat, a: nat, b: nat)
    requires 0 < total && a <= total && b <= total
    ensures var q := (total - a - b) as real / total as real * 100.0;
      -100.0 <= q <= 100.0 && (q == 100.0 <==> a == 0 && b == 0)
  {
    var t := total as real;
    var n := (total - a - b) as real;
    QuotientBounds(n, t, -1.0, 1.0);
    assert (n / t) * t == n;
  }

  /** A count is zero exactly when no element passes. */
  lemma {:induction false} CountNoneIff<T>(p: T -> bool, s: seq<T>)
    ensures Count(p, s) == 0 <==> forall x :: x in s ==> !p(x)
    decreases |s|
  {
    if s != [] {
      CountNoneIff(p, s[1..]);
      assert s == [s[0]] + s[1..];
      assert forall x :: x in s <==> x == s[0] || x in s[1..];
    }
  }

  /** One row with both temperature and pH out of range scores -100. */
  lemma DataQualityDoubleCounts(ts: int)
    ensures DataQualityScore([SensorRow(ts, "BR-01", Some(50.0), Some(10.0), Some(45.0), 120, 1.2, 4.0, 9000000)])
      == Some(-100.0)
  {
    var w := [SensorRow(ts, "BR-01", Some(50.0), Some(10.0), Some(45.0), 120, 1.2, 4.0, 9000000)];
    assert Filter(InvalidTemperature, w) == w;
    assert Filter(InvalidPh, w) == w;
  }

  /** A row the silver layer keeps is counted valid by the data-quality monitor. */
  lemma ValidReadingIsNotInvalid(r: SensorRow)
    requires ValidReading(r)
    ensures !InvalidTemperature(r) && !InvalidPh(r)
  {
  }
}
