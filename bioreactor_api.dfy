/**
 * The bioreactor monitoring endpoints: the fixed fleet listing, the sensor history, the digital
 * twin and the dashboard's current status, each built on the synthetic sensor series.
 */
module BioreactorApi {
  import opened Wrappers
  import opened GrowthPhase
  import opened SensorSeries

  // ---------------------------------------------------------------- fleet listing

  /** One bioreactor of the listing; start and harvest times are day offsets from now. */
  datatype FleetEntry = FleetEntry(
    bioreactorId: string, name: string, status: string, currentBatchId: Option<string>,
    startOffsetDays: Option<int>, harvestOffsetDays: Option<int>, phase: Option<string>, workingVolume: real)

  /** `list_bioreactors`: five fixed entries; the site and status filters are accepted and never applied. */
  function ListBioreactors(site: Option<string>, status: Option<string>): (r: seq<FleetEntry>)
    ensures |r| == 5
    ensures forall i, j :: 0 <= i < j < |r| ==> r[i].bioreactorId != r[j].bioreactorId
    ensures forall e :: e in r ==>
      && (e.currentBatchId.Some? <==> e.phase.Some?)
      && (e.currentBatchId.Some? <==> e.startOffsetDays.Some? && e.harvestOffsetDays.Some?)
      && (e.currentBatchId.Some? ==>
            && e.startOffsetDays.value < 0 < e.harvestOffsetDays.value
            && e.harvestOffsetDays.value - e.startOffsetDays.value == 14)
  {
    [ FleetEntry("BR-01", "Bioreactor-01", "Operational", Some("B2024-001"), Some(-7), Some(7), Some("exponential"), 2000.0),
      FleetEntry("BR-02", "Bioreactor-02", "Operational", Some("B2024-005"), Some(-3), Some(11), Some("lag"), 2000.0),
      FleetEntry("BR-03", "Bioreactor-03", "Warning", None, None, None, None, 1000.0),
      FleetEntry("BR-04", "Bioreactor-04", "Operational", Some("B2024-003"), Some(-10), Some(4), Some("stationary"), 2000.0),
      FleetEntry("BR-05", "Bioreactor-05", "Offline", None, None, None, None, 500.0) ]
  }

  /** The filters change nothing: every call returns the same five entries. */
  lemma ListIgnoresFilters(site: Option<string>, status: Option<string>)
    ensures ListBioreactors(site, status) == ListBioreactors(None, None)
  {
  }

  // ---------------------------------------------------------------- sensor history

  /** The query validation failure: `hours` outside [1, 168] (HTTP 422). */
  datatype QueryError = HoursOutOfRange

  /** `get_sensor_data`: `hours` of 5-minute samples with anomalies on. */
  function SensorData(bioreactorId: string, hours: int, now: int, noise: nat -> SampleNoise)
    : (r: Result<seq<Sample>, QueryError>)
    ensures r.Err? <==> hours < 1 || hours > 168
    ensures r.Ok? ==> |r.value| == 12 * hours && r.value == Series(bioreactorId, hours, 5, true, now, noise)
    ensures r.Ok? ==> forall s :: s in r.value ==> s.bioreactorId == bioreactorId
  {
    if hours < 1 || hours > 168 then Err(HoursOutOfRange)
    else
      assert FloorDiv(hours * 60, 5) == 12 * hours;
      SeriesNamesBioreactor(bioreactorId, hours, now, noise);
      Ok(Series(bioreactorId, hours, 5, true, now, noise))
  }

  /** Every sample of a series names its bioreactor. */
  lemma SeriesNamesBioreactor(bioreactorId: string, hours: int, now: int, noise: nat -> SampleNoise)
    ensures forall s :: s in Series(bioreactorId, hours, 5, true, now, noise) ==> s.bioreactorId == bioreactorId
  {
    var xs := Series(bioreactorId, hours, 5, true, now, noise);
    forall s | s in xs ensures s.bioreactorId == bioreactorId {
      var i :| 0 <= i < |xs| && xs[i] == s;
      SeriesAt(bioreactorId, hours, 5, true, now, noise, i);
    }
  }

  // ---------------------------------------------------------------- spec bands

  predicate TemperatureOk(t: real) { 36.9 <= t <= 37.1 }
  predicate PhOk(ph: real) { 6.95 <= ph <= 7.05 }
  predicate DissolvedOxygenOk(d: real) { 40.0 <= d <= 50.0 }

  const AgitationSpecMin: int := 115
  const AgitationSpecMax: int := 125

  // ---------------------------------------------------------------- current status

  /** The dashboard status: "Operational" when the three CPPs are in spec, else "Warning". */
  datatype CurrentStatus = CurrentStatus(
    bioreactorId: string, timestamp: int, status: string, phase: Phase, latest: Sample,
    temperatureInSpec: bool, phInSpec: bool, dissolvedOxygenInSpec: bool, agitationInSpec: bool)

  /** The last sample of a one-hour, 5-minute series without anomalies. */
  function LatestHourSample(bioreactorId: string, now: int, noise: nat -> SampleNoise): (s: Sample)
    ensures s == Series(bioreactorId, 1, 5, false, now, noise)[11]
    ensures s == SampleAt(bioreactorId, 11, 12, 5, false, now, noise(11))
  {
    assert SampleCount(1, 5) == 12;
    SeriesAt(bioreactorId, 1, 5, false, now, noise, 11);
    Series(bioreactorId, 1, 5, false, now, noise)[11]
  }

  /** `get_current_status`. */
  function GetCurrentStatus(bioreactorId: string, now: int, noise: nat -> SampleNoise): (c: CurrentStatus)
    ensures c.latest == LatestHourSample(bioreactorId, now, noise)
    ensures c.status == "Operational" <==>
      TemperatureOk(c.latest.temperature) && PhOk(c.latest.ph) && DissolvedOxygenOk(c.latest.dissolvedOxygen)
    ensures c.status == "Operational" || c.status == "Warning"
    ensures c.temperatureInSpec == TemperatureOk(c.latest.temperature)
    ensures c.phInSpec == PhOk(c.latest.ph) && c.dissolvedOxygenInSpec == DissolvedOxygenOk(c.latest.dissolvedOxygen)
  {
    var latest := LatestHourSample(bioreactorId, now, noise);
    var tOk, phOk, doOk := TemperatureOk(latest.temperature), PhOk(latest.ph), DissolvedOxygenOk(latest.dissolvedOxygen);
    CurrentStatus(bioreactorId, latest.timestamp, if tOk && phOk && doOk then "Operational" else "Warning",
                  latest.phase, latest, tOk, phOk, doOk, true)
  }

  /**
   * The current status in terms of the draws: the latest sample is five minutes old and in the lag
   * phase (growth factor 0.1), so the status is Operational exactly when the temperature noise is
   * within 0.1, the pH noise within [-0.04, 0.06] and the oxygen noise within [-4.5, 5.5].
   */
  lemma CurrentStatusFromNoise(bioreactorId: string, now: int, noise: nat -> SampleNoise)
    ensures var c := GetCurrentStatus(bioreactorId, now, noise);
      var n := noise(11);
      && c.timestamp == now - 5
      && c.phase == Lag
      && (c.status == "Operational" <==>
           -0.1 <= n.temperature <= 0.1 && -0.04 <= n.ph <= 0.06 && -4.5 <= n.dissolvedOxygen <= 5.5)
  {
    assert ElapsedHours(11, 5) < 24.0;
  }

  /**
   * The agitation flag is the constant true, and it is never wrong: `120 + randint(-3, 3)` lies in
   * [117, 122], inside the 115-125 RPM spec.
   */
  lemma AgitationAlwaysInSpec(bioreactorId: string, now: int, noise: nat -> SampleNoise)
    ensures var c := GetCurrentStatus(bioreactorId, now, noise);
      c.agitationInSpec && AgitationSpecMin <= c.latest.agitationRpm <= AgitationSpecMax
  {
  }

  // ---------------------------------------------------------------- digital twin

  /** The parts of `get_digital_twin` that vary: the id, the latest sensors and their phase. */
  datatype DigitalTwin = DigitalTwin(
    bioreactorId: string, workingVolume: real, maxPressure: real, maxTemperature: real, currentBatch: string,
    phase: string, currentSensors: Sample, healthScore: real, predictedYieldPercent: real,
    contaminationRisk: real, estimatedPeakDensity: real)

  /** `get_digital_twin`: the constants of the physical model and the last of 24 hours of 10-minute samples. */
  function GetDigitalTwin(bioreactorId: string, now: int, noise: nat -> SampleNoise): (t: DigitalTwin)
    ensures t.currentSensors == Series(bioreactorId, 24, 10, false, now, noise)[143]
    ensures t.phase == t.currentSensors.phase.Name()
  {
    assert SampleCount(24, 10) == 144;
    var latest := Series(bioreactorId, 24, 10, false, now, noise)[143];
    DigitalTwin(bioreactorId, 2000.0, 1.5, 42.0, "B2024-001", latest.phase.Name(), latest, 94.5, 93.2, 0.05, 4.8)
  }

  /**
   * The latest twin sample was taken 23h50m into the culture, so the twin always reports the lag
   * phase; the "exponential" default of the source applies only to a missing phase, which never happens.
   */
  lemma DigitalTwinAlwaysLag(bioreactorId: string, now: int, noise: nat -> SampleNoise)
    ensures GetDigitalTwin(bioreactorId, now, noise).phase == "lag"
    ensures GetDigitalTwin(bioreactorId, now, noise).currentSensors.timestamp == now - 10
  {
    assert SampleCount(24, 10) == 144;
    SeriesAt(bioreactorId, 24, 10, false, now, noise, 143);
    assert ElapsedHours(143, 10) < 24.0;
  }
}
