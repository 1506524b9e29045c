/**
 * The bioreactor sensor time series of the synthetic-data generator: one sample per interval, the
 * growth phase from the elapsed hours, each sensor an affine function of the growth factor plus a
 * noise draw, the culture and nutrient quantities clamped at 0, and an optional anomaly.
 */
module SensorSeries {
  import opened Wrappers
  import opened Draws
  import opened GrowthPhase

  /** A value of `np.random.randint(-3, 3)`, whose upper bound is excluded. */
  type AgitationOffset = k: int | -3 <= k < 3

  /**
   * The draws one sample consumes. The Gaussian terms are plain reals (a normal draw can be any
   * value); the three anomaly draws are values of `random.random()`.
   */
  datatype SampleNoise = SampleNoise(
    temperature: real,
    ph: real,
    dissolvedOxygen: real,
    agitation: AgitationOffset,
    pressure: real,
    cellDensity: real,
    viableCellCount: real,
    glucose: real,
    lactate: real,
    anomalyRoll: Unit,
    anomalyKind: Unit,
    anomalySize: Unit)

  /** One row of the series. Timestamps are minutes on the caller's clock. */
  datatype Sample = Sample(
    timestamp: int,
    bioreactorId: string,
    temperature: real,
    ph: real,
    dissolvedOxygen: real,
    agitationRpm: int,
    pressure: real,
    cellDensity: real,
    viableCellCount: int,
    glucose: real,
    lactate: real,
    phase: Phase)

  /** A zero interval makes the sample count a division by zero. */
  datatype SeriesError = ZeroInterval

  /** Python's `a // b`, which rounds toward negative infinity. */
  function FloorDiv(a: int, b: int): (q: int)
    requires b != 0
    ensures b > 0 ==> q * b <= a < q * b + b
    ensures b < 0 ==> q * b + b < a <= q * b
  {
    if b > 0 then a / b else (-a) / (-b)
  }

  /** Number of samples: `(hours * 60) // interval_minutes`, and none when that is not positive. */
  function SampleCount(hours: int, intervalMinutes: int): nat
    requires intervalMinutes != 0
  {
    var q := FloorDiv(hours * 60, intervalMinutes);
    if q > 0 then q else 0
  }

  /** Probability per sample that an anomaly is injected. */
  const AnomalyRate: real := 0.01

  /**
   * Anomaly injection on (temperature, pH): only when anomalies are on and the roll is below 1%,
   * then either a temperature spike of U(0.5, 1.0) or a pH upset of U(0.3, 0.5), chosen evenly.
   */
  function InjectAnomaly(temperature: real, ph: real, addAnomalies: bool, n: SampleNoise): (r: (real, real))
    ensures !addAnomalies || n.anomalyRoll >= AnomalyRate ==> r == (temperature, ph)
    ensures r.0 == temperature || r.1 == ph
    ensures r.0 != temperature ==> 0.5 <= r.0 - temperature <= 1.0
    ensures r.1 != ph ==> 0.3 <= r.1 - ph <= 0.5
    ensures addAnomalies && n.anomalyRoll < AnomalyRate ==> r != (temperature, ph)
  {
    if addAnomalies && n.anomalyRoll < AnomalyRate then
      if n.anomalyKind < 0.5 then (temperature + Uniform(0.5, 1.0, n.anomalySize), ph)
      else (temperature, ph + Uniform(0.3, 0.5, n.anomalySize))
    else (temperature, ph)
  }

  /** Sample `i` of a series of `count` samples ending one interval before `now`. */
  function SampleAt(bioreactorId: string, i: int, count: int, intervalMinutes: int, addAnomalies: bool,
                    now: int, n: SampleNoise): (s: Sample)
    ensures s.timestamp == now - intervalMinutes * (count - i) && s.bioreactorId == bioreactorId
    ensures s.phase == Classify(ElapsedHours(i, intervalMinutes)).phase
    ensures s.cellDensity >= 0.0 && s.viableCellCount >= 0 && s.glucose >= 0.0 && s.lactate >= 0.0
    ensures !addAnomalies ==> s.temperature == 37.0 + n.temperature
  {
    var p := Classify(ElapsedHours(i, intervalMinutes));
    var gf := p.growthFactor;
    var cpp := InjectAnomaly(37.0 + n.temperature, 7.0 + n.ph - gf * 0.1, addAnomalies, n);
    Sample(
      now - intervalMinutes * (count - i),
      bioreactorId,
      cpp.0,
      cpp.1,
      45.0 + n.dissolvedOxygen - gf * 5.0,
      120 + n.agitation,
      1.2 + n.pressure,
      Max0(gf * 4.5 + n.cellDensity),
      Max0(gf * 12000000.0 + n.viableCellCount).Floor,
      Max0(10.0 - gf * 8.5 + n.glucose),
      Max0(gf * 3.2 + n.lactate),
      p.phase)
  }

  /** The series `generate_bioreactor_timeseries` returns, sample `i` drawing `noise(i)`. */
  function Series(bioreactorId: string, hours: int, intervalMinutes: int, addAnomalies: bool, now: int,
                  noise: nat -> SampleNoise): (s: seq<Sample>)
    requires intervalMinutes != 0
    ensures |s| == SampleCount(hours, intervalMinutes)
  {
    var count := SampleCount(hours, intervalMinutes);
    seq(count, i requires 0 <= i < count =>
      SampleAt(bioreactorId, i, count, intervalMinutes, addAnomalies, now, noise(i)))
  }

  /** Sample `i` of the series, read off the comprehension. */
  lemma SeriesAt(bioreactorId: string, hours: int, intervalMinutes: int, addAnomalies: bool, now: int,
                 noise: nat -> SampleNoise, i: int)
    requires intervalMinutes != 0
    requires 0 <= i < SampleCount(hours, intervalMinutes)
    ensures Series(bioreactorId, hours, intervalMinutes, addAnomalies, now, noise)[i]
      == SampleAt(bioreactorId, i, SampleCount(hours, intervalMinutes), intervalMinutes, addAnomalies, now, noise(i))
  {
  }

  /** `generate_bioreactor_timeseries`: builds the series sample by sample, as the source's loop does. */
  method GenerateBioreactorTimeseries(bioreactorId: string, hours: int, intervalMinutes: int,
                                      addAnomalies: bool, now: int, noise: nat -> SampleNoise)
    returns (r: Result<seq<Sample>, SeriesError>)
    ensures intervalMinutes == 0 ==> r == Err(ZeroInterval)
    ensures intervalMinutes != 0 ==> r == Ok(Series(bioreactorId, hours, intervalMinutes, addAnomalies, now, noise))
  {
    if intervalMinutes == 0 {
      return Err(ZeroInterval);
    }
    var count := SampleCount(hours, intervalMinutes);
    var data: seq<Sample> := [];
    var i := 0;
    while i < count
      invariant 0 <= i <= count
      invariant |data| == i
      invariant forall k :: 0 <= k < i ==>
        data[k] == SampleAt(bioreactorId, k, count, intervalMinutes, addAnomalies, now, noise(k))
    {
      var n := noise(i);
      var p := Classify(ElapsedHours(i, intervalMinutes));
      var growthFactor := p.growthFactor;
      var temperature := 37.0 + n.temperature;
      var ph := 7.0 + n.ph - growthFactor * 0.1;
      var dissolvedOxygen := 45.0 + n.dissolvedOxygen - growthFactor * 5.0;
      var agitationRpm := 120 + n.agitation;
      var pressure := 1.2 + n.pressure;
      var cellDensity := growthFactor * 4.5 + n.cellDensity;
      var viableCellCount := growthFactor * 12000000.0 + n.viableCellCount;
      var glucose := 10.0 - growthFactor * 8.5 + n.glucose;
      var lactate := growthFactor * 3.2 + n.lactate;
      if addAnomalies && n.anomalyRoll < AnomalyRate {
        if n.anomalyKind < 0.5 {
          temperature := temperature + Uniform(0.5, 1.0, n.anomalySize);
        } else {
          ph := ph + Uniform(0.3, 0.5, n.anomalySize);
        }
      }
      data := data + [Sample(now - intervalMinutes * (count - i), bioreactorId, temperature, ph,
                             dissolvedOxygen, agitationRpm, pressure, Max0(cellDensity),
                             Max0(viableCellCount).Floor, Max0(glucose), Max0(lactate), p.phase)];
      i := i + 1;
    }
    var s := Series(bioreactorId, hours, intervalMinutes, addAnomalies, now, noise);
    forall k | 0 <= k < count
      ensures data[k] == s[k]
    {
      SeriesAt(bioreactorId, hours, intervalMinutes, addAnomalies, now, noise, k);
    }
    assert data == s;
    return Ok(data);
  }

  /** Consecutive timestamps are exactly one interval apart, and the last is one interval before `now`. */
  lemma SeriesTimestampStep(bioreactorId: string, hours: int, intervalMinutes: int, addAnomalies: bool,
                            now: int, noise: nat -> SampleNoise, i: int)
    requires intervalMinutes != 0
    requires 0 <= i && i + 1 < SampleCount(hours, intervalMinutes)
    ensures var s := Series(bioreactorId, hours, intervalMinutes, addAnomalies, now, noise);
      s[i + 1].timestamp == s[i].timestamp + intervalMinutes
      && s[|s| - 1].timestamp == now - intervalMinutes
  {
    var count := SampleCount(hours, intervalMinutes);
    SeriesAt(bioreactorId, hours, intervalMinutes, addAnomalies, now, noise, i);
    SeriesAt(bioreactorId, hours, intervalMinutes, addAnomalies, now, noise, i + 1);
    SeriesAt(bioreactorId, hours, intervalMinutes, addAnomalies, now, noise, count - 1);
    Distribute(intervalMinutes, count - i, count - (i + 1));
  }

  /** With a positive interval, timestamps strictly increase along the series, `j - i` intervals apart. */
  lemma SeriesTimestampsIncrease(bioreactorId: string, hours: int, intervalMinutes: int, addAnomalies: bool,
                                 now: int, noise: nat -> SampleNoise, i: int, j: int)
    requires intervalMinutes > 0
    requires 0 <= i < j < SampleCount(hours, intervalMinutes)
    ensures var s := Series(bioreactorId, hours, intervalMinutes, addAnomalies, now, noise);
      s[j].timestamp - s[i].timestamp == intervalMinutes * (j - i) && s[i].timestamp < s[j].timestamp
  {
    var count := SampleCount(hours, intervalMinutes);
    SeriesAt(bioreactorId, hours, intervalMinutes, addAnomalies, now, noise, i);
    SeriesAt(bioreactorId, hours, intervalMinutes, addAnomalies, now, noise, j);
    Distribute(intervalMinutes, count - i, count - j);
  }

  /** `a * x - a * y == a * (x - y)`, and it is positive when `a` and `x - y` are. */
  lemma Distribute(a: int, x: int, y: int)
    ensures a * x - a * y == a * (x - y)
    ensures a > 0 && x > y ==> a * (x - y) > 0
  {
  }

  /** Cell density, viable cell count, glucose and lactate are never negative, whatever the noise. */
  lemma SeriesQuantitiesNonNegative(bioreactorId: string, hours: int, intervalMinutes: int,
                                    addAnomalies: bool, now: int, noise: nat -> SampleNoise)
    requires intervalMinutes != 0
    ensures forall x :: x in Series(bioreactorId, hours, intervalMinutes, addAnomalies, now, noise) ==>
      x.cellDensity >= 0.0 && x.viableCellCount >= 0 && x.glucose >= 0.0 && x.lactate >= 0.0
  {
    var s := Series(bioreactorId, hours, intervalMinutes, addAnomalies, now, noise);
    forall i | 0 <= i < |s|
      ensures s[i].cellDensity >= 0.0 && s[i].viableCellCount >= 0 && s[i].glucose >= 0.0 && s[i].lactate >= 0.0
    {
      SeriesAt(bioreactorId, hours, intervalMinutes, addAnomalies, now, noise, i);
    }
  }

  /** Along the series the phase never goes backwards in the order lag, exponential, stationary, death. */
  lemma SeriesPhaseOrder(bioreactorId: string, hours: int, intervalMinutes: int, addAnomalies: bool,
                         now: int, noise: nat -> SampleNoise, i: int, j: int)
    requires intervalMinutes != 0
    requires 0 <= i <= j < SampleCount(hours, intervalMinutes)
    ensures var s := Series(bioreactorId, hours, intervalMinutes, addAnomalies, now, noise);
      s[i].phase.Rank() <= s[j].phase.Rank()
  {
    SeriesAt(bioreactorId, hours, intervalMinutes, addAnomalies, now, noise, i);
    SeriesAt(bioreactorId, hours, intervalMinutes, addAnomalies, now, noise, j);
    SeriesPhaseMonotone(i, j, intervalMinutes);
  }

  /** Without anomalies, temperature and pH are exactly their baseline formulas. */
  lemma SeriesWithoutAnomalies(bioreactorId: string, hours: int, intervalMinutes: int, now: int,
                               noise: nat -> SampleNoise, i: int)
    requires intervalMinutes != 0
    requires 0 <= i < SampleCount(hours, intervalMinutes)
    ensures var x := Series(bioreactorId, hours, intervalMinutes, false, now, noise)[i];
      var gf := Classify(ElapsedHours(i, intervalMinutes)).growthFactor;
      x.temperature == 37.0 + noise(i).temperature && x.ph == 7.0 + noise(i).ph - gf * 0.1
  {
    SeriesAt(bioreactorId, hours, intervalMinutes, false, now, noise, i);
  }

  /**
   * A week sampled hourly has 168 samples and starts in the lag phase; it then passes through the
   * exponential, stationary and death phases.
   */
  lemma WeekSeriesPhases(bioreactorId: string, addAnomalies: bool, now: int, noise: nat -> SampleNoise)
    ensures var s := Series(bioreactorId, 168, 60, addAnomalies, now, noise);
      |s| == 168 && s[0].phase == Lag && s[30].phase == Exponential && s[100].phase == Stationary
      && s[150].phase == Death
  {
    assert SampleCount(168, 60) == 168;
    SeriesAt(bioreactorId, 168, 60, addAnomalies, now, noise, 0);
    SeriesAt(bioreactorId, 168, 60, addAnomalies, now, noise, 30);
    SeriesAt(bioreactorId, 168, 60, addAnomalies, now, noise, 100);
    SeriesAt(bioreactorId, 168, 60, addAnomalies, now, noise, 150);
  }

  /** A day sampled every 5 minutes has 288 samples and its last sample is still in the lag phase. */
  lemma DaySeriesScenario(bioreactorId: string, now: int, noise: nat -> SampleNoise)
    ensures var s := Series(bioreactorId, 24, 5, false, now, noise);
      |s| == 288 && s[287].phase == Lag
  {
    assert SampleCount(24, 5) == 288;
    SeriesAt(bioreactorId, 24, 5, false, now, noise, 287);
    assert ElapsedHours(287, 5) < 24.0;
  }
}
