/**
 * The growth-phase model of the bioreactor time series: a sample index and the sampling interval give
 * elapsed hours, and elapsed hours give a culture phase and a growth factor.
 */
module GrowthPhase {

  /** Cell-culture phase, with the string the series stores. */
  datatype Phase = Lag | Exponential | Stationary | Death
  {
    /** Position in the growth curve: lag 0, exponential 1, stationary 2, death 3. */
    function Rank(): nat
    {
      match this
      case Lag => 0
      case Exponential => 1
      case Stationary => 2
      case Death => 3
    }

    function Name(): string
    {
      match this
      case Lag => "lag"
      case Exponential => "exponential"
      case Stationary => "stationary"
      case Death => "death"
    }
  }

  datatype PhasePoint = PhasePoint(phase: Phase, growthFactor: real)

  /** End of the lag phase, end of the exponential phase and end of the stationary phase, in hours. */
  const LagEnd: real := 24.0
  const ExponentialEnd: real := 96.0
  const StationaryEnd: real := 144.0

  /** Elapsed hours at sample `i`: `i * interval_minutes / 60` (true division). */
  function ElapsedHours(i: int, intervalMinutes: int): real
  {
    (i * intervalMinutes) as real / 60.0
  }

  /**
   * The phase and growth factor at `h` elapsed hours: lag with 0.1 before 24h, a linear ramp
   * (h-24)/72 until 96h, 1.0 until 144h, and afterwards a decline of 0.3 per 24h that is never clamped.
   */
  function Classify(h: real): (p: PhasePoint)
    ensures p.phase == Exponential ==> 0.0 <= p.growthFactor < 1.0
    ensures p.phase != Death ==> 0.0 <= p.growthFactor <= 1.0
    ensures p.phase == Death ==> p.growthFactor <= 1.0
  {
    if h < LagEnd then PhasePoint(Lag, 0.1)
    else if h < ExponentialEnd then PhasePoint(Exponential, (h - LagEnd) / 72.0)
    else if h < StationaryEnd then PhasePoint(Stationary, 1.0)
    else PhasePoint(Death, 1.0 - ((h - StationaryEnd) / 24.0) * 0.3)
  }

  /** Each phase covers exactly its band of elapsed hours, with no gap and no overlap. */
  lemma PhaseBands(h: real)
    ensures Classify(h).phase == Lag <==> h < 24.0
    ensures Classify(h).phase == Exponential <==> 24.0 <= h < 96.0
    ensures Classify(h).phase == Stationary <==> 96.0 <= h < 144.0
    ensures Classify(h).phase == Death <==> h >= 144.0
  {
  }

  /** The phase never goes backwards as time advances. */
  lemma PhaseMonotone(h1: real, h2: real)
    requires h1 <= h2
    ensures Classify(h1).phase.Rank() <= Classify(h2).phase.Rank()
  {
  }

  /** Within the exponential and stationary phases the growth factor never decreases. */
  lemma GrowthRisesAfterLag(h1: real, h2: real)
    requires LagEnd <= h1 <= h2 < StationaryEnd
    ensures Classify(h1).growthFactor <= Classify(h2).growthFactor
  {
  }

  /** In the death phase the growth factor strictly decreases. */
  lemma GrowthFallsInDeath(h1: real, h2: real)
    requires StationaryEnd <= h1 < h2
    ensures Classify(h2).growthFactor < Classify(h1).growthFactor
  {
  }

  /** The factor drops from 0.1 to 0 where the lag phase ends: the curve is not monotone there. */
  lemma GrowthDipsAtLagEnd()
    ensures Classify(23.5).growthFactor == 0.1
    ensures Classify(24.0).growthFactor == 0.0
  {
  }

  /** Up to 168 hours, the longest series the REST layer asks for, the death factor stays in (0.7, 1]. */
  lemma DeathFactorWithinApiWindow(h: real)
    requires StationaryEnd <= h < 168.0
    ensures 0.7 < Classify(h).growthFactor <= 1.0
  {
  }

  /** The death factor is not clamped at 0: past 224 hours it is negative. */
  lemma DeathFactorUnclamped(h: real)
    requires h > 224.0
    ensures Classify(h).phase == Death && Classify(h).growthFactor < 0.0
  {
  }

  /** With a positive interval, elapsed hours never decrease along the series. */
  lemma ElapsedMonotone(i: int, j: int, intervalMinutes: int)
    requires 0 <= i <= j && intervalMinutes > 0
    ensures ElapsedHours(i, intervalMinutes) <= ElapsedHours(j, intervalMinutes)
  {
    assert i * intervalMinutes <= j * intervalMinutes by {
      assert (j - i) * intervalMinutes >= 0;
    }
  }

  /**
   * Along a series the phase never goes backwards, whatever the interval: with a positive interval
   * elapsed hours grow, and with a non-positive one every sample is in the lag phase.
   */
  lemma {:induction false} SeriesPhaseMonotone(i: int, j: int, intervalMinutes: int)
    requires 0 <= i <= j
    ensures Classify(ElapsedHours(i, intervalMinutes)).phase.Rank()
         <= Classify(ElapsedHours(j, intervalMinutes)).phase.Rank()
  {
    if intervalMinutes > 0 {
      ElapsedMonotone(i, j, intervalMinutes);
      PhaseMonotone(ElapsedHours(i, intervalMinutes), ElapsedHours(j, intervalMinutes));
    } else {
      assert i * intervalMinutes <= 0 && j * intervalMinutes <= 0;
    }
  }

  /**
   * The phase rule of the dashboard apps' embedded generator: lag with 0.1 before 4h, a ramp (h-4)/12
   * until 16h, then stationary with 1.0; it has no death phase.
   */
  function CompactClassify(h: real): (p: PhasePoint)
    ensures p.phase != Death
    ensures 0.0 <= p.growthFactor <= 1.0
    ensures p.phase == Exponential ==> p.growthFactor < 1.0
  {
    if h < 4.0 then PhasePoint(Lag, 0.1)
    else if h < 16.0 then PhasePoint(Exponential, (h - 4.0) / 12.0)
    else PhasePoint(Stationary, 1.0)
  }

  /** The compact rule's bands, and its phase never goes backwards. */
  lemma CompactPhaseBands(h1: real, h2: real)
    requires h1 <= h2
    ensures CompactClassify(h1).phase == Lag <==> h1 < 4.0
    ensures CompactClassify(h1).phase == Exponential <==> 4.0 <= h1 < 16.0
    ensures CompactClassify(h1).phase == Stationary <==> h1 >= 16.0
    ensures CompactClassify(h1).phase.Rank() <= CompactClassify(h2).phase.Rank()
  {
  }

  /** Past the lag phase the compact growth factor never decreases. */
  lemma CompactGrowthRisesAfterLag(h1: real, h2: real)
    requires 4.0 <= h1 <= h2
    ensures CompactClassify(h1).growthFactor <= CompactClassify(h2).growthFactor
  {
  }

  /** The compact ramp starts at 0, below the lag factor 0.1: density drops as the lag phase ends. */
  lemma CompactGrowthDipsAtLagEnd()
    ensures CompactClassify(3.5).growthFactor == 0.1
    ensures CompactClassify(4.0).growthFactor == 0.0
  {
  }
}
