/**
 * The contamination-detection endpoints: the filtered alert list, the real-time risk of one
 * bioreactor and the analytics summary over 50 generated alerts.
 */
module ContaminationApi {
  import opened Wrappers
  import opened Draws
  import opened Seqs
  import opened Buckets
  import opened EntityRecords

  /** A query parameter outside its declared bounds (HTTP 422). */
  datatype QueryError = LimitOutOfRange | DaysOutOfRange

  // ---------------------------------------------------------------- alert list

  predicate StatusMatches(status: Option<string>, a: ContaminationAlert)
  {
    !Truthy(status) || a.status.Name() == status.value
  }

  predicate BioreactorMatches(bioreactorId: Option<string>, a: ContaminationAlert)
  {
    !Truthy(bioreactorId) || a.bioreactor == bioreactorId.value
  }

  /** `get_contamination_alerts`: `limit` alerts, newest first, narrowed by status and then by bioreactor. */
  function GetContaminationAlerts(status: Option<string>, bioreactorId: Option<string>, limit: int, now: int,
                                  draws: nat -> AlertDraws): (r: Result<seq<ContaminationAlert>, QueryError>)
    ensures r.Err? <==> limit < 1 || limit > 100
    ensures r.Ok? ==> |r.value| <= limit
    ensures r.Ok? ==> forall a :: a in r.value <==>
      a in ContaminationAlerts(limit, now, draws) && StatusMatches(status, a) && BioreactorMatches(bioreactorId, a)
    ensures r.Ok? ==> SortedBy(r.value, AlertTime, true)
    ensures r.Ok? ==> IsSubsequence(r.value, ContaminationAlerts(limit, now, draws))
  {
    if limit < 1 || limit > 100 then Err(LimitOutOfRange)
    else
      var all := ContaminationAlerts(limit, now, draws);
      var p := (a: ContaminationAlert) => StatusMatches(status, a);
      var q := (a: ContaminationAlert) => BioreactorMatches(bioreactorId, a);
      var r := Filter(q, Filter(p, all));
      assert |all| == limit && SortedBy(r, AlertTime, true) by {
        ContaminationAlertsWellFormed(limit, now, draws);
        FilterKeepsOrder(p, all, AlertTime, true);
        FilterKeepsOrder(q, Filter(p, all), AlertTime, true);
      }
      assert IsSubsequence(r, all) by {
        SubsequenceTrans(r, Filter(p, all), all);
      }
      Ok(r)
  }

  // ---------------------------------------------------------------- real-time risk

  datatype RealtimeRisk = RealtimeRisk(
    bioreactorId: string, timestamp: int, riskScore: real, riskLevel: RiskLevel, recommendedAction: string,
    modelVersion: string, confidence: real, avgRisk7d: real, maxRisk7d: real, contaminationEvents90d: int)

  /** The action the real-time endpoint attaches to each level. */
  function RealtimeAction(l: RiskLevel): string
  {
    match l
    case Low => "Continue monitoring"
    case Medium => "Investigate sensor patterns"
    case High => "Immediate sampling and testing required"
  }

  /** `get_realtime_risk`: a Beta(2, 8) risk score bucketed at 0.3 and 0.7, like the generated alerts. */
  function GetRealtimeRisk(bioreactorId: string, now: int, score: Probability, confidence: Unit, avg: Unit,
                           max: Unit): (r: RealtimeRisk)
    ensures r.riskScore == score
    ensures r.riskLevel == Low <==> score < 0.3
    ensures r.riskLevel == High <==> score >= 0.7
    ensures r.riskLevel == AlertRiskLevel(score)
    ensures r.recommendedAction == RealtimeAction(r.riskLevel)
    ensures 0.75 <= r.confidence < 0.95 && 0.1 <= r.avgRisk7d < 0.3 && 0.3 <= r.maxRisk7d < 0.6
    ensures r.avgRisk7d < r.maxRisk7d && r.contaminationEvents90d == 0
    ensures r.modelVersion == DetectorVersion
  {
    var level := if score < 0.3 then Low else if score < 0.7 then Medium else High;
    RealtimeRisk(bioreactorId, now, score, level, RealtimeAction(level), "contamination-detector-v2.1",
                 Uniform(0.75, 0.95, confidence), Uniform(0.1, 0.3, avg), Uniform(0.3, 0.6, max), 0)
  }

  /** The real-time endpoint and the alert generator agree on the level and differ only in the action text. */
  lemma RealtimeAndAlertBucketsAgree(bioreactorId: string, now: int, i: nat, d: AlertDraws, confidence: Unit,
                                     avg: Unit, max: Unit)
    ensures var r := GetRealtimeRisk(bioreactorId, now, d.riskScore, confidence, avg, max);
      var a := AlertAt(i, now, d);
      r.riskLevel == a.status && r.recommendedAction != a.action
  {
  }

  // ---------------------------------------------------------------- summary

  datatype ContaminationSummary = ContaminationSummary(
    periodDays: int, totalAlerts: nat, high: nat, medium: nat, low: nat, contaminationEvents: nat,
    falsePositiveRate: real, modelAccuracy: real, avgRiskScore: real)

  predicate IsHigh(a: ContaminationAlert) { a.status == High }
  predicate IsMedium(a: ContaminationAlert) { a.status == Medium }
  predicate IsLow(a: ContaminationAlert) { a.status == Low }

  function RiskScores(alerts: seq<ContaminationAlert>): seq<real>
  {
    Map((a: ContaminationAlert) => a.riskScore, alerts)
  }

  /** Every risk score lies in [0, 1], as a Beta draw does. */
  predicate ScoresInUnitRange(alerts: seq<ContaminationAlert>)
  {
    forall a :: a in alerts ==> 0.0 <= a.riskScore <= 1.0
  }

  /** The summary of a list of alerts; the mean risk is 0 when there are none. */
  function Summarize(days: int, alerts: seq<ContaminationAlert>): (s: ContaminationSummary)
    ensures s.periodDays == days && s.totalAlerts == |alerts|
    ensures s.high == Count(IsHigh, alerts) && s.medium == Count(IsMedium, alerts) && s.low == Count(IsLow, alerts)
    ensures s.high + s.medium + s.low == s.totalAlerts
    ensures s.avgRiskScore == AverageRisk(alerts)
    ensures |alerts| == 0 ==> s.avgRiskScore == 0.0
    ensures |alerts| > 0 ==> s.avgRiskScore == Mean(RiskScores(alerts))
    ensures ScoresInUnitRange(alerts) ==> 0.0 <= s.avgRiskScore <= 1.0
    ensures s.contaminationEvents == 0 && s.falsePositiveRate == 0.02 && s.modelAccuracy == 0.96
  {
    var high := Count(IsHigh, alerts);
    var medium := Count(IsMedium, alerts);
    var low := Count(IsLow, alerts);
    LevelsPartition(alerts);
    ContaminationSummary(days, |alerts|, high, medium, low, 0, 0.02, 0.96, AverageRisk(alerts))
  }

  /** `round(sum(risk) / len(alerts), 3) if alerts else 0`, without the rounding. */
  function AverageRisk(alerts: seq<ContaminationAlert>): (avg: real)
    ensures |alerts| == 0 ==> avg == 0.0
    ensures |alerts| > 0 ==> avg == Mean(RiskScores(alerts))
    ensures ScoresInUnitRange(alerts) ==> 0.0 <= avg <= 1.0
  {
    if |alerts| == 0 then 0.0
    else
      var scores := RiskScores(alerts);
      if ScoresInUnitRange(alerts) then
        assert forall x :: x in scores ==> 0.0 <= x <= 1.0 by {
          forall x | x in scores ensures 0.0 <= x <= 1.0 {
            var k :| 0 <= k < |scores| && scores[k] == x;
            assert alerts[k] in alerts;
          }
        }
        MeanBounds(scores, 0.0, 1.0);
        Mean(scores)
      else
        Mean(scores)
  }

  /** Every alert has exactly one of the three levels, so the three counts add up to the total. */
  lemma {:induction false} LevelsPartition(alerts: seq<ContaminationAlert>)
    ensures Count(IsHigh, alerts) + Count(IsMedium, alerts)
      + Count(IsLow, alerts) == |alerts|
    decreases |alerts|
  {
    if alerts != [] {
      LevelsPartition(alerts[1..]);
    }
  }

  /** `get_contamination_summary`: the summary of 50 generated alerts over `days` in [7, 90]. */
  function GetContaminationSummary(days: int, now: int, draws: nat -> AlertDraws)
    : (r: Result<ContaminationSummary, QueryError>)
    ensures r.Err? <==> days < 7 || days > 90
    ensures r.Ok? ==> r.value.totalAlerts == 50 && r.value.periodDays == days
    ensures r.Ok? ==> r.value.high + r.value.medium + r.value.low == 50
    ensures r.Ok? ==> 0.0 <= r.value.avgRiskScore <= 1.0
    ensures r.Ok? ==> r.value == Summarize(days, ContaminationAlerts(50, now, draws))
    ensures r.Ok? ==> var alerts := ContaminationAlerts(50, now, draws);
      && r.value.high == Count(IsHigh, alerts)
      && r.value.medium == Count(IsMedium, alerts)
      && r.value.low == Count(IsLow, alerts)
      && r.value.avgRiskScore == AverageRisk(alerts)
  {
    if days < 7 || days > 90 then Err(DaysOutOfRange)
    else
      var alerts := ContaminationAlerts(50, now, draws);
      assert |alerts| == 50 && ScoresInUnitRange(alerts) by {
        ContaminationAlertsWellFormed(50, now, draws);
      }
      Ok(Summarize(days, alerts))
  }
}
