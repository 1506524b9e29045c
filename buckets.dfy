/** Threshold rules that several components share: the 85/70 health buckets and the 0.3/0.7 risk buckets. */
module Buckets {

  /** Equipment condition; `Name` is the status string the source stores. */
  datatype HealthStatus = Operational | Warning | Critical
  {
    function Name(): string
    {
      match this
      case Operational => "Operational"
      case Warning => "Warning"
      case Critical => "Critical"
    }
  }

  /** Lowest health score that is still Operational. */
  const OperationalMin: real := 85.0
  /** Lowest health score that is still Warning. */
  const WarningMin: real := 70.0

  /** Status of a health score: at least 85 Operational, at least 70 Warning, otherwise Critical. */
  function HealthStatusOf(health: real): (s: HealthStatus)
    ensures s == Operational <==> health >= OperationalMin
    ensures s == Warning <==> WarningMin <= health < OperationalMin
    ensures s == Critical <==> health < WarningMin
  {
    if health >= OperationalMin then Operational
    else if health >= WarningMin then Warning
    else Critical
  }

  /** Severity rank of a status: Operational 0, Warning 1, Critical 2. */
  function Severity(s: HealthStatus): nat
  {
    match s
    case Operational => 0
    case Warning => 1
    case Critical => 2
  }

  /** A healthier score never gets a more severe status. */
  lemma HealthStatusMonotone(h1: real, h2: real)
    requires h1 <= h2
    ensures Severity(HealthStatusOf(h2)) <= Severity(HealthStatusOf(h1))
  {
  }

  /** Three-level risk classification; `Name` is the string the source stores. */
  datatype RiskLevel = Low | Medium | High
  {
    function Name(): string
    {
      match this
      case Low => "Low"
      case Medium => "Medium"
      case High => "High"
    }
  }

  /** Lowest risk score that is Medium, and lowest that is High, for contamination alerts. */
  const MediumRiskMin: real := 0.3
  const HighRiskMin: real := 0.7

  /** Risk level of a contamination-alert score: below 0.3 Low, below 0.7 Medium, otherwise High. */
  function AlertRiskLevel(risk: real): (l: RiskLevel)
    ensures l == Low <==> risk < MediumRiskMin
    ensures l == Medium <==> MediumRiskMin <= risk < HighRiskMin
    ensures l == High <==> risk >= HighRiskMin
  {
    if risk < MediumRiskMin then Low else if risk < HighRiskMin then Medium else High
  }

  /** The action the alert generators attach to each level. */
  function AlertAction(l: RiskLevel): string
  {
    match l
    case Low => "Monitor"
    case Medium => "Investigate"
    case High => "Immediate Action"
  }

  /** The generators' (status, action) pair: ("Low", "Monitor"), ("Medium", "Investigate") or ("High", "Immediate Action"). */
  lemma AlertBucketPairs(risk: real)
    ensures risk < 0.3 ==> (AlertRiskLevel(risk).Name(), AlertAction(AlertRiskLevel(risk))) == ("Low", "Monitor")
    ensures 0.3 <= risk < 0.7 ==> (AlertRiskLevel(risk).Name(), AlertAction(AlertRiskLevel(risk))) == ("Medium", "Investigate")
    ensures risk >= 0.7 ==> (AlertRiskLevel(risk).Name(), AlertAction(AlertRiskLevel(risk))) == ("High", "Immediate Action")
  {
  }
}
