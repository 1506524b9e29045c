/**
 * The equipment and predictive-maintenance endpoints: the filtered equipment list, the detailed
 * health report of one unit, and the maintenance alerts raised for every unit below 85% health.
 */
module EquipmentApi {
  import opened Draws
  import opened Text
  import opened Seqs
  import opened Buckets
  import opened Wrappers
  import opened EntityRecords

  /** The number of units every endpoint generates. */
  const FleetSize: int := 15

  // ---------------------------------------------------------------- list

  /** The status filter: absent or empty keeps everything, otherwise the status name must equal it. */
  predicate StatusMatches(status: Option<string>, e: EquipmentRecord)
  {
    !Truthy(status) || e.status.Name() == status.value
  }

  /** The type filter: absent or empty keeps everything, otherwise it must occur in the type, ignoring case. */
  predicate TypeMatches(equipmentType: Option<string>, e: EquipmentRecord)
  {
    !Truthy(equipmentType) || ContainsIgnoreCase(e.equipmentType, equipmentType.value)
  }

  /** `list_equipment`: the generated fleet, narrowed by status and then by type. */
  function ListEquipment(status: Option<string>, equipmentType: Option<string>, now: int,
                         draws: nat -> EquipmentDraws): (r: seq<EquipmentRecord>)
    ensures |r| <= FleetSize
    ensures forall e :: e in r <==>
      e in EquipmentList(FleetSize, now, draws) && StatusMatches(status, e) && TypeMatches(equipmentType, e)
    ensures IsSubsequence(r, EquipmentList(FleetSize, now, draws))
  {
    var all := EquipmentList(FleetSize, now, draws);
    var byStatus := Filter((e: EquipmentRecord) => StatusMatches(status, e), all);
    var r := Filter((e: EquipmentRecord) => TypeMatches(equipmentType, e), byStatus);
    FilterFilter((e: EquipmentRecord) => StatusMatches(status, e), (e: EquipmentRecord) => TypeMatches(equipmentType, e), all);
    r
  }

  /** Without filters the whole fleet of 15 comes back, in generation order. */
  lemma ListWithoutFilters(now: int, draws: nat -> EquipmentDraws)
    ensures ListEquipment(None, None, now, draws) == EquipmentList(FleetSize, now, draws)
  {
    var all := EquipmentList(FleetSize, now, draws);
    FilterAllPass((e: EquipmentRecord) => StatusMatches(None, e), all);
    FilterAllPass((e: EquipmentRecord) => TypeMatches(None, e), all);
  }

  // ---------------------------------------------------------------- health report

  /** The draws of one health report. */
  datatype HealthDraws = HealthDraws(
    health: Unit, days: Unit, vibration: Unit, temperatureDeviation: Unit, cycles: Unit, runtime: Unit,
    errors: Unit)

  datatype HealthReport = HealthReport(
    equipmentId: string, healthScore: real, status: HealthStatus, maintenanceUrgency: RiskLevel,
    predictedFailureProbability: real, daysUntilMaintenance: int, vibrationLevel: real,
    temperatureDeviation: real, cyclesSinceMaintenance: int, runtimeHours: int, errorCount7d: int,
    recommendations: seq<string>)

  const NormalRecommendations: seq<string> := ["Equipment operating normally"]
  const AttentionRecommendations: seq<string> := [
    "Schedule preventive maintenance within next 30 days", "Monitor vibration levels closely",
    "Consider sensor recalibration"]

  /** `get_equipment_health`: a health score drawn from [65, 98) and everything that follows from it. */
  function GetEquipmentHealth(equipmentId: string, d: HealthDraws): (r: HealthReport)
    ensures 65.0 <= r.healthScore < 98.0
    ensures r.status == HealthStatusOf(r.healthScore)
    ensures r.status == Operational ==> r.maintenanceUrgency == Low && 30 <= r.daysUntilMaintenance <= 90
    ensures r.status == Warning ==> r.maintenanceUrgency == Medium && 7 <= r.daysUntilMaintenance <= 30
    ensures r.status == Critical ==> r.maintenanceUrgency == High && 1 <= r.daysUntilMaintenance <= 7
    ensures 0.02 < r.predictedFailureProbability <= 0.35
    ensures r.predictedFailureProbability * 100.0 == 100.0 - r.healthScore
    ensures r.recommendations == NormalRecommendations <==> r.healthScore >= 85.0
    ensures r.recommendations == NormalRecommendations || r.recommendations == AttentionRecommendations
  {
    var h := Uniform(65.0, 98.0, d.health);
    var status := HealthStatusOf(h);
    var urgency := if h >= 85.0 then Low else if h >= 70.0 then Medium else High;
    var days := if h >= 85.0 then RandInt(30, 90, d.days) else if h >= 70.0 then RandInt(7, 30, d.days)
                else RandInt(1, 7, d.days);
    HealthReport(
      equipmentId, h, status, urgency, (100.0 - h) / 100.0, days, Uniform(0.5, 3.0, d.vibration),
      Uniform(0.0, 5.0, d.temperatureDeviation), RandInt(50, 500, d.cycles), RandInt(1000, 10000, d.runtime),
      RandInt(0, 5, d.errors), if h < 85.0 then AttentionRecommendations else NormalRecommendations)
  }

  /** A healthier unit never gets a more severe status or a higher failure probability. */
  lemma HealthReportMonotone(id: string, d1: HealthDraws, d2: HealthDraws)
    requires GetEquipmentHealth(id, d1).healthScore <= GetEquipmentHealth(id, d2).healthScore
    ensures Severity(GetEquipmentHealth(id, d2).status) <= Severity(GetEquipmentHealth(id, d1).status)
    ensures GetEquipmentHealth(id, d2).predictedFailureProbability <= GetEquipmentHealth(id, d1).predictedFailureProbability
  {
    HealthStatusMonotone(GetEquipmentHealth(id, d1).healthScore, GetEquipmentHealth(id, d2).healthScore);
  }

  // ---------------------------------------------------------------- maintenance alerts

  datatype MaintenanceAlert = MaintenanceAlert(
    alertId: string, equipmentId: string, equipmentName: string, severity: string, healthScore: real,
    predictedFailureDays: int, message: string, createdAt: int, acknowledged: bool)

  /** Units below this health raise an alert. */
  const AlertThreshold: real := 85.0

  /** The alert raised for one unit: Critical below 70 with 7 days to failure, else Warning with 30. */
  function AlertFor(e: EquipmentRecord, now: int, dateStamp: string, formatHealth: real -> string)
    : (a: MaintenanceAlert)
    ensures a.equipmentId == e.equipmentId && a.healthScore == e.healthScore
    ensures a.alertId == "PM-" + e.equipmentId + "-" + dateStamp
    ensures a.severity == "Critical" <==> e.healthScore < 70.0
    ensures a.severity == "Critical" || a.severity == "Warning"
    ensures a.predictedFailureDays == (if a.severity == "Critical" then 7 else 30)
    ensures !a.acknowledged
  {
    var severity := if e.healthScore < 70.0 then "Critical" else "Warning";
    MaintenanceAlert(
      "PM-" + e.equipmentId + "-" + dateStamp, e.equipmentId, e.name, severity, e.healthScore,
      if severity == "Critical" then 7 else 30,
      e.name + " requires attention - Health score: " + formatHealth(e.healthScore), now, false)
  }

  /** The alerts the loop collects over `es`, in order. */
  function AlertsOf(es: seq<EquipmentRecord>, now: int, dateStamp: string, formatHealth: real -> string)
    : seq<MaintenanceAlert>
    decreases |es|
  {
    if es == [] then []
    else
      var last := es[|es| - 1];
      AlertsOf(es[..|es| - 1], now, dateStamp, formatHealth)
        + (if last.healthScore < AlertThreshold then [AlertFor(last, now, dateStamp, formatHealth)] else [])
  }

  /** Extending the scanned prefix by one unit adds that unit's alert, if it raises one. */
  lemma AlertsOfPrefix(es: seq<EquipmentRecord>, i: int, now: int, dateStamp: string, formatHealth: real -> string)
    requires 0 <= i < |es|
    ensures AlertsOf(es[..i + 1], now, dateStamp, formatHealth)
      == AlertsOf(es[..i], now, dateStamp, formatHealth)
         + (if es[i].healthScore < AlertThreshold then [AlertFor(es[i], now, dateStamp, formatHealth)] else [])
  {
    assert es[..i + 1][..i] == es[..i];
  }

  /** At most one alert per unit. */
  lemma {:induction false} AlertsOfLength(es: seq<EquipmentRecord>, now: int, dateStamp: string,
                                          formatHealth: real -> string)
    ensures |AlertsOf(es, now, dateStamp, formatHealth)| <= |es|
    decreases |es|
  {
    if es != [] {
      AlertsOfLength(es[..|es| - 1], now, dateStamp, formatHealth);
    }
  }

  /** Every alert raised is the alert of some unit below 85: alerts are never invented. */
  lemma {:induction false} AlertsOfSound(es: seq<EquipmentRecord>, now: int, dateStamp: string,
                                         formatHealth: real -> string)
    ensures forall a :: a in AlertsOf(es, now, dateStamp, formatHealth) ==>
      exists e :: e in es && e.healthScore < AlertThreshold && a == AlertFor(e, now, dateStamp, formatHealth)
    decreases |es|
  {
    if es != [] {
      var init := es[..|es| - 1];
      AlertsOfSound(init, now, dateStamp, formatHealth);
      assert forall e :: e in init ==> e in es;
    }
  }

  /** Every unit below 85 raises its alert. */
  lemma {:induction false} AlertsOfComplete(es: seq<EquipmentRecord>, now: int, dateStamp: string,
                                            formatHealth: real -> string)
    ensures forall e :: e in es && e.healthScore < AlertThreshold ==>
      AlertFor(e, now, dateStamp, formatHealth) in AlertsOf(es, now, dateStamp, formatHealth)
    decreases |es|
  {
    if es != [] {
      var init := es[..|es| - 1];
      AlertsOfComplete(init, now, dateStamp, formatHealth);
      assert es == init + [es[|es| - 1]];
      assert forall e :: e in es ==> e in init || e == es[|es| - 1];
    }
  }

  /** The severity filter: absent or empty keeps every alert. */
  predicate SeverityMatches(severity: Option<string>, a: MaintenanceAlert)
  {
    !Truthy(severity) || a.severity == severity.value
  }

  function AlertHealth(a: MaintenanceAlert): real { a.healthScore }

  /** The alerts `get_maintenance_alerts` returns for a fleet: raised, filtered, then sorted by health. */
  function MaintenanceAlerts(es: seq<EquipmentRecord>, severity: Option<string>, now: int, dateStamp: string,
                             formatHealth: real -> string): (r: seq<MaintenanceAlert>)
    ensures SortedBy(r, AlertHealth, false)
    ensures multiset(r) == multiset(Filter((a: MaintenanceAlert) => SeverityMatches(severity, a),
                                           AlertsOf(es, now, dateStamp, formatHealth)))
  {
    Sort(Filter((a: MaintenanceAlert) => SeverityMatches(severity, a), AlertsOf(es, now, dateStamp, formatHealth)),
         AlertHealth, false)
  }

  /** The loop of `get_maintenance_alerts`: one pass over the fleet, raising an alert per unit below 85. */
  method RaiseAlerts(equipment: seq<EquipmentRecord>, now: int, dateStamp: string, formatHealth: real -> string)
    returns (alerts: seq<MaintenanceAlert>)
    ensures alerts == AlertsOf(equipment, now, dateStamp, formatHealth)
  {
    alerts := [];
    var i := 0;
    while i < |equipment|
      invariant 0 <= i <= |equipment|
      invariant alerts == AlertsOf(equipment[..i], now, dateStamp, formatHealth)
    {
      var eq := equipment[i];
      AlertsOfPrefix(equipment, i, now, dateStamp, formatHealth);
      if eq.healthScore < AlertThreshold {
        alerts := alerts + [AlertFor(eq, now, dateStamp, formatHealth)];
      }
      i := i + 1;
    }
    assert equipment[..i] == equipment;
  }

  /** `get_maintenance_alerts`: the alerts of the generated fleet, filtered by severity, then sorted by health. */
  method GetMaintenanceAlerts(severity: Option<string>, now: int, dateStamp: string, formatHealth: real -> string,
                              draws: nat -> EquipmentDraws)
    returns (alerts: seq<MaintenanceAlert>)
    ensures alerts == MaintenanceAlerts(EquipmentList(FleetSize, now, draws), severity, now, dateStamp, formatHealth)
  {
    var equipment := GenerateEquipmentHealth(FleetSize, now, draws);
    var raised := RaiseAlerts(equipment, now, dateStamp, formatHealth);
    alerts := Sort(Filter((a: MaintenanceAlert) => SeverityMatches(severity, a), raised), AlertHealth, false);
  }

  /**
   * What the alert list promises: a permutation of the matching raised alerts, ordered by health,
   * lowest first; each one is for a unit below 85 and carries the severity and horizon of its band.
   */
  lemma MaintenanceAlertsWellFormed(es: seq<EquipmentRecord>, severity: Option<string>, now: int,
                                    dateStamp: string, formatHealth: real -> string)
    ensures var r := MaintenanceAlerts(es, severity, now, dateStamp, formatHealth);
      && SortedBy(r, AlertHealth, false)
      && |r| <= |es|
      && (forall a :: a in r ==>
            && SeverityMatches(severity, a)
            && a.healthScore < AlertThreshold
            && (a.severity == "Critical" <==> a.healthScore < 70.0)
            && a.predictedFailureDays == (if a.healthScore < 70.0 then 7 else 30)
            && exists e :: e in es && a == AlertFor(e, now, dateStamp, formatHealth))
      && (forall e :: (e in es && e.healthScore < AlertThreshold
                      && SeverityMatches(severity, AlertFor(e, now, dateStamp, formatHealth))) ==>
            AlertFor(e, now, dateStamp, formatHealth) in r)
  {
    var raised := AlertsOf(es, now, dateStamp, formatHealth);
    AlertsOfLength(es, now, dateStamp, formatHealth);
    AlertsOfSound(es, now, dateStamp, formatHealth);
    AlertsOfComplete(es, now, dateStamp, formatHealth);
    var kept := Filter((a: MaintenanceAlert) => SeverityMatches(severity, a), raised);
    var r := Sort(kept, AlertHealth, false);
    assert forall a :: a in r <==> a in kept by {
      forall a ensures a in r <==> a in kept {
        assert a in r <==> a in multiset(r);
        assert a in kept <==> a in multiset(kept);
      }
    }
  }
}
