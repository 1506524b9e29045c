/**
 * The record generators of the synthetic-data layer: batch manufacturing records, equipment health,
 * contamination alerts and the audit trail. Each generator appends one record per index in a loop;
 * each record clamps its drawn values and derives its status strings by fixed thresholds.
 */
module EntityRecords {
  import opened Wrappers
  import opened Draws
  import opened Text
  import opened Seqs
  import opened Buckets

  const MinutesPerHour: int := 60
  const MinutesPerDay: int := 1440

  /** A string drawn from Faker (a name, a sentence, an address, a hash): never empty. */
  type FakerText = s: string | |s| > 0 witness "x"

  /** Python truthiness of an optional string: present and not empty. */
  predicate Truthy(o: Option<string>)
  {
    o.Some? && o.value != ""
  }

  /** Number of records `range(n)` produces. */
  function RangeCount(n: int): nat
  {
    if n > 0 then n else 0
  }

  // ---------------------------------------------------------------- batch records

  const Products: seq<(string, string)> := [
    ("mAb-A", "Monoclonal Antibody"), ("mAb-B", "Monoclonal Antibody"), ("Vaccine-X", "Vaccine"),
    ("Vaccine-Y", "Vaccine"), ("Insulin-Pro", "Insulin"), ("Biosimilar-Z", "Biosimilar")]
  const Sites: seq<string> := ["Site-Boston", "Site-SanFrancisco", "Site-Singapore", "Site-Ireland"]
  const BatchStatuses: seq<string> := ["In Progress", "QC Review", "QA Review", "Released", "Released"]
  const Bioreactors: seq<string> := ["BR-01", "BR-02", "BR-03", "BR-04", "BR-05"]
  const DeviationDescriptions: seq<string> := [
    "Temperature excursion for 15 minutes", "pH drift outside specification",
    "Delayed sampling due to equipment issue", "Power fluctuation during run"]
  const Severities: seq<string> := ["Minor", "Major"]

  /** One batch in ten carries a deviation. */
  const DeviationRate: real := 0.1

  datatype Deviation = Deviation(deviationId: string, description: string, severity: string,
                                 investigationRequired: bool)

  /**
   * The draws one batch record consumes. The four normal draws are their raw values; `startOffset`
   * picks Faker's start time between six months ago and now.
   */
  datatype BatchDraws = BatchDraws(
    product: Unit, startOffset: Unit, yieldDraw: real, qualityDraw: real, purityDraw: real,
    potencyDraw: real, deviationRoll: Unit, deviationNumber: Unit, deviationDescription: Unit,
    deviationSeverity: Unit, durationDays: Unit, status: Unit, targetYield: Unit, actualYield: Unit,
    bioreactor: Unit, site: Unit, responsiblePerson: FakerText)

  datatype BatchRecord = BatchRecord(
    batchId: string, productName: string, product: string, startDate: int, endDate: int,
    status: string, targetYield: real, actualYield: real, yieldPercent: real, qualityScore: real,
    purityPercent: real, potencyPercent: real, bioreactorId: string, manufacturingSite: string,
    responsiblePerson: string, deviations: seq<Deviation>, capaRequired: bool)

  /** Faker's `-6M`, taken as 180 days, in minutes. */
  const SixMonthsMinutes: int := 180 * MinutesPerDay

  /** `f"B2024-{str(n).zfill(3)}"`. */
  function BatchId(n: nat): string
  {
    "B2024-" + ZFill(NatToString(n), 3)
  }

  /** Batch record `i`, generated at minute `now`. */
  function BatchAt(i: nat, now: int, d: BatchDraws): (b: BatchRecord)
    ensures b.batchId == BatchId(i + 1)
  {
    var product := Choice(Products, d.product);
    var deviations :=
      if d.deviationRoll < DeviationRate then
        [Deviation("DEV-" + NatToString(RandInt(1000, 9999, d.deviationNumber)),
                   Choice(DeviationDescriptions, d.deviationDescription),
                   Choice(Severities, d.deviationSeverity), true)]
      else [];
    var startDate := now - RandInt(0, SixMonthsMinutes, d.startOffset);
    BatchRecord(
      BatchId(i + 1), product.0, product.1, startDate,
      startDate + MinutesPerDay * RandInt(10, 21, d.durationDays),
      Choice(BatchStatuses, d.status), Uniform(40.0, 100.0, d.targetYield), Uniform(35.0, 95.0, d.actualYield),
      Clamp(75.0, 98.0, d.yieldDraw), Clamp(85.0, 100.0, d.qualityDraw), Clamp(95.0, 100.0, d.purityDraw),
      Clamp(90.0, 110.0, d.potencyDraw), Choice(Bioreactors, d.bioreactor), Choice(Sites, d.site),
      d.responsiblePerson, deviations, |deviations| > 0 && deviations[0].severity == "Major")
  }

  /**
   * Batch record `i` starts in the six months before `now`, keeps its scores inside their clamps,
   * lasts 10 to 21 days and takes its labels
   * from the fixed lists; it has at most one deviation, drawn with probability 10%, which always
   * requires an investigation, and CAPA is required exactly when that deviation is major.
   */
  lemma BatchAtWellFormed(i: nat, now: int, d: BatchDraws)
    ensures var b := BatchAt(i, now, d);
      && now - SixMonthsMinutes <= b.startDate <= now
      && 75.0 <= b.yieldPercent <= 98.0 && 85.0 <= b.qualityScore <= 100.0
      && 95.0 <= b.purityPercent <= 100.0 && 90.0 <= b.potencyPercent <= 110.0
      && 10 * MinutesPerDay <= b.endDate - b.startDate <= 21 * MinutesPerDay
      && b.status in BatchStatuses && b.bioreactorId in Bioreactors && b.manufacturingSite in Sites
      && (b.productName, b.product) in Products
      && 40.0 <= b.targetYield <= 100.0 && 35.0 <= b.actualYield <= 95.0
    ensures var b := BatchAt(i, now, d);
      && |b.deviations| <= 1
      && (|b.deviations| == 1 <==> d.deviationRoll < DeviationRate)
      && (forall dv :: dv in b.deviations ==> dv.severity in Severities && dv.investigationRequired)
      && (b.capaRequired <==> exists dv :: dv in b.deviations && dv.severity == "Major")
  {
  }

  /** The list `generate_batch_records(num_batches)` returns. */
  function BatchRecords(numBatches: int, now: int, draws: nat -> BatchDraws): (bs: seq<BatchRecord>)
    ensures |bs| == RangeCount(numBatches)
    ensures forall i :: 0 <= i < |bs| ==> bs[i] == BatchAt(i, now, draws(i))
    ensures forall i :: 0 <= i < |bs| ==> bs[i].batchId == BatchId(i + 1)
  {
    seq(RangeCount(numBatches), i requires 0 <= i => BatchAt(i, now, draws(i)))
  }

  /** `generate_batch_records`: one record per index, appended in order. */
  method GenerateBatchRecords(numBatches: int, now: int, draws: nat -> BatchDraws) returns (batches: seq<BatchRecord>)
    ensures batches == BatchRecords(numBatches, now, draws)
  {
    batches := [];
    var i := 0;
    while i < numBatches
      invariant 0 <= i <= RangeCount(numBatches)
      invariant batches == BatchRecords(i, now, draws)
    {
      BatchRecordsSnoc(i, now, draws);
      batches := batches + [BatchAt(i, now, draws(i))];
      i := i + 1;
    }
  }

  /** One more batch extends the list by that batch. */
  lemma BatchRecordsSnoc(n: nat, now: int, draws: nat -> BatchDraws)
    ensures BatchRecords(n + 1, now, draws) == BatchRecords(n, now, draws) + [BatchAt(n, now, draws(n))]
  {
    var longer, shorter := BatchRecords(n + 1, now, draws), BatchRecords(n, now, draws);
    forall k | 0 <= k < n + 1 ensures longer[k] == (shorter + [BatchAt(n, now, draws(n))])[k] {
      if k < n {
        assert (shorter + [BatchAt(n, now, draws(n))])[k] == shorter[k];
      }
    }
  }

  /** Distinct numbers give distinct batch ids. */
  lemma BatchIdInjective(a: nat, b: nat)
    requires a != b
    ensures BatchId(a) != BatchId(b)
  {
    PaddedIdInjective("B2024-", a, b, 3);
  }

  // ---------------------------------------------------------------- equipment health

  const EquipmentTypes: seq<(string, string)> := [
    ("Bioreactor", "BR"), ("Chromatography", "HPLC"), ("Centrifuge", "CENT"), ("Lyophilizer", "LYO"),
    ("Filtration Unit", "TFF"), ("Fermentation Tank", "FERM"), ("Mixing Tank", "MIX")]
  const Locations: seq<string> := ["Building-A", "Building-B", "Building-C"]
  const Manufacturers: seq<string> := ["Sartorius", "GE Healthcare", "Thermo Fisher", "Merck"]

  /** Days after which the maintenance-driven health reaches its floor of 60. */
  const MaintenanceHorizonDays: int := 180

  datatype EquipmentDraws = EquipmentDraws(
    kind: Unit, daysSinceMaintenance: Unit, healthNoise: real, nextMaintenanceDays: Unit,
    runtimeHours: Unit, cycles: Unit, location: Unit, manufacturer: Unit)

  datatype EquipmentRecord = EquipmentRecord(
    equipmentId: string, name: string, equipmentType: string, healthScore: real, status: HealthStatus,
    lastMaintenance: int, nextMaintenance: int, totalRuntimeHours: int, cyclesCompleted: int,
    location: string, manufacturer: string)

  /** `f"{prefix}-{str(n).zfill(2)}"`. */
  function EquipmentId(prefix: string, n: nat): string
  {
    prefix + "-" + ZFill(NatToString(n), 2)
  }

  /** Health before noise: 100, losing 40 points linearly over 180 days without maintenance. */
  function BaseHealth(days: int): (h: real)
    ensures 0 <= days <= MaintenanceHorizonDays ==> 60.0 <= h <= 100.0
    ensures days == 0 ==> h == 100.0
  {
    100.0 - (days as real / MaintenanceHorizonDays as real) * 40.0
  }

  /** Over the drawn range of 0 to 180 days the base health falls from 100 to 60. */
  lemma BaseHealthRange(d1: int, d2: int)
    requires 0 <= d1 <= d2 <= MaintenanceHorizonDays
    ensures 60.0 <= BaseHealth(d2) <= BaseHealth(d1) <= 100.0
    ensures BaseHealth(0) == 100.0 && BaseHealth(MaintenanceHorizonDays) == 60.0
  {
  }

  /** Equipment record `i`, generated at time `now`. */
  function EquipmentAt(i: nat, now: int, d: EquipmentDraws): (e: EquipmentRecord)
    ensures 60.0 <= e.healthScore <= 100.0
    ensures e.status == HealthStatusOf(e.healthScore)
    ensures (e.equipmentType, Choice(EquipmentTypes, d.kind).1) in EquipmentTypes
    ensures e.equipmentId == EquipmentId(Choice(EquipmentTypes, d.kind).1, i + 1)
    ensures now - MaintenanceHorizonDays * MinutesPerDay <= e.lastMaintenance <= now
    ensures now + 5 * MinutesPerDay <= e.nextMaintenance <= now + 90 * MinutesPerDay
    ensures 1000 <= e.totalRuntimeHours <= 50000 && 100 <= e.cyclesCompleted <= 5000
  {
    var kind := Choice(EquipmentTypes, d.kind);
    var days := RandInt(0, MaintenanceHorizonDays, d.daysSinceMaintenance);
    var health := Clamp(60.0, 100.0, BaseHealth(days) + d.healthNoise);
    EquipmentRecord(
      EquipmentId(kind.1, i + 1), kind.0 + "-" + ZFill(NatToString(i + 1), 2), kind.0, health,
      HealthStatusOf(health), now - MinutesPerDay * days,
      now + MinutesPerDay * RandInt(5, 90, d.nextMaintenanceDays), RandInt(1000, 50000, d.runtimeHours),
      RandInt(100, 5000, d.cycles), Choice(Locations, d.location), Choice(Manufacturers, d.manufacturer))
  }

  /** The list `generate_equipment_health(num_equipment)` returns. */
  function EquipmentList(numEquipment: int, now: int, draws: nat -> EquipmentDraws): (es: seq<EquipmentRecord>)
    ensures |es| == RangeCount(numEquipment)
    ensures forall i :: 0 <= i < |es| ==> es[i] == EquipmentAt(i, now, draws(i))
  {
    seq(RangeCount(numEquipment), i requires 0 <= i => EquipmentAt(i, now, draws(i)))
  }

  /** `generate_equipment_health`: one record per index, appended in order. */
  method GenerateEquipmentHealth(numEquipment: int, now: int, draws: nat -> EquipmentDraws)
    returns (equipment: seq<EquipmentRecord>)
    ensures equipment == EquipmentList(numEquipment, now, draws)
  {
    equipment := [];
    var i := 0;
    while i < numEquipment
      invariant 0 <= i <= RangeCount(numEquipment)
      invariant equipment == EquipmentList(i, now, draws)
    {
      EquipmentListSnoc(i, now, draws);
      equipment := equipment + [EquipmentAt(i, now, draws(i))];
      i := i + 1;
    }
  }

  /** One more record extends the list by that record. */
  lemma EquipmentListSnoc(n: nat, now: int, draws: nat -> EquipmentDraws)
    ensures EquipmentList(n + 1, now, draws) == EquipmentList(n, now, draws) + [EquipmentAt(n, now, draws(n))]
  {
    var longer, shorter := EquipmentList(n + 1, now, draws), EquipmentList(n, now, draws);
    forall k | 0 <= k < n + 1 ensures longer[k] == (shorter + [EquipmentAt(n, now, draws(n))])[k] {
      if k < n {
        assert (shorter + [EquipmentAt(n, now, draws(n))])[k] == shorter[k];
      }
    }
  }

  /** Equipment status and health agree exactly as the 85/70 thresholds say, with no gap or overlap. */
  lemma EquipmentStatusMatchesHealth(numEquipment: int, now: int, draws: nat -> EquipmentDraws)
    ensures forall e :: e in EquipmentList(numEquipment, now, draws) ==>
      60.0 <= e.healthScore <= 100.0
      && (e.status == Operational <==> e.healthScore >= 85.0)
      && (e.status == Warning <==> 70.0 <= e.healthScore < 85.0)
      && (e.status == Critical <==> e.healthScore < 70.0)
  {
  }

  /** No equipment-type prefix contains a dash. */
  lemma PrefixHasNoDash(u: Unit)
    ensures '-' !in Choice(EquipmentTypes, u).1
  {
    assert forall t :: t in EquipmentTypes ==> '-' !in t.1;
  }

  /** Ids with dash-free prefixes and distinct numbers differ, whatever the prefixes. */
  lemma EquipmentIdInjective(p: string, q: string, a: nat, b: nat)
    requires '-' !in p && '-' !in q && a != b
    ensures EquipmentId(p, a) != EquipmentId(q, b)
  {
    DashedIdNumber(p, a, 2);
    DashedIdNumber(q, b, 2);
  }

  /** Distinct equipment of one generated list carry distinct ids, whatever type each one drew. */
  lemma EquipmentIdsDistinct(numEquipment: int, now: int, draws: nat -> EquipmentDraws, i: int, j: int)
    requires 0 <= i < RangeCount(numEquipment) && 0 <= j < RangeCount(numEquipment) && i != j
    ensures EquipmentList(numEquipment, now, draws)[i].equipmentId
      != EquipmentList(numEquipment, now, draws)[j].equipmentId
  {
    PrefixHasNoDash(draws(i).kind);
    PrefixHasNoDash(draws(j).kind);
    EquipmentIdInjective(Choice(EquipmentTypes, draws(i).kind).1, Choice(EquipmentTypes, draws(j).kind).1, i + 1, j + 1);
  }

  // ---------------------------------------------------------------- contamination alerts

  const AlertTypes: seq<string> := [
    "Microbial contamination detected", "Elevated endotoxin levels", "Unusual cell morphology",
    "Abnormal metabolite profile", "Sensor drift detected"]
  const DetectorVersion: string := "contamination-detector-v2.1"

  /** The draws one alert consumes; the risk score is a Beta(2, 5) value. */
  datatype AlertDraws = AlertDraws(
    riskScore: Probability, hoursAgo: Unit, bioreactor: Unit, alertType: Unit, confidence: Unit)

  datatype ContaminationAlert = ContaminationAlert(
    alertId: string, timestamp: int, bioreactor: string, riskScore: real, status: RiskLevel,
    action: string, alertType: string, confidence: real, modelVersion: string)

  /** Alert `i`, raised between 1 and 72 hours before `now`. */
  function AlertAt(i: nat, now: int, d: AlertDraws): (a: ContaminationAlert)
    ensures a.alertId == "CONT-" + ZFill(NatToString(i + 1), 4)
    ensures now - 72 * MinutesPerHour <= a.timestamp <= now - MinutesPerHour
    ensures 0.0 <= a.riskScore <= 1.0
    ensures a.status == AlertRiskLevel(a.riskScore) && a.action == AlertAction(a.status)
    ensures 0.7 <= a.confidence <= 0.99 && a.bioreactor in Bioreactors
  {
    var level := AlertRiskLevel(d.riskScore);
    ContaminationAlert(
      "CONT-" + ZFill(NatToString(i + 1), 4), now - MinutesPerHour * RandInt(1, 72, d.hoursAgo),
      Choice(Bioreactors, d.bioreactor), d.riskScore, level, AlertAction(level),
      Choice(AlertTypes, d.alertType), Uniform(0.7, 0.99, d.confidence), DetectorVersion)
  }

  function AlertTime(a: ContaminationAlert): real
  {
    a.timestamp as real
  }

  /** The alerts in generation order, before sorting. */
  function UnsortedAlerts(numAlerts: int, now: int, draws: nat -> AlertDraws): (as_: seq<ContaminationAlert>)
    ensures |as_| == RangeCount(numAlerts)
    ensures forall i :: 0 <= i < |as_| ==> as_[i] == AlertAt(i, now, draws(i))
  {
    seq(RangeCount(numAlerts), i requires 0 <= i => AlertAt(i, now, draws(i)))
  }

  /** The list `generate_contamination_alerts(num_alerts)` returns: newest first. */
  function ContaminationAlerts(numAlerts: int, now: int, draws: nat -> AlertDraws): seq<ContaminationAlert>
  {
    Sort(UnsortedAlerts(numAlerts, now, draws), AlertTime, true)
  }

  /** `generate_contamination_alerts`: appends one alert per index, then sorts newest first. */
  method GenerateContaminationAlerts(numAlerts: int, now: int, draws: nat -> AlertDraws)
    returns (alerts: seq<ContaminationAlert>)
    ensures alerts == ContaminationAlerts(numAlerts, now, draws)
  {
    var generated: seq<ContaminationAlert> := [];
    var i := 0;
    while i < numAlerts
      invariant 0 <= i <= RangeCount(numAlerts)
      invariant generated == UnsortedAlerts(i, now, draws)
    {
      UnsortedAlertsSnoc(i, now, draws);
      generated := generated + [AlertAt(i, now, draws(i))];
      i := i + 1;
    }
    alerts := Sort(generated, AlertTime, true);
  }

  /** One more alert extends the generated list by that alert. */
  lemma UnsortedAlertsSnoc(n: nat, now: int, draws: nat -> AlertDraws)
    ensures UnsortedAlerts(n + 1, now, draws) == UnsortedAlerts(n, now, draws) + [AlertAt(n, now, draws(n))]
  {
    var longer, shorter := UnsortedAlerts(n + 1, now, draws), UnsortedAlerts(n, now, draws);
    forall k | 0 <= k < n + 1 ensures longer[k] == (shorter + [AlertAt(n, now, draws(n))])[k] {
      if k < n {
        assert (shorter + [AlertAt(n, now, draws(n))])[k] == shorter[k];
      }
    }
  }

  /**
   * The returned alerts are the generated ones reordered newest first, and every one of them pairs
   * its risk score with the (status, action) the 0.3/0.7 thresholds give.
   */
  lemma ContaminationAlertsWellFormed(numAlerts: int, now: int, draws: nat -> AlertDraws)
    ensures var r := ContaminationAlerts(numAlerts, now, draws);
      multiset(r) == multiset(UnsortedAlerts(numAlerts, now, draws))
      && SortedBy(r, AlertTime, true)
      && |r| == RangeCount(numAlerts)
    ensures forall a :: a in ContaminationAlerts(numAlerts, now, draws) ==>
      0.0 <= a.riskScore <= 1.0 && a.status == AlertRiskLevel(a.riskScore)
      && a.action == AlertAction(a.status)
  {
    var r := ContaminationAlerts(numAlerts, now, draws);
    var u := UnsortedAlerts(numAlerts, now, draws);
    forall a | a in r
      ensures 0.0 <= a.riskScore <= 1.0 && a.status == AlertRiskLevel(a.riskScore)
      ensures a.action == AlertAction(a.status)
    {
      assert a in multiset(u);
      var k :| 0 <= k < |u| && u[k] == a;
    }
  }

  // ---------------------------------------------------------------- audit trail

  const AuditActions: seq<string> := ["CREATE", "READ", "UPDATE", "DELETE", "APPROVE", "REJECT", "ELECTRONIC_SIGNATURE"]
  const AuditEntities: seq<string> := ["batch", "bioreactor", "equipment", "test_result", "deviation"]
  const AuditRoles: seq<string> := ["Manufacturing Specialist", "QC Analyst", "QA Manager", "Production Supervisor"]
  const AuditSeverities: seq<string> := ["INFO", "WARNING", "CRITICAL"]

  /** Audit records are kept for ten years. */
  const RetentionDays: int := 3650

  /** The before or after picture of an UPDATE: an optional temperature and a status. */
  datatype ChangeValue = ChangeValue(temperature: Option<real>, status: string)

  /**
   * One audit entry. The fields the entity-trail fallback does not fill in are optional, so a
   * missing key is `None`.
   */
  datatype AuditEntry = AuditEntry(
    auditId: string, timestamp: int, userId: Option<string>, userName: string,
    userRole: Option<string>, action: string, entityType: string, entityId: string,
    changeReason: Option<string>, ipAddress: Option<string>, sessionId: Option<string>,
    severity: string, retentionUntil: Option<int>, hashSignature: Option<string>,
    oldValue: Option<ChangeValue>, newValue: Option<ChangeValue>)

  datatype AuditDraws = AuditDraws(
    action: Unit, entityType: Unit, hoursAgo: Unit, userNumber: Unit, userName: FakerText, role: Unit,
    entityNumber: Unit, changeReason: FakerText, ipAddress: FakerText, sessionToken: FakerText,
    severity: Unit, hashSignature: FakerText)

  /** Audit entry `i`, written between 1 and 720 hours before `now`. */
  function AuditAt(i: nat, now: int, d: AuditDraws): (e: AuditEntry)
    ensures e.auditId == "AUD-2024-" + ZFill(NatToString(i + 1), 6)
    ensures now - 720 * MinutesPerHour <= e.timestamp <= now - MinutesPerHour
    ensures Truthy(e.userId) && Truthy(e.changeReason) && e.retentionUntil == Some(now + RetentionDays * MinutesPerDay)
    ensures e.action in AuditActions && e.entityType in AuditEntities && e.severity in AuditSeverities
    ensures e.oldValue.Some? <==> e.action == "UPDATE"
    ensures e.newValue.Some? <==> e.action == "UPDATE"
    ensures Upper(e.entityType) + "-" <= e.entityId
  {
    var action := Choice(AuditActions, d.action);
    var entityType := Choice(AuditEntities, d.entityType);
    var update := action == "UPDATE";
    AuditEntry(
      "AUD-2024-" + ZFill(NatToString(i + 1), 6),
      now - MinutesPerHour * RandInt(1, 720, d.hoursAgo),
      Some("USR-" + ZFill(NatToString(RandInt(1, 50, d.userNumber)), 3)),
      d.userName, Some(Choice(AuditRoles, d.role)), action, entityType,
      Upper(entityType) + "-" + ZFill(NatToString(RandInt(1, 100, d.entityNumber)), 3),
      Some(d.changeReason), Some(d.ipAddress),
      Some("sess_" + d.sessionToken[..if |d.sessionToken| < 8 then |d.sessionToken| else 8]),
      Choice(AuditSeverities, d.severity), Some(now + RetentionDays * MinutesPerDay), Some(d.hashSignature),
      if update then Some(ChangeValue(Some(36.9), "In Progress")) else None,
      if update then Some(ChangeValue(Some(37.0), "QC Review")) else None)
  }

  function EntryTime(e: AuditEntry): real
  {
    e.timestamp as real
  }

  /** The entries in generation order, before sorting. */
  function UnsortedAuditTrail(numEntries: int, now: int, draws: nat -> AuditDraws): (es: seq<AuditEntry>)
    ensures |es| == RangeCount(numEntries)
    ensures forall i :: 0 <= i < |es| ==> es[i] == AuditAt(i, now, draws(i))
  {
    seq(RangeCount(numEntries), i requires 0 <= i => AuditAt(i, now, draws(i)))
  }

  /** The list `generate_audit_trail(num_entries)` returns: newest first. */
  function AuditTrail(numEntries: int, now: int, draws: nat -> AuditDraws): seq<AuditEntry>
  {
    Sort(UnsortedAuditTrail(numEntries, now, draws), EntryTime, true)
  }

  /** `generate_audit_trail`: appends one entry per index, then sorts newest first. */
  method GenerateAuditTrail(numEntries: int, now: int, draws: nat -> AuditDraws) returns (entries: seq<AuditEntry>)
    ensures entries == AuditTrail(numEntries, now, draws)
  {
    var generated: seq<AuditEntry> := [];
    var i := 0;
    while i < numEntries
      invariant 0 <= i <= RangeCount(numEntries)
      invariant generated == UnsortedAuditTrail(i, now, draws)
    {
      UnsortedAuditTrailSnoc(i, now, draws);
      generated := generated + [AuditAt(i, now, draws(i))];
      i := i + 1;
    }
    entries := Sort(generated, EntryTime, true);
  }

  /** One more entry extends the generated list by that entry. */
  lemma UnsortedAuditTrailSnoc(n: nat, now: int, draws: nat -> AuditDraws)
    ensures UnsortedAuditTrail(n + 1, now, draws) == UnsortedAuditTrail(n, now, draws) + [AuditAt(n, now, draws(n))]
  {
    var longer, shorter := UnsortedAuditTrail(n + 1, now, draws), UnsortedAuditTrail(n, now, draws);
    forall k | 0 <= k < n + 1 ensures longer[k] == (shorter + [AuditAt(n, now, draws(n))])[k] {
      if k < n {
        assert (shorter + [AuditAt(n, now, draws(n))])[k] == shorter[k];
      }
    }
  }

  /**
   * The trail is the generated entries reordered newest first, and every entry is attributed to a
   * user, carries a change reason and a retention date, and holds old/new values exactly when it
   * records an UPDATE.
   */
  lemma AuditTrailWellFormed(numEntries: int, now: int, draws: nat -> AuditDraws)
    ensures var r := AuditTrail(numEntries, now, draws);
      multiset(r) == multiset(UnsortedAuditTrail(numEntries, now, draws))
      && SortedBy(r, EntryTime, true)
      && |r| == RangeCount(numEntries)
    ensures forall e :: e in AuditTrail(numEntries, now, draws) ==>
      Truthy(e.userId) && Truthy(e.changeReason) && e.retentionUntil.Some?
      && (e.oldValue.Some? <==> e.action == "UPDATE") && e.action in AuditActions
  {
    var r := AuditTrail(numEntries, now, draws);
    var u := UnsortedAuditTrail(numEntries, now, draws);
    forall e | e in r
      ensures Truthy(e.userId) && Truthy(e.changeReason) && e.retentionUntil.Some?
      ensures (e.oldValue.Some? <==> e.action == "UPDATE") && e.action in AuditActions
    {
      assert e in multiset(u);
      var k :| 0 <= k < |u| && u[k] == e;
    }
  }
}
