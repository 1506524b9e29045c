/**
 * The audit-trail endpoints of the 21 CFR Part 11 layer: the filtered log query, the trail of one
 * entity (with its fallback history), a user's activity summary, the ALCOA+ data-integrity check
 * and the compliance report.
 */
module AuditApi {
  import opened Wrappers
  import opened Text
  import opened Seqs
  import opened EntityRecords

  /** A query parameter outside its declared bounds (HTTP 422). */
  datatype QueryError = LimitOutOfRange | DaysOutOfRange

  // ---------------------------------------------------------------- log query

  /** The four filters of the log query; an absent or empty filter keeps everything. */
  predicate TypeMatches(entityType: Option<string>, e: AuditEntry) { !Truthy(entityType) || e.entityType == entityType.value }
  predicate IdMatches(entityId: Option<string>, e: AuditEntry) { !Truthy(entityId) || e.entityId == entityId.value }
  predicate UserMatches(userId: Option<string>, e: AuditEntry) { !Truthy(userId) || e.userId == Some(userId.value) }
  predicate ActionMatches(action: Option<string>, e: AuditEntry) { !Truthy(action) || e.action == action.value }

  /** An entry passes the query when it passes all four filters. */
  predicate LogMatches(entityType: Option<string>, entityId: Option<string>, userId: Option<string>,
                       action: Option<string>, e: AuditEntry)
  {
    TypeMatches(entityType, e) && IdMatches(entityId, e) && UserMatches(userId, e) && ActionMatches(action, e)
  }

  /** The log query over a list of entries: the four filters applied one after the other. */
  function QueryLogs(entityType: Option<string>, entityId: Option<string>, userId: Option<string>,
                     action: Option<string>, logs: seq<AuditEntry>): (r: seq<AuditEntry>)
    ensures |r| <= |logs|
    ensures forall e :: e in r <==> e in logs && LogMatches(entityType, entityId, userId, action, e)
    ensures IsSubsequence(r, logs)
  {
    var byType := Filter((e: AuditEntry) => TypeMatches(entityType, e), logs);
    var byId := Filter((e: AuditEntry) => IdMatches(entityId, e), byType);
    var byUser := Filter((e: AuditEntry) => UserMatches(userId, e), byId);
    var r := Filter((e: AuditEntry) => ActionMatches(action, e), byUser);
    assert IsSubsequence(r, logs) by {
      SubsequenceTrans(byId, byType, logs);
      SubsequenceTrans(byUser, byId, logs);
      SubsequenceTrans(r, byUser, logs);
    }
    r
  }

  /** The query keeps the order of its input: a newest-first list stays newest first. */
  lemma QueryKeepsOrder(entityType: Option<string>, entityId: Option<string>, userId: Option<string>,
                        action: Option<string>, logs: seq<AuditEntry>)
    requires SortedBy(logs, EntryTime, true)
    ensures SortedBy(QueryLogs(entityType, entityId, userId, action, logs), EntryTime, true)
  {
    var byType := Filter((e: AuditEntry) => TypeMatches(entityType, e), logs);
    var byId := Filter((e: AuditEntry) => IdMatches(entityId, e), byType);
    var byUser := Filter((e: AuditEntry) => UserMatches(userId, e), byId);
    FilterKeepsOrder((e: AuditEntry) => TypeMatches(entityType, e), logs, EntryTime, true);
    FilterKeepsOrder((e: AuditEntry) => IdMatches(entityId, e), byType, EntryTime, true);
    FilterKeepsOrder((e: AuditEntry) => UserMatches(userId, e), byId, EntryTime, true);
    FilterKeepsOrder((e: AuditEntry) => ActionMatches(action, e), byUser, EntryTime, true);
  }

  /**
   * `get_audit_logs`: `limit` generated entries queried by entity type, entity id, user and action.
   * The start and end dates are accepted and never applied.
   */
  function GetAuditLogs(entityType: Option<string>, entityId: Option<string>, userId: Option<string>,
                        action: Option<string>, startDate: Option<string>, endDate: Option<string>,
                        limit: int, now: int, draws: nat -> AuditDraws): (r: Result<seq<AuditEntry>, QueryError>)
    ensures r.Err? <==> limit < 1 || limit > 1000
    ensures r.Ok? ==> r.value == QueryLogs(entityType, entityId, userId, action, AuditTrail(limit, now, draws))
  {
    if limit < 1 || limit > 1000 then Err(LimitOutOfRange)
    else Ok(QueryLogs(entityType, entityId, userId, action, AuditTrail(limit, now, draws)))
  }

  /** A successful query returns at most `limit` matching entries, newest first. */
  lemma AuditLogsWellFormed(entityType: Option<string>, entityId: Option<string>, userId: Option<string>,
                            action: Option<string>, limit: int, now: int, draws: nat -> AuditDraws)
    requires 1 <= limit <= 1000
    ensures var r := QueryLogs(entityType, entityId, userId, action, AuditTrail(limit, now, draws));
      |r| <= limit && SortedBy(r, EntryTime, true)
  {
    AuditTrailWellFormed(limit, now, draws);
    QueryKeepsOrder(entityType, entityId, userId, action, AuditTrail(limit, now, draws));
  }

  /** The date filters change nothing. */
  lemma DatesIgnored(entityType: Option<string>, entityId: Option<string>, userId: Option<string>,
                     action: Option<string>, startDate: Option<string>, endDate: Option<string>,
                     limit: int, now: int, draws: nat -> AuditDraws)
    ensures GetAuditLogs(entityType, entityId, userId, action, startDate, endDate, limit, now, draws)
      == GetAuditLogs(entityType, entityId, userId, action, None, None, limit, now, draws)
  {
  }

  // ---------------------------------------------------------------- entity trail

  predicate IsEntity(entityType: string, entityId: string, e: AuditEntry)
  {
    e.entityType == entityType && e.entityId == entityId
  }

  /** The three-step history shown for an entity with no logged entry: created, sent to QC, approved. */
  function FallbackTrail(entityType: string, entityId: string, now: int): (r: seq<AuditEntry>)
    ensures |r| == 3
    ensures forall e :: e in r ==> IsEntity(entityType, entityId, e) && e.severity == "INFO" && e.userId.None?
    ensures [r[0].action, r[1].action, r[2].action] == ["CREATE", "UPDATE", "APPROVE"]
    ensures r[0].timestamp < r[1].timestamp < r[2].timestamp < now
    ensures r[0].auditId == "AUD-" + entityId + "-001" && r[2].auditId == "AUD-" + entityId + "-003"
    ensures forall e :: e in r ==> (e.oldValue.Some? <==> e.action == "UPDATE")
  {
    [ AuditEntry("AUD-" + entityId + "-001", now - 14 * MinutesPerDay, None, "System", None, "CREATE",
                 entityType, entityId, Some("Initial creation of " + entityType), None, None, "INFO", None, None,
                 None, None),
      AuditEntry("AUD-" + entityId + "-002", now - 7 * MinutesPerDay, None, "QC Analyst", None, "UPDATE",
                 entityType, entityId, Some("Batch completed, moving to QC"), None, None, "INFO", None, None,
                 Some(ChangeValue(None, "In Progress")), Some(ChangeValue(None, "QC Review"))),
      AuditEntry("AUD-" + entityId + "-003", now - 2 * MinutesPerDay, None, "QA Manager", None, "APPROVE",
                 entityType, entityId, Some("All quality tests passed"), None, None, "INFO", None, None,
                 None, None) ]
  }

  /** The trail of one entity within a list of entries, or the fallback history when it has none. */
  function EntityTrail(entityType: string, entityId: string, now: int, logs: seq<AuditEntry>)
    : (r: seq<AuditEntry>)
    ensures |r| > 0
    ensures forall e :: e in r ==> IsEntity(entityType, entityId, e)
    ensures (exists e :: e in logs && IsEntity(entityType, entityId, e)) ==>
      forall e :: e in r <==> e in logs && IsEntity(entityType, entityId, e)
    ensures (forall e :: e in logs ==> !IsEntity(entityType, entityId, e)) ==>
      r == FallbackTrail(entityType, entityId, now)
  {
    var matches := Filter((e: AuditEntry) => IsEntity(entityType, entityId, e), logs);
    if |matches| == 0 then FallbackTrail(entityType, entityId, now)
    else
      assert matches[0] in matches;
      matches
  }

  /** `get_entity_audit_trail`: the trail of the entity among 50 generated entries. */
  function GetEntityAuditTrail(entityType: string, entityId: string, now: int, draws: nat -> AuditDraws)
    : (r: seq<AuditEntry>)
    ensures r == EntityTrail(entityType, entityId, now, AuditTrail(50, now, draws))
    ensures |r| > 0 && forall e :: e in r ==> IsEntity(entityType, entityId, e)
  {
    EntityTrail(entityType, entityId, now, AuditTrail(50, now, draws))
  }

  // ---------------------------------------------------------------- action breakdown

  /** Number of entries recording `action`. */
  function NumWithAction(logs: seq<AuditEntry>, action: string): (n: nat)
    ensures n <= |logs|
    ensures n > 0 <==> exists e :: e in logs && e.action == action
    decreases |logs|
  {
    if logs == [] then 0
    else
      var init := logs[..|logs| - 1];
      assert logs == init + [logs[|logs| - 1]];
      assert forall e :: e in logs <==> e in init || e == logs[|logs| - 1];
      NumWithAction(init, action) + (if logs[|logs| - 1].action == action then 1 else 0)
  }

  /** The `action_counts` dictionary the loop builds, entry by entry. */
  function ActionCounts(logs: seq<AuditEntry>): map<string, nat>
    decreases |logs|
  {
    if logs == [] then map[]
    else
      var m := ActionCounts(logs[..|logs| - 1]);
      var a := logs[|logs| - 1].action;
      m[a := (if a in m then m[a] else 0) + 1]
  }

  /** The breakdown has a key for exactly the actions that occur, and each value counts its action. */
  lemma {:induction false} ActionCountsCorrect(logs: seq<AuditEntry>)
    ensures forall a :: a in ActionCounts(logs) <==> NumWithAction(logs, a) > 0
    ensures forall a :: a in ActionCounts(logs) ==> ActionCounts(logs)[a] == NumWithAction(logs, a)
    decreases |logs|
  {
    if logs != [] {
      ActionCountsCorrect(logs[..|logs| - 1]);
    }
  }

  /** The sum of the values of a breakdown. */
  ghost function MapTotal(m: map<string, nat>): nat
    decreases |m.Keys|
  {
    if m == map[] then 0
    else
      var k :| k in m;
      assert (m - {k}).Keys == m.Keys - {k};
      m[k] + MapTotal(m - {k})
  }

  /** The sum does not depend on which key it starts from. */
  lemma {:induction false} MapTotalAt(m: map<string, nat>, k: string)
    requires k in m
    ensures MapTotal(m) == m[k] + MapTotal(m - {k})
    decreases |m.Keys|
  {
    var j :| j in m && MapTotal(m) == m[j] + MapTotal(m - {j});
    if j != k {
      assert (m - {j}).Keys == m.Keys - {j};
      assert (m - {k}).Keys == m.Keys - {k};
      MapTotalAt(m - {j}, k);
      MapTotalAt(m - {k}, j);
      assert m - {j} - {k} == m - {k} - {j};
    }
  }

  /** Counting one more occurrence of `a` raises the sum by one. */
  lemma MapTotalIncrement(m: map<string, nat>, a: string)
    ensures MapTotal(m[a := (if a in m then m[a] else 0) + 1]) == MapTotal(m) + 1
  {
    var m' := m[a := (if a in m then m[a] else 0) + 1];
    MapTotalAt(m', a);
    if a in m {
      MapTotalAt(m, a);
      assert m' - {a} == m - {a};
    } else {
      assert m' - {a} == m;
    }
  }

  /** The per-action counts add up to the number of entries they were taken from. */
  lemma {:induction false} ActionCountsTotal(logs: seq<AuditEntry>)
    ensures MapTotal(ActionCounts(logs)) == |logs|
    decreases |logs|
  {
    if logs != [] {
      ActionCountsTotal(logs[..|logs| - 1]);
      MapTotalIncrement(ActionCounts(logs[..|logs| - 1]), logs[|logs| - 1].action);
    }
  }

  /** `action_counts[action] = action_counts.get(action, 0) + 1` over the logs. */
  method CountActions(logs: seq<AuditEntry>) returns (counts: map<string, nat>)
    ensures counts == ActionCounts(logs)
    ensures forall a :: a in counts <==> exists e :: e in logs && e.action == a
    ensures forall a :: a in counts ==> 0 < counts[a] <= |logs| && counts[a] == NumWithAction(logs, a)
  {
    counts := map[];
    var i := 0;
    while i < |logs|
      invariant 0 <= i <= |logs|
      invariant counts == ActionCounts(logs[..i])
    {
      assert logs[..i + 1][..i] == logs[..i];
      var action := logs[i].action;
      var previous := if action in counts then counts[action] else 0;
      counts := counts[action := previous + 1];
      i := i + 1;
    }
    assert logs[..i] == logs;
    ActionCountsCorrect(logs);
  }

  // ---------------------------------------------------------------- user activity

  datatype UserActivity = UserActivity(
    userId: string, periodDays: int, totalActions: nat, actionBreakdown: map<string, nat>,
    entitiesModified: nat, criticalActions: nat, recentActivities: seq<AuditEntry>)

  predicate IsCritical(e: AuditEntry) { e.severity == "CRITICAL" }

  /** The distinct entity ids of the logs. */
  function EntityIds(logs: seq<AuditEntry>): set<string>
  {
    set i | 0 <= i < |logs| :: logs[i].entityId
  }

  /** There are no more distinct entity ids than entries. */
  lemma {:induction false} EntityIdsBound(logs: seq<AuditEntry>)
    ensures |EntityIds(logs)| <= |logs|
    decreases |logs|
  {
    if logs != [] {
      var init := logs[..|logs| - 1];
      EntityIdsBound(init);
      assert EntityIds(logs) == EntityIds(init) + {logs[|logs| - 1].entityId} by {
        forall x | x in EntityIds(logs) ensures x in EntityIds(init) + {logs[|logs| - 1].entityId} {
          var i :| 0 <= i < |logs| && logs[i].entityId == x;
          if i < |logs| - 1 {
            assert init[i] == logs[i];
          }
        }
        forall x | x in EntityIds(init) ensures x in EntityIds(logs) {
          var i :| 0 <= i < |init| && init[i].entityId == x;
          assert logs[i] == init[i];
        }
      }
    }
  }

  /** The entries of one user. */
  function UserLogs(userId: string, logs: seq<AuditEntry>): (r: seq<AuditEntry>)
    ensures |r| <= |logs|
    ensures forall e :: e in r <==> e in logs && e.userId == Some(userId)
  {
    Filter((e: AuditEntry) => e.userId == Some(userId), logs)
  }

  /** The activity summary of one user over a list of entries. */
  function UserActivityOf(userId: string, days: int, logs: seq<AuditEntry>): (u: UserActivity)
    ensures var mine := UserLogs(userId, logs);
      && u.totalActions == |mine| <= |logs|
      && u.actionBreakdown == ActionCounts(mine)
      && u.entitiesModified == |EntityIds(mine)| <= u.totalActions
      && u.criticalActions == Count(IsCritical, mine) <= u.totalActions
      && u.recentActivities == mine[..if |mine| < 10 then |mine| else 10]
  {
    var mine := UserLogs(userId, logs);
    EntityIdsBound(mine);
    CountBound(IsCritical, mine);
    UserActivity(userId, days, |mine|, ActionCounts(mine), |EntityIds(mine)|, Count(IsCritical, mine),
                 mine[..if |mine| < 10 then |mine| else 10])
  }

  /** The breakdown of a user's activity counts exactly that user's entries, action by action. */
  lemma UserBreakdownCounts(userId: string, days: int, logs: seq<AuditEntry>)
    ensures var u := UserActivityOf(userId, days, logs);
      forall a :: a in u.actionBreakdown <==>
        exists e :: e in logs && e.userId == Some(userId) && e.action == a
    ensures var u := UserActivityOf(userId, days, logs);
      forall a :: a in u.actionBreakdown ==> u.actionBreakdown[a] == NumWithAction(UserLogs(userId, logs), a)
  {
    ActionCountsCorrect(UserLogs(userId, logs));
  }

  /** A user's breakdown adds up to that user's total actions. */
  lemma UserBreakdownSumsToTotal(userId: string, days: int, logs: seq<AuditEntry>)
    ensures var u := UserActivityOf(userId, days, logs); MapTotal(u.actionBreakdown) == u.totalActions
  {
    ActionCountsTotal(UserLogs(userId, logs));
  }

  /** `get_user_activity`: the activity of the user among 200 generated entries, for `days` in [1, 365]. */
  method GetUserActivity(userId: string, days: int, now: int, draws: nat -> AuditDraws)
    returns (r: Result<UserActivity, QueryError>)
    ensures r.Err? <==> days < 1 || days > 365
    ensures r.Ok? ==> r.value == UserActivityOf(userId, days, AuditTrail(200, now, draws))
  {
    if days < 1 || days > 365 {
      return Err(DaysOutOfRange);
    }
    var logs := GenerateAuditTrail(200, now, draws);
    var userLogs := UserLogs(userId, logs);
    var counts := CountActions(userLogs);
    var entities := EntityIds(userLogs);
    var critical := Count(IsCritical, userLogs);
    var u := UserActivity(userId, days, |userLogs|, counts, |entities|, critical,
                          userLogs[..if |userLogs| < 10 then |userLogs| else 10]);
    assert u == UserActivityOf(userId, days, logs);
    return Ok(u);
  }

  // ---------------------------------------------------------------- data integrity

  datatype IntegrityCheck = IntegrityCheck(
    checkId: string, entityType: string, entityId: string, checkedBy: string,
    attributable: bool, legible: bool, contemporaneous: bool, original: bool, accurate: bool,
    complete: bool, consistent: bool, enduring: bool, available: bool,
    overallCompliance: bool, issuesFound: seq<string>, auditTrailEntries: nat, recommendation: string)

  const MissingAttribution: string := "Some records missing user attribution"
  const MissingReasons: string := "Some records missing change reasons"

  /** The ALCOA+ verdict over a set of entries. */
  function Integrity(entityType: string, entityId: string, dateStamp: string, checkedBy: string,
                     entries: seq<AuditEntry>): (c: IntegrityCheck)
    ensures c.attributable <==> forall e :: e in entries ==> Truthy(e.userId)
    ensures c.complete <==> forall e :: e in entries ==> Truthy(e.changeReason)
    ensures c.enduring <==> forall e :: e in entries ==> e.retentionUntil.Some?
    ensures c.available <==> |entries| > 0
    ensures c.legible && c.contemporaneous && c.original && c.accurate && c.consistent
    ensures c.overallCompliance <==>
      && c.attributable && c.legible && c.contemporaneous && c.original && c.accurate
      && c.complete && c.consistent && c.enduring && c.available
    ensures c.overallCompliance <==> c.attributable && c.complete && c.enduring && c.available
    ensures c.issuesFound == (if c.attributable then [] else [MissingAttribution])
                           + (if c.complete then [] else [MissingReasons])
    ensures (MissingAttribution in c.issuesFound <==> !c.attributable)
      && (MissingReasons in c.issuesFound <==> !c.complete) && |c.issuesFound| <= 2
    ensures c.recommendation == "All ALCOA+ criteria met" <==> c.issuesFound == []
    ensures c.recommendation == "All ALCOA+ criteria met" <==> c.attributable && c.complete
    ensures c.recommendation != "All ALCOA+ criteria met" ==> c.recommendation == "Address identified issues"
    ensures c.entityType == entityType && c.entityId == entityId && c.checkedBy == checkedBy
    ensures c.auditTrailEntries == |entries|
    ensures c.checkId == "DI-" + entityId + "-" + dateStamp
  {
    var attributable := forall e :: e in entries ==> Truthy(e.userId);
    var complete := forall e :: e in entries ==> Truthy(e.changeReason);
    var enduring := forall e :: e in entries ==> e.retentionUntil.Some?;
    var available := |entries| > 0;
    // Every entry carries a timestamp, so `legible` holds; the source fixes the other four to true.
    var legible, contemporaneous, original, accurate, consistent := true, true, true, true, true;
    var issues := (if attributable then [] else [MissingAttribution]) + (if complete then [] else [MissingReasons]);
    IntegrityCheck(
      "DI-" + entityId + "-" + dateStamp, entityType, entityId, checkedBy,
      attributable, legible, contemporaneous, original, accurate, complete, consistent, enduring, available,
      attributable && legible && contemporaneous && original && accurate && complete && consistent
      && enduring && available, issues, |entries|,
      if issues == [] then "All ALCOA+ criteria met" else "Address identified issues")
  }

  /** The filter of `check_data_integrity`: the entry has the entity type; the id is not compared. */
  function OfType(entityType: string): AuditEntry -> bool
  {
    (e: AuditEntry) => e.entityType == entityType
  }

  /** The first five entries of the logs with the entity type, in log order. */
  function FirstOfType(entityType: string, logs: seq<AuditEntry>): (r: seq<AuditEntry>)
    ensures |r| == (if Count(OfType(entityType), logs) < 5 then Count(OfType(entityType), logs) else 5)
    ensures r == Filter(OfType(entityType), logs)[..|r|]
    ensures forall e :: e in r ==> e in logs && e.entityType == entityType
    ensures |r| > 0 <==> exists e :: e in logs && e.entityType == entityType
  {
    var ofType := Filter(OfType(entityType), logs);
    var r := ofType[..if |ofType| < 5 then |ofType| else 5];
    assert forall e :: e in r ==> e in ofType;
    if |ofType| > 0 then
      assert ofType[0] in r;
      r
    else
      r
  }

  /** `check_data_integrity`. */
  function CheckDataIntegrity(entityType: string, entityId: string, now: int, dateStamp: string,
                              checkedBy: string, draws: nat -> AuditDraws): (c: IntegrityCheck)
    ensures c == Integrity(entityType, entityId, dateStamp, checkedBy, FirstOfType(entityType, AuditTrail(50, now, draws)))
    ensures c.auditTrailEntries <= 5
  {
    Integrity(entityType, entityId, dateStamp, checkedBy, FirstOfType(entityType, AuditTrail(50, now, draws)))
  }

  /**
   * On logs whose every entry is attributed, reasoned and retained, the integrity check passes exactly when
   * at least one entry has the entity type, whatever the entity id.
   */
  lemma IntegrityOnWellFormedLogs(entityType: string, entityId: string, dateStamp: string, checkedBy: string,
                                  logs: seq<AuditEntry>)
    requires forall e :: e in logs ==> Truthy(e.userId) && Truthy(e.changeReason) && e.retentionUntil.Some?
    ensures var c := Integrity(entityType, entityId, dateStamp, checkedBy, FirstOfType(entityType, logs));
      && c.issuesFound == [] && c.attributable && c.complete && c.enduring
      && (c.overallCompliance <==> exists e :: e in logs && e.entityType == entityType)
  {
  }

  /** Every generated entry is well formed, so the lemma above applies to the generated trail. */
  lemma IntegrityOnGeneratedTrail(entityType: string, entityId: string, now: int, dateStamp: string,
                                  checkedBy: string, draws: nat -> AuditDraws)
    ensures var c := CheckDataIntegrity(entityType, entityId, now, dateStamp, checkedBy, draws);
      && c.issuesFound == [] && c.attributable && c.complete && c.enduring
      && (c.overallCompliance <==> exists e :: e in AuditTrail(50, now, draws) && e.entityType == entityType)
  {
    AuditTrailWellFormed(50, now, draws);
    IntegrityOnWellFormedLogs(entityType, entityId, dateStamp, checkedBy, AuditTrail(50, now, draws));
  }

  // ---------------------------------------------------------------- compliance report

  datatype ComplianceReport = ComplianceReport(
    reportId: string, periodDays: int, startDate: int, endDate: int, totalAuditEntries: nat,
    uniqueUsers: nat, criticalActions: nat, actionBreakdown: map<string, nat>, complianceRate: real,
    integrityChecksPassed: nat, integrityChecksFailed: nat, totalFindings: nat, openFindings: nat,
    closedFindings: nat)

  /** The distinct user ids of the logs. */
  function UserIds(logs: seq<AuditEntry>): set<Option<string>>
  {
    set i | 0 <= i < |logs| :: logs[i].userId
  }

  /** There are no more distinct user ids than entries. */
  lemma {:induction false} UserIdsBound(logs: seq<AuditEntry>)
    ensures |UserIds(logs)| <= |logs|
    decreases |logs|
  {
    if logs != [] {
      var init := logs[..|logs| - 1];
      UserIdsBound(init);
      assert UserIds(logs) == UserIds(init) + {logs[|logs| - 1].userId} by {
        forall x | x in UserIds(logs) ensures x in UserIds(init) + {logs[|logs| - 1].userId} {
          var i :| 0 <= i < |logs| && logs[i].userId == x;
          if i < |logs| - 1 {
            assert init[i] == logs[i];
          }
        }
        forall x | x in UserIds(init) ensures x in UserIds(logs) {
          var i :| 0 <= i < |init| && init[i].userId == x;
          assert logs[i] == init[i];
        }
      }
    }
  }

  /** The report's metrics over a list of entries. */
  function ReportOf(days: int, now: int, dateStamp: string, logs: seq<AuditEntry>): (c: ComplianceReport)
    ensures c.totalAuditEntries == |logs|
    ensures c.uniqueUsers == |UserIds(logs)| <= |logs|
    ensures c.criticalActions == Count(IsCritical, logs) <= |logs|
    ensures c.actionBreakdown == ActionCounts(logs)
    ensures c.endDate == now && c.endDate - c.startDate == days * MinutesPerDay
    ensures c.openFindings + c.closedFindings == c.totalFindings && c.integrityChecksFailed == 0
  {
    UserIdsBound(logs);
    CountBound(IsCritical, logs);
    ComplianceReport("COMP-RPT-" + dateStamp, days, now - days * MinutesPerDay, now, |logs|,
                     |UserIds(logs)|, Count(IsCritical, logs), ActionCounts(logs), 99.8, 145, 0, 2, 0, 2)
  }

  /** `generate_compliance_report`: the metrics of 500 generated entries, for `days` in [7, 365]. */
  method GenerateComplianceReport(days: int, now: int, dateStamp: string, draws: nat -> AuditDraws)
    returns (r: Result<ComplianceReport, QueryError>)
    ensures r.Err? <==> days < 7 || days > 365
    ensures r.Ok? ==> r.value == ReportOf(days, now, dateStamp, AuditTrail(500, now, draws))
  {
    if days < 7 || days > 365 {
      return Err(DaysOutOfRange);
    }
    var logs := GenerateAuditTrail(500, now, draws);
    var users := set i | 0 <= i < |logs| :: logs[i].userId;
    var critical := Count(IsCritical, logs);
    var counts := CountActions(logs);
    return Ok(ComplianceReport("COMP-RPT-" + dateStamp, days, now - days * MinutesPerDay, now, |logs|,
                               |users|, critical, counts, 99.8, 145, 0, 2, 0, 2));
  }

  /** The report's breakdown adds up to its total number of entries. */
  lemma ReportBreakdownSumsToTotal(days: int, now: int, dateStamp: string, logs: seq<AuditEntry>)
    ensures var c := ReportOf(days, now, dateStamp, logs); MapTotal(c.actionBreakdown) == c.totalAuditEntries
  {
    ActionCountsTotal(logs);
  }

  /** The generated report covers all 500 entries. */
  lemma ReportCoversTrail(days: int, now: int, dateStamp: string, draws: nat -> AuditDraws)
    ensures ReportOf(days, now, dateStamp, AuditTrail(500, now, draws)).totalAuditEntries == 500
  {
    AuditTrailWellFormed(500, now, draws);
  }
}
