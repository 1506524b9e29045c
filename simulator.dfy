/**
 * The operator training simulator: an in-memory table of sessions, each following one of three
 * scripted scenarios. Acting on a session records the action, adds or deducts points by difficulty
 * and completes the session once every correct action of its scenario has been taken.
 */
module Simulator {
  import opened Wrappers
  import opened Draws
  import opened Text
  import opened Seqs

  /** A scenario as the session stores it; initial conditions are key/value pairs. */
  datatype ScenarioConfig = ScenarioConfig(
    title: string, description: string, initialConditions: seq<(string, string)>,
    objectives: seq<string>, correctActions: seq<string>)

  const ScenarioNames: seq<string> := ["contamination", "deviation", "maintenance"]

  /** The contamination-response scenario. */
  const ContaminationScenario: ScenarioConfig :=
    ScenarioConfig(
      "Contamination Response Training", "Respond to contamination alert in BR-SIM-01",
      [("bioreactor", "BR-SIM-01"), ("batch_id", "SIM-BATCH-001"), ("current_phase", "exponential"),
       ("contamination_risk", "0.85"), ("time_to_respond_minutes", "30")],
      ["Identify contamination source", "Isolate affected bioreactor", "Initiate sampling protocol",
       "Document deviation", "Notify QA team"],
      ["stop_feeding", "increase_sampling_frequency", "create_deviation_report", "notify_qa",
       "prepare_batch_disposal"])

  /** The process-deviation scenario. */
  const DeviationScenario: ScenarioConfig :=
    ScenarioConfig(
      "Process Deviation Management", "Handle temperature excursion event",
      [("bioreactor", "BR-SIM-02"), ("batch_id", "SIM-BATCH-002"), ("temperature", "38.5"),
       ("target_temperature", "37.0"), ("duration_minutes", "15")],
      ["Assess impact on product quality", "Document deviation with timestamps",
       "Determine if batch can continue", "Complete investigation form", "Get QA approval to proceed"],
      ["record_exact_temperature_and_time", "check_historical_data", "assess_impact_on_yield",
       "create_deviation", "request_qa_review"])

  /** The predictive-maintenance scenario. */
  const MaintenanceScenario: ScenarioConfig :=
    ScenarioConfig(
      "Predictive Maintenance Response", "Respond to critical equipment health alert",
      [("equipment", "Centrifuge-SIM-01"), ("health_score", "62"), ("vibration_level", "4.8"),
       ("active_batches_affected", "2")],
      ["Assess equipment condition", "Plan maintenance window", "Minimize batch impact",
       "Coordinate with maintenance team", "Update equipment records"],
      ["schedule_immediate_inspection", "plan_batch_transfer", "notify_maintenance", "create_work_order",
       "update_equipment_status"])

  /** The scenario table of `create_simulator_session`. */
  function ScenarioFor(name: string): (r: Option<ScenarioConfig>)
    ensures r.Some? <==> name in ScenarioNames
    ensures r.Some? ==> |r.value.objectives| == 5 && |r.value.correctActions| == 5
  {
    if name == "contamination" then Some(ContaminationScenario)
    else if name == "deviation" then Some(DeviationScenario)
    else if name == "maintenance" then Some(MaintenanceScenario)
    else None
  }

  datatype SessionStatus = Active | Completed
  {
    function Name(): string
    {
      match this
      case Active => "active"
      case Completed => "completed"
    }
  }

  /** One entry of `actions_taken`. */
  datatype ActionRecord = ActionRecord(action: string, parameters: map<string, string>, timestamp: int,
                                       performedBy: string)

  datatype Session = Session(
    config: ScenarioConfig, difficulty: string, createdAt: int, createdBy: string, status: SessionStatus,
    score: int, actionsTaken: seq<ActionRecord>, timeElapsedMinutes: int)

  /** The HTTP errors of the simulator endpoints. */
  datatype SimError = InvalidScenario | NotFound | NotActive
  {
    function Code(): int
    {
      match this
      case InvalidScenario => 400
      case NotFound => 404
      case NotActive => 400
    }
    function Detail(): string
    {
      match this
      case InvalidScenario => "Invalid scenario. Choose from: ['contamination', 'deviation', 'maintenance']"
      case NotFound => "Simulator session not found"
      case NotActive => "Session is not active"
    }
  }

  /** Points for one action: a correct one earns 20 on hard, 15 on medium, 10 otherwise; a wrong one costs 5. */
  function Points(difficulty: string, isCorrect: bool): (p: int)
    ensures isCorrect ==> p in {10, 15, 20}
    ensures !isCorrect ==> p == -5
    ensures isCorrect && difficulty == "hard" ==> p == 20
    ensures isCorrect && difficulty == "medium" ==> p == 15
    ensures isCorrect && difficulty != "hard" && difficulty != "medium" ==> p == 10
  {
    if isCorrect then (if difficulty == "hard" then 20 else if difficulty == "medium" then 15 else 10)
    else -5
  }

  /** The score a sequence of actions accumulates from 0. */
  function ScoreOf(difficulty: string, correctActions: seq<string>, actions: seq<ActionRecord>): int
    decreases |actions|
  {
    if actions == [] then 0
    else ScoreOf(difficulty, correctActions, actions[..|actions| - 1])
         + Points(difficulty, actions[|actions| - 1].action in correctActions)
  }

  /**
   * `[a["action"] for a in actions if a["action"] in correct_actions]`: the correct actions
   * taken, in order, repeats included.
   */
  function CorrectActionsTaken(correctActions: seq<string>, actions: seq<ActionRecord>): (r: seq<string>)
    ensures |r| <= |actions|
    ensures forall x :: x in r ==> x in correctActions
    decreases |actions|
  {
    if actions == [] then []
    else
      var rest := CorrectActionsTaken(correctActions, actions[..|actions| - 1]);
      var a := actions[|actions| - 1].action;
      if a in correctActions then rest + [a] else rest
  }

  /** The completion test of `perform_simulator_action`: every correct action is among those taken. */
  predicate AllCorrectActionsDone(correctActions: seq<string>, actions: seq<ActionRecord>)
  {
    var taken := CorrectActionsTaken(correctActions, actions);
    forall ca :: ca in correctActions ==> ca in taken
  }

  /** A name is among the correct actions taken exactly when it is correct and some action has it. */
  lemma {:induction false} CorrectActionsTakenMembers(correctActions: seq<string>, actions: seq<ActionRecord>, x: string)
    ensures x in CorrectActionsTaken(correctActions, actions)
      <==> x in correctActions && exists k :: 0 <= k < |actions| && actions[k].action == x
    decreases |actions|
  {
    if actions != [] {
      var init := actions[..|actions| - 1];
      CorrectActionsTakenMembers(correctActions, init, x);
      if exists k :: 0 <= k < |init| && init[k].action == x {
        var k :| 0 <= k < |init| && init[k].action == x;
        assert actions[k].action == x;
      }
      if exists k :: 0 <= k < |actions| && actions[k].action == x {
        var k :| 0 <= k < |actions| && actions[k].action == x;
        if k < |init| {
          assert init[k].action == x;
        }
      }
    }
  }

  /** The completion test holds exactly when each correct action has been taken at least once. */
  lemma AllDoneIffEachTaken(correctActions: seq<string>, actions: seq<ActionRecord>)
    ensures AllCorrectActionsDone(correctActions, actions)
      <==> forall ca :: ca in correctActions ==> exists k :: 0 <= k < |actions| && actions[k].action == ca
  {
    forall x {
      CorrectActionsTakenMembers(correctActions, actions, x);
    }
  }

  /**
   * What every stored session satisfies: its scenario has correct actions, its score is the sum of
   * its actions' points, each action took 1 to 5 minutes, and it is completed exactly when every
   * correct action has been taken.
   */
  ghost predicate WellFormed(s: Session)
  {
    |s.config.correctActions| > 0
    && s.score == ScoreOf(s.difficulty, s.config.correctActions, s.actionsTaken)
    && |s.actionsTaken| <= s.timeElapsedMinutes <= 5 * |s.actionsTaken|
    && (s.status == Completed <==> AllCorrectActionsDone(s.config.correctActions, s.actionsTaken))
  }

  /**
   * The session after one action: the record appended, `minutes` of 1 to 5 more elapsed, the score
   * moved by the action's points, and the status completed once all correct actions are done.
   */
  function ApplyAction(s: Session, record: ActionRecord, minutes: Unit): (r: Session)
    ensures r.actionsTaken == s.actionsTaken + [record]
    ensures s.timeElapsedMinutes + 1 <= r.timeElapsedMinutes <= s.timeElapsedMinutes + 5
    ensures r.score == s.score + Points(s.difficulty, record.action in s.config.correctActions)
    ensures r.config == s.config && r.difficulty == s.difficulty
    ensures r.createdAt == s.createdAt && r.createdBy == s.createdBy
    ensures r.status == Completed <==> AllCorrectActionsDone(s.config.correctActions, r.actionsTaken) || s.status == Completed
  {
    var actions := s.actionsTaken + [record];
    Session(s.config, s.difficulty, s.createdAt, s.createdBy,
            if AllCorrectActionsDone(s.config.correctActions, actions) then Completed else s.status,
            s.score + Points(s.difficulty, record.action in s.config.correctActions), actions,
            s.timeElapsedMinutes + RandInt(1, 5, minutes))
  }

  /** An action on an active, well-formed session leaves it well formed. */
  lemma ApplyActionWellFormed(s: Session, record: ActionRecord, minutes: Unit)
    requires WellFormed(s) && s.status == Active
    ensures WellFormed(ApplyAction(s, record, minutes))
  {
    var r := ApplyAction(s, record, minutes);
    assert r.actionsTaken[..|r.actionsTaken| - 1] == s.actionsTaken;
  }

  /** The reply to a successful action. */
  datatype ActionOutcome = ActionOutcome(
    action: string, isCorrect: bool, pointsEarned: int, totalScore: int, feedback: string,
    consequence: string, outcome: string, sessionStatus: SessionStatus, finalMessage: Option<string>)

  const Consequences: map<string, string> := map[
    "stop_feeding" := "Feed pump stopped. Nutrient levels will stabilize.",
    "increase_sampling_frequency" := "Sampling increased to every 2 hours. More data available.",
    "create_deviation_report" := "Deviation DEV-SIM-001 created. QA notified.",
    "notify_qa" := "QA team alerted. Response expected in 15 minutes.",
    "record_exact_temperature_and_time" := "Deviation documented: 38.5°C at 14:23. Timestamp recorded.",
    "schedule_immediate_inspection" := "Maintenance team scheduled for immediate inspection.",
    "plan_batch_transfer" := "Transfer plan initiated. Backup equipment identified."]

  /** `consequences.get(action, "Action executed.")`. */
  function Consequence(action: string): string
  {
    if action in Consequences then Consequences[action] else "Action executed."
  }

  /** The feedback line of an action worth `points`. */
  function Feedback(isCorrect: bool, points: int): string
  {
    if isCorrect then "\U{2713} Correct action! You earned " + IntToString(points) + " points."
    else "\U{2717} Incorrect action. 5 points deducted. Consider the objectives."
  }

  /** The message of a session that has just completed. */
  function CompletionMessage(score: int): string
  {
    "\U{1F389} Training complete! Final score: " + IntToString(score)
  }

  /** `f"SIM-{stamp}-{random.randint(1000, 9999)}"`. */
  function SessionId(stamp: string, suffix: Unit): string
  {
    "SIM-" + stamp + "-" + NatToString(RandInt(1000, 9999, suffix))
  }

  /** The view `get_simulator_status` returns. */
  datatype StatusView = StatusView(
    sessionId: string, status: SessionStatus, progressPercent: real, score: int, timeElapsedMinutes: int,
    objectivesCompleted: string, actionsTaken: nat, currentConditions: seq<(string, string)>)

  /** Number of actions taken that are correct actions, repeats included. */
  function CorrectCount(s: Session): nat
  {
    Count((a: ActionRecord) => a.action in s.config.correctActions, s.actionsTaken)
  }

  /** Number of actions taken that are not correct actions. */
  function IncorrectCount(s: Session): nat
  {
    Count((a: ActionRecord) => a.action !in s.config.correctActions, s.actionsTaken)
  }

  /** Every action is either correct or incorrect. */
  lemma CorrectPlusIncorrect(s: Session)
    ensures CorrectCount(s) + IncorrectCount(s) == |s.actionsTaken|
  {
    CountSplit((a: ActionRecord) => a.action in s.config.correctActions,
               (a: ActionRecord) => a.action !in s.config.correctActions, s.actionsTaken);
  }

  /** Progress: correct actions taken over objectives, in percent, and 0 without objectives. */
  function ProgressPercent(s: Session): (p: real)
    ensures p >= 0.0
    ensures |s.config.objectives| > 0 ==> p * |s.config.objectives| as real == CorrectCount(s) as real * 100.0
    ensures |s.config.objectives| == 0 || CorrectCount(s) == 0 ==> p == 0.0
  {
    var total := |s.config.objectives|;
    if total > 0 then
      var c, t := CorrectCount(s) as real, total as real;
      PercentTimesTotal(c, t);
      c / t * 100.0
    else 0.0
  }

  /** Multiplying a percentage of a total back by the total gives the part times 100. */
  lemma PercentTimesTotal(c: real, t: real)
    requires c >= 0.0 && t > 0.0
    ensures (c / t * 100.0) * t == c * 100.0
    ensures c / t * 100.0 >= 0.0
    ensures c == 0.0 ==> c / t * 100.0 == 0.0
  {
    assert c / t >= 0.0;
    calc {
      (c / t * 100.0) * t;
      (c / t * t) * 100.0;
      { assert c / t * t == c; }
      c * 100.0;
    }
  }

  /** A contamination session in which `stop_feeding` was taken six times, one minute each. */
  function RepeatedStopFeeding(now: int, user: string): Session
  {
    var act := ActionRecord("stop_feeding", map[], now, user);
    Session(ContaminationScenario, "medium", now, user, Active, 90, [act, act, act, act, act, act], 6)
  }

  /** That session is one the simulator can reach: its score, status and time are consistent. */
  lemma RepeatedStopFeedingWellFormed(now: int, user: string)
    ensures WellFormed(RepeatedStopFeeding(now, user))
  {
    var s := RepeatedStopFeeding(now, user);
    var acts := s.actionsTaken;
    assert forall k :: 0 <= k < |acts| ==> acts[k].action == ContaminationScenario.correctActions[0];
    AllCorrectScore("medium", ContaminationScenario.correctActions, acts);
    assert ContaminationScenario.correctActions[4] == "prepare_batch_disposal";
    CorrectActionsTakenMembers(ContaminationScenario.correctActions, acts, "prepare_batch_disposal");
  }

  /** When every action taken is a correct one, the correct count is the number of actions. */
  lemma AllCorrectCount(s: Session)
    requires forall k :: 0 <= k < |s.actionsTaken| ==> s.actionsTaken[k].action in s.config.correctActions
    ensures CorrectCount(s) == |s.actionsTaken|
  {
    FilterAllPass((a: ActionRecord) => a.action in s.config.correctActions, s.actionsTaken);
  }

  /**
   * Progress counts repeated correct actions, so it is not bounded by 100: six `stop_feeding`
   * actions in the contamination scenario report 120%.
   */
  lemma ProgressCountsRepeats(now: int, user: string)
    ensures ProgressPercent(RepeatedStopFeeding(now, user)) == 120.0
  {
    var s := RepeatedStopFeeding(now, user);
    assert forall k :: 0 <= k < |s.actionsTaken| ==> s.actionsTaken[k].action == ContaminationScenario.correctActions[0];
    AllCorrectCount(s);
    PercentOfSixInFive(CorrectCount(s), |s.config.objectives|);
  }

  lemma PercentOfSixInFive(correct: nat, total: nat)
    requires correct == 6 && total == 5
    ensures correct as real / total as real * 100.0 == 120.0
  {
  }

  /** Performance grade: A from 80, B from 60, C from 40, D below. */
  function Grade(score: int): (g: string)
    ensures g == "A - Excellent" <==> score >= 80
    ensures g == "B - Good" <==> 60 <= score < 80
    ensures g == "C - Satisfactory" <==> 40 <= score < 60
    ensures g == "D - Needs Improvement" <==> score < 40
  {
    if score >= 80 then "A - Excellent"
    else if score >= 60 then "B - Good"
    else if score >= 40 then "C - Satisfactory"
    else "D - Needs Improvement"
  }

  /** The view `get_simulator_summary` returns. */
  datatype Summary = Summary(
    sessionId: string, scenario: string, difficulty: string, status: SessionStatus, finalScore: int,
    grade: string, timeElapsedMinutes: int, totalActions: nat, correctActions: nat, incorrectActions: nat,
    objectivesCompleted: string, strengths: seq<string>, areasForImprovement: seq<string>,
    recommendedNextTraining: string)

  /** The summary of one session. */
  function SummaryOf(id: string, s: Session): (r: Summary)
    ensures r.correctActions == CorrectCount(s) && r.incorrectActions == IncorrectCount(s)
    ensures r.correctActions + r.incorrectActions == r.totalActions == |s.actionsTaken|
    ensures r.objectivesCompleted == NatToString(CorrectCount(s)) + "/" + NatToString(|s.config.objectives|)
    ensures r.grade == Grade(s.score) && r.finalScore == s.score
    ensures |r.strengths| > 0 <==> r.correctActions > 2
    ensures |r.areasForImprovement| > 0 <==> r.incorrectActions > 1
    ensures r.recommendedNextTraining == "Advanced contamination scenarios" <==> s.score >= 70
  {
    CorrectPlusIncorrect(s);
    var correct, incorrect := CorrectCount(s), IncorrectCount(s);
    Summary(
      id, s.config.title, s.difficulty, s.status, s.score, Grade(s.score), s.timeElapsedMinutes,
      |s.actionsTaken|, correct, incorrect, NatToString(correct) + "/" + NatToString(|s.config.objectives|),
      if correct > 2 then ["Quick response time", "Correct deviation documentation"] else [],
      if incorrect > 1 then ["Consider sampling frequency", "Complete all checklists"] else [],
      if s.score >= 70 then "Advanced contamination scenarios" else "Repeat current scenario")
  }

  /** A run of correct actions only earns the difficulty's points for each of them. */
  lemma {:induction false} AllCorrectScore(difficulty: string, correctActions: seq<string>, actions: seq<ActionRecord>)
    requires forall k :: 0 <= k < |actions| ==> actions[k].action in correctActions
    ensures ScoreOf(difficulty, correctActions, actions) == |actions| * Points(difficulty, true)
    decreases |actions|
  {
    if actions != [] {
      AllCorrectScore(difficulty, correctActions, actions[..|actions| - 1]);
    }
  }

  /** The score always lies between -5 and 20 points per action taken. */
  lemma {:induction false} ScoreBounds(difficulty: string, correctActions: seq<string>, actions: seq<ActionRecord>)
    ensures -5 * |actions| <= ScoreOf(difficulty, correctActions, actions) <= 20 * |actions|
    decreases |actions|
  {
    if actions != [] {
      ScoreBounds(difficulty, correctActions, actions[..|actions| - 1]);
    }
  }

  /** Every session of a table is well formed. */
  ghost predicate AllWellFormed(sessions: map<string, Session>)
  {
    forall id :: id in sessions ==> WellFormed(sessions[id])
  }

  /** Storing a well-formed session keeps a table well formed. */
  lemma StoreWellFormed(sessions: map<string, Session>, id: string, s: Session)
    requires AllWellFormed(sessions) && WellFormed(s)
    ensures AllWellFormed(sessions[id := s])
  {
  }

  /** The in-memory `simulator_sessions` table and its endpoints. */
  class SimulatorSessions {
    var sessions: map<string, Session>

    ghost predicate Valid()
      reads this
    {
      AllWellFormed(sessions)
    }

    constructor()
      ensures sessions == map[] && Valid()
    {
      sessions := map[];
    }

    /**
     * `create_simulator_session`. An unknown scenario is rejected and the table is left alone;
     * otherwise a fresh active session is stored under the new id (replacing any session that
     * already had that id).
     */
    method CreateSession(scenario: string, difficulty: string, stamp: string, suffix: Unit, now: int,
                         user: string)
      returns (r: Result<(string, Session), SimError>)
      requires Valid()
      modifies this
      ensures Valid()
      ensures scenario !in ScenarioNames ==> r == Err(InvalidScenario) && sessions == old(sessions)
      ensures scenario in ScenarioNames ==>
        var id := SessionId(stamp, suffix);
        var s := Session(ScenarioFor(scenario).value, difficulty, now, user, Active, 0, [], 0);
        r == Ok((id, s)) && sessions == old(sessions)[id := s]
    {
      var config := ScenarioFor(scenario);
      if config.None? {
        return Err(InvalidScenario);
      }
      var id := SessionId(stamp, suffix);
      var session := Session(config.value, difficulty, now, user, Active, 0, [], 0);
      assert !AllCorrectActionsDone(session.config.correctActions, []) by {
        assert session.config.correctActions[0] in session.config.correctActions;
      }
      StoreWellFormed(sessions, id, session);
      sessions := sessions[id := session];
      return Ok((id, session));
    }

    /** `get_simulator_status`. */
    function GetStatus(id: string): (r: Result<StatusView, SimError>)
      reads this
      ensures id !in sessions <==> r == Err(NotFound)
      ensures r.Ok? ==>
        && r.value.status == sessions[id].status && r.value.score == sessions[id].score
        && r.value.actionsTaken == |sessions[id].actionsTaken|
        && r.value.progressPercent == ProgressPercent(sessions[id])
        && r.value.currentConditions == sessions[id].config.initialConditions
      ensures r.Ok? ==>
        && r.value.sessionId == id && r.value.timeElapsedMinutes == sessions[id].timeElapsedMinutes
        && r.value.objectivesCompleted
           == NatToString(CorrectCount(sessions[id])) + "/" + NatToString(|sessions[id].config.objectives|)
    {
      if id !in sessions then Err(NotFound)
      else
        var s := sessions[id];
        Ok(StatusView(id, s.status, ProgressPercent(s), s.score, s.timeElapsedMinutes,
                      NatToString(CorrectCount(s)) + "/" + NatToString(|s.config.objectives|),
                      |s.actionsTaken|, s.config.initialConditions))
    }

    /**
     * `perform_simulator_action`. An unknown id or a session that is no longer active is rejected
     * and nothing changes. Otherwise exactly one action record is appended, 1 to 5 minutes pass, the
     * score moves by the action's points, and the session completes when all correct actions are done.
     */
    method PerformAction(id: string, action: string, parameters: map<string, string>, now: int, user: string,
                         minutes: Unit)
      returns (r: Result<ActionOutcome, SimError>)
      requires Valid()
      modifies this
      ensures Valid()
      ensures id !in old(sessions) ==> r == Err(NotFound) && sessions == old(sessions)
      ensures id in old(sessions) && old(sessions)[id].status != Active ==>
        r == Err(NotActive) && sessions == old(sessions)
      ensures id in old(sessions) && old(sessions)[id].status == Active ==>
        var before := old(sessions)[id];
        var after := ApplyAction(before, ActionRecord(action, parameters, now, user), minutes);
        var correct := action in before.config.correctActions;
        && sessions == old(sessions)[id := after]
        && r.Ok? && r.value.isCorrect == correct && r.value.pointsEarned == Points(before.difficulty, correct)
        && r.value.totalScore == after.score && r.value.sessionStatus == after.status
        && (r.value.finalMessage.Some? <==> after.status == Completed)
        && r.value.consequence == Consequence(action)
    {
      if id !in sessions {
        return Err(NotFound);
      }
      var session := sessions[id];
      if session.status != Active {
        return Err(NotActive);
      }
      ghost var before := session;
      var record := ActionRecord(action, parameters, now, user);
      session := session.(actionsTaken := session.actionsTaken + [record]);
      session := session.(timeElapsedMinutes := session.timeElapsedMinutes + RandInt(1, 5, minutes));
      var isCorrect := action in session.config.correctActions;
      var pointsEarned := Points(session.difficulty, isCorrect);
      session := session.(score := session.score + pointsEarned);
      var outcome := if isCorrect then "positive" else "negative";
      var finalMessage: Option<string> := None;
      if AllCorrectActionsDone(session.config.correctActions, session.actionsTaken) {
        session := session.(status := Completed);
        finalMessage := Some(CompletionMessage(session.score));
      }
      ghost var after := ApplyAction(before, record, minutes);
      assert session.actionsTaken == after.actionsTaken && session.score == after.score;
      assert session.status == after.status;
      assert session == after;
      ApplyActionWellFormed(before, record, minutes);
      StoreWellFormed(sessions, id, session);
      sessions := sessions[id := session];
      return Ok(ActionOutcome(action, isCorrect, pointsEarned, session.score, Feedback(isCorrect, pointsEarned),
                              Consequence(action),
                              outcome, session.status, finalMessage));
    }

    /** `get_simulator_summary`. */
    function GetSummary(id: string): (r: Result<Summary, SimError>)
      reads this
      ensures id !in sessions <==> r == Err(NotFound)
      ensures r.Ok? ==> r.value == SummaryOf(id, sessions[id])
    {
      if id !in sessions then Err(NotFound) else Ok(SummaryOf(id, sessions[id]))
    }

    /** `delete_simulator_session`: removes exactly the named session, and rejects an unknown id. */
    method DeleteSession(id: string) returns (r: Result<string, SimError>)
      requires Valid()
      modifies this
      ensures Valid()
      ensures id in old(sessions) ==> r == Ok("Simulator session deleted") && sessions == old(sessions) - {id}
      ensures id !in old(sessions) ==> r == Err(NotFound) && sessions == old(sessions)
    {
      if id in sessions {
        sessions := sessions - {id};
        return Ok("Simulator session deleted");
      }
      return Err(NotFound);
    }
  }
}
