/**
 * The analysis of an attempt: whether the print succeeds, the integer score,
 * and the feedback text. `Evaluate` states the rule as independent additive
 * parts; `CalculateScore` accumulates it step by step as the view does.
 */
module Scoring {
  import opened Catalog
  import opened Progress
  import opened Attempt

  const MaterialWarning: string := "El material elegido podría no ser el óptimo para este diseño. "
  const SuccessMessage: string := "¡Análisis completado! Tu modelo está listo para fabricación."
  const FailureMessage: string :=
    "Análisis fallido. El modelo es demasiado débil debido al bajo relleno y no es apto para fabricación."

  /** The outcome of one analysis. */
  datatype Analysis = Analysis(success: bool, score: int, feedback: string)

  /** A print succeeds with at least 15% infill and some material chosen. */
  predicate Succeeds(a: MissionAttempt) {
    a.infill >= 15 && |a.material| > 0
  }

  /** No record for the mission exists yet (`!completedMissions.some(...)`):
      exactly the case in which `completeMission` appends a new record. */
  predicate FirstCompletion(completed: seq<Completion>, missionId: string)
    ensures FirstCompletion(completed, missionId) <==> Find(completed, missionId).None?
  {
    forall i :: 0 <= i < |completed| ==> completed[i].missionId != missionId
  }

  function MaterialBonus(a: MissionAttempt, m: Mission): nat {
    if a.material == m.optimalMaterial then 30 else 0
  }

  function InfillBonus(a: MissionAttempt): nat {
    if 15 < a.infill < 40 then 5 else 0
  }

  function LayerBonus(a: MissionAttempt): nat {
    if a.layerHeight <= 0.2 then 5 else 0
  }

  function SpeedBonus(a: MissionAttempt): nat {
    if 40 < a.printSpeed < 70 then 10 else 0
  }

  function FirstCompletionBonus(completed: seq<Completion>, missionId: string): nat {
    if FirstCompletion(completed, missionId) then 50 else 0
  }

  /** The scoring rule: a failed print scores 0 whatever bonuses it earned; a
      successful one scores 100 plus every bonus it earned, between 100 and 200.
      Success discards the material warning; failure keeps it before the
      failure message. */
  function Evaluate(a: MissionAttempt, m: Mission, completed: seq<Completion>): (r: Analysis)
    ensures r.success <==> a.infill >= 15 && a.material != ""
    ensures !r.success ==> r.score == 0
    ensures r.success ==> 100 <= r.score <= 200
    ensures r.success ==> r.feedback == SuccessMessage
    ensures !r.success && a.material == m.optimalMaterial ==> r.feedback == FailureMessage
    ensures !r.success && a.material != m.optimalMaterial ==> r.feedback == MaterialWarning + FailureMessage
  {
    var success := Succeeds(a);
    var score :=
      if success then
        100 + MaterialBonus(a, m) + InfillBonus(a) + LayerBonus(a) + SpeedBonus(a)
        + FirstCompletionBonus(completed, m.id)
      else 0;
    var feedback :=
      if success then SuccessMessage
      else (if a.material == m.optimalMaterial then "" else MaterialWarning) + FailureMessage;
    Analysis(success, score, feedback)
  }

  /** `calculateScore`: the score and the feedback are accumulated one rule at
      a time, then overwritten or extended by the success test. */
  method CalculateScore(a: MissionAttempt, m: Mission, completed: seq<Completion>) returns (r: Analysis)
    ensures r == Evaluate(a, m, completed)
  {
    var baseScore := 100;
    var feedback := "";
    if a.material == m.optimalMaterial {
      baseScore := baseScore + 30;
    } else {
      feedback := feedback + MaterialWarning;
      assert feedback == MaterialWarning;
    }
    var paramScore := 0;
    if a.infill > 15 && a.infill < 40 { paramScore := paramScore + 5; }
    if a.layerHeight <= 0.2 { paramScore := paramScore + 5; }
    if a.printSpeed > 40 && a.printSpeed < 70 { paramScore := paramScore + 10; }
    baseScore := baseScore + paramScore;
    var isFirstTimeCompleting := FirstCompletion(completed, m.id);
    var success := a.infill >= 15 && |a.material| > 0;
    if success {
      if isFirstTimeCompleting {
        baseScore := baseScore + 50;
      }
      feedback := SuccessMessage;
    } else {
      baseScore := 0;
      feedback := feedback + FailureMessage;
    }
    r := Analysis(success, baseScore, feedback);
  }

  /** The score alone tells the outcome: a failure scores 0 and a success
      never does, so a zero score means the print failed. */
  lemma SuccessIffScoreNonZero(a: MissionAttempt, m: Mission, completed: seq<Completion>)
    ensures Evaluate(a, m, completed).success <==> Evaluate(a, m, completed).score != 0
  {
  }

  /** Infill of exactly 15 passes but earns no infill bonus; exactly 40 earns
      none either. */
  lemma InfillBoundaries(a: MissionAttempt)
    ensures a.infill == 15 && a.material != "" ==> Succeeds(a) && InfillBonus(a) == 0
    ensures a.infill == 40 ==> InfillBonus(a) == 0
    ensures a.infill == 14 ==> !Succeeds(a)
  {
  }

  /** A first success scores at least 150. */
  lemma FirstSuccessAtLeast150(a: MissionAttempt, m: Mission, completed: seq<Completion>)
    requires Succeeds(a) && FirstCompletion(completed, m.id)
    ensures Evaluate(a, m, completed).score >= 150
  {
  }

  /** A success for an already completed mission scores at most 150
      (100 + 30 + 5 + 5 + 10). */
  lemma LaterSuccessAtMost150(a: MissionAttempt, m: Mission, completed: seq<Completion>)
    requires !FirstCompletion(completed, m.id)
    ensures Evaluate(a, m, completed).score <= 150
  {
  }

  /** Each part of the rule is independent of the others: changing one
      parameter moves a successful score by exactly that part's change. */
  lemma InfillChangeMovesOnlyItsBonus(a: MissionAttempt, m: Mission, completed: seq<Completion>, infill: int)
    requires Succeeds(a) && infill >= 15
    ensures Evaluate(a.(infill := infill), m, completed).score - Evaluate(a, m, completed).score
            == InfillBonus(a.(infill := infill)) - InfillBonus(a)
  {
  }

  /** Scenario: a new user on mission m01 with PLA, 20% infill, 0.18 mm layers
      and 55 mm/s scores every bonus, 200 in total. */
  lemma ScenarioFullMarks(a: MissionAttempt)
    requires a.material == "PLA" && a.infill == 20 && a.layerHeight == 0.18 && a.printSpeed == 55
    ensures Evaluate(a, CutleryAdapter, []) == Analysis(true, 200, SuccessMessage)
  {
  }

  /** Scenario: ABS on mission m01 with 10% infill fails with score 0, and the
      feedback is the material warning followed by the failure message. */
  lemma ScenarioLowInfill(a: MissionAttempt, completed: seq<Completion>)
    requires a.material == "ABS" && a.infill == 10
    ensures Evaluate(a, CutleryAdapter, completed) == Analysis(false, 0, MaterialWarning + FailureMessage)
  {
  }
}
