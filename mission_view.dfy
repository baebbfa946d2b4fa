/**
 * The mission view: the state a view holds while a student works through one
 * mission (current step, attempt, analysis flag and result text, and the
 * progress it was given), the handlers that change it, and what the
 * mission view can and cannot do to the recorded progress.
 */
module MissionFlow {
  import opened Wrappers
  import opened Catalog
  import opened Progress
  import opened Attempt
  import opened Scoring

  const AnalyzingMessage: string := "Analizando viabilidad del modelo..."

  /** What the analysis timer's callback sees: the attempt and the completion
      records as they were when the analysis started. */
  datatype PendingAnalysis = PendingAnalysis(attempt: MissionAttempt, completed: seq<Completion>)

  /** Every record scores at least `n`. */
  predicate AllAtLeast(recs: seq<Completion>, n: int) {
    forall i :: 0 <= i < |recs| ==> recs[i].score >= n
  }

  /** A successful analysis reported to `completeMission` either records a
      new mission or changes nothing: as long as every stored score came from
      this view (so is at least 150), the branch that raises a stored score is
      never taken, because a repeat success scores at most 150. */
  lemma SuccessNeverRaises(p: UserProgress, a: MissionAttempt, m: Mission, now: int)
    requires AllAtLeast(p.completedMissions, 150)
    requires Succeeds(a)
    ensures
      var s := Evaluate(a, m, p.completedMissions).score;
      var r := ApplyCompletion(p, m.id, s, now);
      && (Find(p.completedMissions, m.id).Some? ==> r == p)
      && (Find(p.completedMissions, m.id).None? ==>
            r.completedMissions == p.completedMissions + [Completion(m.id, s, now)])
      && AllAtLeast(r.completedMissions, 150)
  {
    var s := Evaluate(a, m, p.completedMissions).score;
    match Find(p.completedMissions, m.id)
    case Some(k) =>
      LaterSuccessAtMost150(a, m, p.completedMissions);
      assert s <= p.completedMissions[k].score;
    case None =>
      FirstSuccessAtLeast150(a, m, p.completedMissions);
  }

  class MissionView {
    const mission: Mission
    /** The `userProgress` the view is rendered with; the application passes
        the session's progress and refreshes it after `onComplete`. */
    var progress: UserProgress
    var currentStep: Step
    var attempt: MissionAttempt
    var simulating: bool
    var simulationResultText: string
    /** The analysis scheduled by `handleSimulation` and not yet finished. */
    var pending: Option<PendingAnalysis>

    /** An analysis runs only from the slicing step and has captured the
        records the view still holds; the attempt stays on its mission. */
    ghost predicate Valid()
      reads this
    {
      && (simulating <==> pending.Some?)
      && (simulating ==> currentStep == Slicing)
      && (pending.Some? ==> pending.value.completed == progress.completedMissions)
      && attempt.missionId == mission.id
    }

    constructor (mission: Mission, userProgress: UserProgress)
      ensures Valid()
      ensures this.mission == mission && progress == userProgress
      ensures currentStep == Briefing && attempt == InitialAttempt(mission, userProgress.inventory)
      ensures !simulating && simulationResultText == "" && pending == None
    {
      this.mission := mission;
      progress := userProgress;
      currentStep := Briefing;
      attempt := InitialAttempt(mission, userProgress.inventory);
      simulating := false;
      simulationResultText := "";
      pending := None;
    }

    /** `updateAttempt(key, value)`. */
    method UpdateAttempt(u: AttemptUpdate)
      requires Valid()
      modifies this
      ensures Valid()
      ensures attempt == ApplyUpdate(old(attempt), u)
      ensures currentStep == old(currentStep) && simulating == old(simulating) && pending == old(pending)
      ensures simulationResultText == old(simulationResultText) && progress == old(progress)
    {
      attempt := ApplyUpdate(attempt, u);
    }

    /** `updateIdeation(key, value)`. */
    method UpdateIdeation(u: IdeationUpdate)
      requires Valid()
      modifies this
      ensures Valid()
      ensures attempt == ApplyIdeationUpdate(old(attempt), u)
      ensures currentStep == old(currentStep) && simulating == old(simulating) && pending == old(pending)
      ensures simulationResultText == old(simulationResultText) && progress == old(progress)
    {
      attempt := ApplyIdeationUpdate(attempt, u);
    }

    /** `handleNextStep`: one step forward, nothing else touched. The view
        calls it only while no analysis is running. */
    method HandleNextStep()
      requires Valid() && !simulating
      modifies this
      ensures Valid()
      ensures currentStep == Next(old(currentStep))
      ensures attempt == old(attempt) && simulating == old(simulating) && pending == old(pending)
      ensures simulationResultText == old(simulationResultText) && progress == old(progress)
    {
      var i := IndexOf(currentStep);
      if i < |Steps| - 1 {
        currentStep := Steps[i + 1];
      }
    }

    /** `handlePrevStep`: one step back, nothing else touched. The view calls
        it only while no analysis is running. */
    method HandlePrevStep()
      requires Valid() && !simulating
      modifies this
      ensures Valid()
      ensures currentStep == Prev(old(currentStep))
      ensures attempt == old(attempt) && simulating == old(simulating) && pending == old(pending)
      ensures simulationResultText == old(simulationResultText) && progress == old(progress)
    {
      var i := IndexOf(currentStep);
      if i > 0 {
        currentStep := Steps[i - 1];
      }
    }

    /** The first half of `handleSimulation`: mark the analysis as running and
        schedule the timer callback over the current attempt and records. The
        view starts it only from the slicing step, with no analysis running. */
    method HandleSimulation()
      requires Valid() && currentStep == Slicing && !simulating
      modifies this
      ensures Valid()
      ensures simulating && simulationResultText == AnalyzingMessage
      ensures pending == Some(PendingAnalysis(old(attempt), old(progress).completedMissions))
      ensures currentStep == old(currentStep) && attempt == old(attempt) && progress == old(progress)
    {
      simulating := true;
      simulationResultText := AnalyzingMessage;
      pending := Some(PendingAnalysis(attempt, progress.completedMissions));
    }

    /** The timer callback of `handleSimulation`: `calculateScore` on what was
        captured, then the analysis flag is cleared and the view shows the
        result. The attempt records the outcome; `onComplete` reports the
        score to the progress only on success. */
    method FinishAnalysis(now: int) returns (outcome: Analysis)
      requires Valid() && simulating
      modifies this
      ensures Valid()
      ensures outcome == Evaluate(old(pending).value.attempt, mission, old(progress).completedMissions)
      ensures simulationResultText == outcome.feedback
      ensures attempt == old(attempt).(printSuccessful := outcome.success, score := outcome.score)
      ensures progress ==
        if outcome.success then ApplyCompletion(old(progress), mission.id, outcome.score, now)
        else old(progress)
      ensures currentStep == Result && !simulating && pending == None
      ensures old(AllAtLeast(progress.completedMissions, 150)) ==>
        && AllAtLeast(progress.completedMissions, 150)
        && (progress == old(progress)
            || progress.completedMissions == old(progress.completedMissions) + [Completion(mission.id, outcome.score, now)])
    {
      var captured := pending.value;
      outcome := CalculateScore(captured.attempt, mission, captured.completed);
      simulationResultText := outcome.feedback;
      UpdateAttempt(SetPrintSuccessful(outcome.success));
      UpdateAttempt(SetScore(outcome.score));
      if outcome.success {
        if AllAtLeast(progress.completedMissions, 150) {
          SuccessNeverRaises(progress, captured.attempt, mission, now);
        }
        progress := ApplyCompletion(progress, mission.id, outcome.score, now);
      }
      simulating := false;
      pending := None;
      currentStep := Result;
    }

    /** The forward button: inert while disabled; on the slicing step it
        starts the analysis, elsewhere it moves one step forward. */
    method PressNext()
      requires Valid()
      modifies this
      ensures Valid()
      ensures old(NextDisabled(currentStep, attempt, simulating)) ==>
        && currentStep == old(currentStep) && attempt == old(attempt) && simulating == old(simulating)
        && pending == old(pending) && simulationResultText == old(simulationResultText)
      ensures !old(NextDisabled(currentStep, attempt, simulating)) && old(currentStep) == Slicing ==>
        && currentStep == Slicing && simulating && simulationResultText == AnalyzingMessage
        && pending == Some(PendingAnalysis(old(attempt), old(progress).completedMissions))
      ensures !old(NextDisabled(currentStep, attempt, simulating)) && old(currentStep) != Slicing ==>
        && currentStep == Next(old(currentStep)) && !simulating && pending == None
        && simulationResultText == old(simulationResultText)
      ensures attempt == old(attempt) && progress == old(progress)
    {
      if !NextDisabled(currentStep, attempt, simulating) {
        if currentStep == Slicing {
          HandleSimulation();
        } else {
          HandleNextStep();
        }
      }
    }

    /** The back button: inert on the first step and while analysing,
        otherwise one step back. */
    method PressPrev()
      requires Valid()
      modifies this
      ensures Valid()
      ensures currentStep == if old(PrevDisabled(currentStep, simulating)) then old(currentStep) else Prev(old(currentStep))
      ensures attempt == old(attempt) && simulating == old(simulating) && pending == old(pending)
      ensures simulationResultText == old(simulationResultText) && progress == old(progress)
    {
      if !PrevDisabled(currentStep, simulating) {
        HandlePrevStep();
      }
    }

    /** The "review parameters" button after a failed analysis: back to the
        parameters step with every input kept. */
    method PressRetry()
      requires Valid()
      modifies this
      ensures Valid()
      ensures currentStep == if old(RetryVisible(currentStep, attempt, simulating)) then Parameters else old(currentStep)
      ensures attempt == old(attempt) && simulating == old(simulating) && pending == old(pending)
      ensures simulationResultText == old(simulationResultText) && progress == old(progress)
    {
      if RetryVisible(currentStep, attempt, simulating) {
        currentStep := Parameters;
      }
    }
  }

  /** A client: a new student completes mission m01 with every bonus (200),
      steps back from the result to slicing and analyses again. The repeat
      success scores 150, and the recorded progress does not change. */
  method RetreatAndReanalyze() returns (first: Analysis, second: Analysis, xp: int)
    ensures first == Analysis(true, 200, SuccessMessage)
    ensures second == Analysis(true, 150, SuccessMessage)
    ensures xp == 200
  {
    var view := new MissionView(CutleryAdapter, InitialProgress);
    CompleteIdeation(view);
    ReachSlicing(view);
    view.PressNext();
    first := view.FinishAnalysis(1);
    assert view.progress.completedMissions == [Completion("m01", 200, 1)];
    view.PressPrev();
    assert view.currentStep == Slicing;
    view.PressNext();
    second := view.FinishAnalysis(2);
    xp := view.progress.xp;
  }

  /** Briefing to design, filling in the ideation step on the way. */
  method CompleteIdeation(view: MissionView)
    requires view.Valid() && view.currentStep == Briefing && !view.simulating
    modifies view
    ensures view.Valid() && view.currentStep == Design && !view.simulating
    ensures view.progress == old(view.progress)
    ensures view.attempt == old(view.attempt).(ideation := view.attempt.ideation)
  {
    view.PressNext();
    assert view.currentStep == Ideation;
    WriteIdeation(view);
    LeaveIdeation(view);
  }

  /** With the ideation gate open, the forward button moves on to design. */
  method LeaveIdeation(view: MissionView)
    requires view.Valid() && view.currentStep == Ideation && !view.simulating
    requires IdeationReady(view.attempt.ideation)
    modifies view
    ensures view.Valid() && view.currentStep == Design && !view.simulating
    ensures view.progress == old(view.progress) && view.attempt == old(view.attempt)
  {
    view.PressNext();
  }

  /** Fills in the three texts and the sketch of the ideation step, which
      opens its gate. */
  method WriteIdeation(view: MissionView)
    requires view.Valid() && !view.simulating
    modifies view
    ensures view.Valid() && !view.simulating && view.currentStep == old(view.currentStep)
    ensures view.progress == old(view.progress)
    ensures view.attempt == old(view.attempt).(ideation := view.attempt.ideation)
    ensures IdeationReady(view.attempt.ideation)
  {
    view.UpdateIdeation(SetUserAnalysis("A"));
    view.UpdateIdeation(SetContextAnalysis("B"));
    view.UpdateIdeation(SetIdeaDescription("C"));
    view.UpdateIdeation(SetSketch(Some("data:image/png")));
    SampleIdeationReady();
  }

  /** Design to slicing with a model uploaded, 0.18 mm layers at 55 mm/s, a
      screenshot attached and the slicing confirmed. */
  method ReachSlicing(view: MissionView)
    requires view.Valid() && view.currentStep == Design && !view.simulating
    modifies view
    ensures view.Valid() && view.currentStep == Slicing && !view.simulating
    ensures view.progress == old(view.progress)
    ensures view.attempt == old(view.attempt).(
      stlFile := Some(StlFile("adaptador.stl")), layerHeight := 0.18, printSpeed := 55,
      slicerScreenshotDataUrl := Some("data:image/png"), slicingConfirmed := true)
  {
    view.UpdateAttempt(SetStlFile(Some(StlFile("adaptador.stl"))));
    view.PressNext();
    view.UpdateAttempt(SetLayerHeight(0.18));
    view.UpdateAttempt(SetPrintSpeed(55));
    view.PressNext();
    view.UpdateAttempt(SetSlicerScreenshot(Some("data:image/png")));
    view.UpdateAttempt(SetSlicingConfirmed(true));
  }

  lemma SampleIdeationReady()
    ensures IdeationReady(IdeationData("A", "B", "C", Some("data:image/png")))
  {
    assert !Text.IsWhitespace("A"[0]) && !Text.IsWhitespace("B"[0]) && !Text.IsWhitespace("C"[0]);
  }
}
