# Mission attempt and progress model

A Dafny model of the core of "Misión UR Steam", a single-page application in
which a student works through 3D-printing design missions. The model covers:

- the **mission view** (`components/MissionView.tsx`): the six steps of an
  attempt (briefing, ideation, design, parameters, slicing, result), the
  attempt record edited field by field, the forward/back/retry buttons and
  the gates that disable them, the analysis started by "Analizar Modelo" and
  finished by its timer, and the scoring rule (`calculateScore`);
- the **progress hook** (`hooks/useUserData.ts`): the seed progress, the
  `completeMission` updater, and the session's `login`/`logout`;
- the **rank** shown in the header (`components/Header.tsx`);
- the **onboarding form** (`components/Onboarding.tsx`): field handlers, the
  completeness check and the submit handler.

Modules: `Wrappers` (Option), `Text` (`String.prototype.trim`), `Catalog`
(record types and the static mission/material lists), `Progress`, `Header`,
`Onboarding`, `Attempt` (steps, attempt record, updates, gates), `Scoring`
and `MissionFlow` (the view class and the lemmas that join the view to the
progress hook).

Modelling choices:

- The component state of the mission view is the class
  `MissionFlow.MissionView`; its `progress` field is the `userProgress` prop,
  which the application feeds from the progress hook and refreshes after
  `onComplete` (`App.tsx:45-51`). The session of the hook is the class
  `Progress.UserSession`; the onboarding form is `Onboarding.Form`.
- The `setTimeout` in `handleSimulation` is split into `HandleSimulation`
  (sets the analysing flag and captures what the timer callback closes over)
  and `FinishAnalysis` (scores the captured attempt and records, clears the
  flag, shows the result). The callback scores the attempt and the records as
  they were when the analysis started, because it closes over that render's
  `calculateScore`.
- `layerHeight` is a `real` (it is only compared with 0.2); `infill` and
  `printSpeed` are integers (their sliders move in steps of 5); scores and XP
  are integers. Uploaded images are `Option<string>` data URLs whose presence
  follows JavaScript truthiness (an empty string counts as absent); the STL
  file is an `Option` whose content is never inspected.
- Trimming uses the ECMAScript whitespace set (white space and line
  terminators, with the Unicode space separators).
- `isNextDisabled` is modelled in the order it is written: on the ideation
  step it returns before looking at the analysing flag. `NextDisabledIff`
  shows this equals the plain disjunction because an analysis only runs on
  the slicing step.
- The back button is enabled on the result step: it returns to slicing, from
  which the analysis can run again.
- On success the feedback is replaced by the success message, so a material
  warning computed earlier is dropped.
- A raised record keeps its original timestamp.
- `completeMission` rewrites every record with the mission id; with unique ids
  that is exactly one record.

## Model

| member | source | states |
|---|---|---|
| `Text.TrimStart` | components/Onboarding.tsx:16 | the result is a suffix of the input, what was removed is whitespace, and it does not start with whitespace |
| `Text.TrimEnd` | components/Onboarding.tsx:16 | the result is a prefix of the input, what was removed is whitespace, and it does not end with whitespace |
| `Text.Trim` | components/Onboarding.tsx:16-22 | `trim()` gives the slice of the input that only whitespace precedes and follows, and that neither starts nor ends with whitespace; it is empty exactly when the input is whitespace only |
| `Text.TrimIdempotent` | components/Onboarding.tsx:17-22 | trimming a trimmed value changes nothing, so the values passed to `onLogin` are final |
| `Text.TrimPadded` | components/Onboarding.tsx:16-22 | whitespace around a value that neither starts nor ends with whitespace is exactly what trimming removes |
| `Catalog.CatalogWellFormed` | data/missions.ts:3-46 | mission ids are distinct and each mission's optimal material is a catalogued material |
| `Progress.InitialProgressWellFormed` | hooks/useUserData.ts:7-11 | the seed progress has no records and no XP, satisfies the consistency invariant, and its inventory lists the catalogued materials PLA, ABS, PETG in order |
| `Progress.RaiseScore` | hooks/useUserData.ts:62-64 | the `map` keeps the length, every id and timestamp; records with the mission id take the new score, all others are unchanged; unique ids stay unique |
| `Progress.Find` | hooks/useUserData.ts:53 | `find` returns the first record with the mission id, or none when no record has it |
| `Progress.ApplyCompletion` | hooks/useUserData.ts:49-78 | a new mission is appended as `{missionId, score, timestamp}` and XP grows by the score; a known mission with a higher score has that record's score replaced in place, the list length kept, and XP grows by the difference; otherwise progress is returned unchanged; other missions' records and the inventory never change; XP never drops for a non-negative score; afterwards the mission's record holds the best score seen |
| `Progress.SumAppend` | hooks/useUserData.ts:68-75 | appending a record adds its score to the sum of scores |
| `Progress.SumUpdate` | hooks/useUserData.ts:56-66 | changing one record's score changes the sum by exactly the difference |
| `Progress.RaiseIsSingleUpdate` | hooks/useUserData.ts:62-64 | with unique mission ids the `map` changes exactly the one record of the mission |
| `Progress.ApplyPreservesConsistent` | hooks/useUserData.ts:49-78 | `completeMission` keeps XP equal to the sum of recorded scores and mission ids unique |
| `Progress.ApplyIdempotent` | hooks/useUserData.ts:53-67 | completing the same mission with the same score twice equals completing it once, whatever the second timestamp |
| `Progress.ReplayConsistent` | hooks/useUserData.ts:7-11 | from the seed progress, after any sequence of `completeMission` calls, XP equals the sum of scores and ids are unique |
| `Progress.ReplayMonotone` | hooks/useUserData.ts:49-78 | over any sequence of completions with non-negative scores, XP never decreases and the inventory is untouched |
| `Progress.UserSession.constructor` | hooks/useUserData.ts:14-22 | with nothing stored, there is no user and progress is the seed |
| `Progress.UserSession.Login` | hooks/useUserData.ts:36-40 | the user is set and progress is reset to the seed |
| `Progress.UserSession.Logout` | hooks/useUserData.ts:42-47 | the user is cleared and progress is reset to the seed |
| `Progress.UserSession.CompleteMission` | hooks/useUserData.ts:49-78 | the held progress becomes the updater's result, the user is kept, and the consistency invariant is preserved |
| `Header.RankOf` | components/Header.tsx:10 | 'Aprendiz' exactly below 500 XP, 'Diseñador/a' exactly from 500 below 1500, 'Innovador/a' exactly from 1500 |
| `Header.RankMonotone` | components/Header.tsx:10 | more XP never gives a lower rank |
| `Onboarding.Form.constructor` | components/Onboarding.tsx:9-12 | all four fields start empty |
| `Onboarding.Form.Set` | components/Onboarding.tsx:46-58 | an input handler stores the raw value in its own field and leaves the other three alone |
| `Onboarding.Form.HandleSubmit` | components/Onboarding.tsx:14-24 | `onLogin` is called exactly when the completeness check used for the button holds, with every field trimmed; otherwise nothing happens |
| `Onboarding.SubmittedUserIsClean` | components/Onboarding.tsx:17-22 | the user a complete form signs in with has four non-empty fields that trimming leaves unchanged |
| `Onboarding.Complete` | components/Onboarding.tsx:26 | the form is complete exactly when no field is empty or whitespace only |
| `Onboarding.Form.IsFormComplete` | components/Onboarding.tsx:26 | `isFormComplete` over the form's current fields holds exactly when none of them is empty or whitespace only |
| `Onboarding.FillAndSubmit` | components/Onboarding.tsx:14-24 | a whitespace-only course blocks submission; once filled, the user is signed in with padding removed |
| `Attempt.IndexOf` | components/MissionView.tsx:14-16 | a step's position in `STEPS` holds that step |
| `Attempt.Next` | components/MissionView.tsx:148-153 | the next element of `STEPS`; no move at the result step |
| `Attempt.Prev` | components/MissionView.tsx:155-160 | the previous element of `STEPS`; no move at the briefing step |
| `Attempt.NextPrevInverse` | components/MissionView.tsx:148-160 | back after forward (except at result) and forward after back (except at briefing) return to the same step |
| `Attempt.InitialAttempt` | components/MissionView.tsx:39-58 | a fresh attempt is on the mission, has nothing written or uploaded, default parameters (0.2 mm, 20%, 50 mm/s, skirt), no result, and a non-empty material: the first inventory entry, or PLA |
| `Attempt.ApplyUpdate` | components/MissionView.tsx:62-64 | `updateAttempt` sets the named field to the value and leaves every other field equal |
| `Attempt.ApplyIdeationUpdate` | components/MissionView.tsx:66-74 | `updateIdeation` sets the named ideation field and leaves the other ideation fields and every attempt field equal |
| `Attempt.NextDisabled` | components/MissionView.tsx:353-361 | forward is always disabled at result, and while analysing on any step but ideation (where, as written, the ideation test returns first); when it is enabled, the current step's requirement (ideation texts and sketch, STL file, slicing confirmation and screenshot) is met |
| `Attempt.NextDisabledIff` | components/MissionView.tsx:353-361 | forward is disabled exactly when analysing, at result, in ideation with a blank text or no sketch, in design with no STL file, or in slicing unconfirmed or without a screenshot |
| `Attempt.PrevDisabled` | components/MissionView.tsx:379 | back is disabled exactly where going back would not move (briefing) or while an analysis runs |
| `Attempt.RetryVisible` | components/MissionView.tsx:343 | the "review parameters" button shows only where forward is disabled and back is enabled |
| `Scoring.SuccessIffScoreNonZero` | components/MissionView.tsx:116-124 | an analysis succeeds exactly when its score is non-zero: failure scores 0 and a success never does |
| `Scoring.FirstCompletion` | components/MissionView.tsx:113 | the first-completion bonus applies exactly when no record for the mission exists, the case in which `completeMission` appends |
| `Scoring.Evaluate` | components/MissionView.tsx:95-126 | success exactly when infill is at least 15 and a material is chosen; failure scores 0 and its feedback is the optional material warning then the failure message; success scores 100 to 200 and its feedback is exactly the success message |
| `Scoring.CalculateScore` | components/MissionView.tsx:95-126 | the step-by-step accumulation of score and feedback equals the additive rule `Evaluate` |
| `Scoring.InfillBoundaries` | components/MissionView.tsx:108-116 | infill 15 succeeds without the infill bonus, 40 earns no infill bonus, 14 fails |
| `Scoring.FirstSuccessAtLeast150` | components/MissionView.tsx:113-121 | a success with no record for the mission scores at least 150 |
| `Scoring.LaterSuccessAtMost150` | components/MissionView.tsx:100-121 | an analysis of an already completed mission scores at most 150 |
| `Scoring.InfillChangeMovesOnlyItsBonus` | components/MissionView.tsx:107-111 | changing only the infill of a passing attempt moves the score by exactly the change in the infill bonus |
| `Scoring.ScenarioFullMarks` | components/MissionView.tsx:95-126 | PLA, 20%, 0.18 mm, 55 mm/s on m01 for a new user succeeds with 200 |
| `Scoring.ScenarioLowInfill` | components/MissionView.tsx:95-126 | ABS with 10% infill on m01 fails with 0 and feedback warning plus failure message |
| `MissionFlow.SuccessNeverRaises` | hooks/useUserData.ts:56-67 | when every stored score came from the view (at least 150), a successful analysis either appends a record or leaves progress unchanged, never raising a stored score, and keeps every score at least 150 |
| `MissionFlow.MissionView.constructor` | components/MissionView.tsx:38-60 | the view starts at briefing with the initial attempt, not analysing and with empty result text |
| `MissionFlow.MissionView.UpdateAttempt` | components/MissionView.tsx:62-64 | the attempt becomes the updated record; step, flag, text and progress are unchanged |
| `MissionFlow.MissionView.UpdateIdeation` | components/MissionView.tsx:66-74 | the attempt becomes the ideation-updated record; nothing else changes |
| `MissionFlow.MissionView.HandleNextStep` | components/MissionView.tsx:148-153 | called with no analysis running, the step moves to the next one, nothing else changes, and the view invariant is kept |
| `MissionFlow.MissionView.HandlePrevStep` | components/MissionView.tsx:155-160 | called with no analysis running, the step moves to the previous one, nothing else changes, and the view invariant is kept |
| `MissionFlow.MissionView.HandleSimulation` | components/MissionView.tsx:138-140 | started on slicing with no analysis running, the analysing flag is set, the text reads "Analizando…", the attempt and records are captured for the timer, and the view invariant is kept |
| `MissionFlow.MissionView.FinishAnalysis` | components/MissionView.tsx:128-145 | the outcome is the rule applied to the captured attempt; the result text is its feedback; the attempt stores its success and score; progress is updated with that same score exactly on success and untouched on failure; the view lands on result with the flag cleared; if every stored score was at least 150, progress is unchanged or gains one record |
| `MissionFlow.MissionView.PressNext` | components/MissionView.tsx:383-394 | inert while disabled; on slicing it starts the analysis; elsewhere one step forward |
| `MissionFlow.MissionView.PressPrev` | components/MissionView.tsx:379 | inert at briefing or while analysing; otherwise one step back, attempt untouched |
| `MissionFlow.MissionView.PressRetry` | components/MissionView.tsx:343-347 | only on a finished, failed result, the step becomes parameters with every attempt field kept |
| `MissionFlow.RetreatAndReanalyze` | components/MissionView.tsx:378-394 | a first full-marks success scores 200; going back from result to slicing and analysing again scores 150 and leaves XP at 200 |

## Left out

- Browser storage: loading the saved user and progress, and saving them after every change (`hooks/useUserData.ts:14-34`, `45-46`); a session starts as if nothing were stored.
- File reading (`components/MissionView.tsx:76-92`): an upload is modelled as the value it finally stores, passed to `UpdateAttempt`/`UpdateIdeation`.
- The 3-second timer: only its two ends are modelled; `Date.now()` is the `now` parameter.
- Leaving the mission view (`onExit`) and the PDF report (`lib/pdfGenerator.ts`, layout code over the CDN-loaded jsPDF library, output only); so the model does not capture that closing the view during an analysis still lets the timer report a success to the progress.
- Rendering, the Tinkercad and Kiri:Moto links, the progress bar, `App.tsx` routing, `components/Dashboard.tsx` and `components/MissionCard.tsx`: presentation only.
- Mission and material narrative texts, requirement lists and icons: display only.
- Attempt fields `supports` and `bedAdhesion`: no control updates them, so `AttemptUpdate` has no case for them (nor for `missionId` or the whole `ideation` record).
- JavaScript numbers are doubles: the model assumes whole-number infill, speed and scores and exact layer heights; floating-point rounding is not modelled.
- `Attempt.InitialAttempt`: the initial material follows JavaScript truthiness of `inventory[0]`, which the model reads as "present and non-empty".
