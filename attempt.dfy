/**
 * The mission attempt: the six steps and their order, the attempt record the
 * mission view edits field by field, its initial value, and the rules that
 * enable and disable the view's navigation buttons.
 */
module Attempt {
  import opened Wrappers
  import opened Text
  import opened Catalog

  datatype Step = Briefing | Ideation | Design | Parameters | Slicing | Result

  /** `STEPS`: the fixed order of the steps. */
  const Steps: seq<Step> := [Briefing, Ideation, Design, Parameters, Slicing, Result]

  /** `STEPS.indexOf(step)`. */
  function IndexOf(s: Step): (i: nat)
    ensures i < |Steps| && Steps[i] == s
  {
    match s
    case Briefing => 0
    case Ideation => 1
    case Design => 2
    case Parameters => 3
    case Slicing => 4
    case Result => 5
  }

  /** `handleNextStep`'s target: the following element of `STEPS`, or the step
      itself when it is the last one. */
  function Next(s: Step): (r: Step)
    ensures s == Result ==> r == s
    ensures s != Result ==> IndexOf(r) == IndexOf(s) + 1
  {
    var i := IndexOf(s);
    if i < |Steps| - 1 then Steps[i + 1] else s
  }

  /** `handlePrevStep`'s target: the preceding element of `STEPS`, or the step
      itself when it is the first one. */
  function Prev(s: Step): (r: Step)
    ensures s == Briefing ==> r == s
    ensures s != Briefing ==> IndexOf(r) + 1 == IndexOf(s)
  {
    var i := IndexOf(s);
    if i > 0 then Steps[i - 1] else s
  }

  /** Moving forward and then back, or back and then forward, returns to the
      same step everywhere except at the end that does not move. */
  lemma NextPrevInverse(s: Step)
    ensures s != Result ==> Prev(Next(s)) == s
    ensures s != Briefing ==> Next(Prev(s)) == s
  {
  }

  datatype BedAdhesion = NoAdhesion | Skirt | Brim | Raft

  /** An uploaded 3D-model file; only its presence matters. */
  datatype StlFile = StlFile(name: string)

  /** An image read by the browser as a data URL. */
  type DataUrl = string

  datatype IdeationData = IdeationData(
    userAnalysis: string,
    contextAnalysis: string,
    ideaDescription: string,
    sketchDataUrl: Option<DataUrl>)

  /** The attempt record. `layerHeight` is in millimetres; `infill` (per cent)
      and `printSpeed` (mm/s) move in steps of 5 and are whole numbers. */
  datatype MissionAttempt = MissionAttempt(
    missionId: string,
    stlFile: Option<StlFile>,
    ideation: IdeationData,
    material: string,
    layerHeight: real,
    infill: int,
    printSpeed: int,
    supports: bool,
    bedAdhesion: BedAdhesion,
    slicingConfirmed: bool,
    slicerScreenshotDataUrl: Option<DataUrl>,
    printSuccessful: bool,
    score: int)

  /** JavaScript truthiness of a `string | null` data URL. */
  predicate Present(u: Option<DataUrl>) {
    u.Some? && u.value != ""
  }

  /** The attempt a mission view starts with: nothing written or uploaded,
      default print parameters, and the first inventory material (PLA when the
      inventory is empty or its first entry is empty). */
  function InitialAttempt(mission: Mission, inventory: seq<string>): (a: MissionAttempt)
    ensures a.missionId == mission.id
    ensures a.material != ""
    ensures |inventory| > 0 && inventory[0] != "" ==> a.material == inventory[0]
    ensures !(|inventory| > 0 && inventory[0] != "") ==> a.material == "PLA"
    ensures a.ideation == IdeationData("", "", "", None)
    ensures a.stlFile == None && a.slicerScreenshotDataUrl == None && !a.slicingConfirmed
    ensures a.layerHeight == 0.2 && a.infill == 20 && a.printSpeed == 50
    ensures !a.supports && a.bedAdhesion == Skirt
    ensures !a.printSuccessful && a.score == 0
  {
    MissionAttempt(
      mission.id, None, IdeationData("", "", "", None),
      if |inventory| > 0 && inventory[0] != "" then inventory[0] else "PLA",
      0.2, 20, 50, false, Skirt, false, None, false, 0)
  }

  /** The fields `updateAttempt` is called with, each with its new value. */
  datatype AttemptUpdate =
    | SetStlFile(stlFile: Option<StlFile>)
    | SetMaterial(material: string)
    | SetLayerHeight(layerHeight: real)
    | SetInfill(infill: int)
    | SetPrintSpeed(printSpeed: int)
    | SetSlicingConfirmed(slicingConfirmed: bool)
    | SetSlicerScreenshot(screenshot: Option<DataUrl>)
    | SetPrintSuccessful(printSuccessful: bool)
    | SetScore(score: int)

  /** The names of the attempt's fields. */
  datatype AttemptKey =
    | KMissionId | KStlFile | KIdeation | KMaterial | KLayerHeight | KInfill | KPrintSpeed
    | KSupports | KBedAdhesion | KSlicingConfirmed | KSlicerScreenshot | KPrintSuccessful | KScore

  /** The field an update names. */
  function KeyOf(u: AttemptUpdate): AttemptKey {
    match u
    case SetStlFile(_) => KStlFile
    case SetMaterial(_) => KMaterial
    case SetLayerHeight(_) => KLayerHeight
    case SetInfill(_) => KInfill
    case SetPrintSpeed(_) => KPrintSpeed
    case SetSlicingConfirmed(_) => KSlicingConfirmed
    case SetSlicerScreenshot(_) => KSlicerScreenshot
    case SetPrintSuccessful(_) => KPrintSuccessful
    case SetScore(_) => KScore
  }

  /** Attempts `a` and `b` agree on field `k`. */
  predicate SameField(a: MissionAttempt, b: MissionAttempt, k: AttemptKey) {
    match k
    case KMissionId => a.missionId == b.missionId
    case KStlFile => a.stlFile == b.stlFile
    case KIdeation => a.ideation == b.ideation
    case KMaterial => a.material == b.material
    case KLayerHeight => a.layerHeight == b.layerHeight
    case KInfill => a.infill == b.infill
    case KPrintSpeed => a.printSpeed == b.printSpeed
    case KSupports => a.supports == b.supports
    case KBedAdhesion => a.bedAdhesion == b.bedAdhesion
    case KSlicingConfirmed => a.slicingConfirmed == b.slicingConfirmed
    case KSlicerScreenshot => a.slicerScreenshotDataUrl == b.slicerScreenshotDataUrl
    case KPrintSuccessful => a.printSuccessful == b.printSuccessful
    case KScore => a.score == b.score
  }

  /** Attempt `a` holds the value an update writes. */
  predicate Holds(a: MissionAttempt, u: AttemptUpdate) {
    match u
    case SetStlFile(f) => a.stlFile == f
    case SetMaterial(m) => a.material == m
    case SetLayerHeight(h) => a.layerHeight == h
    case SetInfill(i) => a.infill == i
    case SetPrintSpeed(v) => a.printSpeed == v
    case SetSlicingConfirmed(c) => a.slicingConfirmed == c
    case SetSlicerScreenshot(s) => a.slicerScreenshotDataUrl == s
    case SetPrintSuccessful(b) => a.printSuccessful == b
    case SetScore(n) => a.score == n
  }

  /** `updateAttempt(key, value)`: `{ ...prev, [key]: value }`. The named field
      takes the new value and every other field keeps its old one. */
  function ApplyUpdate(a: MissionAttempt, u: AttemptUpdate): (r: MissionAttempt)
    ensures Holds(r, u)
    ensures forall k :: k != KeyOf(u) ==> SameField(a, r, k)
  {
    match u
    case SetStlFile(f) => a.(stlFile := f)
    case SetMaterial(m) => a.(material := m)
    case SetLayerHeight(h) => a.(layerHeight := h)
    case SetInfill(i) => a.(infill := i)
    case SetPrintSpeed(v) => a.(printSpeed := v)
    case SetSlicingConfirmed(c) => a.(slicingConfirmed := c)
    case SetSlicerScreenshot(s) => a.(slicerScreenshotDataUrl := s)
    case SetPrintSuccessful(b) => a.(printSuccessful := b)
    case SetScore(n) => a.(score := n)
  }

  /** The ideation fields `updateIdeation` is called with. */
  datatype IdeationUpdate =
    | SetUserAnalysis(userAnalysis: string)
    | SetContextAnalysis(contextAnalysis: string)
    | SetIdeaDescription(ideaDescription: string)
    | SetSketch(sketch: Option<DataUrl>)

  /** `updateIdeation(key, value)`: only the named ideation field changes, and
      nothing outside the ideation record changes. */
  function ApplyIdeationUpdate(a: MissionAttempt, u: IdeationUpdate): (r: MissionAttempt)
    ensures forall k :: k != KIdeation ==> SameField(a, r, k)
    ensures r.ideation.userAnalysis ==
      (if u.SetUserAnalysis? then u.userAnalysis else a.ideation.userAnalysis)
    ensures r.ideation.contextAnalysis ==
      (if u.SetContextAnalysis? then u.contextAnalysis else a.ideation.contextAnalysis)
    ensures r.ideation.ideaDescription ==
      (if u.SetIdeaDescription? then u.ideaDescription else a.ideation.ideaDescription)
    ensures r.ideation.sketchDataUrl ==
      (if u.SetSketch? then u.sketch else a.ideation.sketchDataUrl)
  {
    var i := a.ideation;
    match u
    case SetUserAnalysis(t) => a.(ideation := i.(userAnalysis := t))
    case SetContextAnalysis(t) => a.(ideation := i.(contextAnalysis := t))
    case SetIdeaDescription(t) => a.(ideation := i.(ideaDescription := t))
    case SetSketch(s) => a.(ideation := i.(sketchDataUrl := s))
  }

  /** The ideation step's gate: three non-blank texts and a sketch. */
  predicate IdeationReady(i: IdeationData) {
    Trim(i.userAnalysis) != "" && Trim(i.contextAnalysis) != "" && Trim(i.ideaDescription) != ""
    && Present(i.sketchDataUrl)
  }

  /** `isNextDisabled()`, in the order its tests are written: the ideation
      test returns before `simulating` is looked at. */
  function NextDisabled(step: Step, a: MissionAttempt, simulating: bool): (r: bool)
    ensures step == Result ==> r
    ensures simulating && step != Ideation ==> r
    ensures !r ==>
      && (step == Ideation ==> IdeationReady(a.ideation))
      && (step == Design ==> a.stlFile.Some?)
      && (step == Slicing ==> a.slicingConfirmed && Present(a.slicerScreenshotDataUrl))
  {
    if step == Ideation then !IdeationReady(a.ideation)
    else if step == Design && a.stlFile.None? then true
    else if step == Slicing && (!a.slicingConfirmed || !Present(a.slicerScreenshotDataUrl)) then true
    else simulating || step == Result
  }

  /** The gate table: the forward button is disabled exactly when the current
      step's requirement is unmet, the step is the last one, or an analysis is
      running (given that analyses run only from the slicing step). */
  lemma NextDisabledIff(step: Step, a: MissionAttempt, simulating: bool)
    requires simulating ==> step == Slicing
    ensures NextDisabled(step, a, simulating) <==>
      || simulating
      || step == Result
      || (step == Ideation && (AllWhitespace(a.ideation.userAnalysis)
                               || AllWhitespace(a.ideation.contextAnalysis)
                               || AllWhitespace(a.ideation.ideaDescription)
                               || !Present(a.ideation.sketchDataUrl)))
      || (step == Design && a.stlFile.None?)
      || (step == Slicing && (!a.slicingConfirmed || !Present(a.slicerScreenshotDataUrl)))
  {
  }

  /** The back button is disabled at the first step and while analysing:
      exactly where going back would not move, or an analysis is running. */
  predicate PrevDisabled(step: Step, simulating: bool)
    ensures PrevDisabled(step, simulating) <==> Prev(step) == step || simulating
  {
    step == Briefing || simulating
  }

  /** The "review parameters" button shows on the result step once the
      analysis is over and the attempt did not succeed; it shows only where
      the forward button is disabled and the back button is enabled. */
  predicate RetryVisible(step: Step, a: MissionAttempt, simulating: bool)
    ensures RetryVisible(step, a, simulating) ==>
      NextDisabled(step, a, simulating) && !PrevDisabled(step, simulating)
  {
    step == Result && !simulating && !a.printSuccessful
  }
}
