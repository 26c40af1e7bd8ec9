/** The tutorial: its chain of steps and the record of which steps the player completed. */
module Tutorial {
  import opened Wrappers
  import opened Collections

  datatype TutorialStep =
    | Welcome | CameraMovement | BirdObservation | PhotoMode | TakePhoto | ViewJournal
    | OpenCatalog | PlaceFeeder | BirdFeeding | UpgradeFeeder | Complete

  /** A step's position in the tutorial, as a reference order for the chain. */
  function Position(s: TutorialStep): (n: nat)
    ensures n <= 10
    ensures n == 0 <==> s == Welcome
    ensures n == 10 <==> s == Complete
  {
    match s
    case Welcome => 0
    case CameraMovement => 1
    case BirdObservation => 2
    case PhotoMode => 3
    case TakePhoto => 4
    case ViewJournal => 5
    case OpenCatalog => 6
    case PlaceFeeder => 7
    case BirdFeeding => 8
    case UpgradeFeeder => 9
    case Complete => 10
  }

  /** The step after this one; the chain ends at Complete. */
  function Next(s: TutorialStep): (r: Option<TutorialStep>)
    ensures r.None? <==> s == Complete
    ensures r.Some? ==> Position(r.value) == Position(s) + 1
  {
    match s
    case Welcome => Some(CameraMovement)
    case CameraMovement => Some(BirdObservation)
    case BirdObservation => Some(PhotoMode)
    case PhotoMode => Some(TakePhoto)
    case TakePhoto => Some(ViewJournal)
    case ViewJournal => Some(OpenCatalog)
    case OpenCatalog => Some(PlaceFeeder)
    case PlaceFeeder => Some(BirdFeeding)
    case BirdFeeding => Some(UpgradeFeeder)
    case UpgradeFeeder => Some(Complete)
    case Complete => None
  }

  /** Different steps sit at different positions, so the chain visits each step once. */
  lemma PositionInjective(s: TutorialStep, t: TutorialStep)
    ensures Position(s) == Position(t) ==> s == t
  {
  }

  /** `next` applied n times; None once the chain has ended. */
  function Advance(s: TutorialStep, n: nat): Option<TutorialStep>
    decreases n
  {
    if n == 0 then Some(s)
    else match Next(s)
      case None => None
      case Some(t) => Advance(t, n - 1)
  }

  /**
   * From any step, repeated `next` moves one position at a time, reaches
   * Complete after exactly 10 - Position(s) steps, and never revisits a step.
   */
  lemma {:induction false} AdvanceWalksChain(s: TutorialStep, n: nat)
    ensures n <= 10 - Position(s) ==> Advance(s, n).Some? && Position(Advance(s, n).value) == Position(s) + n
    ensures n > 10 - Position(s) ==> Advance(s, n) == None
    decreases n
  {
    if n > 0 {
      match Next(s)
      case None =>
      case Some(t) => AdvanceWalksChain(t, n - 1);
    }
  }

  /** Every step reaches Complete within ten `next` calls. */
  lemma ReachesComplete(s: TutorialStep)
    ensures Advance(s, 10 - Position(s)) == Some(Complete)
    ensures forall k :: 0 <= k < 10 - Position(s) ==> Advance(s, k) != Some(Complete)
  {
    AdvanceWalksChain(s, 10 - Position(s));
    PositionInjective(Advance(s, 10 - Position(s)).value, Complete);
    forall k | 0 <= k < 10 - Position(s)
      ensures Advance(s, k) != Some(Complete)
    {
      AdvanceWalksChain(s, k);
    }
  }

  /** The key hint shown for the steps that wait on an input. */
  function InputHint(s: TutorialStep): (h: Option<string>)
    ensures h.Some? <==> s in {CameraMovement, PhotoMode, TakePhoto, ViewJournal, OpenCatalog}
  {
    match s
    case CameraMovement => Some("Try moving with WASD and zooming with mouse wheel")
    case PhotoMode => Some("Press P to enter Photo Mode")
    case TakePhoto => Some("Press Space to take a photo")
    case ViewJournal => Some("Press Tab to open journal")
    case OpenCatalog => Some("Press C to open catalog")
    case _ => None
  }

  /** Recording a step: added at the end unless already recorded. */
  function WithStep(steps: seq<TutorialStep>, s: TutorialStep): (r: seq<TutorialStep>)
    ensures s in r
    ensures forall t :: t in steps ==> t in r
    ensures forall t :: t in r ==> t in steps || t == s
    ensures Distinct(steps) ==> Distinct(r)
  {
    if s in steps then steps else steps + [s]
  }

  /** Recording the same step twice is the same as recording it once. */
  lemma WithStepIdempotent(steps: seq<TutorialStep>, s: TutorialStep)
    ensures WithStep(WithStep(steps, s), s) == WithStep(steps, s)
  {
  }

  class TutorialProgress {
    var completedSteps: seq<TutorialStep>
    var tutorialCompleted: bool
    var tutorialSkipped: bool

    ghost predicate Valid()
      reads this
    {
      Distinct(completedSteps)
    }

    constructor ()
      ensures Valid() && completedSteps == [] && !tutorialCompleted && !tutorialSkipped
    {
      completedSteps := [];
      tutorialCompleted := false;
      tutorialSkipped := false;
    }

    function IsStepCompleted(s: TutorialStep): (b: bool)
      reads this
      ensures b <==> exists k :: 0 <= k < |completedSteps| && completedSteps[k] == s
    {
      s in completedSteps
    }

    method CompleteStep(s: TutorialStep)
      requires Valid()
      modifies this
      ensures Valid()
      ensures completedSteps == WithStep(old(completedSteps), s)
      ensures IsStepCompleted(s)
      ensures tutorialCompleted == old(tutorialCompleted) && tutorialSkipped == old(tutorialSkipped)
      ensures ShouldShowTutorial() == old(ShouldShowTutorial())
    {
      if s !in completedSteps {
        completedSteps := completedSteps + [s];
      }
    }

    /** The end of the step chain in tutorial_completion_system: the tutorial is marked completed and is not shown again. */
    method FinishTutorial()
      requires Valid()
      modifies this
      ensures Valid() && tutorialCompleted && !ShouldShowTutorial()
      ensures completedSteps == old(completedSteps) && tutorialSkipped == old(tutorialSkipped)
    {
      tutorialCompleted := true;
    }

    function ShouldShowTutorial(): (b: bool)
      reads this
      ensures b <==> !tutorialCompleted && !tutorialSkipped
    {
      !tutorialCompleted && !tutorialSkipped
    }
  }
}
