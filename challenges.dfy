/**
 * Community challenges: what each kind of challenge asks for, and how a
 * photo's score advances or completes it.
 */
module Challenges {
  import opened Wrappers
  import opened Species

  datatype ChallengeType =
    | SpeciesPhoto(targetSpecies: BirdSpecies, minScore: nat)
    | EnvironmentalPhoto(weatherCondition: string, timeOfDay: string)
    | TechnicalPhoto(requiredLens: string, requiredFilter: string)
    | BehaviorCapture(targetBehavior: string, minDuration: real)
    | SeriesPhoto(theme: string, requiredCount: nat)
    | CollaborativeGoal(communityTarget: nat, currentProgress: nat)

  datatype ChallengeDifficulty = Beginner | Intermediate | Advanced | Expert

  /** The difficulty's order, easiest first. */
  function Rank(d: ChallengeDifficulty): nat
  {
    match d
    case Beginner => 0
    case Intermediate => 1
    case Advanced => 2
    case Expert => 3
  }

  /** The coins a challenge of this difficulty pays: harder pays more. */
  function BaseReward(d: ChallengeDifficulty): (r: nat)
    ensures 200 <= r <= 1200
  {
    match d
    case Beginner => 200
    case Intermediate => 450
    case Advanced => 800
    case Expert => 1200
  }

  /** A harder challenge never pays less, and a strictly harder one pays strictly more. */
  lemma BaseRewardMonotone(d1: ChallengeDifficulty, d2: ChallengeDifficulty)
    ensures Rank(d1) <= Rank(d2) ==> BaseReward(d1) <= BaseReward(d2)
    ensures Rank(d1) < Rank(d2) ==> BaseReward(d1) < BaseReward(d2)
  {
  }

  datatype ChallengeProgress = ChallengeProgress(
    completed: bool,
    currentValue: nat,
    targetValue: nat,
    bestSubmission: Option<nat>)

  /** The outcome of judging one photo: the new progress, and whether this photo completed the challenge. */
  datatype Judgement = Judgement(progress: ChallengeProgress, completedNow: bool)

  /**
   * check_completion on values: a species photo needs the target species at
   * the minimum score; a behaviour capture any photo of 600 or more; every
   * other kind counts photos of 500 or more until the target is reached.
   */
  function Judge(ct: ChallengeType, p: ChallengeProgress, score: nat, species: Option<BirdSpecies>): (j: Judgement)
    ensures ct.SpeciesPhoto? ==>
      (j.completedNow <==> species == Some(ct.targetSpecies) && score >= ct.minScore)
    ensures ct.BehaviorCapture? ==> (j.completedNow <==> score >= 600)
    ensures !ct.SpeciesPhoto? && !ct.BehaviorCapture? ==>
      (j.completedNow <==> score >= 500 && p.currentValue + 1 >= p.targetValue)
    ensures j.completedNow ==> j.progress.completed && j.progress.bestSubmission == Some(score)
    ensures !j.completedNow ==>
      j.progress.completed == p.completed && j.progress.bestSubmission == p.bestSubmission
    ensures !p.completed ==> (j.completedNow <==> j.progress.completed)
    ensures j.progress.targetValue == p.targetValue
    ensures j.progress.currentValue == p.currentValue || j.progress.currentValue == p.currentValue + 1 || j.progress.currentValue == 1
  {
    match ct
    case SpeciesPhoto(target, minScore) =>
      if species == Some(target) && score >= minScore then
        Judgement(p.(completed := true, currentValue := 1, bestSubmission := Some(score)), true)
      else Judgement(p, false)
    case BehaviorCapture(_, _) =>
      if score >= 600 then
        Judgement(p.(completed := true, currentValue := 1, bestSubmission := Some(score)), true)
      else Judgement(p, false)
    case _ =>
      if score >= 500 then
        var counted := p.(currentValue := p.currentValue + 1);
        if counted.currentValue >= counted.targetValue then
          Judgement(counted.(completed := true, bestSubmission := Some(score)), true)
        else Judgement(counted, false)
      else Judgement(p, false)
  }

  /** Only the counting kinds of challenge advance on a photo that does not complete them. */
  lemma CountingOnlyForOtherKinds(ct: ChallengeType, p: ChallengeProgress, score: nat, species: Option<BirdSpecies>)
    ensures var j := Judge(ct, p, score, species);
      !j.completedNow && j.progress.currentValue != p.currentValue ==>
        !ct.SpeciesPhoto? && !ct.BehaviorCapture? && score >= 500
  {
  }

  /** The photos an active challenge sees: the caller skips it once completed. */
  function JudgeAll(ct: ChallengeType, p: ChallengeProgress, scores: seq<nat>, species: Option<BirdSpecies>): ChallengeProgress
    decreases |scores|
  {
    if scores == [] || p.completed then p
    else JudgeAll(ct, Judge(ct, p, scores[0], species).progress, scores[1..], species)
  }

  /** A counting challenge that photos all score 500 or more completes exactly when their number reaches the target. */
  lemma {:induction false} GoodPhotosCompleteCounting(ct: ChallengeType, p: ChallengeProgress, scores: seq<nat>, species: Option<BirdSpecies>)
    requires !ct.SpeciesPhoto? && !ct.BehaviorCapture?
    requires !p.completed && p.currentValue < p.targetValue
    requires forall k :: 0 <= k < |scores| ==> scores[k] >= 500
    ensures JudgeAll(ct, p, scores, species).completed <==> p.currentValue + |scores| >= p.targetValue
    decreases |scores|
  {
    if scores != [] {
      var q := Judge(ct, p, scores[0], species).progress;
      if !q.completed {
        assert forall k :: 0 <= k < |scores[1..]| ==> scores[1..][k] == scores[k + 1];
        GoodPhotosCompleteCounting(ct, q, scores[1..], species);
      }
    }
  }

  class Challenge {
    var id: nat
    var title: string
    var challengeType: ChallengeType
    var difficulty: ChallengeDifficulty
    var progress: ChallengeProgress

    constructor (id: nat, title: string, challengeType: ChallengeType, difficulty: ChallengeDifficulty, targetValue: nat)
      ensures this.id == id && this.title == title && this.challengeType == challengeType && this.difficulty == difficulty
      ensures progress == ChallengeProgress(false, 0, targetValue, None)
    {
      this.id := id;
      this.title := title;
      this.challengeType := challengeType;
      this.difficulty := difficulty;
      progress := ChallengeProgress(false, 0, targetValue, None);
    }

    /** is_active: a challenge is open until completed. */
    function IsActive(): (b: bool)
      reads this
      ensures b <==> !progress.completed
    {
      !progress.completed
    }

    /** check_completion: judge one photo, updating the progress in place. */
    method CheckCompletion(photoScore: nat, species: Option<BirdSpecies>) returns (completed: bool)
      modifies this
      ensures progress == Judge(challengeType, old(progress), photoScore, species).progress
      ensures completed == Judge(challengeType, old(progress), photoScore, species).completedNow
      ensures completed ==> !IsActive()
      ensures !old(IsActive()) ==> !IsActive()
      ensures id == old(id) && title == old(title) && challengeType == old(challengeType) && difficulty == old(difficulty)
    {
      match challengeType {
        case SpeciesPhoto(target, minScore) =>
          if species.Some? && species.value == target && photoScore >= minScore {
            progress := progress.(completed := true, currentValue := 1, bestSubmission := Some(photoScore));
            return true;
          }
        case BehaviorCapture(_, _) =>
          if photoScore >= 600 {
            progress := progress.(completed := true, currentValue := 1, bestSubmission := Some(photoScore));
            return true;
          }
        case _ =>
          if photoScore >= 500 {
            progress := progress.(currentValue := progress.currentValue + 1);
            if progress.currentValue >= progress.targetValue {
              progress := progress.(completed := true, bestSubmission := Some(photoScore));
              return true;
            }
          }
      }
      return false;
    }
  }
}
