/**
 * Achievements: the set the player has unlocked, the counters that lead to
 * them, the systems that unlock them from photos, discovered species and
 * currency, and the rewards paid when they are announced.
 */
module Achievements {
  import opened Collections
  import opened Notifications

  datatype Achievement =
    | FirstPhoto | PhotoMaster | ActionShot | MultiSpeciesShot
    | FirstSpecies | CommonCollector | Ornithologist
    | Wealthy | Millionaire
    | FeederMaintainer | FeederExpert

  /** The title shown in an achievement's pop-up. */
  function Name(a: Achievement): (n: string)
    ensures |n| > 0
  {
    match a
    case FirstPhoto => "First Snapshot"
    case PhotoMaster => "Photo Master"
    case ActionShot => "Action Shot"
    case MultiSpeciesShot => "Flock Photographer"
    case FirstSpecies => "First Discovery"
    case CommonCollector => "Common Collector"
    case Ornithologist => "Ornithologist"
    case Wealthy => "Wealthy"
    case Millionaire => "Millionaire"
    case FeederMaintainer => "Feeder Maintainer"
    case FeederExpert => "Feeder Expert"
  }

  /** The line shown under an achievement's title. */
  function Description(a: Achievement): (d: string)
    ensures |d| > 0
  {
    match a
    case FirstPhoto => "Take your first photo"
    case PhotoMaster => "Take 100 photos"
    case ActionShot => "Capture a bird feeding, drinking, or bathing"
    case MultiSpeciesShot => "Photograph multiple birds in one shot"
    case FirstSpecies => "Discover your first bird species"
    case CommonCollector => "Discover 10 different species"
    case Ornithologist => "Discover all 20 common bird species"
    case Wealthy => "Accumulate 1,000 currency"
    case Millionaire => "Accumulate 10,000 currency"
    case FeederMaintainer => "Upgrade your first feeder"
    case FeederExpert => "Have 3 feeders at level 2 or higher"
  }

  /** No two achievements share a title, so a pop-up names its achievement. */
  lemma NamesDistinct(a: Achievement, b: Achievement)
    ensures Name(a) == Name(b) <==> a == b
  {
  }

  /** The coins an achievement pays: the first ones least, Millionaire most. */
  function CurrencyReward(a: Achievement): (r: nat)
    ensures 25 <= r <= 500
    ensures r == 25 <==> a == FirstPhoto || a == FirstSpecies
    ensures r == 500 <==> a == Millionaire
  {
    match a
    case FirstPhoto => 25
    case FirstSpecies => 25
    case ActionShot => 50
    case MultiSpeciesShot => 50
    case FeederMaintainer => 75
    case CommonCollector => 100
    case FeederExpert => 100
    case PhotoMaster => 200
    case Ornithologist => 200
    case Wealthy => 250
    case Millionaire => 500
  }

  /** The two parts of a photo's score the achievements look at. */
  datatype PhotoScore = PhotoScore(behaviorScore: nat, rarityBonus: nat)

  predicate IsActionShot(p: PhotoScore) { p.behaviorScore >= 50 }

  predicate IsMultiBirdShot(p: PhotoScore) { p.rarityBonus > 0 }

  /** How many of the photos are action shots. */
  function ActionShots(photos: seq<PhotoScore>): (n: nat)
    ensures n <= |photos|
    ensures n > 0 <==> exists k :: 0 <= k < |photos| && IsActionShot(photos[k])
  {
    if photos == [] then 0
    else ActionShots(photos[..|photos| - 1]) + (if IsActionShot(photos[|photos| - 1]) then 1 else 0)
  }

  /** How many of the photos show several birds. */
  function MultiBirdShots(photos: seq<PhotoScore>): (n: nat)
    ensures n <= |photos|
    ensures n > 0 <==> exists k :: 0 <= k < |photos| && IsMultiBirdShot(photos[k])
  {
    if photos == [] then 0
    else MultiBirdShots(photos[..|photos| - 1]) + (if IsMultiBirdShot(photos[|photos| - 1]) then 1 else 0)
  }

  /** The species-collection achievements not yet unlocked whose threshold the count reaches, in the order they are checked. */
  function SpeciesUnlocks(unlocked: set<Achievement>, count: nat): (r: seq<Achievement>)
    ensures Distinct(r)
    ensures forall a :: a in r <==>
      a !in unlocked && ((a == FirstSpecies && count >= 1) || (a == CommonCollector && count >= 10) || (a == Ornithologist && count >= 20))
  {
    (if count >= 1 && FirstSpecies !in unlocked then [FirstSpecies] else [])
    + (if count >= 10 && CommonCollector !in unlocked then [CommonCollector] else [])
    + (if count >= 20 && Ornithologist !in unlocked then [Ornithologist] else [])
  }

  /** The photo achievements the `taken`-th photo qualifies for, unlocked before or not. */
  function Earned(taken: nat, photo: PhotoScore): set<Achievement>
  {
    (if taken == 1 then {FirstPhoto} else {}) + (if taken >= 100 then {PhotoMaster} else {})
    + (if IsActionShot(photo) then {ActionShot} else {}) + (if IsMultiBirdShot(photo) then {MultiSpeciesShot} else {})
  }

  /** The photo achievements not yet unlocked that the `taken`-th photo earns, in the order they are checked. */
  function PhotoUnlocks(unlocked: set<Achievement>, taken: nat, photo: PhotoScore): seq<Achievement>
  {
    (if taken == 1 && FirstPhoto !in unlocked then [FirstPhoto] else [])
    + (if taken >= 100 && PhotoMaster !in unlocked then [PhotoMaster] else [])
    + (if IsActionShot(photo) && ActionShot !in unlocked then [ActionShot] else [])
    + (if IsMultiBirdShot(photo) && MultiSpeciesShot !in unlocked then [MultiSpeciesShot] else [])
  }

  /** One photo announces each achievement it earns at most once, and exactly when it is new. */
  lemma PhotoUnlocksFacts(unlocked: set<Achievement>, taken: nat, photo: PhotoScore)
    ensures Distinct(PhotoUnlocks(unlocked, taken, photo))
    ensures forall a :: a in PhotoUnlocks(unlocked, taken, photo) <==> a in Earned(taken, photo) && a !in unlocked
  {
  }

  /** Some photo of the run earns the achievement. */
  predicate EarnedInRun(a: Achievement, taken: nat, photos: seq<PhotoScore>)
  {
    exists k :: 0 <= k < |photos| && a in Earned(taken + k + 1, photos[k])
  }

  /** One more photo earns what the run before it earned and what the photo itself earns. */
  lemma EarnedInRunStep(taken: nat, photos: seq<PhotoScore>, i: nat)
    requires i < |photos|
    ensures forall a :: EarnedInRun(a, taken, photos[..i + 1]) <==>
      EarnedInRun(a, taken, photos[..i]) || a in Earned(taken + i + 1, photos[i])
  {
    assert forall k :: 0 <= k <= i ==> photos[..i + 1][k] == photos[k];
    assert forall k :: 0 <= k < i ==> photos[..i][k] == photos[k];
  }

  /** A run of photos earns only photo achievements. */
  lemma EarnedInRunOnlyPhotos(taken: nat, photos: seq<PhotoScore>, a: Achievement)
    requires EarnedInRun(a, taken, photos)
    ensures a in {FirstPhoto, PhotoMaster, ActionShot, MultiSpeciesShot}
  {
    var k :| 0 <= k < |photos| && a in Earned(taken + k + 1, photos[k]);
  }

  /** The first photo is earned only by a run that starts the count. */
  lemma EarnedFirstPhoto(taken: nat, photos: seq<PhotoScore>)
    ensures EarnedInRun(FirstPhoto, taken, photos) <==> taken == 0 && |photos| > 0
  {
    if |photos| > 0 && taken == 0 {
      assert FirstPhoto in Earned(taken + 0 + 1, photos[0]);
    }
  }

  /** Photo master is earned once the count reaches 100 during the run. */
  lemma EarnedPhotoMaster(taken: nat, photos: seq<PhotoScore>)
    ensures EarnedInRun(PhotoMaster, taken, photos) <==> taken + |photos| >= 100 && |photos| > 0
  {
    if |photos| > 0 && taken + |photos| >= 100 {
      assert PhotoMaster in Earned(taken + (|photos| - 1) + 1, photos[|photos| - 1]);
    }
  }

  /** The action-shot achievement is earned when some photo is an action shot. */
  lemma EarnedActionShot(taken: nat, photos: seq<PhotoScore>)
    ensures EarnedInRun(ActionShot, taken, photos) <==> ActionShots(photos) > 0
  {
    if ActionShots(photos) > 0 {
      var k :| 0 <= k < |photos| && IsActionShot(photos[k]);
      assert ActionShot in Earned(taken + k + 1, photos[k]);
    }
  }

  /** The multi-species achievement is earned when some photo shows several birds. */
  lemma EarnedMultiSpeciesShot(taken: nat, photos: seq<PhotoScore>)
    ensures EarnedInRun(MultiSpeciesShot, taken, photos) <==> MultiBirdShots(photos) > 0
  {
    if MultiBirdShots(photos) > 0 {
      var k :| 0 <= k < |photos| && IsMultiBirdShot(photos[k]);
      assert MultiSpeciesShot in Earned(taken + k + 1, photos[k]);
    }
  }

  /** The currency achievements not yet unlocked whose threshold the balance reaches. */
  function CurrencyUnlocks(unlocked: set<Achievement>, currency: nat): (r: seq<Achievement>)
    ensures Distinct(r)
    ensures forall a :: a in r <==>
      a !in unlocked && ((a == Wealthy && currency >= 1000) || (a == Millionaire && currency >= 10000))
  {
    (if currency >= 1000 && Wealthy !in unlocked then [Wealthy] else [])
    + (if currency >= 10000 && Millionaire !in unlocked then [Millionaire] else [])
  }

  /**
   * Once unlocked, a species achievement never fires again: a later check,
   * at any count, against the grown set announces none of the earlier ones.
   */
  lemma SpeciesUnlocksFireOnce(unlocked: set<Achievement>, count: nat, later: nat)
    ensures var first := SpeciesUnlocks(unlocked, count);
      forall a :: a in SpeciesUnlocks(unlocked + (set b | b in first), later) ==> a !in first && a !in unlocked
  {
  }

  /** A larger balance unlocks at least what a smaller one does. */
  lemma CurrencyUnlocksMonotone(unlocked: set<Achievement>, c1: nat, c2: nat)
    requires c1 <= c2
    ensures forall a :: a in CurrencyUnlocks(unlocked, c1) ==> a in CurrencyUnlocks(unlocked, c2)
  {
  }

  /** The total reward of a run of announcements. */
  function RewardSum(events: seq<Achievement>): (s: nat)
    ensures s >= 25 * |events|
  {
    if events == [] then 0 else RewardSum(events[..|events| - 1]) + CurrencyReward(events[|events| - 1])
  }

  /** The pop-up announcing an achievement and its reward. */
  function Announcement(a: Achievement): NotificationType
  {
    NotificationType.Achievement(Name(a), Description(a), CurrencyReward(a))
  }

  /**
   * achievement_notification_system: every announced achievement pays its
   * reward into the balance and raises one pop-up, in order.
   */
  method AchievementNotificationSystem(currency: nat, events: seq<Achievement>) returns (balance: nat, shown: seq<NotificationType>)
    ensures balance == currency + RewardSum(events)
    ensures balance >= currency + 25 * |events|
    ensures |shown| == |events|
    ensures forall k :: 0 <= k < |events| ==> shown[k] == Announcement(events[k])
    ensures forall k :: 0 <= k < |events| ==>
      shown[k].Achievement? && shown[k].currencyReward == CurrencyReward(events[k]) && shown[k].title == Name(events[k])
  {
    balance := currency;
    shown := [];
    for i := 0 to |events|
      invariant balance == currency + RewardSum(events[..i])
      invariant |shown| == i
      invariant forall k :: 0 <= k < i ==> shown[k] == Announcement(events[k])
    {
      assert events[..i + 1][..i] == events[..i];
      balance := balance + CurrencyReward(events[i]);
      shown := shown + [Announcement(events[i])];
    }
    assert events[..|events|] == events;
  }

  class AchievementProgress {
    var unlocked: set<Achievement>
    var photosTaken: nat
    var speciesDiscovered: nat
    var actionShotsTaken: nat
    var multiBirdShots: nat

    /** The derived starting state: nothing unlocked, every counter zero. */
    constructor ()
      ensures unlocked == {} && photosTaken == 0 && speciesDiscovered == 0
      ensures actionShotsTaken == 0 && multiBirdShots == 0
    {
      unlocked := {};
      photosTaken := 0;
      speciesDiscovered := 0;
      actionShotsTaken := 0;
      multiBirdShots := 0;
    }

    /** unlock: insert into the set, reporting whether it was new. */
    method Unlock(a: Achievement) returns (inserted: bool)
      modifies this
      ensures inserted <==> !old(IsUnlocked(a))
      ensures IsUnlocked(a) && unlocked == old(unlocked) + {a}
      ensures photosTaken == old(photosTaken) && speciesDiscovered == old(speciesDiscovered)
      ensures actionShotsTaken == old(actionShotsTaken) && multiBirdShots == old(multiBirdShots)
    {
      inserted := a !in unlocked;
      unlocked := unlocked + {a};
    }

    function IsUnlocked(a: Achievement): (b: bool)
      reads this
      ensures b <==> a in unlocked
    {
      a in unlocked
    }

    /**
     * photo_achievement_system: count every photo, and unlock (announcing
     * each once) the first photo, the hundredth, the first action shot and
     * the first shot of several birds.
     */
    method PhotoAchievementSystem(photos: seq<PhotoScore>) returns (emitted: seq<Achievement>)
      modifies this
      ensures photosTaken == old(photosTaken) + |photos|
      ensures actionShotsTaken == old(actionShotsTaken) + ActionShots(photos)
      ensures multiBirdShots == old(multiBirdShots) + MultiBirdShots(photos)
      ensures speciesDiscovered == old(speciesDiscovered)
      ensures Distinct(emitted)
      ensures forall a :: a in emitted <==> a !in old(unlocked) && EarnedInRun(a, old(photosTaken), photos)
      ensures forall a :: a in unlocked <==> a in old(unlocked) || a in emitted
    {
      ghost var u0, p0 := unlocked, photosTaken;
      emitted := [];
      for i := 0 to |photos|
        invariant photosTaken == p0 + i
        invariant actionShotsTaken == old(actionShotsTaken) + ActionShots(photos[..i])
        invariant multiBirdShots == old(multiBirdShots) + MultiBirdShots(photos[..i])
        invariant speciesDiscovered == old(speciesDiscovered)
        invariant Distinct(emitted)
        invariant forall a :: a in emitted <==> a !in u0 && EarnedInRun(a, p0, photos[..i])
        invariant forall a :: a in unlocked <==> a in u0 || a in emitted
      {
        assert photos[..i + 1][..i] == photos[..i];
        EarnedInRunStep(p0, photos, i);
        PhotoUnlocksFacts(unlocked, p0 + i + 1, photos[i]);
        var e := RecordPhoto(photos[i]);
        DistinctAppend(emitted, e);
        emitted := emitted + e;
      }
      assert photos[..|photos|] == photos;
    }

    /** One check of the photo system: when the condition holds, unlock the achievement and announce it if it is new. */
    method Award(a: Achievement, condition: bool) returns (e: seq<Achievement>)
      modifies this
      ensures e == (if condition && a !in old(unlocked) then [a] else [])
      ensures unlocked == (if condition then old(unlocked) + {a} else old(unlocked))
      ensures condition ==> IsUnlocked(a)
      ensures e != [] <==> condition && !old(IsUnlocked(a))
      ensures photosTaken == old(photosTaken) && speciesDiscovered == old(speciesDiscovered)
      ensures actionShotsTaken == old(actionShotsTaken) && multiBirdShots == old(multiBirdShots)
    {
      e := [];
      if condition && !IsUnlocked(a) {
        var _ := Unlock(a);
        e := [a];
      }
    }

    /** The body of the photo system's loop: one photo counted and judged. */
    method RecordPhoto(photo: PhotoScore) returns (e: seq<Achievement>)
      modifies this
      ensures photosTaken == old(photosTaken) + 1
      ensures actionShotsTaken == old(actionShotsTaken) + (if IsActionShot(photo) then 1 else 0)
      ensures multiBirdShots == old(multiBirdShots) + (if IsMultiBirdShot(photo) then 1 else 0)
      ensures speciesDiscovered == old(speciesDiscovered)
      ensures e == PhotoUnlocks(old(unlocked), old(photosTaken) + 1, photo)
      ensures unlocked == old(unlocked) + Earned(old(photosTaken) + 1, photo)
    {
      photosTaken := photosTaken + 1;
      var first := Award(FirstPhoto, photosTaken == 1);
      var master := Award(PhotoMaster, photosTaken >= 100);
      if IsActionShot(photo) {
        actionShotsTaken := actionShotsTaken + 1;
      }
      var action := Award(ActionShot, IsActionShot(photo));
      if IsMultiBirdShot(photo) {
        multiBirdShots := multiBirdShots + 1;
      }
      var multi := Award(MultiSpeciesShot, IsMultiBirdShot(photo));
      e := first + master + action + multi;
    }

    /**
     * species_achievement_system: when the discovered set changed, record its
     * size and unlock the collection achievements whose threshold it reaches.
     */
    method SpeciesAchievementSystem(changed: bool, speciesCount: nat) returns (emitted: seq<Achievement>)
      modifies this
      ensures !changed ==> emitted == [] && unlocked == old(unlocked) && speciesDiscovered == old(speciesDiscovered)
      ensures changed ==> speciesDiscovered == speciesCount && emitted == SpeciesUnlocks(old(unlocked), speciesCount)
      ensures forall a :: a in unlocked <==> a in old(unlocked) || a in emitted
      ensures photosTaken == old(photosTaken) && actionShotsTaken == old(actionShotsTaken) && multiBirdShots == old(multiBirdShots)
    {
      emitted := [];
      if changed {
        speciesDiscovered := speciesCount;
        var first := Award(FirstSpecies, speciesCount >= 1);
        var common := Award(CommonCollector, speciesCount >= 10);
        var expert := Award(Ornithologist, speciesCount >= 20);
        emitted := first + common + expert;
      }
    }

    /** currency_achievement_system: when the balance changed, unlock the wealth achievements it reaches. */
    method CurrencyAchievementSystem(changed: bool, currency: nat) returns (emitted: seq<Achievement>)
      modifies this
      ensures !changed ==> emitted == [] && unlocked == old(unlocked)
      ensures changed ==> emitted == CurrencyUnlocks(old(unlocked), currency)
      ensures forall a :: a in unlocked <==> a in old(unlocked) || a in emitted
      ensures photosTaken == old(photosTaken) && speciesDiscovered == old(speciesDiscovered)
      ensures actionShotsTaken == old(actionShotsTaken) && multiBirdShots == old(multiBirdShots)
    {
      emitted := [];
      if changed {
        var wealthy := Award(Wealthy, currency >= 1000);
        var millionaire := Award(Millionaire, currency >= 10000);
        emitted := wealthy + millionaire;
      }
    }
  }
}
