/**
 * The local mirror of the store's achievements and statistics: which
 * achievements are unlocked locally, which still await upload, and the
 * counters that are reported.
 */
module Steam {
  import opened Wrappers
  import opened Collections

  /** Each game achievement with the store's identifier for it. */
  function Mappings(): (ms: seq<(string, string)>)
    ensures |ms| == 11
  {
    [("FirstPhoto", "FIRST_SNAPSHOT"),
     ("PhotoMaster", "PHOTO_MASTER"),
     ("ActionShot", "ACTION_PHOTOGRAPHER"),
     ("MultiSpeciesShot", "FLOCK_PHOTOGRAPHER"),
     ("FirstSpecies", "FIRST_DISCOVERY"),
     ("CommonCollector", "COMMON_COLLECTOR"),
     ("Ornithologist", "ORNITHOLOGIST"),
     ("Wealthy", "WEALTHY_BIRDER"),
     ("Millionaire", "MILLIONAIRE_BIRDER"),
     ("FeederMaintainer", "FEEDER_MAINTAINER"),
     ("FeederExpert", "FEEDER_EXPERT")]
  }

  /** No local identifier and no Steam identifier is mapped twice. */
  lemma MappingsDistinct()
    ensures forall i, j :: 0 <= i < j < |Mappings()| ==>
      Mappings()[i].0 != Mappings()[j].0 && Mappings()[i].1 != Mappings()[j].1
  {
  }

  /** Whether the game registers an achievement under this local identifier. */
  predicate IsMapped(id: string)
  {
    exists k :: 0 <= k < |Mappings()| && Mappings()[k].0 == id
  }

  /** Set every listed identifier to locked, one insert each, keeping the other entries. */
  function ResetAll(m: map<string, bool>, ms: seq<(string, string)>): map<string, bool>
    decreases |ms|
  {
    if ms == [] then m else ResetAll(m[ms[0].0 := false], ms[1..])
  }

  /** After the resets the listed identifiers are present and locked, and every other entry is as it was. */
  lemma {:induction false} ResetAllFacts(m: map<string, bool>, ms: seq<(string, string)>, id: string)
    ensures var listed := exists k :: 0 <= k < |ms| && ms[k].0 == id;
      (id in ResetAll(m, ms) <==> id in m || listed)
      && (listed ==> !ResetAll(m, ms)[id])
      && (id in m && !listed ==> ResetAll(m, ms)[id] == m[id])
    decreases |ms|
  {
    if ms != [] {
      ResetAllFacts(m[ms[0].0 := false], ms[1..], id);
      assert forall k :: 1 <= k < |ms| ==> ms[1..][k - 1] == ms[k];
    }
  }

  /** The map after registration: every mapped identifier reset to locked. */
  function Registered(m: map<string, bool>): map<string, bool>
  {
    ResetAll(m, Mappings())
  }

  /** Registration adds exactly the mapped identifiers, all locked, and leaves the other entries alone. */
  lemma RegisteredResetsMapped(m: map<string, bool>, id: string)
    ensures id in Registered(m) <==> id in m || IsMapped(id)
    ensures IsMapped(id) ==> !Registered(m)[id]
    ensures id in m && !IsMapped(id) ==> Registered(m)[id] == m[id]
  {
    ResetAllFacts(m, Mappings(), id);
  }

  /** Registering twice is registering once. */
  lemma RegisteredIdempotent(m: map<string, bool>)
    ensures Registered(Registered(m)) == Registered(m)
  {
    var once := Registered(m);
    var twice := Registered(once);
    forall id | true
      ensures (id in twice <==> id in once) && (id in once ==> twice[id] == once[id])
    {
      RegisteredTwiceAt(m, id);
    }
    assert twice.Keys == once.Keys;
  }

  /** Registering twice is registering once, for one identifier. */
  lemma RegisteredTwiceAt(m: map<string, bool>, id: string)
    ensures (id in Registered(Registered(m)) <==> id in Registered(m))
      && (id in Registered(m) ==> Registered(Registered(m))[id] == Registered(m)[id])
  {
    RegisteredResetsMapped(m, id);
    RegisteredResetsMapped(Registered(m), id);
  }

  class SteamAchievements {
    var localAchievements: map<string, bool>
    var steamAchievements: map<string, bool>
    var syncPending: seq<string>

    /** Every identifier awaiting upload is unlocked locally and waits once. */
    ghost predicate Valid()
      reads this
    {
      Distinct(syncPending)
      && forall k :: 0 <= k < |syncPending| ==> syncPending[k] in localAchievements && localAchievements[syncPending[k]]
    }

    /** The derived starting state: nothing registered, nothing waiting. */
    constructor ()
      ensures Valid()
      ensures localAchievements == map[] && steamAchievements == map[] && syncPending == []
    {
      localAchievements := map[];
      steamAchievements := map[];
      syncPending := [];
    }

    /** register_achievement_mapping: insert every mapped identifier as locked in both maps. */
    method RegisterAchievementMapping()
      modifies this
      ensures localAchievements == Registered(old(localAchievements))
      ensures steamAchievements == Registered(old(steamAchievements))
      ensures syncPending == old(syncPending)
    {
      RegisterAll(Mappings());
    }

    /** The registration loop over a list of identifier pairs. */
    method RegisterAll(mappings: seq<(string, string)>)
      modifies this
      ensures localAchievements == ResetAll(old(localAchievements), mappings)
      ensures steamAchievements == ResetAll(old(steamAchievements), mappings)
      ensures syncPending == old(syncPending)
    {
      for i := 0 to |mappings|
        invariant ResetAll(localAchievements, mappings[i..]) == ResetAll(old(localAchievements), mappings)
        invariant ResetAll(steamAchievements, mappings[i..]) == ResetAll(old(steamAchievements), mappings)
        invariant syncPending == old(syncPending)
      {
        assert mappings[i..][1..] == mappings[i + 1..];
        var (localId, _) := mappings[i];
        localAchievements := localAchievements[localId := false];
        steamAchievements := steamAchievements[localId := false];
      }
    }

    /**
     * unlock_achievement: a registered, still locked achievement becomes
     * unlocked and is queued for upload once; anything else changes nothing.
     */
    method UnlockAchievement(id: string)
      requires Valid()
      modifies this
      ensures Valid()
      ensures id in old(localAchievements) && !old(localAchievements)[id] ==>
        localAchievements == old(localAchievements)[id := true] && syncPending == old(syncPending) + [id]
      ensures !(id in old(localAchievements) && !old(localAchievements)[id]) ==>
        localAchievements == old(localAchievements) && syncPending == old(syncPending)
      ensures steamAchievements == old(steamAchievements)
    {
      if id in localAchievements {
        if !localAchievements[id] {
          localAchievements := localAchievements[id := true];
          syncPending := syncPending + [id];
        }
      }
    }
  }

  /** The statistics reported to the store. */
  datatype StatName = PhotosTaken | SpeciesDiscovered | FeedersUpgraded | CurrencyEarned

  /** The statistic a name selects, if the name is one of the four. */
  function ParseStatName(name: string): (r: Option<StatName>)
    ensures r == Some(PhotosTaken) <==> name == "photos_taken"
    ensures r == Some(SpeciesDiscovered) <==> name == "species_discovered"
    ensures r == Some(FeedersUpgraded) <==> name == "feeders_upgraded"
    ensures r == Some(CurrencyEarned) <==> name == "currency_earned"
  {
    if name == "photos_taken" then Some(PhotosTaken)
    else if name == "species_discovered" then Some(SpeciesDiscovered)
    else if name == "feeders_upgraded" then Some(FeedersUpgraded)
    else if name == "currency_earned" then Some(CurrencyEarned)
    else None
  }

  class SteamStats {
    var photosTaken: nat
    var speciesDiscovered: nat
    var totalPlaytime: real
    var feedersUpgraded: nat
    var currencyEarned: nat

    constructor ()
      ensures photosTaken == 0 && speciesDiscovered == 0 && totalPlaytime == 0.0
      ensures feedersUpgraded == 0 && currencyEarned == 0
    {
      photosTaken := 0;
      speciesDiscovered := 0;
      totalPlaytime := 0.0;
      feedersUpgraded := 0;
      currencyEarned := 0;
    }

    function Get(s: StatName): nat
      reads this
    {
      match s
      case PhotosTaken => photosTaken
      case SpeciesDiscovered => speciesDiscovered
      case FeedersUpgraded => feedersUpgraded
      case CurrencyEarned => currencyEarned
    }

    /** update_stat: the named statistic takes the value; an unknown name changes nothing. */
    method UpdateStat(name: string, value: nat)
      modifies this
      ensures ParseStatName(name).Some? ==> Get(ParseStatName(name).value) == value
      ensures forall s :: Some(s) != ParseStatName(name) ==> Get(s) == old(Get(s))
      ensures totalPlaytime == old(totalPlaytime)
    {
      match ParseStatName(name) {
        case Some(PhotosTaken) => photosTaken := value;
        case Some(SpeciesDiscovered) => speciesDiscovered := value;
        case Some(FeedersUpgraded) => feedersUpgraded := value;
        case Some(CurrencyEarned) => currencyEarned := value;
        case None =>
      }
    }

    /** increment_stat: the named statistic grows by the amount; an unknown name changes nothing. */
    method IncrementStat(name: string, amount: nat)
      modifies this
      ensures ParseStatName(name).Some? ==> Get(ParseStatName(name).value) == old(Get(ParseStatName(name).value)) + amount
      ensures forall s :: Some(s) != ParseStatName(name) ==> Get(s) == old(Get(s))
      ensures totalPlaytime == old(totalPlaytime)
    {
      match ParseStatName(name) {
        case Some(PhotosTaken) => photosTaken := photosTaken + amount;
        case Some(SpeciesDiscovered) => speciesDiscovered := speciesDiscovered + amount;
        case Some(FeedersUpgraded) => feedersUpgraded := feedersUpgraded + amount;
        case Some(CurrencyEarned) => currencyEarned := currencyEarned + amount;
        case None =>
      }
    }
  }
}
