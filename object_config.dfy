/**
 * Data-driven smart object definitions: the catalog of definitions, its
 * lookups, the parsing of action and species names, and the effective
 * utility a definition offers under season, weather, crowding and distance.
 */
module ObjectConfig {
  import opened Wrappers
  import opened Numbers
  import opened Collections
  import opened BirdAiComponents
  import opened Species

  datatype Metadata = Metadata(
    name: string, description: string, category: string, price: nat,
    rarity: string, unlockLevel: nat, author: string, tags: seq<string>)

  datatype Behavior = Behavior(
    providesActions: seq<string>, baseUtility: real, interactionRange: real,
    maxSimultaneousUsers: nat, weatherResistance: real)

  datatype Attraction = Attraction(
    attractsSpecies: seq<string>, speciesPreferences: map<string, real>,
    seasonalAttraction: map<string, real>)

  /** The parts of a definition the modelled code reads; `size` is the sprite's (width, height). */
  datatype Definition = Definition(
    id: string, metadata: Metadata, size: (real, real), behavior: Behavior,
    attraction: Attraction, durability: real)

  datatype Catalog = Catalog(items: seq<Definition>)

  /** The first definition with the given id. */
  function GetDefinition(items: seq<Definition>, id: string): (r: Option<Definition>)
    ensures r.None? <==> forall k :: 0 <= k < |items| ==> items[k].id != id
    ensures r.Some? ==> exists k :: (0 <= k < |items| && items[k] == r.value && r.value.id == id
      && forall j :: 0 <= j < k ==> items[j].id != id)
  {
    if items == [] then None
    else if items[0].id == id then Some(items[0])
    else
      var r := GetDefinition(items[1..], id);
      assert forall k :: 1 <= k < |items| ==> items[1..][k - 1] == items[k];
      if r.Some? then
        var k :| 0 <= k < |items[1..]| && items[1..][k] == r.value && r.value.id == id
          && forall j :: 0 <= j < k ==> items[1..][j].id != id;
        assert items[k + 1] == r.value;
        r
      else r
  }

  function DefinitionsByCategory(c: Catalog, category: string): (r: seq<Definition>)
    ensures forall d :: d in r <==> d in c.items && d.metadata.category == category
  {
    Filter(c.items, (d: Definition) => d.metadata.category == category)
  }

  function UnlockedItems(c: Catalog, playerLevel: nat): (r: seq<Definition>)
    ensures forall d :: d in r <==> d in c.items && d.metadata.unlockLevel <= playerLevel
  {
    Filter(c.items, (d: Definition) => d.metadata.unlockLevel <= playerLevel)
  }

  /** Unlocking is monotone: raising the level never hides an item. */
  lemma UnlockedItemsMonotone(c: Catalog, lo: nat, hi: nat)
    requires lo <= hi
    ensures forall d :: d in UnlockedItems(c, lo) ==> d in UnlockedItems(c, hi)
  {
  }

  // ---- names ----

  /** The name each action is written as in definition files. */
  function ActionName(a: BirdAction): string
  {
    match a
    case Eat => "Eat"
    case Drink => "Drink"
    case Bathe => "Bathe"
    case Perch => "Perch"
    case Play => "Play"
    case Explore => "Explore"
    case Nest => "Nest"
    case Roost => "Roost"
    case Shelter => "Shelter"
    case Court => "Court"
    case Follow => "Follow"
    case Challenge => "Challenge"
    case Flock => "Flock"
    case Forage => "Forage"
    case Cache => "Cache"
    case Retrieve => "Retrieve"
    case HoverFeed => "HoverFeed"
  }

  function ParseBirdAction(s: string): (r: Option<BirdAction>)
    // parsing accepts exactly the action names, and inverts ActionName
    ensures r.Some? ==> ActionName(r.value) == s
    ensures forall a :: ActionName(a) == s ==> r == Some(a)
  {
    match s
    case "Eat" => Some(Eat)
    case "Drink" => Some(Drink)
    case "Bathe" => Some(Bathe)
    case "Perch" => Some(Perch)
    case "Play" => Some(Play)
    case "Explore" => Some(Explore)
    case "Nest" => Some(Nest)
    case "Roost" => Some(Roost)
    case "Shelter" => Some(Shelter)
    case "Court" => Some(Court)
    case "Follow" => Some(Follow)
    case "Challenge" => Some(Challenge)
    case "Flock" => Some(Flock)
    case "Forage" => Some(Forage)
    case "Cache" => Some(Cache)
    case "Retrieve" => Some(Retrieve)
    case "HoverFeed" => Some(HoverFeed)
    case _ => None
  }

  /** get_bird_actions: parse every name, dropping the unknown ones. */
  function BirdActions(names: seq<string>): (r: seq<BirdAction>)
    ensures |r| <= |names|
  {
    FilterMap(names, ParseBirdAction)
  }

  /** An action is parsed exactly when its name is among the names. */
  lemma BirdActionsMembers(names: seq<string>, a: BirdAction)
    ensures a in BirdActions(names) <==> ActionName(a) in names
  {
    FilterMapMembers(names, ParseBirdAction, a);
    if ActionName(a) in names {
      var k :| 0 <= k < |names| && names[k] == ActionName(a);
      assert ParseBirdAction(names[k]) == Some(a);
    }
  }

  /** Parsing keeps the order of the names: the actions of two lists are concatenated. */
  lemma BirdActionsAppend(s: seq<string>, t: seq<string>)
    ensures BirdActions(s + t) == BirdActions(s) + BirdActions(t)
  {
    FilterMapAppend(s, t, ParseBirdAction);
  }

  /** Written-out action names parse back to the same actions, one for one. */
  lemma BirdActionsOfNames(acts: seq<BirdAction>, names: seq<string>)
    requires |names| == |acts| && forall k :: 0 <= k < |acts| ==> names[k] == ActionName(acts[k])
    ensures BirdActions(names) == acts
  {
    forall k | 0 <= k < |acts|
      ensures ParseBirdAction(names[k]) == Some(acts[k])
    {
    }
    FilterMapAll(names, ParseBirdAction, acts);
  }

  /** The name a species is written as in definition files; the species files cannot name have none. */
  function SpeciesName(sp: BirdSpecies): Option<string>
  {
    match sp
    case Cardinal => Some("Cardinal")
    case BlueJay => Some("BlueJay")
    case Robin => Some("Robin")
    case Sparrow => Some("Sparrow")
    case Chickadee => Some("Chickadee")
    case RubyThroatedHummingbird => Some("RubyThroatedHummingbird")
    case DownyWoodpecker => Some("DownyWoodpecker")
    case HairyWoodpecker => Some("HairyWoodpecker")
    case WhiteBreastedNuthatch => Some("WhiteBreastedNuthatch")
    case BrownThrasher => Some("BrownThrasher")
    case ScarletTanager => Some("ScarletTanager")
    case BaltimoreOriole => Some("BaltimoreOriole")
    case NorthernMockingbird => Some("NorthernMockingbird")
    case _ => None
  }

  /** The species names definition files may use; any other name is dropped. */
  function ParseBirdSpecies(s: string): (r: Option<BirdSpecies>)
    ensures r.Some? ==> SpeciesName(r.value) == Some(s)
  {
    match s
    case "Cardinal" => Some(Cardinal)
    case "BlueJay" => Some(BlueJay)
    case "Robin" => Some(Robin)
    case "Sparrow" => Some(Sparrow)
    case "Chickadee" => Some(Chickadee)
    case "RubyThroatedHummingbird" => Some(RubyThroatedHummingbird)
    case "DownyWoodpecker" => Some(DownyWoodpecker)
    case "HairyWoodpecker" => Some(HairyWoodpecker)
    case "WhiteBreastedNuthatch" => Some(WhiteBreastedNuthatch)
    case "BrownThrasher" => Some(BrownThrasher)
    case "ScarletTanager" => Some(ScarletTanager)
    case "BaltimoreOriole" => Some(BaltimoreOriole)
    case "NorthernMockingbird" => Some(NorthernMockingbird)
    case _ => None
  }

  /** Parsing a name yields a species exactly when the name is that species' written name. */
  lemma ParseBirdSpeciesIff(s: string, sp: BirdSpecies)
    ensures ParseBirdSpecies(s) == Some(sp) <==> SpeciesName(sp) == Some(s)
  {
  }

  /** A written species name parses back to its species; a species without a name is never parsed. */
  lemma SpeciesNameRoundTrip(sp: BirdSpecies)
    ensures SpeciesName(sp).Some? ==> ParseBirdSpecies(SpeciesName(sp).value) == Some(sp)
    ensures SpeciesName(sp).None? ==> forall s :: ParseBirdSpecies(s) != Some(sp)
  {
  }

  /** get_attracted_species: parse every attracted-species name, dropping the unknown ones. */
  function AttractedSpecies(d: Definition): (r: seq<BirdSpecies>)
    ensures |r| <= |d.attraction.attractsSpecies|
  {
    FilterMap(d.attraction.attractsSpecies, ParseBirdSpecies)
  }

  /** A species is attracted exactly when its written name is among the attracted-species names. */
  lemma AttractedSpeciesMembers(d: Definition, sp: BirdSpecies)
    ensures sp in AttractedSpecies(d) <==> SpeciesName(sp).Some? && SpeciesName(sp).value in d.attraction.attractsSpecies
  {
    var names := d.attraction.attractsSpecies;
    FilterMapMembers(names, ParseBirdSpecies, sp);
    if sp in AttractedSpecies(d) {
      var k :| 0 <= k < |names| && ParseBirdSpecies(names[k]) == Some(sp);
      ParseBirdSpeciesIff(names[k], sp);
    }
    if SpeciesName(sp).Some? && SpeciesName(sp).value in names {
      var k :| 0 <= k < |names| && names[k] == SpeciesName(sp).value;
      ParseBirdSpeciesIff(names[k], sp);
    }
  }

  // ---- effective utility ----

  /** The season's multiplier, or no change when the definition names none for it. */
  function SeasonalMultiplier(d: Definition, season: string): (m: real)
    ensures season !in d.attraction.seasonalAttraction ==> m == 1.0
    ensures season in d.attraction.seasonalAttraction ==> m == d.attraction.seasonalAttraction[season]
  {
    if season in d.attraction.seasonalAttraction then d.attraction.seasonalAttraction[season] else 1.0
  }

  /** Crowding: 20% off per current user, never below 10%, and no penalty with no users. */
  function UserFactor(currentUsers: nat): (f: real)
    ensures currentUsers == 0 ==> f == 1.0
    ensures currentUsers > 0 ==> 0.1 <= f <= 0.8
    ensures currentUsers >= 5 ==> f == 0.1
  {
    if currentUsers > 0 then Max(1.0 - currentUsers as real * 0.2, 0.1) else 1.0
  }

  /**
   * Linear falloff to zero at the interaction range. A zero range yields 0:
   * the f32 division gives NaN or -inf there, which `max(0.0)` turns into 0.
   */
  function DistanceFactor(range: real, distance: real): (f: real)
    ensures f >= 0.0
    ensures range > 0.0 && distance >= range ==> f == 0.0
    ensures range > 0.0 && 0.0 <= distance <= range ==> f <= 1.0
  {
    if range == 0.0 then 0.0 else Max((range - distance) / range, 0.0)
  }

  /** Base utility after the seasonal multiplier and the weather penalty. */
  function WeatheredUtility(d: Definition, season: string, weatherIntensity: real): real
  {
    var weatherPenalty := (1.0 - d.behavior.weatherResistance) * weatherIntensity;
    d.behavior.baseUtility * SeasonalMultiplier(d, season) * (1.0 - weatherPenalty)
  }

  function EffectiveUtility(d: Definition, season: string, weatherIntensity: real, currentUsers: nat, distance: real): (u: real)
    ensures u >= 0.0
    ensures d.behavior.interactionRange > 0.0 && distance >= d.behavior.interactionRange ==> u == 0.0
  {
    Max(WeatheredUtility(d, season, weatherIntensity) * UserFactor(currentUsers)
        * DistanceFactor(d.behavior.interactionRange, distance), 0.0)
  }

  /** Crowding only ever lowers the factor. */
  lemma UserFactorDecreasing(users: nat)
    ensures UserFactor(users + 1) <= UserFactor(users)
  {
  }

  /** Scaling by a smaller factor never raises a clamped product. */
  lemma ClampedProductMonotone(x: real, df: real, f1: real, f0: real)
    requires 0.0 <= f1 <= f0
    ensures Max(x * f1 * df, 0.0) <= Max(x * f0 * df, 0.0)
  {
    var y := x * df;
    assert x * f1 * df == y * f1;
    assert x * f0 * df == y * f0;
    if y >= 0.0 {
      assert y * f0 - y * f1 == y * (f0 - f1);
      assert y * (f0 - f1) >= 0.0;
    } else {
      assert y * f1 == -((-y) * f1);
      assert (-y) * f1 >= 0.0;
    }
  }

  /** One more user never makes an object more attractive. */
  lemma EffectiveUtilityFallsWithUsers(d: Definition, season: string, weatherIntensity: real, users: nat, distance: real)
    ensures EffectiveUtility(d, season, weatherIntensity, users + 1, distance)
         <= EffectiveUtility(d, season, weatherIntensity, users, distance)
  {
    UserFactorDecreasing(users);
    ClampedProductMonotone(WeatheredUtility(d, season, weatherIntensity),
      DistanceFactor(d.behavior.interactionRange, distance), UserFactor(users + 1), UserFactor(users));
  }

  /** Species preference multiplier, 1.0 for species the definition does not mention. */
  function SpeciesPreference(d: Definition, species: string): (p: real)
    ensures species !in d.attraction.speciesPreferences ==> p == 1.0
    ensures species in d.attraction.speciesPreferences ==> p == d.attraction.speciesPreferences[species]
  {
    if species in d.attraction.speciesPreferences then d.attraction.speciesPreferences[species] else 1.0
  }

  function CanAccommodateUser(d: Definition, currentUsers: nat): (ok: bool)
    ensures ok <==> currentUsers < d.behavior.maxSimultaneousUsers
    ensures d.behavior.maxSimultaneousUsers == 0 ==> !ok
  {
    currentUsers < d.behavior.maxSimultaneousUsers
  }
}
