/**
 * Smart objects: the perch, shelter and water tables, the per-action decay
 * and duration tables, and the systems that keep perch occupants, shelter
 * occupant lists, water levels and seasonal appeal up to date.
 */
module SmartObjects {
  import opened Wrappers
  import opened Species
  import opened Numbers
  import opened Collections
  import opened BirdAiComponents
  import opened EnvironmentComponents

  // ---- tables ----

  datatype PerchType = Branch | Post | Wire | Roof | Rock

  function PerchBaseUtility(p: PerchType): (u: real)
    ensures 0.4 <= u <= 0.8
    ensures u == 0.8 <==> p == Branch
  {
    match p
    case Branch => 0.8
    case Post => 0.6
    case Wire => 0.4
    case Roof => 0.5
    case Rock => 0.7
  }

  datatype ShelterType = BushCluster | TreeCanopy | BirdHouse | RockCrevice | Undergrowth

  function ShelterBaseCapacity(t: ShelterType): (c: nat)
    ensures 2 <= c <= 8
  {
    match t
    case BushCluster => 4
    case TreeCanopy => 8
    case BirdHouse => 2
    case RockCrevice => 3
    case Undergrowth => 6
  }

  function ShelterWeatherProtection(t: ShelterType): (p: real)
    ensures 0.6 <= p <= 0.95
    ensures p == 0.95 <==> t == BirdHouse
  {
    match t
    case BushCluster => 0.7
    case TreeCanopy => 0.9
    case BirdHouse => 0.95
    case RockCrevice => 0.8
    case Undergrowth => 0.6
  }

  datatype WaterType = BirdBath | Fountain | Pond | Creek | DrippingTap

  function WaterBaseUtility(w: WaterType): (u: real)
    ensures 0.6 <= u <= 0.9
  {
    match w
    case BirdBath => 0.9
    case Fountain => 0.8
    case Pond => 0.7
    case Creek => 0.85
    case DrippingTap => 0.6
  }

  function WaterProvidesActions(w: WaterType): (acts: seq<BirdAction>)
    // every water feature offers drinking first; only the deep or dripping ones offer no bath
    ensures |acts| >= 1 && acts[0] == Drink
    ensures Bathe in acts <==> w !in {Pond, DrippingTap}
    ensures forall a :: a in acts ==> a in {Drink, Bathe}
  {
    match w
    case BirdBath => [Drink, Bathe]
    case Fountain => [Drink, Bathe]
    case Pond => [Drink]
    case Creek => [Drink, Bathe]
    case DrippingTap => [Drink]
  }

  function UtilityDecayRate(a: BirdAction): (r: real)
    ensures 0.0 < r <= 0.12
    ensures r == 0.12 <==> a == Challenge
    ensures r == 0.01 <==> a == Nest
  {
    match a
    case Eat => 0.1
    case Drink => 0.08
    case Bathe => 0.05
    case Perch => 0.02
    case Play => 0.03
    case Explore => 0.04
    case Nest => 0.01
    case Roost => 0.015
    case Shelter => 0.08
    case Court => 0.06
    case Follow => 0.05
    case Challenge => 0.12
    case Flock => 0.03
    case Forage => 0.08
    case Cache => 0.04
    case Retrieve => 0.06
    case HoverFeed => 0.1
  }

  /** Minimum and maximum seconds an action lasts. */
  function DurationRange(a: BirdAction): (r: (real, real))
    ensures 0.0 < r.0 < r.1
    ensures 2.0 <= r.0 && r.1 <= 180.0
  {
    match a
    case Eat => (3.0, 8.0)
    case Drink => (2.0, 5.0)
    case Bathe => (8.0, 15.0)
    case Perch => (10.0, 30.0)
    case Play => (5.0, 12.0)
    case Explore => (4.0, 10.0)
    case Nest => (15.0, 45.0)
    case Roost => (30.0, 90.0)
    case Shelter => (60.0, 180.0)
    case Court => (10.0, 25.0)
    case Follow => (5.0, 20.0)
    case Challenge => (3.0, 15.0)
    case Flock => (20.0, 60.0)
    case Forage => (15.0, 45.0)
    case Cache => (5.0, 12.0)
    case Retrieve => (3.0, 8.0)
    case HoverFeed => (8.0, 20.0)
  }

  // ---- what an object sees of the birds around it ----

  /** A bird as seen from one object: its entity, its state and its distance to the object. */
  datatype BirdSighting = BirdSighting(bird: Entity, state: BirdState, distance: real)

  /** A bird counts as on a perch when it rests closer than 30 units. */
  predicate OnPerch(b: BirdSighting)
  {
    b.state == Resting && b.distance < 30.0
  }

  /** The first bird in query order that is on the perch. */
  function FirstPercher(birds: seq<BirdSighting>): (r: Option<Entity>)
    ensures r.None? <==> forall k :: 0 <= k < |birds| ==> !OnPerch(birds[k])
    ensures r.Some? ==> exists k :: (0 <= k < |birds| && OnPerch(birds[k]) && birds[k].bird == r.value
      && forall j :: 0 <= j < k ==> !OnPerch(birds[j]))
  {
    if birds == [] then None
    else if OnPerch(birds[0]) then Some(birds[0].bird)
    else
      var r := FirstPercher(birds[1..]);
      assert forall k :: 1 <= k < |birds| ==> birds[1..][k - 1] == birds[k];
      if r.Some? then
        var k :| 0 <= k < |birds[1..]| && OnPerch(birds[1..][k]) && birds[1..][k].bird == r.value
          && forall j :: 0 <= j < k ==> !OnPerch(birds[1..][j]);
        assert OnPerch(birds[k + 1]) && birds[k + 1].bird == r.value;
        r
      else r
  }

  /** Birds look for shelter when fleeing or resting, or when the weather keeps them inactive. */
  predicate SeekingShelter(b: BirdSighting, w: Weather)
  {
    b.state in {Fleeing, Resting} || BirdActivityModifier(w) < 0.6
  }

  predicate CanShelter(b: BirdSighting, w: Weather)
  {
    SeekingShelter(b, w) && b.distance < 80.0
  }

  /** Number of sighted birds that could shelter here. */
  function CountSheltering(birds: seq<BirdSighting>, w: Weather): nat
  {
    if birds == [] then 0
    else CountSheltering(birds[..|birds| - 1], w) + (if CanShelter(birds[|birds| - 1], w) then 1 else 0)
  }

  /** The occupant list one shelter pass builds: seekers within reach, in query order, until full. */
  function Admitted(birds: seq<BirdSighting>, w: Weather, capacity: nat): (r: seq<Entity>)
    ensures |r| <= capacity
    ensures |r| <= |birds|
  {
    if birds == [] then []
    else
      var n := |birds| - 1;
      var acc := Admitted(birds[..n], w, capacity);
      if CanShelter(birds[n], w) && |acc| < capacity then acc + [birds[n].bird] else acc
  }

  /** Looking at one more bird admits it exactly when it can shelter and there is room. */
  lemma AdmittedStep(birds: seq<BirdSighting>, w: Weather, capacity: nat, i: nat)
    requires i < |birds|
    ensures var acc := Admitted(birds[..i], w, capacity);
      Admitted(birds[..i + 1], w, capacity)
        == if CanShelter(birds[i], w) && |acc| < capacity then acc + [birds[i].bird] else acc
  {
    assert birds[..i + 1][..i] == birds[..i];
  }

  /**
   * A shelter takes in every eligible bird until it is full: its occupant
   * count is the smaller of its capacity and the number of eligible birds,
   * and every occupant is a bird that could shelter.
   */
  lemma {:induction false} AdmittedIsCappedEligible(birds: seq<BirdSighting>, w: Weather, capacity: nat)
    ensures |Admitted(birds, w, capacity)| == if capacity <= CountSheltering(birds, w) then capacity else CountSheltering(birds, w)
    ensures forall x :: x in Admitted(birds, w, capacity) ==>
      exists k :: 0 <= k < |birds| && CanShelter(birds[k], w) && birds[k].bird == x
  {
    if birds != [] {
      var n := |birds| - 1;
      AdmittedIsCappedEligible(birds[..n], w, capacity);
      assert forall k :: 0 <= k < n ==> birds[..n][k] == birds[k];
    }
  }

  // ---- the objects the systems update ----

  class PerchingSpot {
    const perchType: PerchType
    var comfortLevel: real
    var occupant: Option<Entity>

    constructor (perchType: PerchType)
      ensures this.perchType == perchType && comfortLevel == PerchBaseUtility(perchType) && occupant == None
    {
      this.perchType := perchType;
      comfortLevel := PerchBaseUtility(perchType);
      occupant := None;
    }

    /** perch_interaction_system for one perch: scan the birds, stop at the first one on the perch. */
    method UpdateOccupant(birds: seq<BirdSighting>)
      modifies this
      ensures occupant == FirstPercher(birds)
      ensures comfortLevel == old(comfortLevel)
    {
      var current: Option<Entity> := None;
      var i := 0;
      while i < |birds|
        invariant 0 <= i <= |birds|
        invariant forall j :: 0 <= j < i ==> !OnPerch(birds[j])
        invariant current == None
      {
        if birds[i].state == Resting {
          if birds[i].distance < 30.0 {
            current := Some(birds[i].bird);
            break;
          }
        }
        i := i + 1;
      }
      occupant := current;
      assert current.Some? ==> OnPerch(birds[i]) && current.value == birds[i].bird;
      PercherIsFirst(birds, i);
    }

    /** seasonal_object_system for one perch: the season's comfort replaces the old value. */
    method ApplySeason(season: Season)
      modifies this
      ensures comfortLevel == SeasonalComfort(season, perchType)
      ensures occupant == old(occupant)
    {
      comfortLevel := SeasonalComfort(season, perchType);
    }
  }

  /** FirstPercher picks the bird at index i when i is the first bird on the perch. */
  lemma PercherIsFirst(birds: seq<BirdSighting>, i: int)
    requires 0 <= i <= |birds|
    requires forall j :: 0 <= j < i ==> !OnPerch(birds[j])
    ensures i < |birds| && OnPerch(birds[i]) ==> FirstPercher(birds) == Some(birds[i].bird)
    ensures i == |birds| ==> FirstPercher(birds) == None
  {
    if i < |birds| && OnPerch(birds[i]) {
      var r := FirstPercher(birds);
      var k :| 0 <= k < |birds| && OnPerch(birds[k]) && birds[k].bird == r.value
        && forall j :: 0 <= j < k ==> !OnPerch(birds[j]);
      assert k == i;
    }
  }

  /** Comfort of a perch in a season: cold wires and hot rocks lose appeal, spring lifts all. */
  function SeasonalComfort(season: Season, p: PerchType): (c: real)
    ensures 0.3 <= c <= 0.9
    ensures season == Spring ==> c == 0.9
    ensures season == Fall ==> c == PerchBaseUtility(p)
    ensures season == Winter && p == Wire ==> c < PerchBaseUtility(p)
  {
    match (season, p)
    case (Winter, Wire) => 0.3
    case (Winter, Branch) => 0.9
    case (Summer, Rock) => 0.5
    case (Spring, _) => 0.9
    case _ => PerchBaseUtility(p)
  }

  function ShelterSeasonModifier(season: Season): (m: real)
    ensures 0.8 <= m <= 1.3
    ensures m > 1.0 <==> season in {Winter, Fall}
  {
    match season
    case Winter => 1.3
    case Fall => 1.2
    case Summer => 0.8
    case Spring => 1.0
  }

  /** The seasonal protection of a shelter; in winter the better shelters rise above 1. */
  lemma SeasonalProtectionRange(t: ShelterType, season: Season)
    ensures 0.48 <= ShelterWeatherProtection(t) * ShelterSeasonModifier(season) <= 1.235
    ensures season == Winter && t == BirdHouse ==> ShelterWeatherProtection(t) * ShelterSeasonModifier(season) > 1.0
  {
  }

  class Shelter {
    const shelterType: ShelterType
    const capacity: nat
    var occupants: seq<Entity>
    var weatherProtection: real

    constructor (shelterType: ShelterType)
      ensures this.shelterType == shelterType && capacity == ShelterBaseCapacity(shelterType)
      ensures occupants == [] && weatherProtection == ShelterWeatherProtection(shelterType)
    {
      this.shelterType := shelterType;
      capacity := ShelterBaseCapacity(shelterType);
      occupants := [];
      weatherProtection := ShelterWeatherProtection(shelterType);
    }

    /** shelter_usage_system for one shelter: clear the list, then admit seekers within 80 units while room remains. */
    method UpdateOccupants(birds: seq<BirdSighting>, w: Weather)
      modifies this
      ensures occupants == Admitted(birds, w, capacity)
      ensures |occupants| <= capacity
      ensures weatherProtection == old(weatherProtection)
    {
      occupants := [];
      var i := 0;
      while i < |birds|
        invariant 0 <= i <= |birds|
        invariant occupants == Admitted(birds[..i], w, capacity)
        invariant weatherProtection == old(weatherProtection)
      {
        AdmittedStep(birds, w, capacity, i);
        var b := birds[i];
        var seeking := b.state == Fleeing || b.state == Resting || BirdActivityModifier(w) < 0.6;
        if seeking {
          if b.distance < 80.0 && |occupants| < capacity {
            occupants := occupants + [b.bird];
          }
        }
        i := i + 1;
      }
      assert birds[..|birds|] == birds;
    }

    /** seasonal_object_system for one shelter: protection is recomputed from the table, never accumulated. */
    method ApplySeason(season: Season)
      modifies this
      ensures weatherProtection == ShelterWeatherProtection(shelterType) * ShelterSeasonModifier(season)
      ensures occupants == old(occupants)
    {
      weatherProtection := ShelterWeatherProtection(shelterType) * ShelterSeasonModifier(season);
    }
  }

  class WaterFeature {
    const waterType: WaterType
    var waterLevel: real
    var cleanliness: real
    var temperature: real

    constructor (waterType: WaterType, waterLevel: real, cleanliness: real, temperature: real)
      ensures this.waterType == waterType && this.waterLevel == waterLevel
      ensures this.cleanliness == cleanliness && this.temperature == temperature
    {
      this.waterType := waterType;
      this.waterLevel := waterLevel;
      this.cleanliness := cleanliness;
      this.temperature := temperature;
    }

    /** water_feature_system for one feature: rain fills and cleans, clear skies evaporate, temperature drifts to 15. */
    method WeatherTick(w: Weather, dt: real)
      requires dt >= 0.0
      modifies this
      ensures w == Rainy ==>
        waterLevel == Min(old(waterLevel) + 0.1 * dt, 1.0) && cleanliness == Min(old(cleanliness) + 0.05 * dt, 1.0)
      ensures w == Clear ==> waterLevel == Max(old(waterLevel) - 0.02 * dt, 0.2) && cleanliness == old(cleanliness)
      ensures w !in {Rainy, Clear} ==> waterLevel == old(waterLevel) && cleanliness == old(cleanliness)
      ensures temperature == 15.0 + (old(temperature) - 15.0) * 0.95
      // rain never overfills; clear weather never drains below 0.2
      ensures w == Rainy ==> waterLevel <= 1.0 && cleanliness <= 1.0
      ensures w == Clear ==> waterLevel >= 0.2
      // the temperature moves toward 15 without overshooting
      ensures old(temperature) >= 15.0 ==> 15.0 <= temperature <= old(temperature)
      ensures old(temperature) <= 15.0 ==> old(temperature) <= temperature <= 15.0
      ensures waterLevel == LevelAfterWeather(old(waterLevel), w, dt)
      ensures cleanliness == CleanlinessAfterWeather(old(cleanliness), w, dt)
    {
      if w == Rainy {
        waterLevel := Min(waterLevel + 0.1 * dt, 1.0);
        cleanliness := Min(cleanliness + 0.05 * dt, 1.0);
      } else if w == Clear {
        waterLevel := Max(waterLevel - 0.02 * dt, 0.2);
      }
      temperature := 15.0 + (temperature - 15.0) * 0.95;
    }

    /** seasonal_object_system for one feature. */
    method ApplySeason(season: Season)
      modifies this
      ensures temperature == SeasonalWaterTemperature(season)
      ensures waterLevel == SeasonalWaterLevel(season, waterType, old(waterLevel))
      ensures cleanliness == old(cleanliness)
    {
      match season {
        case Winter =>
          temperature := 5.0;
          if waterType == Pond || waterType == Creek {
            waterLevel := waterLevel * 0.8;
          }
        case Summer =>
          temperature := 25.0;
        case Spring =>
          temperature := 15.0;
          waterLevel := 1.0;
        case Fall =>
          temperature := 10.0;
          waterLevel := 0.9;
      }
    }
  }

  /** The water level after one weather tick: rain fills up to 1, clear skies evaporate down to 0.2. */
  function LevelAfterWeather(level: real, w: Weather, dt: real): (r: real)
    requires dt >= 0.0
    ensures w == Rainy ==> r <= 1.0 && Min(level, 1.0) <= r
    ensures w == Clear ==> 0.2 <= r <= Max(level, 0.2)
    ensures w !in {Rainy, Clear} ==> r == level
  {
    match w
    case Rainy => Min(level + 0.1 * dt, 1.0)
    case Clear => Max(level - 0.02 * dt, 0.2)
    case _ => level
  }

  /** The cleanliness after one weather tick: only rain washes a feature, never above 1. */
  function CleanlinessAfterWeather(c: real, w: Weather, dt: real): (r: real)
    requires dt >= 0.0
    ensures w == Rainy ==> r <= 1.0 && Min(c, 1.0) <= r
    ensures w != Rainy ==> r == c
  {
    if w == Rainy then Min(c + 0.05 * dt, 1.0) else c
  }

  /** The water level a season sets: spring and fall refill, winter freezes a fifth of a pond or creek. */
  function SeasonalWaterLevel(season: Season, t: WaterType, level: real): (r: real)
    ensures season == Spring ==> r == 1.0
    ensures season == Fall ==> r == 0.9
    ensures season == Summer ==> r == level
    ensures season == Winter && t in {Pond, Creek} && level >= 0.0 ==> r <= level
    ensures season == Winter && t !in {Pond, Creek} ==> r == level
  {
    match season
    case Winter => if t in {Pond, Creek} then level * 0.8 else level
    case Summer => level
    case Spring => 1.0
    case Fall => 0.9
  }

  function SeasonalWaterTemperature(season: Season): (t: real)
    ensures 5.0 <= t <= 25.0
    ensures t == 5.0 <==> season == Winter
    ensures t == 25.0 <==> season == Summer
  {
    match season
    case Winter => 5.0
    case Summer => 25.0
    case Spring => 15.0
    case Fall => 10.0
  }

  // ---- the systems over every object ----

  /** perch_interaction_system: `birds[i]` is the query's view of the birds from perch i. */
  method PerchInteractionSystem(perches: seq<PerchingSpot>, birds: seq<seq<BirdSighting>>)
    requires Distinct(perches) && |birds| == |perches|
    modifies set p | p in perches
    ensures forall i :: 0 <= i < |perches| ==> perches[i].occupant == FirstPercher(birds[i])
    ensures forall p :: p in perches ==> p.comfortLevel == old(p.comfortLevel)
  {
    var i := 0;
    while i < |perches|
      invariant 0 <= i <= |perches|
      invariant forall j :: 0 <= j < i ==> perches[j].occupant == FirstPercher(birds[j])
      invariant forall p :: p in perches ==> p.comfortLevel == old(p.comfortLevel)
    {
      perches[i].UpdateOccupant(birds[i]);
      i := i + 1;
    }
  }

  /** shelter_usage_system: `birds[i]` is the query's view of the birds from shelter i. */
  method ShelterUsageSystem(shelters: seq<Shelter>, birds: seq<seq<BirdSighting>>, w: Weather)
    requires Distinct(shelters) && |birds| == |shelters|
    modifies set s | s in shelters
    ensures forall i :: 0 <= i < |shelters| ==>
      shelters[i].occupants == Admitted(birds[i], w, shelters[i].capacity)
      && |shelters[i].occupants| <= shelters[i].capacity
    ensures forall s :: s in shelters ==> s.weatherProtection == old(s.weatherProtection)
  {
    var i := 0;
    while i < |shelters|
      invariant 0 <= i <= |shelters|
      invariant forall j :: 0 <= j < i ==>
        shelters[j].occupants == Admitted(birds[j], w, shelters[j].capacity)
        && |shelters[j].occupants| <= shelters[j].capacity
      invariant forall s :: s in shelters ==> s.weatherProtection == old(s.weatherProtection)
    {
      shelters[i].UpdateOccupants(birds[i], w);
      i := i + 1;
    }
  }

  /** water_feature_system over every water feature: each one takes its own weather tick. */
  method WaterFeatureSystem(waters: seq<WaterFeature>, w: Weather, dt: real)
    requires Distinct(waters) && dt >= 0.0
    modifies set f | f in waters
    ensures forall f :: f in waters ==> f.temperature == 15.0 + (old(f.temperature) - 15.0) * 0.95
    ensures forall f :: f in waters ==> f.waterLevel == LevelAfterWeather(old(f.waterLevel), w, dt)
    ensures forall f :: f in waters ==> f.cleanliness == CleanlinessAfterWeather(old(f.cleanliness), w, dt)
    ensures w == Rainy ==> forall f :: f in waters ==> f.waterLevel <= 1.0 && f.cleanliness <= 1.0
    ensures w == Clear ==> forall f :: f in waters ==> f.waterLevel >= 0.2
  {
    var i := 0;
    while i < |waters|
      invariant 0 <= i <= |waters|
      invariant forall j :: 0 <= j < i ==> waters[j].temperature == 15.0 + (old(waters[j].temperature) - 15.0) * 0.95
      invariant forall j :: 0 <= j < i ==> waters[j].waterLevel == LevelAfterWeather(old(waters[j].waterLevel), w, dt)
      invariant forall j :: 0 <= j < i ==> waters[j].cleanliness == CleanlinessAfterWeather(old(waters[j].cleanliness), w, dt)
      invariant forall j :: i <= j < |waters| ==>
        waters[j].temperature == old(waters[j].temperature) && waters[j].waterLevel == old(waters[j].waterLevel)
        && waters[j].cleanliness == old(waters[j].cleanliness)
    {
      waters[i].WeatherTick(w, dt);
      i := i + 1;
    }
  }

  /** seasonal_object_system: every perch, shelter and water feature takes the season's values. */
  method SeasonalObjectSystem(season: Season, perches: seq<PerchingSpot>, shelters: seq<Shelter>, waters: seq<WaterFeature>)
    requires Distinct(waters)
    modifies set p | p in perches, set s | s in shelters, set f | f in waters
    ensures forall p :: p in perches ==> p.comfortLevel == SeasonalComfort(season, p.perchType)
    ensures forall p :: p in perches ==> p.occupant == old(p.occupant)
    ensures forall s :: s in shelters ==>
      s.weatherProtection == ShelterWeatherProtection(s.shelterType) * ShelterSeasonModifier(season)
    ensures forall s :: s in shelters ==> s.occupants == old(s.occupants)
    ensures forall f :: f in waters ==> f.temperature == SeasonalWaterTemperature(season)
    ensures forall f :: f in waters ==> f.cleanliness == old(f.cleanliness)
    ensures forall f :: f in waters ==> f.waterLevel == SeasonalWaterLevel(season, f.waterType, old(f.waterLevel))
  {
    SeasonPerches(season, perches);
    SeasonShelters(season, shelters);
    SeasonWaters(season, waters);
  }

  /** The perch pass of seasonal_object_system. */
  method SeasonPerches(season: Season, perches: seq<PerchingSpot>)
    modifies set p | p in perches
    ensures forall p :: p in perches ==> p.comfortLevel == SeasonalComfort(season, p.perchType)
    ensures forall p :: p in perches ==> p.occupant == old(p.occupant)
  {
    for i := 0 to |perches|
      invariant forall j :: 0 <= j < i ==> perches[j].comfortLevel == SeasonalComfort(season, perches[j].perchType)
      invariant forall p :: p in perches ==> p.occupant == old(p.occupant)
    {
      perches[i].ApplySeason(season);
    }
  }

  /** The shelter pass of seasonal_object_system. */
  method SeasonShelters(season: Season, shelters: seq<Shelter>)
    modifies set s | s in shelters
    ensures forall s :: s in shelters ==>
      s.weatherProtection == ShelterWeatherProtection(s.shelterType) * ShelterSeasonModifier(season)
    ensures forall s :: s in shelters ==> s.occupants == old(s.occupants)
  {
    for i := 0 to |shelters|
      invariant forall j :: 0 <= j < i ==>
        shelters[j].weatherProtection == ShelterWeatherProtection(shelters[j].shelterType) * ShelterSeasonModifier(season)
      invariant forall s :: s in shelters ==> s.occupants == old(s.occupants)
    {
      shelters[i].ApplySeason(season);
    }
  }

  /** The water pass of seasonal_object_system: each feature is adjusted once, so `waters` holds no feature twice. */
  method SeasonWaters(season: Season, waters: seq<WaterFeature>)
    requires Distinct(waters)
    modifies set f | f in waters
    ensures forall f :: f in waters ==> f.temperature == SeasonalWaterTemperature(season)
    ensures forall f :: f in waters ==> f.cleanliness == old(f.cleanliness)
    ensures forall f :: f in waters ==> f.waterLevel == SeasonalWaterLevel(season, f.waterType, old(f.waterLevel))
  {
    for i := 0 to |waters|
      invariant forall j :: 0 <= j < i ==> waters[j].temperature == SeasonalWaterTemperature(season)
      invariant forall f :: f in waters ==> f.cleanliness == old(f.cleanliness)
      invariant forall j :: 0 <= j < i ==> waters[j].waterLevel == SeasonalWaterLevel(season, waters[j].waterType, old(waters[j].waterLevel))
      invariant forall j :: i <= j < |waters| ==> waters[j].waterLevel == old(waters[j].waterLevel)
    {
      waters[i].ApplySeason(season);
    }
  }
}
