/**
 * Storms, temperature and their effect on birds: the severity tables, the
 * comfort bands of temperature, storm detection, and the per-bird fear and
 * hunger updates of the sheltering, temperature and stress systems.
 */
module AdvancedWeather {
  import opened Wrappers
  import opened Species
  import opened Numbers
  import opened Collections
  import opened EnvironmentComponents
  import opened BirdAiComponents
  import BirdAiSystems

  // ---- severity ----

  datatype StormSeverity = Light | Moderate | Severe | Extreme

  /** The severity's order, mildest first. */
  function Rank(s: StormSeverity): nat
  {
    match s
    case Light => 0
    case Moderate => 1
    case Severe => 2
    case Extreme => 3
  }

  /** The chance that a bird joins an emergency flock. */
  function EmergencyFlockingChance(s: StormSeverity): (c: real)
    ensures 0.1 <= c <= 0.9
  {
    match s
    case Light => 0.1
    case Moderate => 0.3
    case Severe => 0.7
    case Extreme => 0.9
  }

  /** How much more urgently birds seek shelter. */
  function ShelterUrgencyMultiplier(s: StormSeverity): (m: real)
    ensures 1.0 <= m <= 3.0
  {
    match s
    case Light => 1.0
    case Moderate => 1.5
    case Severe => 2.0
    case Extreme => 3.0
  }

  /** The stress a storm adds on top of the weather's own. */
  function StormStress(s: StormSeverity): (x: real)
    ensures 0.0 <= x <= 0.8
    ensures x == 0.0 <==> s == Light
  {
    match s
    case Light => 0.0
    case Moderate => 0.2
    case Severe => 0.4
    case Extreme => 0.8
  }

  /** Every severity table strictly increases with the severity. */
  lemma SeverityTablesIncrease(s1: StormSeverity, s2: StormSeverity)
    requires Rank(s1) < Rank(s2)
    ensures EmergencyFlockingChance(s1) < EmergencyFlockingChance(s2)
    ensures ShelterUrgencyMultiplier(s1) < ShelterUrgencyMultiplier(s2)
    ensures StormStress(s1) < StormStress(s2)
  {
  }

  predicate IsDangerous(s: StormSeverity) { s == Severe || s == Extreme }

  // ---- temperature ----

  datatype TemperatureRange = TemperatureRange(celsius: real, comfortLevel: real, feedingUrgency: real, activityModifier: real)

  /** The band a temperature falls in: extreme cold, cold, cool, comfortable, warm or hot. */
  function FromCelsius(temp: real): (r: TemperatureRange)
    ensures r.celsius == temp
    ensures 0.0 <= r.comfortLevel <= 1.0
    ensures r.comfortLevel == 1.0 <==> 10.0 <= temp < 25.0
    ensures r.comfortLevel == 0.0 <==> temp < -10.0
    ensures 0.6 <= r.feedingUrgency <= 2.5
    ensures 0.3 <= r.activityModifier <= 1.0
  {
    if temp < -10.0 then TemperatureRange(temp, 0.0, 2.5, 0.3)
    else if temp < 0.0 then TemperatureRange(temp, 0.2, 2.0, 0.5)
    else if temp < 10.0 then TemperatureRange(temp, 0.7, 1.3, 0.8)
    else if temp < 25.0 then TemperatureRange(temp, 1.0, 1.0, 1.0)
    else if temp < 35.0 then TemperatureRange(temp, 0.8, 0.8, 0.9)
    else TemperatureRange(temp, 0.3, 0.6, 0.4)
  }

  /**
   * Comfort rises with warmth up to the comfortable band and falls beyond it,
   * while the urge to feed only ever falls as it gets warmer.
   */
  lemma ComfortPeaksAndHungerFalls(t1: real, t2: real)
    requires t1 <= t2
    ensures t2 < 25.0 ==> FromCelsius(t1).comfortLevel <= FromCelsius(t2).comfortLevel
    ensures 10.0 <= t1 ==> FromCelsius(t1).comfortLevel >= FromCelsius(t2).comfortLevel
    ensures FromCelsius(t1).feedingUrgency >= FromCelsius(t2).feedingUrgency
  {
  }

  // ---- wind ----

  /** The wind's speed and its derived turbulence and hover difficulty; the random direction is left out. */
  datatype WindEffects = WindEffects(speedKmh: real, turbulence: real, hoverDifficulty: real)

  function WindSpeedFactor(w: Weather): (f: real)
    ensures 0.5 <= f <= 2.5
  {
    match w
    case Clear => 0.5
    case Cloudy => 0.7
    case Rainy => 1.2
    case Snowy => 0.8
    case Windy => 2.5
  }

  /** WindEffects::from_weather without the direction. */
  function WindFromWeather(w: Weather, baseSpeed: real): (e: WindEffects)
    ensures e.speedKmh == baseSpeed * WindSpeedFactor(w)
    ensures 0.0 <= e.turbulence <= 1.0 && 1.0 <= e.hoverDifficulty <= 3.0
  {
    var speed := baseSpeed * WindSpeedFactor(w);
    WindEffects(speed, Clamp(speed / 50.0, 0.0, 1.0), Clamp(speed / 30.0, 1.0, 3.0))
  }

  /** Strong wind slows flight: the modifier stays within [0.3, 1.5] and never rises with the wind. */
  function FlightSpeedModifier(e: WindEffects): (m: real)
    ensures 0.3 <= m <= 1.5
  {
    Clamp((50.0 - e.speedKmh) / 50.0, 0.3, 1.5)
  }

  /** A stronger wind never makes flight faster. */
  lemma StrongerWindNeverFaster(e1: WindEffects, e2: WindEffects)
    requires e1.speedKmh <= e2.speedKmh
    ensures FlightSpeedModifier(e1) >= FlightSpeedModifier(e2)
  {
    assert (50.0 - e1.speedKmh) / 50.0 >= (50.0 - e2.speedKmh) / 50.0;
  }

  // ---- shelters ----

  datatype ShelterType = DenseVegetation | Building | TreeHollow | RockFormation | FeederShelter

  /** The capacity, protection and wind resistance the map's shelters are built with. */
  datatype ShelterSpec = ShelterSpec(capacity: nat, protectionLevel: real, windResistance: real)

  function ShelterSpecOf(t: ShelterType): (s: ShelterSpec)
    ensures 6 <= s.capacity <= 25
    ensures 0.6 <= s.protectionLevel <= 0.95 && 0.4 <= s.windResistance <= 0.9
    ensures s.protectionLevel == 0.95 <==> t == Building
    ensures s.windResistance == 0.9 <==> t == Building
  {
    match t
    case DenseVegetation => ShelterSpec(15, 0.70, 0.65)
    case Building => ShelterSpec(25, 0.95, 0.90)
    case TreeHollow => ShelterSpec(8, 0.85, 0.80)
    case RockFormation => ShelterSpec(12, 0.80, 0.85)
    case FeederShelter => ShelterSpec(6, 0.60, 0.40)
  }

  /** A building is the best shelter on every count. */
  lemma BuildingIsBestShelter(t: ShelterType)
    ensures ShelterSpecOf(t).capacity <= ShelterSpecOf(Building).capacity
    ensures ShelterSpecOf(t).protectionLevel <= ShelterSpecOf(Building).protectionLevel
    ensures ShelterSpecOf(t).windResistance <= ShelterSpecOf(Building).windResistance
  {
  }

  // ---- storm detection ----

  /** The severity the current weather implies: wind is severe, snow and cold rain moderate. */
  function DetectSeverity(w: Weather, temperature: real): (s: StormSeverity)
    ensures s != Extreme
    ensures s == Severe <==> w == Windy
    ensures s == Moderate <==> w == Snowy || (w == Rainy && temperature < 5.0)
  {
    match w
    case Clear => Light
    case Cloudy => Light
    case Rainy => if temperature < 5.0 then Moderate else Light
    case Snowy => Moderate
    case Windy => Severe
  }

  datatype StormEvent = StormEvent(severity: StormSeverity, duration: real, warningTime: real)

  class StormManager {
    var currentSeverity: StormSeverity
    var stormDuration: real
    var timeRemaining: real
    var isStormWarning: bool
    var warningTime: real

    /** The derived starting state: a light sky and every timer at zero. */
    constructor ()
      ensures currentSeverity == Light && stormDuration == 0.0 && timeRemaining == 0.0
      ensures !isStormWarning && warningTime == 0.0
    {
      currentSeverity := Light;
      stormDuration := 0.0;
      timeRemaining := 0.0;
      isStormWarning := false;
      warningTime := 0.0;
    }

    /**
     * storm_detection_system: count the timers down; record a new storm only
     * when the weather is dangerous and the current storm is not; raise the
     * warning while the warning timer runs; and clear everything once the
     * storm's time is up. `random` is the frame's draw in [0, 1).
     */
    method StormDetection(w: Weather, temperature: real, dt: real, random: real) returns (event: Option<StormEvent>)
      requires 0.0 <= random < 1.0
      modifies this
      ensures var isNew := IsDangerous(DetectSeverity(w, temperature)) && !IsDangerous(old(currentSeverity));
        (isNew ==>
          event == Some(StormEvent(DetectSeverity(w, temperature), stormDuration, 60.0))
          && currentSeverity == DetectSeverity(w, temperature)
          && 300.0 <= stormDuration < 900.0 && timeRemaining == stormDuration
          && warningTime == 60.0 && isStormWarning)
        && (!isNew ==>
          event == None && stormDuration == old(stormDuration)
          && timeRemaining == old(timeRemaining) - dt && warningTime == old(warningTime) - dt
          && (timeRemaining <= 0.0 ==> currentSeverity == Light && !isStormWarning)
          && (timeRemaining > 0.0 ==>
                currentSeverity == old(currentSeverity)
                && (isStormWarning <==> old(isStormWarning) || warningTime > 0.0)))
    {
      timeRemaining := timeRemaining - dt;
      warningTime := warningTime - dt;
      var newSeverity := DetectSeverity(w, temperature);
      event := None;
      if IsDangerous(newSeverity) && !IsDangerous(currentSeverity) {
        currentSeverity := newSeverity;
        stormDuration := random * 600.0 + 300.0;
        timeRemaining := stormDuration;
        warningTime := 60.0;
        event := Some(StormEvent(newSeverity, stormDuration, 60.0));
      }
      if warningTime > 0.0 && !isStormWarning {
        isStormWarning := true;
      }
      if timeRemaining <= 0.0 {
        currentSeverity := Light;
        isStormWarning := false;
      }
    }
  }

  // ---- fear and hunger updates ----

  /** Species that weather storms better before seeking shelter. */
  function ShelterTolerance(s: BirdSpecies): (t: real)
    ensures t == 0.8 || t == 0.5
  {
    if s == CommonCrow || s == BlueJay || s == MourningDove then 0.8 else 0.5
  }

  /** What the sheltering system knows of a bird's surroundings this frame. */
  datatype ShelterView = ShelterView(species: BirdSpecies, nearestShelter: Option<Entity>, arrivesThisFrame: bool)

  /**
   * One bird in storm_sheltering_system: fear grows with the urgency, clamped;
   * a frightened bird that reaches a free shelter starts sheltering there with
   * its fear halved.
   */
  function ShelterStep(state: BirdState, b: Blackboard, v: ShelterView, urgency: real, dt: real): (r: (BirdState, Blackboard))
    ensures 0.0 <= r.1.internal.fear <= 1.0
    ensures r.1.internal == b.internal.(fear := r.1.internal.fear)
    ensures r.0 == Sheltering <==>
      state == Sheltering
      || (v.nearestShelter.Some? && v.arrivesThisFrame && Clamp(b.internal.fear + urgency * dt, 0.0, 1.0) > ShelterTolerance(v.species))
    ensures r.0 != state ==> r.1.currentTarget == v.nearestShelter && r.1.internal.fear <= 0.5
    ensures r.0 == state ==> r.1.currentTarget == b.currentTarget
  {
    var fear := Clamp(b.internal.fear + urgency * dt, 0.0, 1.0);
    var b1 := b.(internal := b.internal.(fear := fear));
    if state == Sheltering then (state, b1)
    else if fear > ShelterTolerance(v.species) && v.nearestShelter.Some? && v.arrivesThisFrame then
      (Sheltering, b1.(currentTarget := v.nearestShelter, internal := b1.internal.(fear := fear * 0.5)))
    else (state, b1)
  }

  /** How well a species copes with cold (positive) or heat (negative). */
  function TemperatureTolerance(s: BirdSpecies): (t: real)
    ensures -0.3 <= t <= 0.3
  {
    if s == Chickadee || s == WhiteBreastedNuthatch || s == CommonCrow then 0.3
    else if s == MourningDove || s == RedWingedBlackbird then -0.3
    else 0.0
  }

  /** The stress a temperature band puts on a species. */
  function TemperatureStress(range: TemperatureRange, s: BirdSpecies): (x: real)
    ensures 0.0 <= x <= 1.0
  {
    1.0 - Clamp(range.comfortLevel + TemperatureTolerance(s), 0.0, 1.0)
  }

  /**
   * One bird in temperature_feeding_urgency_system: hunger grows with the
   * stress, and fear too when the stress is above one half, both clamped;
   * the flag says whether a stress event is sent.
   */
  function TemperatureStep(s: InternalState, species: BirdSpecies, range: TemperatureRange, dt: real): (r: (InternalState, bool))
    ensures 0.0 <= r.0.hunger <= 1.0
    ensures r.1 || UnitInterval(s.fear) ==> UnitInterval(r.0.fear)
    ensures r.1 <==> TemperatureStress(range, species) > 0.5
    ensures !r.1 ==> r.0.fear == s.fear
    ensures r.0 == s.(hunger := r.0.hunger, fear := r.0.fear)
    ensures range.feedingUrgency >= 0.0 && dt >= 0.0 && s.hunger <= 1.0 ==> r.0.hunger >= s.hunger
  {
    var stress := TemperatureStress(range, species);
    var hunger := Clamp(s.hunger + range.feedingUrgency * stress * dt * 0.01, 0.0, 1.0);
    assert range.feedingUrgency >= 0.0 && dt >= 0.0 ==> range.feedingUrgency * stress * dt >= 0.0 by {
      if range.feedingUrgency >= 0.0 && dt >= 0.0 {
        assert range.feedingUrgency * stress >= 0.0;
      }
    }
    if stress > 0.5 then
      (s.(hunger := hunger, fear := Clamp(s.fear + stress * dt * 0.1, 0.0, 1.0)), true)
    else (s.(hunger := hunger), false)
  }

  /** How much of the weather's stress a species shrugs off. */
  function StressResistance(s: BirdSpecies): (r: real)
    ensures 0.3 <= r <= 0.7
  {
    if s == CommonCrow || s == BlueJay then 0.7
    else if s == RubyThroatedHummingbird || s == Goldfinch then 0.3
    else 0.5
  }

  /** The combined stress of weather and storm, capped at 1. */
  function TotalStress(baseStress: real, severity: StormSeverity): (x: real)
    ensures x <= 1.0
  {
    Min(baseStress + StormStress(severity), 1.0)
  }

  /** One bird in weather_stress_system: fear grows with the resisted share of the stress, clamped. */
  function StressFear(fear: real, species: BirdSpecies, total: real, dt: real): (f: real)
    ensures 0.0 <= f <= 1.0
    ensures 0.0 <= fear <= 1.0 && total >= 0.0 && dt >= 0.0 ==> f >= fear
  {
    var effective := total * (1.0 - StressResistance(species));
    assert total >= 0.0 && dt >= 0.0 ==> effective * dt >= 0.0 by {
      if total >= 0.0 && dt >= 0.0 {
        assert effective >= 0.0;
      }
    }
    Clamp(fear + effective * dt * 0.2, 0.0, 1.0)
  }

  /** The fear increase emergency_flocking_system applies to every bird while a storm warning is up, as written: no clamp. */
  function StormWarningFearAsWritten(fear: real): (f: real)
    ensures f > fear
    ensures fear > 0.9 ==> f > 1.0
  {
    fear + 0.1
  }

  /** As written, a bird already near the top of the fear scale is pushed out of [0, 1]. */
  lemma AsWrittenStormWarningFearOverflows()
    ensures UnitInterval(0.95) && !UnitInterval(StormWarningFearAsWritten(0.95))
  {
  }

  /** The storm-warning fear increase clamped to [0, 1] like every other fear update. */
  function StormWarningFear(fear: real): (f: real)
    ensures UnitInterval(f)
    ensures UnitInterval(fear) ==> f >= fear
    ensures fear + 0.1 <= 1.0 && fear >= -0.1 ==> f == StormWarningFearAsWritten(fear)
  {
    Clamp(fear + 0.1, 0.0, 1.0)
  }

  // ---- the per-bird systems ----

  /** The fear part of emergency_flocking_system: while a warning is up, every bird grows more afraid. */
  method EmergencyFlockingFear(manager: StormManager, birds: seq<BirdAiSystems.Bird>)
    requires Distinct(birds)
    modifies set b | b in birds
    ensures forall i :: 0 <= i < |birds| ==> birds[i].state == old(birds[i].state)
    ensures !manager.isStormWarning ==> forall b :: b in birds ==> b.blackboard == old(b.blackboard)
    ensures manager.isStormWarning ==> forall i :: 0 <= i < |birds| ==>
      birds[i].blackboard == old(birds[i].blackboard).(internal := old(birds[i].blackboard.internal).(fear := StormWarningFear(old(birds[i].blackboard.internal.fear))))
  {
    if !manager.isStormWarning {
      return;
    }
    for i := 0 to |birds|
      invariant forall j :: 0 <= j < |birds| ==> birds[j].state == old(birds[j].state)
      invariant forall j :: 0 <= j < i ==>
        birds[j].blackboard == old(birds[j].blackboard).(internal := old(birds[j].blackboard.internal).(fear := StormWarningFear(old(birds[j].blackboard.internal.fear))))
      invariant forall j :: i <= j < |birds| ==> birds[j].blackboard == old(birds[j].blackboard)
    {
      var b := birds[i];
      b.blackboard := b.blackboard.(internal := b.blackboard.internal.(fear := StormWarningFear(b.blackboard.internal.fear)));
    }
  }

  /**
   * storm_sheltering_system: nothing happens while the combined urgency is
   * below 0.3; otherwise every bird takes one ShelterStep. `views[i]` is what
   * bird i sees.
   */
  method StormSheltering(birds: seq<BirdAiSystems.Bird>, views: seq<ShelterView>, weatherUrgency: real, severity: StormSeverity, dt: real)
    requires Distinct(birds) && |views| == |birds|
    modifies set b | b in birds
    ensures weatherUrgency * ShelterUrgencyMultiplier(severity) < 0.3 ==>
      forall b :: b in birds ==> b.state == old(b.state) && b.blackboard == old(b.blackboard)
    ensures weatherUrgency * ShelterUrgencyMultiplier(severity) >= 0.3 ==> forall i :: 0 <= i < |birds| ==>
      (birds[i].state, birds[i].blackboard)
        == ShelterStep(old(birds[i].state), old(birds[i].blackboard), views[i], weatherUrgency * ShelterUrgencyMultiplier(severity), dt)
    ensures forall i :: 0 <= i < |birds| ==>
      UnitInterval(old(birds[i].blackboard.internal.fear)) ==> UnitInterval(birds[i].blackboard.internal.fear)
  {
    var urgency := weatherUrgency * ShelterUrgencyMultiplier(severity);
    if urgency < 0.3 {
      return;
    }
    for i := 0 to |birds|
      invariant forall j :: 0 <= j < i ==>
        (birds[j].state, birds[j].blackboard) == ShelterStep(old(birds[j].state), old(birds[j].blackboard), views[j], urgency, dt)
      invariant forall j :: 0 <= j < i ==>
        UnitInterval(old(birds[j].blackboard.internal.fear)) ==> UnitInterval(birds[j].blackboard.internal.fear)
      invariant forall j :: i <= j < |birds| ==> birds[j].state == old(birds[j].state) && birds[j].blackboard == old(birds[j].blackboard)
    {
      var b := birds[i];
      var (s, bb) := ShelterStep(b.state, b.blackboard, views[i], urgency, dt);
      b.state := s;
      b.blackboard := bb;
    }
  }

  /**
   * weather_stress_system: when the combined stress exceeds 0.1, every bird's
   * fear grows by its species' share of it.
   */
  method WeatherStress(birds: seq<BirdAiSystems.Bird>, species: seq<BirdSpecies>, baseStress: real, severity: StormSeverity, dt: real)
    requires Distinct(birds) && |species| == |birds|
    modifies set b | b in birds
    ensures forall b :: b in birds ==> b.state == old(b.state)
    ensures TotalStress(baseStress, severity) <= 0.1 ==> forall b :: b in birds ==> b.blackboard == old(b.blackboard)
    ensures TotalStress(baseStress, severity) > 0.1 ==> forall i :: 0 <= i < |birds| ==>
      birds[i].blackboard == old(birds[i].blackboard).(internal := old(birds[i].blackboard.internal).(
        fear := StressFear(old(birds[i].blackboard.internal.fear), species[i], TotalStress(baseStress, severity), dt)))
  {
    var total := TotalStress(baseStress, severity);
    if total <= 0.1 {
      return;
    }
    for i := 0 to |birds|
      invariant forall b :: b in birds ==> b.state == old(b.state)
      invariant forall j :: 0 <= j < i ==>
        birds[j].blackboard == old(birds[j].blackboard).(internal := old(birds[j].blackboard.internal).(
          fear := StressFear(old(birds[j].blackboard.internal.fear), species[j], total, dt)))
      invariant forall j :: i <= j < |birds| ==> birds[j].blackboard == old(birds[j].blackboard)
    {
      var b := birds[i];
      b.blackboard := b.blackboard.(internal := b.blackboard.internal.(fear := StressFear(b.blackboard.internal.fear, species[i], total, dt)));
    }
  }

  /**
   * temperature_feeding_urgency_system: every bird takes one TemperatureStep
   * in the band of the current temperature; the birds under stress are
   * reported. The temperature itself comes from a sine of the hour and is
   * given.
   */
  method TemperatureFeedingUrgency(birds: seq<BirdAiSystems.Bird>, species: seq<BirdSpecies>, currentTemp: real, dt: real)
    returns (stressed: seq<Entity>)
    requires Distinct(birds) && |species| == |birds|
    modifies set b | b in birds
    ensures forall b :: b in birds ==> b.state == old(b.state)
    ensures forall i :: 0 <= i < |birds| ==>
      birds[i].blackboard == old(birds[i].blackboard).(internal := TemperatureStep(old(birds[i].blackboard.internal), species[i], FromCelsius(currentTemp), dt).0)
    ensures forall e :: e in stressed <==>
      exists i :: 0 <= i < |birds| && birds[i].id == e && TemperatureStress(FromCelsius(currentTemp), species[i]) > 0.5
  {
    var range := FromCelsius(currentTemp);
    stressed := [];
    for i := 0 to |birds|
      invariant forall b :: b in birds ==> b.state == old(b.state)
      invariant forall j :: 0 <= j < i ==>
        birds[j].blackboard == old(birds[j].blackboard).(internal := TemperatureStep(old(birds[j].blackboard.internal), species[j], range, dt).0)
      invariant forall j :: i <= j < |birds| ==> birds[j].blackboard == old(birds[j].blackboard)
      invariant forall e :: e in stressed <==>
        exists j :: 0 <= j < i && birds[j].id == e && TemperatureStress(range, species[j]) > 0.5
    {
      var b := birds[i];
      var (next, isStressed) := TemperatureStep(b.blackboard.internal, species[i], range, dt);
      b.blackboard := b.blackboard.(internal := next);
      if isStressed {
        stressed := stressed + [b.id];
      }
    }
  }
}
