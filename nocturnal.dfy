/**
 * Night-time behaviour: each species' activity pattern, the energy cycle it
 * drives, owl hunting, roost choice at dusk, departure at dawn, roost
 * occupancy bookkeeping and the night-migration flag.
 */
module Nocturnal {
  import opened Wrappers
  import opened Numbers
  import opened Species
  import opened Collections
  import opened BirdAiComponents
  import opened EnvironmentComponents

  datatype ActivityPattern = Diurnal | Nocturnal | Crepuscular | Cathemeral

  datatype RoostType = TreeHollow | DenseBranch | ConiferousTree | CommunalSite | Ground | CliffLedge

  datatype MigrationPattern = NonMigratory | ShortDistance | NightMigrant | DayMigrant

  datatype NocturnalTraits = NocturnalTraits(
    activityPattern: ActivityPattern, nightVisionQuality: real, huntingEfficiency: real,
    roostPreference: RoostType, formsCommunalRoosts: bool, migrationBehavior: MigrationPattern,
    dawnDepartureTime: real)

  predicate IsOwl(s: BirdSpecies)
  {
    s == GreatHornedOwl || s == BarredOwl
  }

  /** The per-species table of night traits. */
  function TraitsOf(s: BirdSpecies): (t: NocturnalTraits)
    ensures t.activityPattern == Nocturnal <==> IsOwl(s)
    ensures t.huntingEfficiency >= 0.5 <==> IsOwl(s)
    ensures t.formsCommunalRoosts <==> s == CommonCrow || s == EuropeanStarling
    ensures t.formsCommunalRoosts ==> t.roostPreference == CommunalSite
    ensures t.migrationBehavior == NightMigrant <==> s in {YellowWarbler, ScarletTanager, BaltimoreOriole}
    ensures 0.0 < t.dawnDepartureTime <= 2.0
    ensures 0.0 <= t.nightVisionQuality <= 1.0 && 0.0 <= t.huntingEfficiency <= 1.0
  {
    match s
    case GreatHornedOwl => NocturnalTraits(Nocturnal, 0.95, 0.9, TreeHollow, false, NonMigratory, 1.0)
    case BarredOwl => NocturnalTraits(Nocturnal, 0.9, 0.85, TreeHollow, false, NonMigratory, 0.8)
    case RedTailedHawk => NocturnalTraits(Diurnal, 0.3, 0.1, DenseBranch, false, DayMigrant, 0.5)
    case CoopersHawk => NocturnalTraits(Diurnal, 0.3, 0.1, DenseBranch, false, DayMigrant, 0.5)
    case CommonCrow => NocturnalTraits(Diurnal, 0.4, 0.2, CommunalSite, true, ShortDistance, 0.3)
    case EuropeanStarling => NocturnalTraits(Diurnal, 0.3, 0.1, CommunalSite, true, ShortDistance, 0.4)
    case YellowWarbler => NocturnalTraits(Crepuscular, 0.6, 0.05, DenseBranch, false, NightMigrant, 0.2)
    case ScarletTanager => NocturnalTraits(Crepuscular, 0.6, 0.05, DenseBranch, false, NightMigrant, 0.2)
    case BaltimoreOriole => NocturnalTraits(Crepuscular, 0.6, 0.05, DenseBranch, false, NightMigrant, 0.2)
    case DownyWoodpecker => NocturnalTraits(Diurnal, 0.2, 0.05, TreeHollow, false, NonMigratory, 0.6)
    case HairyWoodpecker => NocturnalTraits(Diurnal, 0.2, 0.05, TreeHollow, false, NonMigratory, 0.6)
    case PileatedWoodpecker => NocturnalTraits(Diurnal, 0.2, 0.05, TreeHollow, false, NonMigratory, 0.6)
    case _ => NocturnalTraits(Diurnal, 0.2, 0.02, DenseBranch, false, NonMigratory, 0.4)
  }

  // ---- time windows (hours in [0, 24)) ----

  predicate IsNight(hour: real) { hour >= 20.0 || hour <= 6.0 }
  predicate IsDusk(hour: real) { 18.0 <= hour <= 20.0 }
  predicate IsDawn(hour: real) { 5.0 <= hour <= 7.0 }

  /** How active a pattern is at the given hour. */
  function ActivityModifier(p: ActivityPattern, hour: real): (m: real)
    ensures 0.1 <= m <= 1.0
    ensures p == Cathemeral ==> m == 0.8
    ensures p == Nocturnal && IsNight(hour) ==> m == 1.0
    ensures p == Diurnal ==> (m < 0.3 <==> IsNight(hour))
    ensures p == Crepuscular || p == Cathemeral ==> m >= 0.3
  {
    match p
    case Nocturnal => if IsNight(hour) then 1.0 else if IsDusk(hour) || IsDawn(hour) then 0.7 else 0.1
    case Diurnal => if IsNight(hour) then 0.1 else if IsDusk(hour) || IsDawn(hour) then 0.6 else 1.0
    case Crepuscular => if IsDusk(hour) || IsDawn(hour) then 1.0 else if IsNight(hour) then 0.3 else 0.5
    case Cathemeral => 0.8
  }

  /** Energy drifts 1% per tick toward the activity level and stays within [0.1, 1]. */
  function NextEnergy(energy: real, activity: real): (e: real)
    ensures 0.1 <= e <= 1.0
    ensures 0.1 <= energy <= 1.0 && 0.1 <= activity <= 1.0 ==> e == energy * 0.99 + activity * 0.01
  {
    Clamp(energy * 0.99 + activity * 0.01, 0.1, 1.0)
  }

  /** The state the activity cycle leaves a bird in. */
  function CycleState(s: BirdState, p: ActivityPattern, hour: real): (r: BirdState)
    ensures ActivityModifier(p, hour) < 0.3 ==> (r == Resting <==> s != Fleeing) && (s == Fleeing ==> r == Fleeing)
    ensures r != s ==>
      (r == Resting && ActivityModifier(p, hour) < 0.3) || (s == Resting && r == Wandering && p == Nocturnal && IsNight(hour))
    ensures ActivityModifier(p, hour) >= 0.3 && !(p == Nocturnal && IsNight(hour)) ==> r == s
    ensures ActivityModifier(p, hour) > 0.8 && p == Nocturnal && IsNight(hour) && s == Resting ==> r == Wandering
  {
    var m := ActivityModifier(p, hour);
    if m < 0.3 then (if s == Fleeing then s else Resting)
    else if m > 0.8 && p == Nocturnal && IsNight(hour) && s == Resting then Wandering
    else s
  }

  /** A diurnal bird at night rests unless it is fleeing. */
  lemma DiurnalRestsAtNight(s: BirdState, hour: real)
    requires IsNight(hour) && s != Fleeing
    ensures CycleState(s, Diurnal, hour) == Resting
  {
  }

  // ---- choosing the best of several places ----

  /** A place a bird may pick, whether it qualifies, and its score. */
  datatype Candidate = Candidate(entity: Entity, eligible: bool, score: real)

  predicate Beats(c: Candidate, best: real)
  {
    c.eligible && c.score > best
  }

  /**
   * The scan both hunting and roosting use: start from no choice and score 0,
   * and take a qualifying candidate only when it scores strictly higher.
   */
  function Best(cs: seq<Candidate>): (r: (Option<Entity>, real))
    ensures r.1 >= 0.0
    ensures r.0.None? ==> r.1 == 0.0
  {
    if cs == [] then (None, 0.0)
    else
      var n := |cs| - 1;
      var prev := Best(cs[..n]);
      if Beats(cs[n], prev.1) then (Some(cs[n].entity), cs[n].score) else prev
  }

  /** No qualifying candidate scores above the chosen one, and the choice is a qualifying candidate with that score. */
  lemma {:induction false} BestIsMaximum(cs: seq<Candidate>)
    ensures forall k :: 0 <= k < |cs| && cs[k].eligible ==> cs[k].score <= Best(cs).1
    ensures Best(cs).0.Some? ==>
      exists k :: 0 <= k < |cs| && cs[k].eligible && cs[k].entity == Best(cs).0.value && cs[k].score == Best(cs).1
  {
    if cs != [] {
      var n := |cs| - 1;
      BestIsMaximum(cs[..n]);
      assert forall k :: 0 <= k < n ==> cs[..n][k] == cs[k];
    }
  }

  lemma BestPrefix(cs: seq<Candidate>, i: nat)
    requires i < |cs|
    ensures Best(cs[..i + 1]) == if Beats(cs[i], Best(cs[..i]).1) then (Some(cs[i].entity), cs[i].score) else Best(cs[..i])
  {
    assert cs[..i + 1][..i] == cs[..i];
  }

  /** Nothing is chosen exactly when no qualifying candidate scores above 0. */
  lemma {:induction false} BestNoneIff(cs: seq<Candidate>)
    ensures Best(cs).0.None? <==> forall k :: 0 <= k < |cs| ==> !Beats(cs[k], 0.0)
  {
    if cs != [] {
      var n := |cs| - 1;
      BestNoneIff(cs[..n]);
      assert forall k :: 0 <= k < n ==> cs[..n][k] == cs[k];
    }
  }

  /** Ties go to the earlier candidate: the one chosen is the first to reach the best score. */
  lemma {:induction false} BestIsFirst(cs: seq<Candidate>)
    requires Best(cs).0.Some?
    ensures exists k :: (0 <= k < |cs| && cs[k].eligible && cs[k].entity == Best(cs).0.value
      && cs[k].score == Best(cs).1
      && forall j :: 0 <= j < k && cs[j].eligible ==> cs[j].score < Best(cs).1)
  {
    var n := |cs| - 1;
    var prev := Best(cs[..n]);
    assert forall k :: 0 <= k < n ==> cs[..n][k] == cs[k];
    BestIsMaximum(cs[..n]);
    if Beats(cs[n], prev.1) {
      assert forall j :: 0 <= j < n && cs[j].eligible ==> cs[j].score <= prev.1 < cs[n].score;
    } else {
      BestIsFirst(cs[..n]);
      var k :| 0 <= k < n && cs[..n][k].eligible && cs[..n][k].entity == prev.0.value && cs[..n][k].score == prev.1
        && forall j :: 0 <= j < k && cs[..n][j].eligible ==> cs[..n][j].score < prev.1;
      assert cs[k].eligible && cs[k].entity == Best(cs).0.value;
    }
  }

  // ---- hunting ----

  predicate PrimeHunting(hour: real)
  {
    (20.0 <= hour <= 23.0) || (3.0 <= hour <= 6.0)
  }

  /** A hunting territory as seen from one owl. */
  datatype TerritoryView = TerritoryView(entity: Entity, radius: real, preyDensity: real, competitionLevel: real, distance: real)

  /**
   * Territories within reach score prey density, lack of competition and
   * closeness. A zero radius scores 0 (the f32 division gives NaN there,
   * which never wins a strict comparison).
   */
  function TerritoryScore(t: TerritoryView): real
  {
    if t.radius == 0.0 then 0.0 else t.preyDensity * (1.0 - t.competitionLevel) * (t.radius - t.distance) / t.radius
  }

  function TerritoryCandidate(t: TerritoryView): (c: Candidate)
    ensures c.entity == t.entity && (c.eligible <==> t.distance <= t.radius) && c.score == TerritoryScore(t)
  {
    Candidate(t.entity, t.distance <= t.radius, TerritoryScore(t))
  }

  function TerritoryCandidates(ts: seq<TerritoryView>): (cs: seq<Candidate>)
    ensures |cs| == |ts| && forall k :: 0 <= k < |ts| ==> cs[k] == TerritoryCandidate(ts[k])
  {
    seq(|ts|, k requires 0 <= k < |ts| => TerritoryCandidate(ts[k]))
  }

  /** The cooldown check as the hunting system writes it: plain subtraction of hours of the day. */
  function HuntCooldownOverAsWritten(hour: real, lastHunt: real): (over: bool)
    ensures 0.0 <= hour < 2.0 && lastHunt >= 0.0 ==> !over
  {
    !(hour - lastHunt < 2.0)
  }

  /**
   * An owl that hunts late in the evening can never hunt again: within the
   * prime window the hour never reaches 2 hours past the last hunt, because
   * the hour of the day wraps at midnight.
   */
  lemma AsWrittenLateHuntLocksOut(lastHunt: real, hour: real)
    requires 22.0 < lastHunt <= 23.0 && 0.0 <= hour < 24.0
    ensures PrimeHunting(hour) ==> !HuntCooldownOverAsWritten(hour, lastHunt)
  {
  }

  /** Hours since the last hunt, counting across midnight. */
  function HoursSince(hour: real, lastHunt: real): (e: real)
    ensures 0.0 <= hour < 24.0 && 0.0 <= lastHunt < 24.0 ==> 0.0 <= e < 24.0
    ensures hour >= lastHunt ==> e == hour - lastHunt
  {
    if hour >= lastHunt then hour - lastHunt else hour + 24.0 - lastHunt
  }

  /** The cooldown the hunting system means: two hours on the clock, across midnight too. */
  function HuntCooldownOver(hour: real, lastHunt: real): (over: bool)
    ensures hour < lastHunt ==> (over <==> hour + 24.0 >= lastHunt + 2.0)
    ensures 0.0 <= hour < 24.0 && 0.0 <= lastHunt < 24.0 && HuntCooldownOverAsWritten(hour, lastHunt) ==> over
  {
    HoursSince(hour, lastHunt) >= 2.0
  }

  /** With the cooldown counted across midnight, a late hunt is followed by another before dawn. */
  lemma LateHunterHuntsAgain(lastHunt: real)
    requires 20.0 <= lastHunt <= 23.0
    ensures PrimeHunting(3.0) && HuntCooldownOver(3.0, lastHunt)
  {
  }

  /** The two checks agree whenever the clock has not passed midnight since the hunt. */
  lemma CooldownAgreesSameDay(hour: real, lastHunt: real)
    requires hour >= lastHunt
    ensures HuntCooldownOver(hour, lastHunt) <==> HuntCooldownOverAsWritten(hour, lastHunt)
  {
  }

  /** The hunt outcome's effect on energy and on the running success rate. */
  function HuntEnergy(energy: real, success: bool): (e: real)
    ensures success ==> e == Min(energy + 0.3, 1.0) && e <= 1.0
    ensures !success ==> e == Max(energy - 0.1, 0.1) && e >= 0.1
    ensures 0.1 <= energy <= 1.0 ==> 0.1 <= e <= 1.0
  {
    if success then Min(energy + 0.3, 1.0) else Max(energy - 0.1, 0.1)
  }

  function HuntSuccessRate(rate: real, success: bool): (r: real)
    ensures success ==> r <= 1.0
    ensures 0.0 <= rate <= 1.0 ==> 0.0 <= r <= 1.0
    ensures !success ==> r == rate
    ensures success && 0.0 <= rate <= 1.0 ==> rate <= r && 1.0 - r == 0.9 * (1.0 - rate)
  {
    if success then Min(rate * 0.9 + 0.1, 1.0) else rate
  }

  // ---- roosting ----

  predicate SeekingRoostTime(hour: real)
  {
    hour >= 18.0 || hour <= 7.0
  }

  const MaxRoostDistance: real := 200.0

  /** A roost site as seen from one bird. */
  datatype RoostView = RoostView(
    entity: Entity, roostType: RoostType, capacity: nat, currentOccupancy: nat,
    quality: real, safetyRating: real, distance: real)

  /** A roost qualifies when it is of the preferred type, has room (for communal roosters) and is near enough. */
  predicate RoostSuits(t: NocturnalTraits, r: RoostView)
  {
    r.roostType == t.roostPreference
    && !(t.formsCommunalRoosts && r.currentOccupancy >= r.capacity)
    && r.distance <= MaxRoostDistance
  }

  /** Quality times safety, falling off linearly to 0 at the 200-unit limit. */
  function RoostScore(r: RoostView): real
  {
    r.quality * r.safetyRating * (MaxRoostDistance - r.distance) / MaxRoostDistance
  }

  function RoostCandidate(t: NocturnalTraits, r: RoostView): (c: Candidate)
    ensures c.entity == r.entity && (c.eligible <==> RoostSuits(t, r)) && c.score == RoostScore(r)
  {
    Candidate(r.entity, RoostSuits(t, r), RoostScore(r))
  }

  function RoostCandidates(t: NocturnalTraits, rs: seq<RoostView>): (cs: seq<Candidate>)
    ensures |cs| == |rs| && forall k :: 0 <= k < |rs| ==> cs[k] == RoostCandidate(t, rs[k])
  {
    seq(|rs|, k requires 0 <= k < |rs| => RoostCandidate(t, rs[k]))
  }

  /** A chosen roost is of the preferred type, within 200 units, and has room for a communal rooster. */
  lemma ChosenRoostSuits(t: NocturnalTraits, rs: seq<RoostView>)
    requires Best(RoostCandidates(t, rs)).0.Some?
    ensures exists k :: (0 <= k < |rs| && rs[k].entity == Best(RoostCandidates(t, rs)).0.value
      && rs[k].roostType == t.roostPreference && rs[k].distance <= 200.0
      && (t.formsCommunalRoosts ==> rs[k].currentOccupancy < rs[k].capacity))
  {
    var cs := RoostCandidates(t, rs);
    BestIsMaximum(cs);
    var k :| 0 <= k < |cs| && cs[k].eligible && cs[k].entity == Best(cs).0.value && cs[k].score == Best(cs).1;
    assert RoostSuits(t, rs[k]);
  }

  /** The territory scan of owl_hunting_system: the best-scoring territory in reach, first one on ties. */
  method BestTerritory(territories: seq<TerritoryView>) returns (best: Option<Entity>, bestScore: real)
    ensures (best, bestScore) == Best(TerritoryCandidates(territories))
  {
    ghost var cs := TerritoryCandidates(territories);
    best := None;
    bestScore := 0.0;
    for i := 0 to |territories|
      invariant best == Best(cs[..i]).0 && bestScore == Best(cs[..i]).1
    {
      BestPrefix(cs, i);
      var t := territories[i];
      assert cs[i] == TerritoryCandidate(t);
      if t.distance <= t.radius {
        var score := TerritoryScore(t);
        if score > bestScore {
          bestScore := score;
          best := Some(t.entity);
        }
      }
    }
    assert cs[..|territories|] == cs;
  }

  /** The roost scan of roost_selection_system: type, room and distance filters, then the best score, first one on ties. */
  method BestRoost(traits: NocturnalTraits, roosts: seq<RoostView>) returns (best: Option<Entity>, bestScore: real)
    ensures (best, bestScore) == Best(RoostCandidates(traits, roosts))
  {
    ghost var cs := RoostCandidates(traits, roosts);
    best := None;
    bestScore := 0.0;
    for i := 0 to |roosts|
      invariant best == Best(cs[..i]).0 && bestScore == Best(cs[..i]).1
    {
      BestPrefix(cs, i);
      var r := roosts[i];
      assert cs[i] == RoostCandidate(traits, r);
      if r.roostType != traits.roostPreference {
        continue;
      }
      if traits.formsCommunalRoosts && r.currentOccupancy >= r.capacity {
        continue;
      }
      if r.distance > 200.0 {
        continue;
      }
      var score := RoostScore(r);
      if score > bestScore {
        bestScore := score;
        best := Some(r.entity);
      }
    }
    assert cs[..|roosts|] == cs;
  }

  // ---- the birds ----

  datatype HuntingEvent = HuntingEvent(hunter: Entity, territory: Entity, success: bool)

  datatype RoostEventType = Arrival | Departure | SiteSelection | Disturbance

  datatype RoostEvent = RoostEvent(bird: Entity, roostSite: Entity, eventType: RoostEventType)

  /**
   * The hunt a bird makes in owl_hunting_system, from its energy and last
   * hunt time before the frame: a nocturnal hunter whose cooldown is over
   * hunts the best territory in reach, and `roll` decides the outcome.
   */
  function HuntOf(entity: Entity, traits: NocturnalTraits, energy: real, lastHuntTime: real, hour: real,
                  territories: seq<TerritoryView>, roll: real): (e: Option<HuntingEvent>)
    ensures e.Some? ==> e.value.hunter == entity && PrimeHunting(hour) && traits.activityPattern == Nocturnal
                        && traits.huntingEfficiency >= 0.5 && HuntCooldownOver(hour, lastHuntTime)
    ensures e.Some? ==> Best(TerritoryCandidates(territories)).0 == Some(e.value.territory)
    ensures e.None? && PrimeHunting(hour) && traits.activityPattern == Nocturnal && traits.huntingEfficiency >= 0.5
              && HuntCooldownOver(hour, lastHuntTime)
            ==> Best(TerritoryCandidates(territories)).0.None?
  {
    var best := Best(TerritoryCandidates(territories));
    if PrimeHunting(hour) && traits.activityPattern == Nocturnal && traits.huntingEfficiency >= 0.5
       && HuntCooldownOver(hour, lastHuntTime) && best.0.Some? then
      Some(HuntingEvent(entity, best.0.value, roll < traits.huntingEfficiency * traits.nightVisionQuality * energy * best.1))
    else None
  }

  /**
   * The arrival a bird reports in roost_selection_system, from its roost
   * before the frame: in the roosting hours a bird without a roost (and not
   * an owl in its hunting hours) takes the best suitable roost, if any.
   */
  function ArrivalOf(entity: Entity, traits: NocturnalTraits, roost: Option<Entity>, hour: real,
                     roosts: seq<RoostView>): (e: Option<RoostEvent>)
    ensures e.Some? ==> e.value.bird == entity && e.value.eventType == Arrival && roost.None? && SeekingRoostTime(hour)
                        && !(traits.activityPattern == Nocturnal && hour >= 20.0)
    ensures e.Some? ==> Best(RoostCandidates(traits, roosts)).0 == Some(e.value.roostSite)
    ensures e.None? && SeekingRoostTime(hour) && roost.None? && !(traits.activityPattern == Nocturnal && hour >= 20.0)
            ==> Best(RoostCandidates(traits, roosts)).0.None?
  {
    var best := Best(RoostCandidates(traits, roosts));
    if SeekingRoostTime(hour) && roost.None? && !(traits.activityPattern == Nocturnal && hour >= 20.0) && best.0.Some? then
      Some(RoostEvent(entity, best.0.value, Arrival))
    else None
  }

  /** The departure a bird reports in dawn_departure_system, from its roost before the frame. */
  function DepartureOf(entity: Entity, traits: NocturnalTraits, roost: Option<Entity>, hour: real): (e: Option<RoostEvent>)
    ensures e.Some? <==> 6.0 <= hour <= 8.0 && traits.activityPattern != Nocturnal && roost.Some?
                         && hour >= 6.0 + traits.dawnDepartureTime
    ensures e.Some? ==> e.value.bird == entity && Some(e.value.roostSite) == roost && e.value.eventType == Departure
  {
    if 6.0 <= hour <= 8.0 && traits.activityPattern != Nocturnal && roost.Some? && hour >= 6.0 + traits.dawnDepartureTime then
      Some(RoostEvent(entity, roost.value, Departure))
    else None
  }

  /** A bird's state together with its night behaviour component. */
  class NocturnalBird {
    const entity: Entity
    const traits: NocturnalTraits
    var state: BirdState
    var currentRoost: Option<Entity>
    var huntingSuccessRate: real
    var energyLevel: real
    var lastHuntTime: real
    var roostArrivalTime: Option<real>

    /** initialize_nocturnal_behavior: the component a bird receives on first sight. */
    constructor (entity: Entity, species: BirdSpecies, state: BirdState)
      ensures this.entity == entity && traits == TraitsOf(species) && this.state == state
      ensures currentRoost == None && huntingSuccessRate == 0.5 && energyLevel == 0.8
      ensures lastHuntTime == 0.0 && roostArrivalTime == None
    {
      this.entity := entity;
      traits := TraitsOf(species);
      this.state := state;
      currentRoost := None;
      huntingSuccessRate := 0.5;
      energyLevel := 0.8;
      lastHuntTime := 0.0;
      roostArrivalTime := None;
    }

    /** nocturnal_activity_cycle_system for one bird. */
    method ActivityTick(hour: real)
      modifies this
      ensures Cycled(this, old(ViewOf(this)), hour)
      ensures 0.1 <= energyLevel <= 1.0
    {
      var m := ActivityModifier(traits.activityPattern, hour);
      energyLevel := Clamp(energyLevel * 0.99 + m * 0.01, 0.1, 1.0);
      if m < 0.3 {
        if state != Fleeing {
          state := Resting;
        }
      } else if m > 0.8 {
        if traits.activityPattern == Nocturnal && IsNight(hour) {
          if state == Resting {
            state := Wandering;
          }
        }
      }
    }

    /**
     * owl_hunting_system for one bird: a nocturnal hunter whose cooldown is
     * over picks the best territory in reach and hunts there; `roll` is the
     * random draw in [0, 1) the hunt's success is decided by.
     */
    method Hunt(hour: real, territories: seq<TerritoryView>, roll: real) returns (event: Option<HuntingEvent>)
      modifies this
      ensures event == HuntOf(entity, traits, old(energyLevel), old(lastHuntTime), hour, territories, roll)
      ensures Hunted(this, old(ViewOf(this)), hour, territories, roll)
    {
      if !PrimeHunting(hour) {
        return None;
      }
      if traits.activityPattern != Nocturnal || traits.huntingEfficiency < 0.5 {
        return None;
      }
      if !HuntCooldownOver(hour, lastHuntTime) {
        return None;
      }
      var bestTerritory, bestScore := BestTerritory(territories);
      if bestTerritory.Some? {
        var success := roll < traits.huntingEfficiency * traits.nightVisionQuality * energyLevel * bestScore;
        lastHuntTime := hour;
        if success {
          huntingSuccessRate := Min(huntingSuccessRate * 0.9 + 0.1, 1.0);
          energyLevel := Min(energyLevel + 0.3, 1.0);
        } else {
          energyLevel := Max(energyLevel - 0.1, 0.1);
        }
        event := Some(HuntingEvent(entity, bestTerritory.value, success));
      } else {
        event := None;
      }
    }

    /**
     * roost_selection_system for one bird: in the roosting hours a bird
     * without a roost (and not an owl in its hunting hours) takes the best
     * suitable roost and reports its arrival.
     */
    method SelectRoost(hour: real, roosts: seq<RoostView>) returns (event: Option<RoostEvent>)
      modifies this
      ensures event == ArrivalOf(entity, traits, old(currentRoost), hour, roosts)
      ensures Roosted(this, old(ViewOf(this)), hour, roosts)
      ensures old(currentRoost).Some? ==> currentRoost == old(currentRoost)
    {
      if !SeekingRoostTime(hour) {
        return None;
      }
      if currentRoost.Some? || (traits.activityPattern == Nocturnal && hour >= 20.0) {
        return None;
      }
      var bestRoost, bestScore := BestRoost(traits, roosts);
      if bestRoost.Some? {
        currentRoost := bestRoost;
        roostArrivalTime := Some(hour);
        event := Some(RoostEvent(entity, bestRoost.value, Arrival));
      } else {
        event := None;
      }
    }

    /** dawn_departure_system for one bird: between 6 and 8, a roosting day bird leaves once its departure time is reached. */
    method DawnDeparture(hour: real) returns (event: Option<RoostEvent>)
      modifies this
      ensures event == DepartureOf(entity, traits, old(currentRoost), hour)
      ensures Departed(this, old(ViewOf(this)), hour)
    {
      var sunrise := 6.0;
      if hour < sunrise || hour > sunrise + 2.0 {
        return None;
      }
      if traits.activityPattern == Nocturnal {
        return None;
      }
      event := None;
      if currentRoost.Some? {
        var site := currentRoost.value;
        if hour >= sunrise + traits.dawnDepartureTime {
          currentRoost := None;
          roostArrivalTime := None;
          state := Wandering;
          event := Some(RoostEvent(entity, site, Departure));
        }
      }
    }
  }

  /** A day bird can leave its roost in the dawn window: every departure time falls within it. */
  lemma DepartureWithinDawnWindow(s: BirdSpecies)
    ensures 6.0 <= 6.0 + TraitsOf(s).dawnDepartureTime <= 8.0
  {
  }

  // ---- roost sites ----

  /** The occupancy change one roost event makes. */
  function ApplyRoostEvent(occupancy: nat, t: RoostEventType): (r: nat)
    ensures t == Arrival ==> r == occupancy + 1
    ensures t == Departure ==> r == if occupancy == 0 then 0 else occupancy - 1
    ensures t != Arrival && t != Departure ==> r == occupancy
  {
    match t
    case Arrival => occupancy + 1
    case Departure => if occupancy == 0 then 0 else occupancy - 1
    case _ => occupancy
  }

  /** A site's occupancy after a list of events, of which only those naming the site count. */
  function Occupancy(occupancy: nat, site: Entity, events: seq<RoostEvent>): nat
  {
    if events == [] then occupancy
    else
      var n := |events| - 1;
      var before := Occupancy(occupancy, site, events[..n]);
      if events[n].roostSite == site then ApplyRoostEvent(before, events[n].eventType) else before
  }

  /** An arrival followed by a departure of the same bird leaves the count as it was. */
  lemma ArrivalThenDepartureRestores(occupancy: nat, site: Entity, events: seq<RoostEvent>, bird: Entity)
    ensures Occupancy(occupancy, site, events + [RoostEvent(bird, site, Arrival), RoostEvent(bird, site, Departure)])
         == Occupancy(occupancy, site, events)
  {
    var e := events + [RoostEvent(bird, site, Arrival), RoostEvent(bird, site, Departure)];
    assert e[..|e| - 1] == events + [RoostEvent(bird, site, Arrival)];
    assert e[..|e| - 1][..|e| - 2] == events;
  }

  /** Occupancy never rises by more than the number of arrivals at the site. */
  lemma {:induction false} OccupancyBoundedByArrivals(occupancy: nat, site: Entity, events: seq<RoostEvent>)
    ensures Occupancy(occupancy, site, events) <= occupancy + |events|
  {
    if events != [] {
      OccupancyBoundedByArrivals(occupancy, site, events[..|events| - 1]);
    }
  }

  class RoostSite {
    const entity: Entity
    const roostType: RoostType
    const capacity: nat
    var currentOccupancy: nat
    const quality: real
    const safetyRating: real

    constructor (entity: Entity, roostType: RoostType, quality: real, safetyRating: real)
      ensures this.entity == entity && this.roostType == roostType && capacity == SiteCapacity(roostType)
      ensures currentOccupancy == 0 && this.quality == quality && this.safetyRating == safetyRating
    {
      this.entity := entity;
      this.roostType := roostType;
      capacity := SiteCapacity(roostType);
      currentOccupancy := 0;
      this.quality := quality;
      this.safetyRating := safetyRating;
    }
  }

  /** The capacity a roost site is set up with. */
  function SiteCapacity(t: RoostType): (c: nat)
    ensures c >= 2
    ensures t == CommunalSite ==> c == 20
  {
    match t
    case TreeHollow => 2
    case CommunalSite => 20
    case ConiferousTree => 8
    case _ => 5
  }

  predicate DistinctSites(sites: seq<RoostSite>)
    reads set s | s in sites
  {
    forall i, j :: 0 <= i < j < |sites| ==> sites[i].entity != sites[j].entity
  }

  /** update_nocturnal_states: each event adjusts the site it names, if there is one. */
  method UpdateNocturnalStates(sites: seq<RoostSite>, events: seq<RoostEvent>)
    requires DistinctSites(sites)
    modifies set s | s in sites
    ensures forall s :: s in sites ==> s.currentOccupancy == Occupancy(old(s.currentOccupancy), s.entity, events)
  {
    for e := 0 to |events|
      invariant forall s :: s in sites ==> s.currentOccupancy == Occupancy(old(s.currentOccupancy), s.entity, events[..e])
    {
      assert events[..e + 1][..e] == events[..e];
      var ev := events[e];
      var j := 0;
      while j < |sites| && sites[j].entity != ev.roostSite
        invariant 0 <= j <= |sites|
        invariant forall k :: 0 <= k < j ==> sites[k].entity != ev.roostSite
      {
        j := j + 1;
      }
      if j < |sites| {
        var site := sites[j];
        site.currentOccupancy := ApplyRoostEvent(site.currentOccupancy, ev.eventType);
      }
    }
    assert events[..|events|] == events;
  }

  // ---- the manager and the per-frame systems ----

  class NocturnalManager {
    var activeRoostSites: seq<Entity>
    var migrationActive: bool
    var dawnChorusStarted: bool
    var duskActivityPeak: bool

    constructor ()
      ensures activeRoostSites == [] && !migrationActive && !dawnChorusStarted && !duskActivityPeak
    {
      activeRoostSites := [];
      migrationActive := false;
      dawnChorusStarted := false;
      duskActivityPeak := false;
    }
  }

  /** Migration runs on spring and autumn nights (21:00 to 05:00). */
  function MigrationActive(hour: real, season: Season): (b: bool)
    ensures b ==> season == Spring || season == Fall
    ensures !(hour >= 21.0 || hour <= 5.0) ==> !b
  {
    (hour >= 21.0 || hour <= 5.0) && (season == Spring || season == Fall)
  }

  // ---- what each system yields over the birds, in query order ----

  /** A bird's night state at one moment: the values each per-frame system starts from. */
  datatype NightBirdView = NightBirdView(entity: Entity, traits: NocturnalTraits, state: BirdState,
                                         roost: Option<Entity>, rate: real, energy: real, lastHuntTime: real,
                                         arrival: Option<real>)

  function ViewOf(b: NocturnalBird): NightBirdView
    reads b
  {
    NightBirdView(b.entity, b.traits, b.state, b.currentRoost, b.huntingSuccessRate, b.energyLevel, b.lastHuntTime,
                  b.roostArrivalTime)
  }

  /** The birds' views, in query order. */
  function Views(birds: seq<NocturnalBird>): (r: seq<NightBirdView>)
    reads set b | b in birds
    ensures |r| == |birds|
    ensures forall i :: 0 <= i < |birds| ==> r[i] == ViewOf(birds[i])
  {
    if birds == [] then [] else Views(birds[..|birds| - 1]) + [ViewOf(birds[|birds| - 1])]
  }

  /** The hunting events owl_hunting_system emits, one per bird that hunts, in query order. */
  function Hunts(hour: real, vs: seq<NightBirdView>, territories: seq<seq<TerritoryView>>, rolls: seq<real>)
    : seq<HuntingEvent>
    requires |territories| == |vs| && |rolls| == |vs|
  {
    if vs == [] then []
    else
      var n := |vs| - 1;
      var e := HuntOf(vs[n].entity, vs[n].traits, vs[n].energy, vs[n].lastHuntTime, hour, territories[n], rolls[n]);
      Hunts(hour, vs[..n], territories[..n], rolls[..n]) + (if e.Some? then [e.value] else [])
  }

  /** The arrivals roost_selection_system reports, one per bird that takes a roost, in query order. */
  function Arrivals(hour: real, vs: seq<NightBirdView>, roosts: seq<seq<RoostView>>): seq<RoostEvent>
    requires |roosts| == |vs|
  {
    if vs == [] then []
    else
      var n := |vs| - 1;
      var e := ArrivalOf(vs[n].entity, vs[n].traits, vs[n].roost, hour, roosts[n]);
      Arrivals(hour, vs[..n], roosts[..n]) + (if e.Some? then [e.value] else [])
  }

  /** The sites roost_selection_system notes in the manager: those of the arrivals of communal roosters. */
  function CommunalArrivalSites(hour: real, vs: seq<NightBirdView>, roosts: seq<seq<RoostView>>): seq<Entity>
    requires |roosts| == |vs|
  {
    if vs == [] then []
    else
      var n := |vs| - 1;
      var e := ArrivalOf(vs[n].entity, vs[n].traits, vs[n].roost, hour, roosts[n]);
      CommunalArrivalSites(hour, vs[..n], roosts[..n])
        + (if e.Some? && vs[n].traits.formsCommunalRoosts then [e.value.roostSite] else [])
  }

  /** The arrivals and noted sites of the first i + 1 birds extend those of the first i by bird i's turn. */
  lemma RoostPrefixStep(hour: real, vs: seq<NightBirdView>, roosts: seq<seq<RoostView>>, i: int)
    requires 0 <= i < |vs| == |roosts|
    ensures var e := ArrivalOf(vs[i].entity, vs[i].traits, vs[i].roost, hour, roosts[i]);
      && Arrivals(hour, vs[..i + 1], roosts[..i + 1]) == Arrivals(hour, vs[..i], roosts[..i]) + (if e.Some? then [e.value] else [])
      && CommunalArrivalSites(hour, vs[..i + 1], roosts[..i + 1])
         == CommunalArrivalSites(hour, vs[..i], roosts[..i])
            + (if e.Some? && vs[i].traits.formsCommunalRoosts then [e.value.roostSite] else [])
  {
    assert vs[..i + 1][..i] == vs[..i] && roosts[..i + 1][..i] == roosts[..i];
  }

  /** Out of the prime hunting hours no bird hunts; otherwise each bird hunts at most once, as its own hunter. */
  lemma {:induction false} HuntsFacts(hour: real, vs: seq<NightBirdView>, territories: seq<seq<TerritoryView>>, rolls: seq<real>)
    requires |territories| == |vs| && |rolls| == |vs|
    ensures |Hunts(hour, vs, territories, rolls)| <= |vs|
    ensures !PrimeHunting(hour) ==> Hunts(hour, vs, territories, rolls) == []
    ensures forall e :: e in Hunts(hour, vs, territories, rolls) ==> exists k :: 0 <= k < |vs| && vs[k].entity == e.hunter
  {
    if vs != [] {
      var n := |vs| - 1;
      HuntsFacts(hour, vs[..n], territories[..n], rolls[..n]);
      forall e | e in Hunts(hour, vs, territories, rolls)
        ensures exists k :: 0 <= k < |vs| && vs[k].entity == e.hunter
      {
        if e in Hunts(hour, vs[..n], territories[..n], rolls[..n]) {
          var k :| 0 <= k < n && vs[..n][k].entity == e.hunter;
          assert vs[k].entity == e.hunter;
        } else {
          assert vs[n].entity == e.hunter;
        }
      }
    }
  }

  /** Out of the roosting hours no bird arrives; otherwise only roostless birds arrive, each at most once. */
  lemma {:induction false} ArrivalsFacts(hour: real, vs: seq<NightBirdView>, roosts: seq<seq<RoostView>>)
    requires |roosts| == |vs|
    ensures |Arrivals(hour, vs, roosts)| <= |vs|
    ensures !SeekingRoostTime(hour) ==> Arrivals(hour, vs, roosts) == []
    ensures forall e :: e in Arrivals(hour, vs, roosts) ==>
      e.eventType == Arrival && exists k :: 0 <= k < |vs| && vs[k].entity == e.bird && vs[k].roost.None?
    ensures |CommunalArrivalSites(hour, vs, roosts)| <= |Arrivals(hour, vs, roosts)|
  {
    if vs != [] {
      var n := |vs| - 1;
      ArrivalsFacts(hour, vs[..n], roosts[..n]);
      forall e | e in Arrivals(hour, vs, roosts)
        ensures e.eventType == Arrival && exists k :: 0 <= k < |vs| && vs[k].entity == e.bird && vs[k].roost.None?
      {
        if e in Arrivals(hour, vs[..n], roosts[..n]) {
          var k :| 0 <= k < n && vs[..n][k].entity == e.bird && vs[..n][k].roost.None?;
          assert vs[k].entity == e.bird;
        } else {
          assert vs[n].entity == e.bird;
        }
      }
    }
  }

  /** Every site noted in the manager is the site of one of the frame's arrivals. */
  lemma {:induction false} CommunalSitesArrived(hour: real, vs: seq<NightBirdView>, roosts: seq<seq<RoostView>>, s: Entity)
    requires |roosts| == |vs|
    requires s in CommunalArrivalSites(hour, vs, roosts)
    ensures exists e :: e in Arrivals(hour, vs, roosts) && e.roostSite == s && e.eventType == Arrival
  {
    var n := |vs| - 1;
    if s in CommunalArrivalSites(hour, vs[..n], roosts[..n]) {
      CommunalSitesArrived(hour, vs[..n], roosts[..n], s);
      var e :| e in Arrivals(hour, vs[..n], roosts[..n]) && e.roostSite == s && e.eventType == Arrival;
      assert e in Arrivals(hour, vs, roosts);
    } else {
      var e := ArrivalOf(vs[n].entity, vs[n].traits, vs[n].roost, hour, roosts[n]);
      assert e.value in Arrivals(hour, vs, roosts);
    }
  }

  /** The hunts of the first i + 1 birds extend those of the first i by bird i's hunt. */
  lemma HuntsPrefixStep(hour: real, vs: seq<NightBirdView>, territories: seq<seq<TerritoryView>>, rolls: seq<real>, i: int)
    requires 0 <= i < |vs| == |territories| == |rolls|
    ensures var e := HuntOf(vs[i].entity, vs[i].traits, vs[i].energy, vs[i].lastHuntTime, hour, territories[i], rolls[i]);
      Hunts(hour, vs[..i + 1], territories[..i + 1], rolls[..i + 1])
      == Hunts(hour, vs[..i], territories[..i], rolls[..i]) + (if e.Some? then [e.value] else [])
  {
    assert vs[..i + 1][..i] == vs[..i];
    assert territories[..i + 1][..i] == territories[..i] && rolls[..i + 1][..i] == rolls[..i];
  }

  /** The departures dawn_departure_system reports, one per bird that leaves its roost, in query order. */
  function Departures(hour: real, vs: seq<NightBirdView>): seq<RoostEvent>
  {
    if vs == [] then []
    else
      var n := |vs| - 1;
      var e := DepartureOf(vs[n].entity, vs[n].traits, vs[n].roost, hour);
      Departures(hour, vs[..n]) + (if e.Some? then [e.value] else [])
  }

  /** Out of the dawn window no bird departs; otherwise only roosting day birds depart, each at most once. */
  lemma {:induction false} DeparturesFacts(hour: real, vs: seq<NightBirdView>)
    ensures |Departures(hour, vs)| <= |vs|
    ensures !(6.0 <= hour <= 8.0) ==> Departures(hour, vs) == []
    ensures forall e :: e in Departures(hour, vs) ==>
      e.eventType == Departure
      && (exists k :: 0 <= k < |vs| && vs[k].entity == e.bird && vs[k].roost == Some(e.roostSite)
                      && vs[k].traits.activityPattern != Nocturnal)
  {
    if vs != [] {
      var n := |vs| - 1;
      DeparturesFacts(hour, vs[..n]);
      forall e | e in Departures(hour, vs)
        ensures e.eventType == Departure
          && (exists k :: 0 <= k < |vs| && vs[k].entity == e.bird && vs[k].roost == Some(e.roostSite)
                          && vs[k].traits.activityPattern != Nocturnal)
      {
        if e in Departures(hour, vs[..n]) {
          var k :| 0 <= k < n && vs[..n][k].entity == e.bird && vs[..n][k].roost == Some(e.roostSite)
            && vs[..n][k].traits.activityPattern != Nocturnal;
          assert vs[k].entity == e.bird;
        } else {
          assert vs[n].entity == e.bird;
        }
      }
    }
  }

  /** The departures of the first i + 1 birds extend those of the first i by bird i's departure. */
  lemma DeparturesPrefixStep(hour: real, vs: seq<NightBirdView>, i: int)
    requires 0 <= i < |vs|
    ensures var e := DepartureOf(vs[i].entity, vs[i].traits, vs[i].roost, hour);
      Departures(hour, vs[..i + 1]) == Departures(hour, vs[..i]) + (if e.Some? then [e.value] else [])
  {
    assert vs[..i + 1][..i] == vs[..i];
  }

  /** Bird b took its activity turn from the state v: energy and state follow the hour, nothing else moves. */
  predicate Cycled(b: NocturnalBird, v: NightBirdView, hour: real)
    reads b
  {
    b.energyLevel == NextEnergy(v.energy, ActivityModifier(v.traits.activityPattern, hour))
    && b.state == CycleState(v.state, v.traits.activityPattern, hour)
    && b.currentRoost == v.roost && b.roostArrivalTime == v.arrival
    && b.huntingSuccessRate == v.rate && b.lastHuntTime == v.lastHuntTime
  }

  /** Bird b took its hunting turn from the state v: a hunt moves energy, success rate and last hunt time, nothing else. */
  predicate Hunted(b: NocturnalBird, v: NightBirdView, hour: real, territories: seq<TerritoryView>, roll: real)
    reads b
  {
    var e := HuntOf(v.entity, v.traits, v.energy, v.lastHuntTime, hour, territories, roll);
    b.state == v.state && b.currentRoost == v.roost && b.roostArrivalTime == v.arrival
    && if e.Some? then
         b.lastHuntTime == hour && b.energyLevel == HuntEnergy(v.energy, e.value.success)
         && b.huntingSuccessRate == HuntSuccessRate(v.rate, e.value.success)
       else
         b.lastHuntTime == v.lastHuntTime && b.energyLevel == v.energy && b.huntingSuccessRate == v.rate
  }

  /** Bird b took its roost-selection turn from the state v: an arrival sets the roost and arrival time, nothing else. */
  predicate Roosted(b: NocturnalBird, v: NightBirdView, hour: real, roosts: seq<RoostView>)
    reads b
  {
    var e := ArrivalOf(v.entity, v.traits, v.roost, hour, roosts);
    b.state == v.state && b.energyLevel == v.energy && b.huntingSuccessRate == v.rate && b.lastHuntTime == v.lastHuntTime
    && if e.Some? then b.currentRoost == Some(e.value.roostSite) && b.roostArrivalTime == Some(hour)
       else b.currentRoost == v.roost && b.roostArrivalTime == v.arrival
  }

  /** Bird b took its dawn turn from the state v: a departure clears the roost and sets the bird wandering. */
  predicate Departed(b: NocturnalBird, v: NightBirdView, hour: real)
    reads b
  {
    b.energyLevel == v.energy && b.huntingSuccessRate == v.rate && b.lastHuntTime == v.lastHuntTime
    && if DepartureOf(v.entity, v.traits, v.roost, hour).Some? then
         b.currentRoost == None && b.roostArrivalTime == None && b.state == Wandering
       else b.currentRoost == v.roost && b.roostArrivalTime == v.arrival && b.state == v.state
  }

  /** nocturnal_activity_cycle_system: the manager's dusk and dawn flags, then every bird's energy and state. */
  method ActivityCycleSystem(hour: real, manager: NocturnalManager, birds: seq<NocturnalBird>)
    requires Distinct(birds)
    modifies manager, set b | b in birds
    ensures manager.duskActivityPeak == IsDusk(hour) && manager.dawnChorusStarted == IsDawn(hour)
    ensures manager.activeRoostSites == old(manager.activeRoostSites) && manager.migrationActive == old(manager.migrationActive)
    ensures forall i :: 0 <= i < |birds| ==> Cycled(birds[i], old(ViewOf(birds[i])), hour)
  {
    ghost var vs := Views(birds);
    manager.duskActivityPeak := IsDusk(hour);
    manager.dawnChorusStarted := IsDawn(hour);
    for i := 0 to |birds|
      invariant manager.duskActivityPeak == IsDusk(hour) && manager.dawnChorusStarted == IsDawn(hour)
      invariant manager.activeRoostSites == old(manager.activeRoostSites) && manager.migrationActive == old(manager.migrationActive)
      invariant forall j :: 0 <= j < i ==> Cycled(birds[j], vs[j], hour)
      invariant forall j :: i <= j < |birds| ==> ViewOf(birds[j]) == vs[j]
    {
      birds[i].ActivityTick(hour);
    }
  }

  /** One bird's turn in roost_selection_system: it selects a roost, and a communal rooster's arrival is noted in the manager. */
  method RoostTurn(hour: real, manager: NocturnalManager, b: NocturnalBird, roosts: seq<RoostView>)
    returns (ev: Option<RoostEvent>)
    modifies manager, b
    ensures ev == ArrivalOf(b.entity, b.traits, old(b.currentRoost), hour, roosts)
    ensures Roosted(b, old(ViewOf(b)), hour, roosts)
    ensures manager.activeRoostSites
         == old(manager.activeRoostSites) + (if ev.Some? && b.traits.formsCommunalRoosts then [ev.value.roostSite] else [])
    ensures manager.migrationActive == old(manager.migrationActive)
  {
    ev := b.SelectRoost(hour, roosts);
    if ev.Some? && b.traits.formsCommunalRoosts {
      manager.activeRoostSites := manager.activeRoostSites + [ev.value.roostSite];
    }
  }

  /** roost_selection_system: `roosts[i]` is the roost sites as seen from bird i. Communal arrivals are noted in the manager. */
  method RoostSelectionSystem(hour: real, manager: NocturnalManager, birds: seq<NocturnalBird>, roosts: seq<seq<RoostView>>)
    returns (events: seq<RoostEvent>)
    requires Distinct(birds) && |roosts| == |birds|
    modifies manager, set b | b in birds
    ensures events == Arrivals(hour, old(Views(birds)), roosts)
    ensures manager.activeRoostSites == old(manager.activeRoostSites) + CommunalArrivalSites(hour, old(Views(birds)), roosts)
    ensures forall i :: 0 <= i < |birds| ==> Roosted(birds[i], old(ViewOf(birds[i])), hour, roosts[i])
  {
    ghost var vs := Views(birds);
    ghost var noted: seq<Entity> := [];
    events := [];
    for i := 0 to |birds|
      invariant events == Arrivals(hour, vs[..i], roosts[..i])
      invariant noted == CommunalArrivalSites(hour, vs[..i], roosts[..i])
      invariant manager.activeRoostSites == old(manager.activeRoostSites) + noted
      invariant forall j :: 0 <= j < i ==> Roosted(birds[j], vs[j], hour, roosts[j])
      invariant forall j :: i <= j < |birds| ==> ViewOf(birds[j]) == vs[j]
    {
      RoostPrefixStep(hour, vs, roosts, i);
      var ev := RoostTurn(hour, manager, birds[i], roosts[i]);
      noted := noted + if ev.Some? && birds[i].traits.formsCommunalRoosts then [ev.value.roostSite] else [];
      if ev.Some? {
        events := events + [ev.value];
      }
    }
    assert vs[..|birds|] == vs && roosts[..|birds|] == roosts;
  }

  /** owl_hunting_system: `territories[i]` is the territories as seen from bird i, `rolls[i]` its random draw. */
  method OwlHuntingSystem(hour: real, birds: seq<NocturnalBird>, territories: seq<seq<TerritoryView>>, rolls: seq<real>)
    returns (events: seq<HuntingEvent>)
    requires Distinct(birds) && |territories| == |birds| && |rolls| == |birds|
    modifies set b | b in birds
    ensures events == Hunts(hour, old(Views(birds)), territories, rolls)
    ensures forall i :: 0 <= i < |birds| ==> Hunted(birds[i], old(ViewOf(birds[i])), hour, territories[i], rolls[i])
  {
    ghost var vs := Views(birds);
    events := [];
    if !PrimeHunting(hour) {
      HuntsFacts(hour, vs, territories, rolls);
      return;
    }
    for i := 0 to |birds|
      invariant events == Hunts(hour, vs[..i], territories[..i], rolls[..i])
      invariant forall j :: 0 <= j < i ==> Hunted(birds[j], vs[j], hour, territories[j], rolls[j])
      invariant forall j :: i <= j < |birds| ==> ViewOf(birds[j]) == vs[j]
    {
      HuntsPrefixStep(hour, vs, territories, rolls, i);
      var ev := birds[i].Hunt(hour, territories[i], rolls[i]);
      if ev.Some? {
        events := events + [ev.value];
      }
    }
    assert vs[..|birds|] == vs && territories[..|birds|] == territories && rolls[..|birds|] == rolls;
  }

  /** dawn_departure_system: every departure it reports leaves the bird without a roost and wandering. */
  method DawnDepartureSystem(hour: real, birds: seq<NocturnalBird>) returns (events: seq<RoostEvent>)
    requires Distinct(birds)
    modifies set b | b in birds
    ensures events == Departures(hour, old(Views(birds)))
    ensures forall i :: 0 <= i < |birds| ==> Departed(birds[i], old(ViewOf(birds[i])), hour)
  {
    ghost var vs := Views(birds);
    events := [];
    for i := 0 to |birds|
      invariant events == Departures(hour, vs[..i])
      invariant forall j :: 0 <= j < i ==> Departed(birds[j], vs[j], hour)
      invariant forall j :: i <= j < |birds| ==> ViewOf(birds[j]) == vs[j]
    {
      DeparturesPrefixStep(hour, vs, i);
      var ev := birds[i].DawnDeparture(hour);
      if ev.Some? {
        events := events + [ev.value];
      }
    }
    assert vs[..|birds|] == vs;
  }

  /** night_migration_system's flag; the migration moves themselves are left out. */
  method NightMigrationSystem(hour: real, season: Season, manager: NocturnalManager)
    modifies manager
    ensures manager.migrationActive == MigrationActive(hour, season)
    ensures manager.activeRoostSites == old(manager.activeRoostSites)
    ensures manager.dawnChorusStarted == old(manager.dawnChorusStarted) && manager.duskActivityPeak == old(manager.duskActivityPeak)
  {
    var isNight := hour >= 21.0 || hour <= 5.0;
    var isMigrationSeason := season == Spring || season == Fall;
    if !isNight || !isMigrationSeason {
      manager.migrationActive := false;
      return;
    }
    manager.migrationActive := true;
  }
}
