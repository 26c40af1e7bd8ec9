/**
 * Predators and their prey: which species hunt, how a predator picks and
 * strikes its prey, how the prey escapes, and how alarm calls and sightings
 * spread fear through the other birds.
 */
module PredatorPrey {
  import opened Wrappers
  import opened Species
  import opened Numbers
  import opened Collections
  import opened BirdAiComponents
  import BirdAiSystems

  /** A world position; only carried from an attack to the alarm it raises. */
  datatype Vec3 = Vec3(x: real, y: real, z: real)

  // ---- who hunts ----

  /** is_predator_species: the two owls, the two hawks and the falcon. */
  predicate IsPredatorSpecies(s: BirdSpecies)
  {
    s == CoopersHawk || s == RedTailedHawk || s == PeregrineFalcon || s == GreatHornedOwl || s == BarredOwl
  }

  /** The predators, as a set. */
  function PredatorSpecies(): (r: set<BirdSpecies>)
    ensures |r| == 5
    ensures forall s :: s in r <==> IsPredatorSpecies(s)
  {
    {CoopersHawk, RedTailedHawk, PeregrineFalcon, GreatHornedOwl, BarredOwl}
  }

  // ---- the traits each bird is given ----

  datatype HuntingStyle = Ambush | Pursuit | Soaring | Perching

  datatype EscapeBehavior = Scatter | Freeze | Mob | Dive

  datatype PredatorTraits = PredatorTraits(
    huntingStyle: HuntingStyle,
    attackRange: real,
    successRate: real,
    preferredPrey: seq<BirdSpecies>)

  datatype PreyTraits = PreyTraits(
    escapeBehavior: EscapeBehavior,
    alertRange: real,
    fearRecoveryTime: real,
    groupSafetyBonus: real)

  /** The hunting style as the match is written: the hawks share the first arm, so the red-tailed hawk pursues. */
  function HuntingStyleAsWritten(s: BirdSpecies): HuntingStyle
  {
    if s == CoopersHawk || s == RedTailedHawk then Pursuit
    else if s == RedTailedHawk then Soaring
    else if s == PeregrineFalcon then Soaring
    else if s == GreatHornedOwl || s == BarredOwl then Ambush
    else Perching
  }

  /** The hunting style with the red-tailed hawk's own arm in effect. */
  function HuntingStyleOf(s: BirdSpecies): (h: HuntingStyle)
    ensures h == Soaring <==> s == RedTailedHawk || s == PeregrineFalcon
    ensures h == Pursuit <==> s == CoopersHawk
    ensures h == Ambush <==> s == GreatHornedOwl || s == BarredOwl
    ensures h == Perching <==> !IsPredatorSpecies(s)
  {
    if s == CoopersHawk then Pursuit
    else if s == RedTailedHawk || s == PeregrineFalcon then Soaring
    else if s == GreatHornedOwl || s == BarredOwl then Ambush
    else Perching
  }

  /** The prey lists as the match is written: the red-tailed hawk gets the Cooper's hawk's small songbirds. */
  function PreferredPreyAsWritten(s: BirdSpecies): seq<BirdSpecies>
  {
    if s == CoopersHawk || s == RedTailedHawk then [HouseFinch, Sparrow, Chickadee, CarolinaWren]
    else if s == RedTailedHawk then [EuropeanStarling, MourningDove, BlueJay]
    else if s == PeregrineFalcon then [EuropeanStarling, MourningDove, Robin]
    else if s == GreatHornedOwl then [EuropeanStarling, MourningDove, BlueJay, CommonCrow]
    else if s == BarredOwl then [CarolinaWren, Chickadee, WhiteBreastedNuthatch]
    else []
  }

  /** The prey lists with the red-tailed hawk's own arm in effect. */
  function PreferredPrey(s: BirdSpecies): (r: seq<BirdSpecies>)
    ensures r != [] <==> IsPredatorSpecies(s)
    ensures forall k :: 0 <= k < |r| ==> !IsPredatorSpecies(r[k])
  {
    if s == CoopersHawk then [HouseFinch, Sparrow, Chickadee, CarolinaWren]
    else if s == RedTailedHawk then [EuropeanStarling, MourningDove, BlueJay]
    else if s == PeregrineFalcon then [EuropeanStarling, MourningDove, Robin]
    else if s == GreatHornedOwl then [EuropeanStarling, MourningDove, BlueJay, CommonCrow]
    else if s == BarredOwl then [CarolinaWren, Chickadee, WhiteBreastedNuthatch]
    else []
  }

  /**
   * As written, the red-tailed hawk's own arms are shadowed by the arm it
   * shares with the Cooper's hawk: it pursues small songbirds instead of
   * soaring after starlings, doves and jays; the corrected tables differ
   * from the written ones for that species alone.
   */
  lemma AsWrittenRedTailedHawkShadowed(s: BirdSpecies)
    ensures HuntingStyleAsWritten(RedTailedHawk) == Pursuit && HuntingStyleOf(RedTailedHawk) == Soaring
    ensures PreferredPreyAsWritten(RedTailedHawk) == PreferredPreyAsWritten(CoopersHawk)
    ensures PreferredPrey(RedTailedHawk) != PreferredPrey(CoopersHawk)
    ensures s != RedTailedHawk ==>
      HuntingStyleAsWritten(s) == HuntingStyleOf(s) && PreferredPreyAsWritten(s) == PreferredPrey(s)
  {
  }

  /** setup_predator_traits for a predator: its style, range, success rate and prey. */
  function PredatorTraitsOf(s: BirdSpecies): (t: PredatorTraits)
    ensures t.huntingStyle == HuntingStyleOf(s) && t.preferredPrey == PreferredPrey(s)
    ensures 250.0 <= t.attackRange <= 500.0
    ensures 0.5 <= t.successRate <= 0.7
    ensures t.attackRange == 500.0 <==> s == PeregrineFalcon
  {
    PredatorTraits(
      HuntingStyleOf(s),
      if s == PeregrineFalcon then 500.0
      else if s == RedTailedHawk then 400.0
      else if s == GreatHornedOwl then 300.0
      else 250.0,
      if s == PeregrineFalcon then 0.7
      else if s == CoopersHawk then 0.6
      else if s == GreatHornedOwl then 0.65
      else 0.5,
      PreferredPrey(s))
  }

  /** setup_predator_traits for every other bird: how it escapes and how far its alarm carries. */
  function PreyTraitsOf(s: BirdSpecies): (t: PreyTraits)
    ensures t.escapeBehavior == Mob <==> s == Chickadee || s == TuftedTitmouse
    ensures t.escapeBehavior == Dive <==> s == CarolinaWren || s == WhiteBreastedNuthatch
    ensures t.escapeBehavior != Freeze
    ensures 200.0 <= t.alertRange <= 400.0
    ensures t.alertRange == 400.0 <==> s == BlueJay || s == CommonCrow
    ensures t.fearRecoveryTime == 30.0 && t.groupSafetyBonus == 0.3
  {
    PreyTraits(
      if s == Chickadee || s == TuftedTitmouse then Mob
      else if s == CarolinaWren || s == WhiteBreastedNuthatch then Dive
      else Scatter,
      if s == BlueJay || s == CommonCrow then 400.0
      else if s == Chickadee then 300.0
      else 200.0,
      30.0,
      0.3)
  }

  // ---- hunting ----

  datatype AttackEvent = AttackEvent(predator: Entity, target: Entity, attackPosition: Vec3, success: bool)

  /** A bird the predator might strike: its distance and the random draw that decides whether it is considered. */
  datatype PreyCandidate = PreyCandidate(entity: Entity, species: BirdSpecies, distance: real, draw: real)

  /** The bonus a predator adds for its preferred prey. */
  function PreferenceBonus(t: PredatorTraits, c: PreyCandidate): real
  {
    if c.species in t.preferredPrey then 0.5 else 0.0
  }

  /** The chance a prey is considered: success rate plus a bonus for preferred prey, scaled by closeness. */
  function HuntProbability(t: PredatorTraits, c: PreyCandidate): real
    requires t.attackRange > 0.0
  {
    (t.successRate + PreferenceBonus(t, c)) * (t.attackRange - c.distance) / t.attackRange
  }

  /** A candidate within range whose draw fell under its hunt probability. */
  predicate Considered(t: PredatorTraits, c: PreyCandidate)
    requires t.attackRange > 0.0
  {
    c.distance <= t.attackRange && c.draw < HuntProbability(t, c)
  }

  /** The index of the prey the scan ends on: a considered candidate replaces the current one only if strictly closer. */
  function ClosestIndex(t: PredatorTraits, cs: seq<PreyCandidate>): (r: Option<nat>)
    requires t.attackRange > 0.0
    ensures r.Some? ==> r.value < |cs| && Considered(t, cs[r.value])
    decreases |cs|
  {
    if cs == [] then None
    else
      var n := |cs| - 1;
      var prev := ClosestIndex(t, cs[..n]);
      if Considered(t, cs[n]) && (prev.None? || cs[n].distance < cs[prev.value].distance) then Some(n)
      else prev
  }

  /** The scan picks none exactly when no candidate is considered. */
  lemma {:induction false} ClosestNoneIff(t: PredatorTraits, cs: seq<PreyCandidate>)
    requires t.attackRange > 0.0
    ensures ClosestIndex(t, cs).None? <==> forall k :: 0 <= k < |cs| ==> !Considered(t, cs[k])
    decreases |cs|
  {
    if cs != [] {
      var n := |cs| - 1;
      ClosestNoneIff(t, cs[..n]);
      assert forall k :: 0 <= k < n ==> cs[..n][k] == cs[k];
    }
  }

  /** The scan's pick is a nearest considered candidate, and no earlier one is as near. */
  lemma {:induction false} ClosestIsNearest(t: PredatorTraits, cs: seq<PreyCandidate>)
    requires t.attackRange > 0.0
    ensures ClosestIndex(t, cs).Some? ==> var i := ClosestIndex(t, cs).value;
      (forall k :: 0 <= k < |cs| && Considered(t, cs[k]) ==> cs[i].distance <= cs[k].distance)
      && (forall k :: 0 <= k < i && Considered(t, cs[k]) ==> cs[i].distance < cs[k].distance)
    decreases |cs|
  {
    if cs != [] {
      var n := |cs| - 1;
      var prev := ClosestIndex(t, cs[..n]);
      ClosestIsNearest(t, cs[..n]);
      ClosestNoneIff(t, cs[..n]);
      assert forall k :: 0 <= k < n ==> cs[..n][k] == cs[k];
      if Considered(t, cs[n]) && (prev.None? || cs[n].distance < cs[prev.value].distance) {
        assert ClosestIndex(t, cs) == Some(n);
      } else {
        assert ClosestIndex(t, cs) == prev;
      }
    }
  }

  /**
   * The scan picks the nearest considered candidate, the first of them on a
   * tie, and picks none exactly when no candidate is considered.
   */
  lemma ClosestIsFirstNearest(t: PredatorTraits, cs: seq<PreyCandidate>)
    requires t.attackRange > 0.0
    ensures ClosestIndex(t, cs).None? <==> forall k :: 0 <= k < |cs| ==> !Considered(t, cs[k])
    ensures ClosestIndex(t, cs).Some? ==> var i := ClosestIndex(t, cs).value;
      (forall k :: 0 <= k < |cs| && Considered(t, cs[k]) ==> cs[i].distance <= cs[k].distance)
      && (forall k :: 0 <= k < i && Considered(t, cs[k]) ==> cs[i].distance < cs[k].distance)
  {
    ClosestNoneIff(t, cs);
    ClosestIsNearest(t, cs);
  }

  /** One more step of the scan: the next candidate replaces the current choice only when considered and strictly closer. */
  lemma ClosestIndexStep(t: PredatorTraits, cs: seq<PreyCandidate>, i: nat)
    requires t.attackRange > 0.0 && i < |cs|
    ensures var prev := ClosestIndex(t, cs[..i]);
      ClosestIndex(t, cs[..i + 1])
        == if Considered(t, cs[i]) && (prev.None? || cs[i].distance < cs[prev.value].distance) then Some(i) else prev
  {
    assert cs[..i + 1][..i] == cs[..i];
    var prev := ClosestIndex(t, cs[..i]);
    assert prev.Some? ==> cs[..i + 1][prev.value] == cs[prev.value];
  }

  /** The outcome of one predator's turn: its new energy and last hunt time, and the attack if it struck. */
  datatype HuntResult = HuntResult(energy: real, lastHuntTime: real, attack: Option<AttackEvent>)

  /**
   * One predator in predator_hunting_system: recover energy up to 1; hunt only
   * with energy 0.3 or more and 30 seconds since the last hunt; strike the
   * chosen prey, paying 0.4 energy. `successDraw` is the draw that decides
   * whether the strike succeeds.
   */
  function HuntStep(id: Entity, species: BirdSpecies, t: PredatorTraits, energy: real, lastHuntTime: real,
                    position: Vec3, dt: real, elapsed: real, cs: seq<PreyCandidate>, successDraw: real): (r: HuntResult)
    requires t.attackRange > 0.0
    ensures IsPredatorSpecies(species) || energy <= 1.0 ==> r.energy <= 1.0
    ensures !IsPredatorSpecies(species) ==> r == HuntResult(energy, lastHuntTime, None)
    ensures r.attack.None? ==> r.lastHuntTime == lastHuntTime
    ensures r.attack.Some? ==>
      IsPredatorSpecies(species) && elapsed - lastHuntTime >= 30.0
      && r.energy >= -0.1 && r.lastHuntTime == elapsed
      && r.attack.value.predator == id && r.attack.value.attackPosition == position
      && (r.attack.value.success <==> successDraw < t.successRate)
  {
    if !IsPredatorSpecies(species) then HuntResult(energy, lastHuntTime, None)
    else
      var recovered := Min(energy + dt * 0.1, 1.0);
      if recovered < 0.3 || elapsed - lastHuntTime < 30.0 then HuntResult(recovered, lastHuntTime, None)
      else match ClosestIndex(t, cs)
        case None => HuntResult(recovered, lastHuntTime, None)
        case Some(k) =>
          HuntResult(recovered - 0.4, elapsed, Some(AttackEvent(id, cs[k].entity, position, successDraw < t.successRate)))
  }

  class Predator {
    const id: Entity
    const species: BirdSpecies
    const traits: PredatorTraits
    var energy: real
    var lastHuntTime: real

    /** A predator as setup_predator_traits equips it: energy 0.8, never having hunted. */
    constructor (id: Entity, species: BirdSpecies)
      ensures this.id == id && this.species == species && traits == PredatorTraitsOf(species)
      ensures energy == 0.8 && lastHuntTime == 0.0
    {
      this.id := id;
      this.species := species;
      traits := PredatorTraitsOf(species);
      energy := 0.8;
      lastHuntTime := 0.0;
    }

    /** The check the prey scan makes on one candidate: within range, and the draw falls under the hunt probability. */
    method ConsidersPrey(c: PreyCandidate) returns (considered: bool)
      requires traits.attackRange > 0.0
      ensures considered == Considered(traits, c)
    {
      considered := false;
      if c.distance <= traits.attackRange {
        var preferenceBonus := if c.species in traits.preferredPrey then 0.5 else 0.0;
        var huntProbability := (traits.successRate + preferenceBonus) * (traits.attackRange - c.distance) / traits.attackRange;
        considered := c.draw < huntProbability;
      }
    }

    /** The prey scan of predator_hunting_system: the closest considered candidate and its distance. */
    method SelectPrey(cs: seq<PreyCandidate>) returns (closest: Option<(Entity, real)>)
      requires traits.attackRange > 0.0
      ensures closest.None? <==> ClosestIndex(traits, cs).None?
      ensures closest.Some? ==> var k := ClosestIndex(traits, cs).value;
        closest.value == (cs[k].entity, cs[k].distance)
    {
      closest := None;
      ghost var best: Option<nat> := None;
      for i := 0 to |cs|
        invariant best == ClosestIndex(traits, cs[..i])
        invariant closest.None? <==> best.None?
        invariant best.Some? ==> best.value < i && closest.value == (cs[best.value].entity, cs[best.value].distance)
      {
        ClosestIndexStep(traits, cs, i);
        var c := cs[i];
        var considered := ConsidersPrey(c);
        if considered && (closest.None? || c.distance < closest.value.1) {
          closest := Some((c.entity, c.distance));
        }
        best := ClosestIndex(traits, cs[..i + 1]);
      }
      assert cs[..|cs|] == cs;
    }

    /** One predator's turn in predator_hunting_system. */
    method Hunt(position: Vec3, dt: real, elapsed: real, cs: seq<PreyCandidate>, successDraw: real) returns (attack: Option<AttackEvent>)
      requires traits.attackRange > 0.0
      modifies this
      ensures HuntResult(energy, lastHuntTime, attack)
        == HuntStep(id, species, traits, old(energy), old(lastHuntTime), position, dt, elapsed, cs, successDraw)
    {
      attack := None;
      if !IsPredatorSpecies(species) {
        return;
      }
      energy := energy + dt * 0.1;
      energy := Min(energy, 1.0);
      if energy < 0.3 || elapsed - lastHuntTime < 30.0 {
        return;
      }
      var closest := SelectPrey(cs);
      if closest.Some? {
        attack := Some(AttackEvent(id, closest.value.0, position, successDraw < traits.successRate));
        energy := energy - 0.4;
        lastHuntTime := elapsed;
      }
    }
  }

  /**
   * A strike falls on the nearest considered candidate (the first of them on
   * a tie); a hungry enough predator past its cooldown holds back only when
   * no candidate is considered.
   */
  lemma StrikeOnNearestPrey(id: Entity, species: BirdSpecies, t: PredatorTraits, energy: real, lastHuntTime: real,
                            position: Vec3, dt: real, elapsed: real, cs: seq<PreyCandidate>, successDraw: real)
    requires t.attackRange > 0.0
    ensures var r := HuntStep(id, species, t, energy, lastHuntTime, position, dt, elapsed, cs, successDraw);
      r.attack.Some? ==>
        exists i :: 0 <= i < |cs| && cs[i].entity == r.attack.value.target && Considered(t, cs[i])
          && (forall k :: 0 <= k < |cs| && Considered(t, cs[k]) ==> cs[i].distance <= cs[k].distance)
          && (forall k :: 0 <= k < i && Considered(t, cs[k]) ==> cs[i].distance < cs[k].distance)
    ensures var r := HuntStep(id, species, t, energy, lastHuntTime, position, dt, elapsed, cs, successDraw);
      IsPredatorSpecies(species) && Min(energy + dt * 0.1, 1.0) >= 0.3 && elapsed - lastHuntTime >= 30.0 && r.attack.None? ==>
        forall k :: 0 <= k < |cs| ==> !Considered(t, cs[k])
  {
    ClosestIsFirstNearest(t, cs);
  }

  /** Predator energy never rises above 1, whatever the turn does. */
  lemma EnergyNeverAboveOne(id: Entity, species: BirdSpecies, t: PredatorTraits, energy: real, lastHuntTime: real,
                            position: Vec3, dt: real, elapsed: real, cs: seq<PreyCandidate>, successDraw: real)
    requires t.attackRange > 0.0 && energy <= 1.0
    ensures HuntStep(id, species, t, energy, lastHuntTime, position, dt, elapsed, cs, successDraw).energy <= 1.0
  {
  }

  /** A predator that has just struck cannot strike again on its next turn unless 30 seconds have passed. */
  lemma NoStrikeWithinCooldown(id: Entity, species: BirdSpecies, t: PredatorTraits, energy: real, lastHuntTime: real,
                               position: Vec3, dt: real, elapsed: real, cs: seq<PreyCandidate>, successDraw: real,
                               dt2: real, elapsed2: real, cs2: seq<PreyCandidate>, successDraw2: real)
    requires t.attackRange > 0.0
    requires HuntStep(id, species, t, energy, lastHuntTime, position, dt, elapsed, cs, successDraw).attack.Some?
    requires elapsed2 < elapsed + 30.0
    ensures var r := HuntStep(id, species, t, energy, lastHuntTime, position, dt, elapsed, cs, successDraw);
      HuntStep(id, species, t, r.energy, r.lastHuntTime, position, dt2, elapsed2, cs2, successDraw2).attack.None?
  {
  }

  /** Predator p's energy and last hunt time are those its turn computes from the given starting values. */
  predicate TookTurn(p: Predator, energy: real, lastHuntTime: real, position: Vec3, dt: real, elapsed: real,
                     cs: seq<PreyCandidate>, successDraw: real)
    reads p
    requires p.traits.attackRange > 0.0
  {
    var r := HuntStep(p.id, p.species, p.traits, energy, lastHuntTime, position, dt, elapsed, cs, successDraw);
    p.energy == r.energy && p.lastHuntTime == r.lastHuntTime
  }

  /** A predator as its turn sees it: who it is and its energy and last hunt time before the turn. */
  datatype PredatorView = PredatorView(id: Entity, species: BirdSpecies, traits: PredatorTraits, energy: real, lastHuntTime: real)

  function PredatorViewOf(p: Predator): PredatorView
    reads p
  {
    PredatorView(p.id, p.species, p.traits, p.energy, p.lastHuntTime)
  }

  /** The views of the predators, in query order. */
  function PredatorViews(ps: seq<Predator>): (r: seq<PredatorView>)
    reads set p | p in ps
    ensures |r| == |ps| && forall i :: 0 <= i < |ps| ==> r[i] == PredatorViewOf(ps[i])
  {
    if ps == [] then [] else PredatorViews(ps[..|ps| - 1]) + [PredatorViewOf(ps[|ps| - 1])]
  }

  /** The turn inputs line up with the predators, and every predator has a positive attack range. */
  predicate TurnInputs(vs: seq<PredatorView>, positions: seq<Vec3>, candidates: seq<seq<PreyCandidate>>, successDraws: seq<real>)
  {
    |positions| == |vs| && |candidates| == |vs| && |successDraws| == |vs|
    && forall i :: 0 <= i < |vs| ==> vs[i].traits.attackRange > 0.0
  }

  /** The attacks predator_hunting_system reports, in query order: the attack of each turn that struck. */
  function Strikes(vs: seq<PredatorView>, positions: seq<Vec3>, candidates: seq<seq<PreyCandidate>>, successDraws: seq<real>,
                   dt: real, elapsed: real): seq<AttackEvent>
    requires TurnInputs(vs, positions, candidates, successDraws)
  {
    if vs == [] then []
    else
      var n := |vs| - 1;
      var v := vs[n];
      var r := HuntStep(v.id, v.species, v.traits, v.energy, v.lastHuntTime, positions[n], dt, elapsed, candidates[n], successDraws[n]);
      Strikes(vs[..n], positions[..n], candidates[..n], successDraws[..n], dt, elapsed) + (if r.attack.Some? then [r.attack.value] else [])
  }

  /** Every reported attack is made by one of the predators, from where it stands, and there are no more attacks than predators. */
  lemma {:induction false} StrikesFacts(vs: seq<PredatorView>, positions: seq<Vec3>, candidates: seq<seq<PreyCandidate>>,
                                        successDraws: seq<real>, dt: real, elapsed: real)
    requires TurnInputs(vs, positions, candidates, successDraws)
    ensures |Strikes(vs, positions, candidates, successDraws, dt, elapsed)| <= |vs|
    ensures forall e :: e in Strikes(vs, positions, candidates, successDraws, dt, elapsed) ==>
      (exists k :: 0 <= k < |vs| && e.predator == vs[k].id && e.attackPosition == positions[k] && IsPredatorSpecies(vs[k].species))
  {
    if vs != [] {
      var n := |vs| - 1;
      StrikesFacts(vs[..n], positions[..n], candidates[..n], successDraws[..n], dt, elapsed);
      forall e | e in Strikes(vs, positions, candidates, successDraws, dt, elapsed)
        ensures exists k :: 0 <= k < |vs| && e.predator == vs[k].id && e.attackPosition == positions[k] && IsPredatorSpecies(vs[k].species)
      {
        if e in Strikes(vs[..n], positions[..n], candidates[..n], successDraws[..n], dt, elapsed) {
          var k :| 0 <= k < n && e.predator == vs[..n][k].id && e.attackPosition == positions[..n][k]
            && IsPredatorSpecies(vs[..n][k].species);
          assert vs[k] == vs[..n][k];
        } else {
          assert e.predator == vs[n].id && e.attackPosition == positions[n];
        }
      }
    }
  }

  /** Taking turn i extends the attacks reported for the first i predators by that turn's attack. */
  lemma StrikesStep(vs: seq<PredatorView>, positions: seq<Vec3>, candidates: seq<seq<PreyCandidate>>, successDraws: seq<real>,
                    dt: real, elapsed: real, i: nat)
    requires TurnInputs(vs, positions, candidates, successDraws) && i < |vs|
    ensures TurnInputs(vs[..i], positions[..i], candidates[..i], successDraws[..i])
    ensures var v := vs[i];
      var r := HuntStep(v.id, v.species, v.traits, v.energy, v.lastHuntTime, positions[i], dt, elapsed, candidates[i], successDraws[i]);
      Strikes(vs[..i + 1], positions[..i + 1], candidates[..i + 1], successDraws[..i + 1], dt, elapsed)
      == Strikes(vs[..i], positions[..i], candidates[..i], successDraws[..i], dt, elapsed) + (if r.attack.Some? then [r.attack.value] else [])
  {
    assert vs[..i + 1][..i] == vs[..i] && positions[..i + 1][..i] == positions[..i];
    assert candidates[..i + 1][..i] == candidates[..i] && successDraws[..i + 1][..i] == successDraws[..i];
  }

  /** One predator's turn, from its view v before the turn. */
  method HuntTurn(p: Predator, ghost v: PredatorView, position: Vec3, dt: real, elapsed: real, cs: seq<PreyCandidate>,
                  successDraw: real) returns (attack: Option<AttackEvent>)
    requires PredatorViewOf(p) == v && v.traits.attackRange > 0.0
    modifies p
    ensures TookTurn(p, v.energy, v.lastHuntTime, position, dt, elapsed, cs, successDraw)
    ensures attack == HuntStep(v.id, v.species, v.traits, v.energy, v.lastHuntTime, position, dt, elapsed, cs, successDraw).attack
  {
    attack := p.Hunt(position, dt, elapsed, cs, successDraw);
  }

  /** predator_hunting_system: every predator takes its turn with its own candidates and draws. */
  method PredatorHunting(predators: seq<Predator>, positions: seq<Vec3>, candidates: seq<seq<PreyCandidate>>,
                         successDraws: seq<real>, dt: real, elapsed: real) returns (attacks: seq<AttackEvent>)
    requires Distinct(predators)
    requires |positions| == |predators| && |candidates| == |predators| && |successDraws| == |predators|
    requires forall i :: 0 <= i < |predators| ==> predators[i].traits.attackRange > 0.0
    modifies set p | p in predators
    ensures forall i :: 0 <= i < |predators| ==>
      TookTurn(predators[i], old(predators[i].energy), old(predators[i].lastHuntTime),
               positions[i], dt, elapsed, candidates[i], successDraws[i])
    ensures TurnInputs(old(PredatorViews(predators)), positions, candidates, successDraws)
    ensures attacks == Strikes(old(PredatorViews(predators)), positions, candidates, successDraws, dt, elapsed)
  {
    ghost var vs := PredatorViews(predators);
    attacks := [];
    for i := 0 to |predators|
      invariant forall j :: 0 <= j < i ==>
        TookTurn(predators[j], vs[j].energy, vs[j].lastHuntTime, positions[j], dt, elapsed, candidates[j], successDraws[j])
      invariant forall j :: i <= j < |predators| ==> PredatorViewOf(predators[j]) == vs[j]
      invariant attacks == Strikes(vs[..i], positions[..i], candidates[..i], successDraws[..i], dt, elapsed)
    {
      StrikesStep(vs, positions, candidates, successDraws, dt, elapsed, i);
      var attack := HuntTurn(predators[i], vs[i], positions[i], dt, elapsed, candidates[i], successDraws[i]);
      if attack.Some? {
        attacks := attacks + [attack.value];
      }
    }
    assert vs[..|predators|] == vs && positions[..|predators|] == positions;
    assert candidates[..|predators|] == candidates && successDraws[..|predators|] == successDraws;
  }

  // ---- the prey's response ----

  datatype AlertCall = AlertCall(caller: Entity, predatorLocation: Vec3, urgency: real, callRange: real)

  /** The state an escape puts the attacked bird in. */
  function EscapeState(e: EscapeBehavior): (s: BirdState)
    ensures s == Fleeing <==> e == Scatter
    ensures s == Resting <==> e == Freeze
    ensures s == Territorial <==> e == Mob
    ensures s == Sheltering <==> e == Dive
  {
    match e
    case Scatter => Fleeing
    case Freeze => Resting
    case Mob => Territorial
    case Dive => Sheltering
  }

  /** The attacked bird's blackboard: fear at its peak, a little less for a bird that freezes. */
  function Struck(b: Blackboard, e: EscapeBehavior): (r: Blackboard)
    ensures r == b.(internal := b.internal.(fear := r.internal.fear))
    ensures r.internal.fear == 1.0 <==> e != Freeze
    ensures e == Freeze ==> r.internal.fear == 0.8
  {
    b.(internal := b.internal.(fear := if e == Freeze then 0.8 else 1.0))
  }

  /** The alarm an attacked bird raises: scattering birds call, mobbing birds call louder and farther. */
  function AttackAlert(t: PreyTraits, attack: AttackEvent): (r: Option<AlertCall>)
    ensures r.Some? <==> t.escapeBehavior == Scatter || t.escapeBehavior == Mob
    ensures r.Some? ==> r.value.caller == attack.target && r.value.predatorLocation == attack.attackPosition
    ensures t.escapeBehavior == Scatter ==> r.value.urgency == 0.9 && r.value.callRange == t.alertRange
    ensures t.escapeBehavior == Mob ==> r.value.urgency == 1.0 && r.value.callRange == t.alertRange * 1.5
  {
    match t.escapeBehavior
    case Scatter => Some(AlertCall(attack.target, attack.attackPosition, 0.9, t.alertRange))
    case Mob => Some(AlertCall(attack.target, attack.attackPosition, 1.0, t.alertRange * 1.5))
    case _ => None
  }

  /** Being struck twice is being struck once: only the alarms of repeated attacks differ. */
  lemma StruckIsIdempotent(b: Blackboard, e: EscapeBehavior)
    ensures Struck(Struck(b, e), e) == Struck(b, e)
  {
  }

  /** The entity ids of the birds, in order. */
  function Ids(birds: seq<BirdAiSystems.Bird>): (ids: seq<Entity>)
    ensures |ids| == |birds| && forall i :: 0 <= i < |birds| ==> ids[i] == birds[i].id
  {
    seq(|birds|, i requires 0 <= i < |birds| => birds[i].id)
  }

  /** The first position of an id, if present. */
  function Find(ids: seq<Entity>, e: Entity): (r: Option<nat>)
    ensures r.Some? ==> r.value < |ids| && ids[r.value] == e && forall k :: 0 <= k < r.value ==> ids[k] != e
    ensures r.None? <==> e !in ids
    decreases |ids|
  {
    if ids == [] then None
    else if ids[0] == e then Some(0)
    else match Find(ids[1..], e)
      case None => None
      case Some(k) => Some(k + 1)
  }

  /** The alarm one attack raises among these birds: only an attack on a bird with a prey response answers. */
  function AlertOf(ids: seq<Entity>, traits: seq<Option<PreyTraits>>, attack: AttackEvent): seq<AlertCall>
    requires |traits| == |ids|
  {
    match Find(ids, attack.target)
    case None => []
    case Some(i) =>
      if traits[i].None? then []
      else match AttackAlert(traits[i].value, attack)
        case None => []
        case Some(a) => [a]
  }

  /** The alarms a sequence of attacks raises, in order. */
  function AlertsFor(ids: seq<Entity>, traits: seq<Option<PreyTraits>>, attacks: seq<AttackEvent>): seq<AlertCall>
    requires |traits| == |ids|
    decreases |attacks|
  {
    if attacks == [] then []
    else AlertsFor(ids, traits, attacks[..|attacks| - 1]) + AlertOf(ids, traits, attacks[|attacks| - 1])
  }

  /** Whether some attack targets the entity. */
  predicate Targeted(e: Entity, attacks: seq<AttackEvent>)
  {
    exists k :: 0 <= k < |attacks| && attacks[k].target == e
  }

  predicate DistinctIds(birds: seq<BirdAiSystems.Bird>)
  {
    forall i, j :: 0 <= i < j < |birds| ==> birds[i].id != birds[j].id
  }

  /** Birds with distinct ids are distinct birds. */
  lemma DistinctIdsAreDistinct(birds: seq<BirdAiSystems.Bird>)
    requires DistinctIds(birds)
    ensures Distinct(birds)
  {
  }

  /** The lookup of an attack's target: the position of the bird with that id. */
  method FindBird(birds: seq<BirdAiSystems.Bird>, target: Entity) returns (index: Option<nat>)
    ensures index == Find(Ids(birds), target)
  {
    ghost var ids := Ids(birds);
    for i := 0 to |birds|
      invariant forall k :: 0 <= k < i ==> ids[k] != target
    {
      if birds[i].id == target {
        FindFirst(ids, target, i);
        return Some(i);
      }
    }
    FindAbsent(ids, target);
    return None;
  }

  lemma {:induction false} FindFirst(ids: seq<Entity>, e: Entity, i: nat)
    requires i < |ids| && ids[i] == e && forall k :: 0 <= k < i ==> ids[k] != e
    ensures Find(ids, e) == Some(i)
    decreases i
  {
    if i > 0 {
      FindFirst(ids[1..], e, i - 1);
    }
  }

  lemma FindAbsent(ids: seq<Entity>, e: Entity)
    requires forall k :: 0 <= k < |ids| ==> ids[k] != e
    ensures Find(ids, e) == None
  {
  }

  /**
   * prey_response_system: every attacked bird that has a prey response is
   * struck and takes its escape state; the others, and birds nobody attacked,
   * are unchanged; the alarms come out in attack order.
   */
  method PreyResponse(birds: seq<BirdAiSystems.Bird>, traits: seq<Option<PreyTraits>>, attacks: seq<AttackEvent>)
    returns (alerts: seq<AlertCall>)
    requires DistinctIds(birds) && |traits| == |birds|
    modifies set b | b in birds
    ensures forall i :: 0 <= i < |birds| && traits[i].Some? && Targeted(birds[i].id, attacks) ==>
      birds[i].state == EscapeState(traits[i].value.escapeBehavior)
      && birds[i].blackboard == Struck(old(birds[i].blackboard), traits[i].value.escapeBehavior)
    ensures forall i :: 0 <= i < |birds| && !(traits[i].Some? && Targeted(birds[i].id, attacks)) ==>
      birds[i].state == old(birds[i].state) && birds[i].blackboard == old(birds[i].blackboard)
    ensures alerts == AlertsFor(Ids(birds), traits, attacks)
  {
    DistinctIdsAreDistinct(birds);
    alerts := [];
    for k := 0 to |attacks|
      invariant forall i :: 0 <= i < |birds| && traits[i].Some? && Targeted(birds[i].id, attacks[..k]) ==>
        birds[i].state == EscapeState(traits[i].value.escapeBehavior)
        && birds[i].blackboard == Struck(old(birds[i].blackboard), traits[i].value.escapeBehavior)
      invariant forall i :: 0 <= i < |birds| && !(traits[i].Some? && Targeted(birds[i].id, attacks[..k])) ==>
        birds[i].state == old(birds[i].state) && birds[i].blackboard == old(birds[i].blackboard)
      invariant alerts == AlertsFor(Ids(birds), traits, attacks[..k])
    {
      TargetedExtend(attacks, k);
      assert attacks[..k + 1][..k] == attacks[..k];
      var raised := StrikeTarget(birds, traits, attacks[k]);
      alerts := alerts + raised;
    }
    assert attacks[..|attacks|] == attacks;
  }

  /** The targets of one more attack: the earlier targets and the new one. */
  lemma TargetedExtend(attacks: seq<AttackEvent>, k: nat)
    requires k < |attacks|
    ensures forall e :: Targeted(e, attacks[..k + 1]) <==> Targeted(e, attacks[..k]) || attacks[k].target == e
  {
    forall e
      ensures Targeted(e, attacks[..k + 1]) <==> Targeted(e, attacks[..k]) || attacks[k].target == e
    {
      if attacks[k].target == e {
        assert attacks[..k + 1][k].target == e;
      }
      if Targeted(e, attacks[..k]) {
        var j :| 0 <= j < k && attacks[..k][j].target == e;
        assert attacks[..k + 1][j].target == e;
      }
      if Targeted(e, attacks[..k + 1]) {
        var j :| 0 <= j < k + 1 && attacks[..k + 1][j].target == e;
        if j < k {
          assert attacks[..k][j].target == e;
        }
      }
    }
  }

  /** One attack of prey_response_system: its target, if it has a prey response, is struck and raises its alarm. */
  method StrikeTarget(birds: seq<BirdAiSystems.Bird>, traits: seq<Option<PreyTraits>>, attack: AttackEvent)
    returns (raised: seq<AlertCall>)
    requires DistinctIds(birds) && |traits| == |birds|
    modifies set b | b in birds
    ensures raised == AlertOf(Ids(birds), traits, attack)
    ensures forall i :: 0 <= i < |birds| && traits[i].Some? && birds[i].id == attack.target ==>
      birds[i].state == EscapeState(traits[i].value.escapeBehavior)
      && birds[i].blackboard == Struck(old(birds[i].blackboard), traits[i].value.escapeBehavior)
    ensures forall i :: 0 <= i < |birds| && !(traits[i].Some? && birds[i].id == attack.target) ==>
      birds[i].state == old(birds[i].state) && birds[i].blackboard == old(birds[i].blackboard)
  {
    raised := [];
    var index := FindBird(birds, attack.target);
    if index.Some? && traits[index.value].Some? {
      var b := birds[index.value];
      var e := traits[index.value].value.escapeBehavior;
      b.blackboard := Struck(b.blackboard, e);
      b.state := EscapeState(e);
      var alert := AttackAlert(traits[index.value].value, attack);
      if alert.Some? {
        raised := [alert.value];
      }
    }
  }

  // ---- alarm calls ----

  /**
   * One listener in alert_call_system: within the call's range its fear grows
   * with the urgency and closeness, capped at 1, and it flees once the fear
   * is above 0.6; beyond the range nothing changes.
   */
  function HearAlert(state: BirdState, b: Blackboard, alert: AlertCall, distance: real): (r: (BirdState, Blackboard))
    requires alert.callRange > 0.0
    ensures r.1 == b.(internal := b.internal.(fear := r.1.internal.fear))
    ensures distance > alert.callRange ==> r == (state, b)
    ensures distance <= alert.callRange ==>
      r.1.internal.fear <= 1.0
      && (r.0 == Fleeing <==> state == Fleeing || r.1.internal.fear > 0.6)
      && (r.0 != Fleeing ==> r.0 == state)
    ensures distance <= alert.callRange && alert.urgency >= 0.0 && 0.0 <= distance ==>
      r.1.internal.fear >= Min(b.internal.fear, 1.0)
  {
    if distance <= alert.callRange then
      var increase := alert.urgency * (1.0 - distance / alert.callRange);
      assert alert.urgency >= 0.0 && 0.0 <= distance ==> increase >= 0.0 by {
        if alert.urgency >= 0.0 && 0.0 <= distance {
          assert distance / alert.callRange <= 1.0;
        }
      }
      var fear := Min(b.internal.fear + increase * 0.5, 1.0);
      (if fear > 0.6 then Fleeing else state, b.(internal := b.internal.(fear := fear)))
    else (state, b)
  }

  /** A non-negative amount divided by a positive one is non-negative. */
  lemma QuotientNonnegative(a: real, c: real)
    requires a >= 0.0 && c > 0.0
    ensures a / c >= 0.0
  {
  }

  /** Of two listeners equally afraid, the nearer one ends at least as afraid. */
  lemma NearerListenerFearsMore(state: BirdState, b: Blackboard, alert: AlertCall, d1: real, d2: real)
    requires alert.callRange > 0.0 && alert.urgency >= 0.0
    requires 0.0 <= d1 <= d2 <= alert.callRange
    ensures HearAlert(state, b, alert, d1).1.internal.fear >= HearAlert(state, b, alert, d2).1.internal.fear
  {
    var c, u := alert.callRange, alert.urgency;
    var x1, x2 := d1 / c, d2 / c;
    assert x2 - x1 == (d2 - d1) / c;
    QuotientNonnegative(d2 - d1, c);
    assert u * (x2 - x1) >= 0.0;
    assert u * (1.0 - x1) - u * (1.0 - x2) == u * (x2 - x1);
  }

  /** A bird's state after a sequence of alerts: it ignores its own calls. */
  function HearAll(id: Entity, sb: (BirdState, Blackboard), alerts: seq<AlertCall>, ds: seq<real>): (BirdState, Blackboard)
    requires |ds| == |alerts| && forall k :: 0 <= k < |alerts| ==> alerts[k].callRange > 0.0
    decreases |alerts|
  {
    if alerts == [] then sb
    else
      var n := |alerts| - 1;
      var prev := HearAll(id, sb, alerts[..n], ds[..n]);
      if alerts[n].caller == id then prev else HearAlert(prev.0, prev.1, alerts[n], ds[n])
  }

  /**
   * Over any sequence of alerts, a listener that starts no more than fully
   * afraid stays so, a fleeing bird keeps fleeing, and a bird that made every
   * call is unchanged.
   */
  lemma {:induction false} HearAllFacts(id: Entity, sb: (BirdState, Blackboard), alerts: seq<AlertCall>, ds: seq<real>)
    requires |ds| == |alerts| && forall k :: 0 <= k < |alerts| ==> alerts[k].callRange > 0.0
    ensures sb.1.internal.fear <= 1.0 ==> HearAll(id, sb, alerts, ds).1.internal.fear <= 1.0
    ensures sb.0 == Fleeing ==> HearAll(id, sb, alerts, ds).0 == Fleeing
    ensures (forall k :: 0 <= k < |alerts| ==> alerts[k].caller == id) ==> HearAll(id, sb, alerts, ds) == sb
    decreases |alerts|
  {
    if alerts != [] {
      var n := |alerts| - 1;
      assert forall k :: 0 <= k < n ==> alerts[..n][k] == alerts[k];
      HearAllFacts(id, sb, alerts[..n], ds[..n]);
    }
  }

  /** alert_call_system for one alert: every bird but the caller hears it at its own distance. */
  method HearOneAlert(birds: seq<BirdAiSystems.Bird>, alert: AlertCall, distances: seq<real>)
    requires Distinct(birds) && |distances| == |birds| && alert.callRange > 0.0
    modifies set b | b in birds
    ensures forall i :: 0 <= i < |birds| && birds[i].id == alert.caller ==>
      birds[i].state == old(birds[i].state) && birds[i].blackboard == old(birds[i].blackboard)
    ensures forall i :: 0 <= i < |birds| && birds[i].id != alert.caller ==>
      (birds[i].state, birds[i].blackboard) == HearAlert(old(birds[i].state), old(birds[i].blackboard), alert, distances[i])
  {
    for i := 0 to |birds|
      invariant forall j :: 0 <= j < i && birds[j].id == alert.caller ==>
        birds[j].state == old(birds[j].state) && birds[j].blackboard == old(birds[j].blackboard)
      invariant forall j :: 0 <= j < i && birds[j].id != alert.caller ==>
        (birds[j].state, birds[j].blackboard) == HearAlert(old(birds[j].state), old(birds[j].blackboard), alert, distances[j])
      invariant forall j :: i <= j < |birds| ==> birds[j].state == old(birds[j].state) && birds[j].blackboard == old(birds[j].blackboard)
    {
      var b := birds[i];
      if b.id != alert.caller {
        var (s, bb) := HearAlert(b.state, b.blackboard, alert, distances[i]);
        b.state := s;
        b.blackboard := bb;
      }
    }
  }

  /** The distances of bird i from each alert's predator. */
  function Column(distances: seq<seq<real>>, i: nat): (c: seq<real>)
    requires forall a :: 0 <= a < |distances| ==> i < |distances[a]|
    ensures |c| == |distances| && forall a :: 0 <= a < |distances| ==> c[a] == distances[a][i]
  {
    seq(|distances|, a requires 0 <= a < |distances| => distances[a][i])
  }

  /** alert_call_system: the alerts are heard one after another; `distances[a][i]` is bird i's distance from alert a. */
  method AlertCalls(birds: seq<BirdAiSystems.Bird>, alerts: seq<AlertCall>, distances: seq<seq<real>>)
    requires Distinct(birds) && |distances| == |alerts|
    requires forall a :: 0 <= a < |alerts| ==> alerts[a].callRange > 0.0 && |distances[a]| == |birds|
    modifies set b | b in birds
    ensures forall i :: 0 <= i < |birds| ==>
      (birds[i].state, birds[i].blackboard) == HearAll(birds[i].id, (old(birds[i].state), old(birds[i].blackboard)), alerts, Column(distances, i))
  {
    for k := 0 to |alerts|
      invariant forall i :: 0 <= i < |birds| ==>
        (birds[i].state, birds[i].blackboard) == HearAll(birds[i].id, (old(birds[i].state), old(birds[i].blackboard)), alerts[..k], Column(distances[..k], i))
    {
      HearOneAlert(birds, alerts[k], distances[k]);
      assert alerts[..k + 1][..k] == alerts[..k];
      assert distances[..k + 1][..k] == distances[..k];
      forall i | 0 <= i < |birds|
        ensures Column(distances[..k + 1], i)[..k] == Column(distances[..k], i)
      {
      }
    }
    assert alerts[..|alerts|] == alerts;
    assert distances[..|distances|] == distances;
  }

  // ---- sighting a predator ----

  /**
   * One prey in predator_detection_system: within 300 units the bird spots
   * the predator when its draw falls under 0.3 of its closeness; its fear then
   * grows by 0.4 of the closeness, capped at 1, and on a second draw under
   * 0.2 it calls an alarm reaching 200 units.
   */
  function SpotPredator(fear: real, prey: Entity, predatorLocation: Vec3, distance: real, spotDraw: real, callDraw: real): (r: (real, Option<AlertCall>))
    ensures distance > 300.0 ==> r == (fear, None)
    ensures r.1.Some? ==> r.1.value == AlertCall(prey, predatorLocation, 0.7, 200.0) && callDraw < 0.2
    ensures r.0 != fear ==> r.0 <= 1.0
    ensures 0.0 <= distance && fear <= 1.0 ==> fear <= r.0 <= 1.0
  {
    if distance <= 300.0 && spotDraw < (1.0 - distance / 300.0) * 0.3 then
      var fear' := Min(fear + 0.4 * (1.0 - distance / 300.0), 1.0);
      (fear', if callDraw < 0.2 then Some(AlertCall(prey, predatorLocation, 0.7, 200.0)) else None)
    else (fear, None)
  }

  /** The fear of each bird, in order. */
  function Fears(birds: seq<BirdAiSystems.Bird>): (r: seq<real>)
    reads set b | b in birds
    ensures |r| == |birds| && forall i :: 0 <= i < |birds| ==> r[i] == birds[i].blackboard.internal.fear
  {
    if birds == [] then [] else Fears(birds[..|birds| - 1]) + [birds[|birds| - 1].blackboard.internal.fear]
  }

  /** The alarms one predator's pass raises, in query order: each prey that spots it and calls. */
  function Alarms(fears: seq<real>, ids: seq<Entity>, predatorLocation: Vec3, distances: seq<real>, spotDraws: seq<real>,
                  callDraws: seq<real>): seq<AlertCall>
    requires |ids| == |fears| && |distances| == |fears| && |spotDraws| == |fears| && |callDraws| == |fears|
  {
    if fears == [] then []
    else
      var n := |fears| - 1;
      var alert := SpotPredator(fears[n], ids[n], predatorLocation, distances[n], spotDraws[n], callDraws[n]).1;
      Alarms(fears[..n], ids[..n], predatorLocation, distances[..n], spotDraws[..n], callDraws[..n])
      + (if alert.Some? then [alert.value] else [])
  }

  /** Every alarm is called by a prey within 300 units, at the predator's location, with urgency 0.7 over 200 units; at most one per prey. */
  lemma {:induction false} AlarmsFacts(fears: seq<real>, ids: seq<Entity>, predatorLocation: Vec3, distances: seq<real>,
                                       spotDraws: seq<real>, callDraws: seq<real>)
    requires |ids| == |fears| && |distances| == |fears| && |spotDraws| == |fears| && |callDraws| == |fears|
    ensures |Alarms(fears, ids, predatorLocation, distances, spotDraws, callDraws)| <= |fears|
    ensures forall a :: a in Alarms(fears, ids, predatorLocation, distances, spotDraws, callDraws) ==>
      a.predatorLocation == predatorLocation && a.urgency == 0.7 && a.callRange == 200.0
      && (exists k :: 0 <= k < |ids| && a.caller == ids[k] && distances[k] <= 300.0)
  {
    if fears != [] {
      var n := |fears| - 1;
      AlarmsFacts(fears[..n], ids[..n], predatorLocation, distances[..n], spotDraws[..n], callDraws[..n]);
      forall a | a in Alarms(fears, ids, predatorLocation, distances, spotDraws, callDraws)
        ensures a.predatorLocation == predatorLocation && a.urgency == 0.7 && a.callRange == 200.0
          && (exists k :: 0 <= k < |ids| && a.caller == ids[k] && distances[k] <= 300.0)
      {
        if a in Alarms(fears[..n], ids[..n], predatorLocation, distances[..n], spotDraws[..n], callDraws[..n]) {
          var k :| 0 <= k < n && a.caller == ids[..n][k] && distances[..n][k] <= 300.0;
          assert ids[k] == ids[..n][k] && distances[k] == distances[..n][k];
        } else {
          assert a.caller == ids[n] && distances[n] <= 300.0;
        }
      }
    }
  }

  /** Prey i's look extends the alarms of the first i prey by its own call. */
  lemma AlarmsStep(fears: seq<real>, ids: seq<Entity>, predatorLocation: Vec3, distances: seq<real>, spotDraws: seq<real>,
                   callDraws: seq<real>, i: nat)
    requires |ids| == |fears| && |distances| == |fears| && |spotDraws| == |fears| && |callDraws| == |fears| && i < |fears|
    ensures var alert := SpotPredator(fears[i], ids[i], predatorLocation, distances[i], spotDraws[i], callDraws[i]).1;
      Alarms(fears[..i + 1], ids[..i + 1], predatorLocation, distances[..i + 1], spotDraws[..i + 1], callDraws[..i + 1])
      == Alarms(fears[..i], ids[..i], predatorLocation, distances[..i], spotDraws[..i], callDraws[..i])
         + (if alert.Some? then [alert.value] else [])
  {
    assert fears[..i + 1][..i] == fears[..i] && ids[..i + 1][..i] == ids[..i] && distances[..i + 1][..i] == distances[..i];
    assert spotDraws[..i + 1][..i] == spotDraws[..i] && callDraws[..i + 1][..i] == callDraws[..i];
  }

  /** Prey b looked at the predator from the blackboard `board`: only its fear moved, to the one its spotting step gives. */
  predicate Spotted(b: BirdAiSystems.Bird, board: Blackboard, predatorLocation: Vec3, distance: real, spotDraw: real, callDraw: real)
    reads b
  {
    b.blackboard == board.(internal := board.internal.(
      fear := SpotPredator(board.internal.fear, b.id, predatorLocation, distance, spotDraw, callDraw).0))
  }

  /** One prey's look at the predator from its blackboard `board`: its fear is updated, and the alarm it calls, if any, is returned. */
  method Look(b: BirdAiSystems.Bird, ghost board: Blackboard, predatorLocation: Vec3, distance: real, spotDraw: real, callDraw: real)
    returns (alert: Option<AlertCall>)
    requires b.blackboard == board
    modifies b
    ensures b.state == old(b.state)
    ensures Spotted(b, board, predatorLocation, distance, spotDraw, callDraw)
    ensures alert == SpotPredator(board.internal.fear, b.id, predatorLocation, distance, spotDraw, callDraw).1
  {
    var (fear, called) := SpotPredator(b.blackboard.internal.fear, b.id, predatorLocation, distance, spotDraw, callDraw);
    b.blackboard := b.blackboard.(internal := b.blackboard.internal.(fear := fear));
    alert := called;
  }

  /** The blackboard of each bird, in order. */
  function Boards(birds: seq<BirdAiSystems.Bird>): (r: seq<Blackboard>)
    reads set b | b in birds
    ensures |r| == |birds| && forall i :: 0 <= i < |birds| ==> r[i] == birds[i].blackboard
  {
    if birds == [] then [] else Boards(birds[..|birds| - 1]) + [birds[|birds| - 1].blackboard]
  }

  /** predator_detection_system for one predator: every prey looks with its own distance and draws. */
  method DetectPredator(prey: seq<BirdAiSystems.Bird>, predatorLocation: Vec3, distances: seq<real>, spotDraws: seq<real>, callDraws: seq<real>)
    returns (alerts: seq<AlertCall>)
    requires Distinct(prey) && |distances| == |prey| && |spotDraws| == |prey| && |callDraws| == |prey|
    modifies set b | b in prey
    ensures forall i :: 0 <= i < |prey| ==>
      prey[i].state == old(prey[i].state)
      && Spotted(prey[i], old(prey[i].blackboard), predatorLocation, distances[i], spotDraws[i], callDraws[i])
    ensures alerts == Alarms(old(Fears(prey)), Ids(prey), predatorLocation, distances, spotDraws, callDraws)
  {
    ghost var boards := Boards(prey);
    ghost var fears := Fears(prey);
    ghost var ids := Ids(prey);
    alerts := [];
    for i := 0 to |prey|
      invariant forall j :: 0 <= j < |prey| ==> prey[j].state == old(prey[j].state)
      invariant forall j :: 0 <= j < i ==> Spotted(prey[j], boards[j], predatorLocation, distances[j], spotDraws[j], callDraws[j])
      invariant forall j :: i <= j < |prey| ==> prey[j].blackboard == boards[j]
      invariant alerts == Alarms(fears[..i], ids[..i], predatorLocation, distances[..i], spotDraws[..i], callDraws[..i])
    {
      AlarmsStep(fears, ids, predatorLocation, distances, spotDraws, callDraws, i);
      var alert := Look(prey[i], boards[i], predatorLocation, distances[i], spotDraws[i], callDraws[i]);
      if alert.Some? {
        alerts := alerts + [alert.value];
      }
    }
    assert fears[..|prey|] == fears && ids[..|prey|] == ids && distances[..|prey|] == distances;
    assert spotDraws[..|prey|] == spotDraws && callDraws[..|prey|] == callDraws;
  }
}
