/**
 * The per-bird AI systems: utility discovery, arbitration with target
 * choice, arrival at a target, the eat/drink/bathe/flee/rest loops and need
 * decay. Each bird is an object whose state and blackboard the systems
 * update in place. Positions are not modelled: every distance a system
 * compares is passed in, already computed.
 */
module BirdAiSystems {
  import opened Wrappers
  import opened Species
  import opened Numbers
  import opened BirdAiComponents
  import opened Collections
  import BehaviorTree

  /** A smart object in the world: its entity and the action it offers. */
  datatype SmartObject = SmartObject(entity: Entity, utility: ProvidesUtility)

  predicate PositiveRanges(objects: seq<SmartObject>)
  {
    forall k :: 0 <= k < |objects| ==> objects[k].utility.range > 0.0
  }

  /** Object `o`, seen at distance `d`, offers action `a`. */
  predicate Offers(o: SmartObject, d: real, a: BirdAction)
  {
    o.utility.action == a && d <= o.utility.range
  }

  /** Base utility scaled down linearly with distance. */
  function Score(o: SmartObject, d: real): (s: real)
    requires o.utility.range > 0.0
    ensures 0.0 <= d <= o.utility.range && o.utility.baseUtility >= 0.0 ==> 0.0 <= s <= o.utility.baseUtility
  {
    o.utility.baseUtility * (1.0 - d / o.utility.range)
  }

  /**
   * One object offered to the cache: an in-range object is cached for its
   * action when that action has no entry yet or it scores strictly higher.
   */
  function Consider(m: map<BirdAction, UtilityEntry>, o: SmartObject, d: real): map<BirdAction, UtilityEntry>
    requires o.utility.range > 0.0
  {
    if d <= o.utility.range && (o.utility.action !in m || Score(o, d) > m[o.utility.action].score)
    then m[o.utility.action := UtilityEntry(o.entity, Score(o, d))]
    else m
  }

  /** The cache one discovery pass builds from an empty map, visiting the objects in query order. */
  function Discover(objects: seq<SmartObject>, distances: seq<real>): map<BirdAction, UtilityEntry>
    requires |distances| == |objects| && PositiveRanges(objects)
  {
    if objects == [] then map[]
    else
      var n := |objects| - 1;
      Consider(Discover(objects[..n], distances[..n]), objects[n], distances[n])
  }

  /** Discovering one more object is considering it after the prefix. */
  lemma DiscoverPrefix(objects: seq<SmartObject>, distances: seq<real>, i: nat)
    requires |distances| == |objects| && PositiveRanges(objects) && i < |objects|
    ensures Discover(objects[..i + 1], distances[..i + 1])
         == Consider(Discover(objects[..i], distances[..i]), objects[i], distances[i])
  {
    assert objects[..i + 1][..i] == objects[..i];
    assert distances[..i + 1][..i] == distances[..i];
  }

  /**
   * Object k is the first of the best offers of action a: it offers a, no
   * offer scores higher, and every earlier offer scores strictly lower.
   */
  predicate IsFirstBest(objects: seq<SmartObject>, distances: seq<real>, a: BirdAction, k: int)
    requires |distances| == |objects| && PositiveRanges(objects)
  {
    0 <= k < |objects| && Offers(objects[k], distances[k], a)
    && (forall j :: 0 <= j < |objects| && Offers(objects[j], distances[j], a) ==>
          Score(objects[j], distances[j]) <= Score(objects[k], distances[k]))
    && (forall j :: 0 <= j < k && Offers(objects[j], distances[j], a) ==>
          Score(objects[j], distances[j]) < Score(objects[k], distances[k]))
  }

  /** An action is cached exactly when some object in range offers it. */
  lemma {:induction false} DiscoverKeys(objects: seq<SmartObject>, distances: seq<real>, a: BirdAction)
    requires |distances| == |objects| && PositiveRanges(objects)
    ensures a in Discover(objects, distances) <==>
      exists k :: 0 <= k < |objects| && Offers(objects[k], distances[k], a)
  {
    if objects != [] {
      var n := |objects| - 1;
      DiscoverKeys(objects[..n], distances[..n], a);
      assert forall j :: 0 <= j < n ==> objects[..n][j] == objects[j] && distances[..n][j] == distances[j];
    }
  }

  /** A first best offer of the prefix stays first best when the last object does not beat it. */
  lemma ExtendFirstBest(objects: seq<SmartObject>, distances: seq<real>, a: BirdAction, k: int)
    requires |distances| == |objects| && PositiveRanges(objects) && objects != []
    requires IsFirstBest(objects[..|objects| - 1], distances[..|objects| - 1], a, k)
    requires Offers(objects[|objects| - 1], distances[|objects| - 1], a) ==>
      Score(objects[|objects| - 1], distances[|objects| - 1]) <= Score(objects[k], distances[k])
    ensures IsFirstBest(objects, distances, a, k)
  {
    var n := |objects| - 1;
    assert forall j :: 0 <= j < n ==> objects[..n][j] == objects[j] && distances[..n][j] == distances[j];
  }

  /** The last object is first best when it beats every earlier offer. */
  lemma LastIsFirstBest(objects: seq<SmartObject>, distances: seq<real>, a: BirdAction)
    requires |distances| == |objects| && PositiveRanges(objects) && objects != []
    requires Offers(objects[|objects| - 1], distances[|objects| - 1], a)
    requires forall j :: 0 <= j < |objects| - 1 && Offers(objects[j], distances[j], a) ==>
      Score(objects[j], distances[j]) < Score(objects[|objects| - 1], distances[|objects| - 1])
    ensures IsFirstBest(objects, distances, a, |objects| - 1)
  {
  }

  /** The last object is first best when it scores above the prefix's first best offer. */
  lemma LastBeatsFirstBest(objects: seq<SmartObject>, distances: seq<real>, a: BirdAction, k: int)
    requires |distances| == |objects| && PositiveRanges(objects) && objects != []
    requires IsFirstBest(objects[..|objects| - 1], distances[..|objects| - 1], a, k)
    requires Offers(objects[|objects| - 1], distances[|objects| - 1], a)
    requires Score(objects[k], distances[k]) < Score(objects[|objects| - 1], distances[|objects| - 1])
    ensures IsFirstBest(objects, distances, a, |objects| - 1)
  {
    var n := |objects| - 1;
    assert forall j :: 0 <= j < n ==> objects[..n][j] == objects[j] && distances[..n][j] == distances[j];
    LastIsFirstBest(objects, distances, a);
  }

  /** One more object, when the prefix already cached action a from its first best offer k. */
  lemma StepFromCached(objects: seq<SmartObject>, distances: seq<real>, a: BirdAction, k: int)
    requires |distances| == |objects| && PositiveRanges(objects) && objects != []
    requires a in Discover(objects[..|objects| - 1], distances[..|objects| - 1])
    requires IsFirstBest(objects[..|objects| - 1], distances[..|objects| - 1], a, k)
    requires Discover(objects[..|objects| - 1], distances[..|objects| - 1])[a]
          == UtilityEntry(objects[k].entity, Score(objects[k], distances[k]))
    ensures a in Discover(objects, distances)
    ensures exists j :: (IsFirstBest(objects, distances, a, j)
      && Discover(objects, distances)[a] == UtilityEntry(objects[j].entity, Score(objects[j], distances[j])))
  {
    var n := |objects| - 1;
    var m := Discover(objects[..n], distances[..n]);
    var o, d := objects[n], distances[n];
    assert Discover(objects, distances) == Consider(m, o, d);
    if Offers(o, d, a) && Score(o, d) > m[a].score {
      assert Discover(objects, distances)[a] == UtilityEntry(o.entity, Score(o, d));
      LastBeatsFirstBest(objects, distances, a, k);
      assert IsFirstBest(objects, distances, a, n);
    } else {
      assert Discover(objects, distances)[a] == m[a];
      ExtendFirstBest(objects, distances, a, k);
      assert IsFirstBest(objects, distances, a, k);
    }
  }

  /** One more object, when the prefix has no entry for action a but the whole sequence has. */
  lemma StepFromFresh(objects: seq<SmartObject>, distances: seq<real>, a: BirdAction)
    requires |distances| == |objects| && PositiveRanges(objects) && objects != []
    requires a !in Discover(objects[..|objects| - 1], distances[..|objects| - 1])
    requires a in Discover(objects, distances)
    ensures IsFirstBest(objects, distances, a, |objects| - 1)
    ensures Discover(objects, distances)[a]
         == UtilityEntry(objects[|objects| - 1].entity, Score(objects[|objects| - 1], distances[|objects| - 1]))
  {
    var n := |objects| - 1;
    var pre, dpre := objects[..n], distances[..n];
    assert Discover(objects, distances) == Consider(Discover(pre, dpre), objects[n], distances[n]);
    DiscoverKeys(pre, dpre, a);
    assert forall j :: 0 <= j < n ==> objects[j] == pre[j] && distances[j] == dpre[j];
    LastIsFirstBest(objects, distances, a);
  }

  /** The cached entry for an action is that of the first best-scoring object offering it. */
  lemma {:induction false} DiscoverSelectsFirstBest(objects: seq<SmartObject>, distances: seq<real>, a: BirdAction)
    requires |distances| == |objects| && PositiveRanges(objects)
    requires a in Discover(objects, distances)
    ensures exists k :: (IsFirstBest(objects, distances, a, k)
      && Discover(objects, distances)[a] == UtilityEntry(objects[k].entity, Score(objects[k], distances[k])))
  {
    assert objects != [];
    var n := |objects| - 1;
    var pre, dpre := objects[..n], distances[..n];
    if a in Discover(pre, dpre) {
      DiscoverSelectsFirstBest(pre, dpre, a);
      var k :| IsFirstBest(pre, dpre, a, k)
        && Discover(pre, dpre)[a] == UtilityEntry(pre[k].entity, Score(pre[k], dpre[k]));
      assert pre[k] == objects[k] && dpre[k] == distances[k];
      StepFromCached(objects, distances, a, k);
    } else {
      StepFromFresh(objects, distances, a);
      assert IsFirstBest(objects, distances, a, n);
    }
  }

  /** The first rule of the cascade that fires, as an action; None when no need rule fires. */
  function FiringNeed(b: Blackboard): (a: Option<BirdAction>)
    ensures a.Some? ==> a.value in {Eat, Drink, Bathe} && a.value in b.availableActions
    ensures BehaviorTree.Evaluate(b) == MovingToTarget ==> a.Some?
    ensures a == Some(Eat) ==> b.internal.hunger > 0.5
    ensures a == Some(Drink) ==> b.internal.thirst > 0.5
    // which rule fires first: critical hunger, critical thirst, moderate hunger, moderate thirst, bathing
    ensures var s, acts := b.internal, b.availableActions;
      a == Some(Eat) <==> Eat in acts && (s.hunger > 0.8 || (s.hunger > 0.5 && !(s.thirst > 0.8 && Drink in acts)))
    ensures var s, acts := b.internal, b.availableActions;
      a == Some(Drink) <==>
        Drink in acts && !(s.hunger > 0.8 && Eat in acts)
        && (s.thirst > 0.8 || (s.thirst > 0.5 && !(s.hunger > 0.5 && Eat in acts)))
    ensures var s, acts := b.internal, b.availableActions;
      a == Some(Bathe) <==>
        Bathe in acts && !(s.hunger > 0.5 && Eat in acts) && !(s.thirst > 0.5 && Drink in acts)
    // a firing rule sends the bird on its way unless fear, or low energy without a critical need, intervenes
    ensures a.Some? && b.internal.fear <= 0.7 && (b.internal.energy >= 0.3 || BehaviorTree.CriticalNeed(b))
      ==> BehaviorTree.Evaluate(b) == MovingToTarget
  {
    var s, acts := b.internal, b.availableActions;
    if s.hunger > 0.8 && Eat in acts then Some(Eat)
    else if s.thirst > 0.8 && Drink in acts then Some(Drink)
    else if s.hunger > 0.5 && Eat in acts then Some(Eat)
    else if s.thirst > 0.5 && Drink in acts then Some(Drink)
    else if Bathe in acts then Some(Bathe)
    else None
  }

  /**
   * Target choice as the game writes it: keyed on hunger, then thirst, then
   * bathing, whichever rule actually chose MovingToTarget.
   */
  function SelectTargetAsWritten(b: Blackboard): (t: Option<Entity>)
    ensures b.internal.hunger > 0.5 ==> (t.Some? <==> Eat in b.availableActions)
    ensures b.internal.hunger <= 0.5 && b.internal.thirst > 0.5 ==> (t.Some? <==> Drink in b.availableActions)
    ensures b.internal.hunger <= 0.5 && b.internal.thirst <= 0.5 ==> (t.Some? <==> Bathe in b.availableActions)
  {
    var acts := b.availableActions;
    if b.internal.hunger > 0.5 then (if Eat in acts then Some(acts[Eat].entity) else None)
    else if b.internal.thirst > 0.5 then (if Drink in acts then Some(acts[Drink].entity) else None)
    else if Bathe in acts then Some(acts[Bathe].entity) else None
  }

  /**
   * A moderately hungry and thirsty bird with water but no food in reach is
   * sent to MovingToTarget with no target, and the arrival rule never moves it on.
   */
  lemma AsWrittenTargetMissing()
    ensures var b := Blackboard(InternalState(0.6, 0.6, 1.0, 0.0, 0.0, 0.0), false,
                                map[Drink := UtilityEntry(7, 0.5)], None);
      BehaviorTree.Evaluate(b) == MovingToTarget && SelectTargetAsWritten(b) == None
  {
  }

  /** The target as intended: the cached source of the rule that chose MovingToTarget. */
  function SelectTarget(b: Blackboard): (t: Option<Entity>)
    ensures BehaviorTree.Evaluate(b) == MovingToTarget ==> t.Some?
    ensures t.Some? ==> exists a :: a in b.availableActions && a in {Eat, Drink, Bathe} && t.value == b.availableActions[a].entity
    // the source cached for the action of the rule that fired
    ensures var s, acts := b.internal, b.availableActions;
      Eat in acts && (s.hunger > 0.8 || (s.hunger > 0.5 && !(s.thirst > 0.8 && Drink in acts)))
      ==> t == Some(acts[Eat].entity)
    ensures var s, acts := b.internal, b.availableActions;
      Drink in acts && !(s.hunger > 0.8 && Eat in acts)
      && (s.thirst > 0.8 || (s.thirst > 0.5 && !(s.hunger > 0.5 && Eat in acts)))
      ==> t == Some(acts[Drink].entity)
    ensures var s, acts := b.internal, b.availableActions;
      Bathe in acts && !(s.hunger > 0.5 && Eat in acts) && !(s.thirst > 0.5 && Drink in acts)
      ==> t == Some(acts[Bathe].entity)
    ensures t.None? <==>
      !(b.internal.hunger > 0.5 && Eat in b.availableActions) && !(b.internal.thirst > 0.5 && Drink in b.availableActions)
      && Bathe !in b.availableActions
  {
    match FiringNeed(b)
    case Some(a) => Some(b.availableActions[a].entity)
    case None => None
  }

  /** Where both choices name a target for a hungry bird with no critical thirst, they agree. */
  lemma SelectTargetAgreesOnHunger(b: Blackboard)
    requires b.internal.hunger > 0.5 && Eat in b.availableActions
    requires !(b.internal.thirst > 0.8 && Drink in b.availableActions) || b.internal.hunger > 0.8
    ensures SelectTarget(b) == SelectTargetAsWritten(b) == Some(b.availableActions[Eat].entity)
  {
  }

  /** The state reached on arrival, chosen by the stronger need. */
  function ArrivalState(s: InternalState): (r: BirdState)
    ensures r in {Eating, Drinking, Bathing}
    ensures r == Eating <==> s.hunger > s.thirst
    ensures r == Drinking <==> s.hunger <= s.thirst && s.thirst > 0.3
    ensures r == Bathing <==> s.hunger <= s.thirst && s.thirst <= 0.3
  {
    if s.hunger > s.thirst then Eating
    else if s.thirst > 0.3 then Drinking
    else Bathing
  }

  /** A bird closer than this to its target has reached it. */
  const ArrivalRadius: real := 25.0

  /**
   * The blackboard after a behaviour-tree tick: a bird sent MovingToTarget
   * gets the target of its most pressing need, any other keeps its blackboard.
   */
  function TreeTarget(b: Blackboard): (r: Blackboard)
    ensures BehaviorTree.Evaluate(b) == MovingToTarget ==> r == b.(currentTarget := SelectTarget(b)) && r.currentTarget.Some?
    ensures BehaviorTree.Evaluate(b) != MovingToTarget ==> r == b
  {
    if BehaviorTree.Evaluate(b) == MovingToTarget then b.(currentTarget := SelectTarget(b)) else b
  }

  class Bird {
    const id: Entity
    var state: BirdState
    var blackboard: Blackboard

    constructor (id: Entity, internal: InternalState)
      ensures this.id == id && state == Wandering
      ensures blackboard == Blackboard(internal, false, map[], None)
    {
      this.id := id;
      state := Wandering;
      blackboard := Blackboard(internal, false, map[], None);
    }

    /** One bird's discovery pass: clear the cache, then offer every object to it. */
    method DiscoverUtilities(objects: seq<SmartObject>, distances: seq<real>)
      requires |distances| == |objects| && PositiveRanges(objects)
      modifies this
      ensures blackboard == old(blackboard).(availableActions := Discover(objects, distances))
      ensures state == old(state)
    {
      blackboard := blackboard.(availableActions := map[]);
      var i := 0;
      while i < |objects|
        invariant 0 <= i <= |objects|
        invariant blackboard == old(blackboard).(availableActions := Discover(objects[..i], distances[..i]))
        invariant state == old(state)
      {
        DiscoverPrefix(objects, distances, i);
        var o, d := objects[i], distances[i];
        ghost var before := blackboard.availableActions;
        if d <= o.utility.range {
          var score := o.utility.baseUtility * (1.0 - d / o.utility.range);
          assert score == Score(o, d);
          var entry := UtilityEntry(o.entity, score);
          var actions := blackboard.availableActions;
          if o.utility.action in actions {
            if score > actions[o.utility.action].score {
              blackboard := blackboard.(availableActions := actions[o.utility.action := entry]);
            }
          } else {
            blackboard := blackboard.(availableActions := actions[o.utility.action := entry]);
          }
        }
        assert blackboard.availableActions == Consider(before, o, d);
        i := i + 1;
      }
      assert objects[..|objects|] == objects;
      assert distances[..|distances|] == distances;
    }

    /**
     * One arbitration step: the new state comes from the cascade; on
     * MovingToTarget the target becomes the source of the firing rule
     * (SelectTarget, see AsWrittenTargetMissing for the game's own choice).
     */
    method RunBehaviorTree()
      modifies this
      ensures state == BehaviorTree.Evaluate(old(blackboard)) && blackboard == TreeTarget(old(blackboard))
      ensures state == MovingToTarget ==>
        blackboard == old(blackboard).(currentTarget := SelectTarget(old(blackboard)))
        && blackboard.currentTarget.Some?
      ensures state != MovingToTarget ==> blackboard == old(blackboard)
    {
      var newState := BehaviorTree.Evaluate(blackboard);
      if newState == MovingToTarget {
        blackboard := blackboard.(currentTarget := SelectTarget(blackboard));
      }
      state := newState;
    }

    /**
     * The arrival rule of moving_to_target_system. `targetDistance` is the
     * distance to the current target, None when the target entity is gone.
     */
    method MoveToTarget(targetDistance: Option<real>)
      modifies this
      ensures blackboard == old(blackboard)
      ensures state == (
        if old(state) == MovingToTarget && blackboard.currentTarget.Some?
           && targetDistance.Some? && targetDistance.value < ArrivalRadius
        then ArrivalState(blackboard.internal) else old(state))
    {
      if state == MovingToTarget && blackboard.currentTarget.Some? {
        if targetDistance.Some? {
          var reached := targetDistance.value < ArrivalRadius;
          if reached {
            state := ArrivalState(blackboard.internal);
          }
        }
      }
    }

    method EatingTick(dt: real)
      requires dt >= 0.0
      modifies this
      ensures old(state) != Eating ==> state == old(state) && blackboard == old(blackboard)
      ensures old(state) == Eating ==>
        blackboard == old(blackboard).(internal := old(blackboard.internal).(hunger := Max(old(blackboard.internal.hunger) - 0.5 * dt, 0.0)))
        && 0.0 <= blackboard.internal.hunger
        && (state == Wandering <==> blackboard.internal.hunger < 0.1)
        && (state != Wandering ==> state == Eating)
      ensures old(NeedsInRange(blackboard.internal)) ==> NeedsInRange(blackboard.internal)
    {
      if state == Eating {
        var s := blackboard.internal;
        var h := Max(s.hunger - 0.5 * dt, 0.0);
        blackboard := blackboard.(internal := s.(hunger := h));
        if h < 0.1 {
          state := Wandering;
        }
      }
    }

    method DrinkingTick(dt: real)
      requires dt >= 0.0
      modifies this
      ensures old(state) != Drinking ==> state == old(state) && blackboard == old(blackboard)
      ensures old(state) == Drinking ==>
        blackboard == old(blackboard).(internal := old(blackboard.internal).(thirst := Max(old(blackboard.internal.thirst) - 0.6 * dt, 0.0)))
        && 0.0 <= blackboard.internal.thirst
        && (state == Wandering <==> blackboard.internal.thirst < 0.1)
        && (state != Wandering ==> state == Drinking)
      ensures old(NeedsInRange(blackboard.internal)) ==> NeedsInRange(blackboard.internal)
    {
      if state == Drinking {
        var s := blackboard.internal;
        var t := Max(s.thirst - 0.6 * dt, 0.0);
        blackboard := blackboard.(internal := s.(thirst := t));
        if t < 0.1 {
          state := Wandering;
        }
      }
    }

    method BathingTick(dt: real)
      requires dt >= 0.0
      modifies this
      ensures old(state) != Bathing ==> state == old(state) && blackboard == old(blackboard)
      ensures old(state) == Bathing ==>
        blackboard == old(blackboard).(internal := old(blackboard.internal).(energy := Min(old(blackboard.internal.energy) + 0.3 * dt, 1.0)))
        && blackboard.internal.energy <= 1.0
        && (state == Wandering <==> blackboard.internal.energy > 0.8)
        && (state != Wandering ==> state == Bathing)
      ensures old(NeedsInRange(blackboard.internal)) ==> NeedsInRange(blackboard.internal)
    {
      if state == Bathing {
        var s := blackboard.internal;
        var e := Min(s.energy + 0.3 * dt, 1.0);
        blackboard := blackboard.(internal := s.(energy := e));
        if e > 0.8 {
          state := Wandering;
        }
      }
    }

    /** Fleeing ends once fear has dropped below 0.3, but only while a threat is perceived. */
    method FleeingTick()
      modifies this
      ensures blackboard == old(blackboard)
      ensures state == (if old(state) == Fleeing && blackboard.threatPerceived && blackboard.internal.fear < 0.3
                        then Wandering else old(state))
    {
      if state == Fleeing && blackboard.threatPerceived {
        if blackboard.internal.fear < 0.3 {
          state := Wandering;
        }
      }
    }

    method RestingTick(dt: real)
      requires dt >= 0.0
      modifies this
      ensures old(state) != Resting ==> state == old(state) && blackboard == old(blackboard)
      ensures old(state) == Resting ==>
        blackboard == old(blackboard).(internal := old(blackboard.internal).(energy := Min(old(blackboard.internal.energy) + 0.4 * dt, 1.0)))
        && blackboard.internal.energy <= 1.0
        && (state == Wandering <==> blackboard.internal.energy > 0.7)
        && (state != Wandering ==> state == Resting)
      ensures old(NeedsInRange(blackboard.internal)) ==> NeedsInRange(blackboard.internal)
    {
      if state == Resting {
        var s := blackboard.internal;
        var e := Min(s.energy + 0.4 * dt, 1.0);
        blackboard := blackboard.(internal := s.(energy := e));
        if e > 0.7 {
          state := Wandering;
        }
      }
    }

    /** Hunger and thirst grow, energy drains, fear fades. */
    method DecayNeeds(dt: real)
      requires dt >= 0.0
      modifies this
      ensures state == old(state)
      ensures blackboard == old(blackboard).(internal := old(blackboard.internal).(
        hunger := Min(old(blackboard.internal.hunger) + 0.1 * dt, 1.0),
        thirst := Min(old(blackboard.internal.thirst) + 0.1 * dt * 1.2, 1.0),
        energy := Max(old(blackboard.internal.energy) - 0.1 * dt * 0.5, 0.0),
        fear := old(blackboard.internal.fear) * 0.95))
      ensures blackboard.internal.hunger <= 1.0 && blackboard.internal.thirst <= 1.0
      ensures blackboard.internal.energy >= 0.0
      ensures old(blackboard.internal.fear) >= 0.0 ==>
        0.0 <= blackboard.internal.fear <= old(blackboard.internal.fear)
      ensures old(NeedsInRange(blackboard.internal)) ==> NeedsInRange(blackboard.internal)
    {
      var decay := 0.1 * dt;
      var s := blackboard.internal;
      s := s.(hunger := Min(s.hunger + decay, 1.0));
      s := s.(thirst := Min(s.thirst + decay * 1.2, 1.0));
      s := s.(energy := Max(s.energy - decay * 0.5, 0.0));
      s := s.(fear := s.fear * 0.95);
      blackboard := blackboard.(internal := s);
    }
  }

  /**
   * world_utility_query_system: nothing happens until the timer finishes;
   * then every bird's cache is rebuilt from the objects it can see.
   * `distances[i][k]` is the distance from bird i to object k.
   */
  method WorldUtilityQuery(timerFinished: bool, birds: seq<Bird>, objects: seq<SmartObject>, distances: seq<seq<real>>)
    requires Distinct(birds) && PositiveRanges(objects)
    requires |distances| == |birds| && forall i :: 0 <= i < |birds| ==> |distances[i]| == |objects|
    modifies set b | b in birds
    ensures forall b :: b in birds ==> b.state == old(b.state)
    ensures !timerFinished ==> forall b :: b in birds ==> b.blackboard == old(b.blackboard)
    ensures timerFinished ==> forall i :: 0 <= i < |birds| ==>
      birds[i].blackboard == old(birds[i].blackboard).(availableActions := Discover(objects, distances[i]))
  {
    if !timerFinished {
      return;
    }
    var i := 0;
    while i < |birds|
      invariant 0 <= i <= |birds|
      invariant forall b :: b in birds ==> b.state == old(b.state)
      invariant forall j :: 0 <= j < i ==>
        birds[j].blackboard == old(birds[j].blackboard).(availableActions := Discover(objects, distances[j]))
      invariant forall j :: i <= j < |birds| ==> birds[j].blackboard == old(birds[j].blackboard)
    {
      birds[i].DiscoverUtilities(objects, distances[i]);
      i := i + 1;
    }
  }

  /** behavior_tree_system: when the timer finishes, every bird runs one arbitration step. */
  method BehaviorTreeSystem(timerFinished: bool, birds: seq<Bird>)
    requires Distinct(birds)
    modifies set b | b in birds
    ensures !timerFinished ==> forall b :: b in birds ==> b.state == old(b.state) && b.blackboard == old(b.blackboard)
    ensures timerFinished ==> forall i :: 0 <= i < |birds| ==>
      birds[i].state == BehaviorTree.Evaluate(old(birds[i].blackboard))
      && birds[i].blackboard == TreeTarget(old(birds[i].blackboard))
  {
    if !timerFinished {
      return;
    }
    var i := 0;
    while i < |birds|
      invariant 0 <= i <= |birds|
      invariant forall j :: 0 <= j < i ==>
        birds[j].state == BehaviorTree.Evaluate(old(birds[j].blackboard))
        && birds[j].blackboard == TreeTarget(old(birds[j].blackboard))
      invariant forall j :: i <= j < |birds| ==>
        birds[j].state == old(birds[j].state) && birds[j].blackboard == old(birds[j].blackboard)
    {
      birds[i].RunBehaviorTree();
      i := i + 1;
    }
  }
}
