/**
 * Arbitration: the rule cascade that picks a bird's next state from its
 * blackboard. Earlier rules take priority; the first that fires wins.
 */
module BehaviorTree {
  import opened BirdAiComponents

  /** True when the critical hunger or thirst rule fires. */
  predicate CriticalNeed(b: Blackboard)
  {
    (b.internal.hunger > 0.8 && Eat in b.availableActions)
    || (b.internal.thirst > 0.8 && Drink in b.availableActions)
  }

  /** True when one of the moderate-need or bathing rules fires. */
  predicate ModerateNeed(b: Blackboard)
  {
    (b.internal.hunger > 0.5 && Eat in b.availableActions)
    || (b.internal.thirst > 0.5 && Drink in b.availableActions)
    || Bathe in b.availableActions
  }

  function Evaluate(b: Blackboard): (r: BirdState)
    // fear overrides every need
    ensures b.internal.fear > 0.7 ==> r == Fleeing
    ensures r in {Fleeing, MovingToTarget, Resting, Wandering}
    ensures r == Fleeing <==> b.internal.fear > 0.7
    // going somewhere needs a cached food, water or bath source
    ensures r == MovingToTarget ==>
      Eat in b.availableActions || Drink in b.availableActions || Bathe in b.availableActions
    ensures r == MovingToTarget <==>
      b.internal.fear <= 0.7 && (CriticalNeed(b) || (b.internal.energy >= 0.3 && ModerateNeed(b)))
    // low energy wins over moderate needs but not over critical ones
    ensures r == Resting <==> b.internal.fear <= 0.7 && !CriticalNeed(b) && b.internal.energy < 0.3
    ensures r == Wandering <==>
      b.internal.fear <= 0.7 && b.internal.energy >= 0.3 && !CriticalNeed(b) && !ModerateNeed(b)
    // with nothing cached, a calm and rested bird wanders
    ensures b.internal.fear <= 0.7 && b.internal.energy >= 0.3
      && Eat !in b.availableActions && Drink !in b.availableActions && Bathe !in b.availableActions
      ==> r == Wandering
  {
    var internal := b.internal;
    var actions := b.availableActions;
    if internal.fear > 0.7 then Fleeing
    else if internal.hunger > 0.8 && Eat in actions then MovingToTarget
    else if internal.thirst > 0.8 && Drink in actions then MovingToTarget
    else if internal.energy < 0.3 then Resting
    else if internal.hunger > 0.5 && Eat in actions then MovingToTarget
    else if internal.thirst > 0.5 && Drink in actions then MovingToTarget
    else if Bathe in actions then MovingToTarget
    else Wandering
  }

}
