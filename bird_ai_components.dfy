/**
 * The data a bird's AI works on: its state, the actions smart objects offer,
 * and its blackboard of needs and cached utilities.
 */
module BirdAiComponents {
  import opened Wrappers
  import opened Species

  datatype BirdState =
    | Wandering | MovingToTarget | Eating | Drinking | Bathing | Fleeing | Resting
    | Playing | Exploring | Nesting | Roosting | Sheltering | Courting | Following
    | Territorial | Flocking | Foraging | Caching | Retrieving | HoverFeeding

  datatype BirdAction =
    | Eat | Drink | Bathe | Perch | Play | Explore | Nest | Roost | Shelter
    | Court | Follow | Challenge | Flock | Forage | Cache | Retrieve | HoverFeed

  /** The best object a bird knows for one action, with its score. */
  datatype UtilityEntry = UtilityEntry(entity: Entity, score: real)

  /** A smart object's offer of one action, with its base utility and reach. */
  datatype ProvidesUtility = ProvidesUtility(action: BirdAction, baseUtility: real, range: real)

  /** Needs, each meant to lie in [0, 1]. */
  datatype InternalState = InternalState(
    hunger: real, thirst: real, energy: real, fear: real,
    socialNeed: real, territorialStress: real)

  /**
   * A bird's blackboard. `threatPerceived` stands for the presence of a
   * perceived threat direction; only its presence is read by the modelled systems.
   */
  datatype Blackboard = Blackboard(
    internal: InternalState,
    threatPerceived: bool,
    availableActions: map<BirdAction, UtilityEntry>,
    currentTarget: Option<Entity>)

  predicate UnitInterval(x: real) { 0.0 <= x <= 1.0 }

  /** The need levels the per-tick systems keep within their bounds. */
  predicate NeedsInRange(s: InternalState)
  {
    UnitInterval(s.hunger) && UnitInterval(s.thirst) && UnitInterval(s.energy) && UnitInterval(s.fear)
  }
}
