/**
 * The bird species the modelled systems name (the `BirdSpecies` enum of the game).
 * Birds and other world objects are referred to by opaque entity ids.
 */
module Species {
  /** An ECS entity id. */
  type Entity = nat

  datatype BirdSpecies =
    | Cardinal | BlueJay | Robin | Sparrow | Chickadee | HouseFinch
    | CommonCrow | EuropeanStarling | CommonGrackle | MourningDove
    | YellowWarbler | RedWingedBlackbird | BrownThrasher | Goldfinch | CedarWaxwing
    | WhiteBreastedNuthatch | BlueGrayGnatcatcher | TuftedTitmouse | CarolinaWren
    | RubyThroatedHummingbird | DownyWoodpecker | HairyWoodpecker | PileatedWoodpecker
    | ScarletTanager | BaltimoreOriole | NorthernMockingbird
    | GreatHornedOwl | BarredOwl | RedTailedHawk | CoopersHawk | PeregrineFalcon
}
