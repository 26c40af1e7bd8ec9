/** Seasons and weather kinds shared by the environment, smart objects and birds. */
module EnvironmentComponents {
  datatype Season = Spring | Summer | Fall | Winter

  datatype Weather = Clear | Cloudy | Rainy | Snowy | Windy

  /** How active birds are in a given weather (1.0 is normal activity). */
  function BirdActivityModifier(w: Weather): (m: real)
    ensures 0.3 <= m <= 1.0
    ensures m == 1.0 <==> w == Clear
    ensures m < 0.6 <==> w in {Rainy, Snowy}
  {
    match w
    case Clear => 1.0
    case Cloudy => 0.9
    case Rainy => 0.4
    case Snowy => 0.3
    case Windy => 0.6
  }
}
