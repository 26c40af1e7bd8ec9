/**
 * The game clock (hour of day and day of year), the seasons it implies,
 * and the species each season makes available for spawning.
 */
module Environment {
  import opened Wrappers
  import opened Species
  import opened EnvironmentComponents

  // ---- the clock ----

  /** The season of a day of the year; days outside 1..355 that are not spring, summer or fall count as winter. */
  function GetSeason(day: nat): (s: Season)
    ensures 1 <= day <= 79 || day > 355 || day == 0 <==> s == Winter
    ensures s == Spring <==> 80 <= day <= 171
    ensures s == Summer <==> 172 <= day <= 264
    ensures s == Fall <==> 265 <= day <= 355
  {
    if 1 <= day <= 79 then Winter
    else if 80 <= day <= 171 then Spring
    else if 172 <= day <= 264 then Summer
    else if 265 <= day <= 355 then Fall
    else Winter
  }

  /** Early morning and late afternoon, ends included: always in daylight, never around midday. */
  function IsPrimeFeedingTime(hour: real): (prime: bool)
    ensures prime ==> DaylightFactor(hour) >= 0.6
    ensures 10.0 < hour < 16.0 ==> !prime
  {
    (6.0 <= hour <= 10.0) || (16.0 <= hour <= 19.0)
  }

  /** How much daylight there is: night, dawn or dusk, or full day. */
  function DaylightFactor(hour: real): (f: real)
    ensures f == 0.1 || f == 0.6 || f == 1.0
    ensures f == 1.0 <==> 8.0 <= hour <= 18.0
    ensures f == 0.1 <==> hour < 6.0 || hour > 20.0
  {
    if hour < 6.0 || hour > 20.0 then 0.1
    else if hour < 8.0 || hour > 18.0 then 0.6
    else 1.0
  }

  /** The two feeding windows: both ends of each count, and nothing before 6:00 or after 19:00 does. */
  lemma PrimeFeedingWindows(hour: real)
    ensures IsPrimeFeedingTime(6.0) && IsPrimeFeedingTime(10.0) && IsPrimeFeedingTime(16.0) && IsPrimeFeedingTime(19.0)
    ensures hour < 6.0 || hour > 19.0 ==> !IsPrimeFeedingTime(hour)
    ensures 8.0 <= hour <= 10.0 || 16.0 <= hour <= 18.0 <==> IsPrimeFeedingTime(hour) && DaylightFactor(hour) == 1.0
  {
  }

  /** Daylight never falls while the morning goes on, and never rises in the afternoon and evening. */
  lemma DaylightTowardMidday(h1: real, h2: real)
    requires h1 <= h2
    ensures h2 <= 12.0 ==> DaylightFactor(h1) <= DaylightFactor(h2)
    ensures 12.0 <= h1 ==> DaylightFactor(h1) >= DaylightFactor(h2)
  {
  }

  /** The day after this one: day 365 is followed by day 1. */
  function NextDay(day: nat): (d: nat)
    ensures 1 <= day <= 365 ==> 1 <= d <= 365
    ensures d == 1 || d == day + 1
  {
    if day + 1 > 365 then 1 else day + 1
  }

  /** The day n days later. */
  function DayAfter(day: nat, n: nat): nat
    decreases n
  {
    if n == 0 then day else DayAfter(NextDay(day), n - 1)
  }

  /** Counting days is arithmetic modulo 365 over 1..365. */
  lemma {:induction false} DayAfterIsModular(day: nat, n: nat)
    requires 1 <= day <= 365
    ensures DayAfter(day, n) == (day - 1 + n) % 365 + 1
    decreases n
  {
    if n > 0 {
      DayAfterIsModular(NextDay(day), n - 1);
      if day == 365 {
        assert (day - 1 + n) % 365 == (n - 1) % 365 by {
          assert day - 1 + n == (n - 1) + 365;
        }
      }
    }
  }

  /** After 365 days the calendar is back on the same day. */
  lemma YearIsACycle(day: nat)
    requires 1 <= day <= 365
    ensures DayAfter(day, 365) == day
  {
    DayAfterIsModular(day, 365);
    assert (day - 1 + 365) % 365 == day - 1;
  }

  /** The season changes overnight exactly on the four boundary days. */
  lemma SeasonChangesAtBoundaries(day: nat)
    requires 1 <= day <= 365
    ensures GetSeason(NextDay(day)) != GetSeason(day) <==> day in {79, 171, 264, 355}
  {
  }

  /** Rust's `as u32` on a non-NaN f32: truncation, saturating at both ends. */
  function AsU32(x: real): (n: nat)
    ensures n <= 0xFFFF_FFFF
    ensures 0.0 <= x < 4294967295.0 ==> n as real <= x < n as real + 1.0
  {
    if x <= 0.0 then 0
    else if x >= 4294967295.0 then 0xFFFF_FFFF
    else x.Floor
  }

  // ---- the species of each season ----

  /** The year-round residents, each at probability 1.0. */
  function Residents(): (rs: seq<(BirdSpecies, real)>)
    ensures |rs| == 8
    ensures forall k :: 0 <= k < |rs| ==> rs[k].1 == 1.0
  {
    [(Cardinal, 1.0), (BlueJay, 1.0), (Chickadee, 1.0), (HouseFinch, 1.0), (Sparrow, 1.0),
     (CommonCrow, 1.0), (EuropeanStarling, 1.0), (CommonGrackle, 1.0)]
  }

  /** Whether a species is among the year-round residents. */
  predicate IsResident(sp: BirdSpecies)
  {
    exists k :: 0 <= k < |Residents()| && Residents()[k].0 == sp
  }

  /** Each resident is listed once. */
  lemma ResidentsDistinct()
    ensures forall i, j :: 0 <= i < j < |Residents()| ==> Residents()[i].0 != Residents()[j].0
  {
  }

  /** The visitors of each season with their spawn probabilities. */
  function Visitors(s: Season): seq<(BirdSpecies, real)>
  {
    match s
    case Spring => [(Robin, 1.2), (YellowWarbler, 0.8), (RedWingedBlackbird, 0.9), (BrownThrasher, 0.6)]
    case Summer => [(Robin, 1.3), (Goldfinch, 1.1), (CedarWaxwing, 0.8), (YellowWarbler, 1.0), (RedWingedBlackbird, 1.1)]
    case Fall => [(Robin, 0.9), (YellowWarbler, 0.7), (WhiteBreastedNuthatch, 1.0), (CedarWaxwing, 1.2), (BlueGrayGnatcatcher, 0.6)]
    case Winter => [(WhiteBreastedNuthatch, 1.1), (TuftedTitmouse, 1.0), (CarolinaWren, 0.8), (MourningDove, 0.9)]
  }

  /** No season's visitors include a resident, so no visitor insert overwrites a resident. */
  lemma VisitorsAreNotResidents(s: Season)
    ensures forall k, j :: 0 <= k < |Visitors(s)| && 0 <= j < |Residents()| ==> Visitors(s)[k].0 != Residents()[j].0
  {
  }

  /** Insert every pair in order into a map, as repeated HashMap inserts do. */
  function InsertAll(m: map<BirdSpecies, real>, pairs: seq<(BirdSpecies, real)>): map<BirdSpecies, real>
    decreases |pairs|
  {
    if pairs == [] then m else InsertAll(m[pairs[0].0 := pairs[0].1], pairs[1..])
  }

  /** After the inserts the map holds the keys it held and the keys inserted, and nothing else. */
  lemma {:induction false} InsertAllKeys(m: map<BirdSpecies, real>, pairs: seq<(BirdSpecies, real)>, sp: BirdSpecies)
    ensures sp in InsertAll(m, pairs) <==> sp in m || exists k :: 0 <= k < |pairs| && pairs[k].0 == sp
    decreases |pairs|
  {
    if pairs != [] {
      InsertAllKeys(m[pairs[0].0 := pairs[0].1], pairs[1..], sp);
      assert forall k :: 1 <= k < |pairs| ==> pairs[1..][k - 1] == pairs[k];
    }
  }

  /** A key no pair inserts keeps its value. */
  lemma {:induction false} InsertAllKeeps(m: map<BirdSpecies, real>, pairs: seq<(BirdSpecies, real)>, sp: BirdSpecies)
    requires sp in m && forall k :: 0 <= k < |pairs| ==> pairs[k].0 != sp
    ensures sp in InsertAll(m, pairs) && InsertAll(m, pairs)[sp] == m[sp]
    decreases |pairs|
  {
    if pairs != [] {
      assert forall k :: 0 <= k < |pairs[1..]| ==> pairs[1..][k] == pairs[k + 1];
      InsertAllKeeps(m[pairs[0].0 := pairs[0].1], pairs[1..], sp);
    }
  }

  /** The last pair inserted for a key decides its value. */
  lemma {:induction false} InsertAllLastWins(m: map<BirdSpecies, real>, pairs: seq<(BirdSpecies, real)>, k: nat)
    requires k < |pairs| && forall j :: k < j < |pairs| ==> pairs[j].0 != pairs[k].0
    ensures pairs[k].0 in InsertAll(m, pairs) && InsertAll(m, pairs)[pairs[k].0] == pairs[k].1
    decreases |pairs|
  {
    if k == 0 {
      assert forall j :: 0 <= j < |pairs[1..]| ==> pairs[1..][j] == pairs[j + 1];
      InsertAllKeeps(m[pairs[0].0 := pairs[0].1], pairs[1..], pairs[0].0);
    } else {
      InsertAllLastWins(m[pairs[0].0 := pairs[0].1], pairs[1..], k - 1);
    }
  }

  /** The species available in a season: the residents at 1.0, then the season's visitors. */
  function SeasonSpecies(s: Season): map<BirdSpecies, real>
  {
    InsertAll(InsertAll(map[], Residents()), Visitors(s))
  }

  /** Whatever the season, the eight residents are available at probability 1.0. */
  lemma ResidentsAlwaysAvailable(s: Season, sp: BirdSpecies)
    requires IsResident(sp)
    ensures sp in SeasonSpecies(s) && SeasonSpecies(s)[sp] == 1.0
  {
    var rs := Residents();
    ResidentsDistinct();
    VisitorsAreNotResidents(s);
    var k :| 0 <= k < |rs| && rs[k].0 == sp;
    InsertAllLastWins(map[], rs, k);
    InsertAllKeeps(InsertAll(map[], rs), Visitors(s), sp);
  }

  /** A species is available in a season exactly when it is a resident or one of that season's visitors. */
  lemma AvailableIffResidentOrVisitor(s: Season, sp: BirdSpecies)
    ensures sp in SeasonSpecies(s) <==> IsResident(sp) || exists k :: 0 <= k < |Visitors(s)| && Visitors(s)[k].0 == sp
  {
    InsertAllKeys(map[], Residents(), sp);
    InsertAllKeys(InsertAll(map[], Residents()), Visitors(s), sp);
  }

  /** A visitor is available at the probability its season lists for it. */
  lemma VisitorsAtTheirProbability(s: Season, k: nat)
    requires k < |Visitors(s)|
    ensures Visitors(s)[k].0 in SeasonSpecies(s) && SeasonSpecies(s)[Visitors(s)[k].0] == Visitors(s)[k].1
  {
    assert forall i, j :: 0 <= i < j < |Visitors(s)| ==> Visitors(s)[i].0 != Visitors(s)[j].0;
    InsertAllLastWins(InsertAll(map[], Residents()), Visitors(s), k);
  }

  /** A species' spawn probability in a species map: its value, or 0 when absent. */
  function ProbabilityIn(m: map<BirdSpecies, real>, sp: BirdSpecies): real
  {
    if sp in m then m[sp] else 0.0
  }

  /**
   * In a season's species map every resident spawns at 1.0, every visitor at
   * the probability its season lists, and every other species at 0.
   */
  lemma SeasonSpawnProbabilities(season: Season)
    ensures forall sp :: IsResident(sp) ==> ProbabilityIn(SeasonSpecies(season), sp) == 1.0
    ensures forall k :: 0 <= k < |Visitors(season)| ==>
      ProbabilityIn(SeasonSpecies(season), Visitors(season)[k].0) == Visitors(season)[k].1
    ensures forall sp :: !IsResident(sp) && (forall k :: 0 <= k < |Visitors(season)| ==> Visitors(season)[k].0 != sp) ==>
      ProbabilityIn(SeasonSpecies(season), sp) == 0.0
  {
    forall sp | IsResident(sp)
      ensures ProbabilityIn(SeasonSpecies(season), sp) == 1.0
    {
      ResidentsAlwaysAvailable(season, sp);
    }
    forall k | 0 <= k < |Visitors(season)|
      ensures ProbabilityIn(SeasonSpecies(season), Visitors(season)[k].0) == Visitors(season)[k].1
    {
      VisitorsAtTheirProbability(season, k);
    }
    forall sp | !IsResident(sp) && (forall k :: 0 <= k < |Visitors(season)| ==> Visitors(season)[k].0 != sp)
      ensures ProbabilityIn(SeasonSpecies(season), sp) == 0.0
    {
      AvailableIffResidentOrVisitor(season, sp);
    }
  }

  /** The species and migration flag a day's season calls for. */
  predicate InSeason(species: map<BirdSpecies, real>, migration: bool, day: nat)
  {
    species == SeasonSpecies(GetSeason(day)) && (migration <==> GetSeason(day) in {Spring, Fall})
  }

  /** The map the derived starting state holds: six species at 1.0. */
  function DefaultSpecies(): map<BirdSpecies, real>
  {
    map[Cardinal := 1.0, BlueJay := 1.0, Chickadee := 1.0, HouseFinch := 1.0, Sparrow := 1.0, Robin := 1.0]
  }

  /**
   * The game starts on day 120, in spring, with the derived starting state,
   * which is not spring's: it lacks three of the eight residents (the common
   * crow, the European starling and the common grackle) and three of spring's
   * four visitors (the yellow warbler, the red-winged blackbird and the brown
   * thrasher), holds the robin at 1.0 rather than spring's 1.2, and has
   * migration off. Only a change of season rebuilds it, and the next one,
   * summer, keeps migration off, so it stays off until fall.
   */
  lemma AsWrittenStartOutOfSeason()
    ensures GetSeason(120) == Spring && GetSeason(171) == Spring && GetSeason(172) == Summer
    // the three missing residents
    ensures CommonCrow !in DefaultSpecies() && EuropeanStarling !in DefaultSpecies()
    ensures CommonGrackle !in DefaultSpecies()
    ensures IsResident(CommonCrow) && IsResident(EuropeanStarling) && IsResident(CommonGrackle)
    // the three missing spring visitors
    ensures YellowWarbler !in DefaultSpecies() && RedWingedBlackbird !in DefaultSpecies()
    ensures BrownThrasher !in DefaultSpecies()
    ensures YellowWarbler in SeasonSpecies(Spring) && RedWingedBlackbird in SeasonSpecies(Spring)
    ensures BrownThrasher in SeasonSpecies(Spring)
    ensures DefaultSpecies()[Robin] == 1.0 && Robin in SeasonSpecies(Spring) && SeasonSpecies(Spring)[Robin] == 1.2
    ensures !InSeason(DefaultSpecies(), false, 120)
    ensures Summer !in {Spring, Fall}
  {
    SpringSpecies();
    StartMisses();
    StartNotInSeason();
  }

  /** The species the derived start leaves out, and its robin. */
  lemma StartMisses()
    ensures CommonCrow !in DefaultSpecies() && EuropeanStarling !in DefaultSpecies()
    ensures CommonGrackle !in DefaultSpecies() && YellowWarbler !in DefaultSpecies()
    ensures RedWingedBlackbird !in DefaultSpecies() && BrownThrasher !in DefaultSpecies()
    ensures DefaultSpecies()[Robin] == 1.0
  {
  }

  /** The derived start is not the state day 120 calls for. */
  lemma StartNotInSeason()
    ensures !InSeason(DefaultSpecies(), false, 120)
  {
    SpringSpecies();
    assert YellowWarbler !in DefaultSpecies();
  }

  /** Spring holds every resident and each of its visitors at its listed probability. */
  lemma SpringSpecies()
    ensures CommonCrow in SeasonSpecies(Spring) && EuropeanStarling in SeasonSpecies(Spring)
    ensures CommonGrackle in SeasonSpecies(Spring)
    ensures IsResident(CommonCrow) && IsResident(EuropeanStarling) && IsResident(CommonGrackle)
    ensures Robin in SeasonSpecies(Spring) && SeasonSpecies(Spring)[Robin] == 1.2
    ensures YellowWarbler in SeasonSpecies(Spring) && RedWingedBlackbird in SeasonSpecies(Spring)
    ensures BrownThrasher in SeasonSpecies(Spring)
  {
    assert Residents()[5].0 == CommonCrow && Residents()[6].0 == EuropeanStarling;
    assert Residents()[7].0 == CommonGrackle;
    ResidentsAlwaysAvailable(Spring, CommonCrow);
    ResidentsAlwaysAvailable(Spring, EuropeanStarling);
    ResidentsAlwaysAvailable(Spring, CommonGrackle);
    assert Visitors(Spring)[0].0 == Robin && Visitors(Spring)[1].0 == YellowWarbler;
    assert Visitors(Spring)[2].0 == RedWingedBlackbird && Visitors(Spring)[3].0 == BrownThrasher;
    VisitorsAtTheirProbability(Spring, 0);
    VisitorsAtTheirProbability(Spring, 1);
    VisitorsAtTheirProbability(Spring, 2);
    VisitorsAtTheirProbability(Spring, 3);
  }

  class SeasonalState {
    var availableSpecies: map<BirdSpecies, real>
    var migrationActive: bool

    /** The derived starting state, which the plugin installs: six species at 1.0, no migration. */
    constructor ()
      ensures availableSpecies == DefaultSpecies() && !migrationActive
    {
      availableSpecies := DefaultSpecies();
      migrationActive := false;
    }

    /** A starting state built for the season the clock starts in. */
    constructor ForDay(day: nat)
      ensures InSeason(availableSpecies, migrationActive, day)
    {
      var season := GetSeason(day);
      availableSpecies := SeasonSpecies(season);
      migrationActive := season == Spring || season == Fall;
    }

    /** Insert the pairs in order, one HashMap insert each. */
    method InsertPairs(pairs: seq<(BirdSpecies, real)>)
      modifies this
      ensures availableSpecies == InsertAll(old(availableSpecies), pairs)
      ensures migrationActive == old(migrationActive)
    {
      for i := 0 to |pairs|
        invariant InsertAll(availableSpecies, pairs[i..]) == InsertAll(old(availableSpecies), pairs)
        invariant migrationActive == old(migrationActive)
      {
        assert pairs[i..][1..] == pairs[i + 1..];
        availableSpecies := availableSpecies[pairs[i].0 := pairs[i].1];
      }
    }

    /** update_for_season: rebuild the species map from scratch and set the migration flag. */
    method UpdateForSeason(season: Season)
      modifies this
      ensures availableSpecies == SeasonSpecies(season)
      ensures migrationActive <==> season == Spring || season == Fall
    {
      availableSpecies := map[];
      InsertPairs(Residents());
      InsertPairs(Visitors(season));
      migrationActive := season == Spring || season == Fall;
    }

    /** get_spawn_probability: the map's value, or 0 for a species not available now. */
    function GetSpawnProbability(species: BirdSpecies): (p: real)
      reads this
      ensures species !in availableSpecies ==> p == 0.0
      ensures species in availableSpecies ==> p == availableSpecies[species]
    {
      ProbabilityIn(availableSpecies, species)
    }
  }

  /**
   * After update_for_season the spawn probabilities are those of the season:
   * every resident 1.0, every listed visitor its listed probability, any other species 0.
   */
  lemma SpawnProbabilityAfterUpdate(st: SeasonalState, season: Season)
    requires st.availableSpecies == SeasonSpecies(season)
    ensures forall sp :: IsResident(sp) ==> st.GetSpawnProbability(sp) == 1.0
    ensures forall k :: 0 <= k < |Visitors(season)| ==> st.GetSpawnProbability(Visitors(season)[k].0) == Visitors(season)[k].1
    ensures forall sp :: !IsResident(sp) && (forall k :: 0 <= k < |Visitors(season)| ==> Visitors(season)[k].0 != sp) ==>
      st.GetSpawnProbability(sp) == 0.0
  {
    SeasonSpawnProbabilities(season);
  }

  // ---- time progression ----

  datatype TimeChangeEvent = TimeChangeEvent(newHour: real, newDay: nat)

  class TimeState {
    var hour: real
    var timeSpeed: real
    var dayOfYear: nat

    /** 8 in the morning of day 120, one game hour per real minute. */
    constructor ()
      ensures hour == 8.0 && timeSpeed == 60.0 && dayOfYear == 120
    {
      hour := 8.0;
      timeSpeed := 60.0;
      dayOfYear := 120;
    }

    /** The season of the clock's day of the year. */
    function Season(): (s: Season)
      reads this
      ensures s == Spring <==> 80 <= dayOfYear <= 171
      ensures s == Summer <==> 172 <= dayOfYear <= 264
      ensures s == Fall <==> 265 <= dayOfYear <= 355
    {
      GetSeason(dayOfYear)
    }
  }

  /**
   * time_progression_system: advance the clock by the frame's `deltaSeconds`;
   * past midnight the hour wraps once and the day advances, refreshing the
   * seasonal species when the season changed; an event reports any change of
   * the whole hour or of the day.
   */
  method TimeProgression(time: TimeState, seasonal: SeasonalState, deltaSeconds: real) returns (event: Option<TimeChangeEvent>)
    requires time.timeSpeed > 0.0
    modifies time, seasonal
    ensures time.timeSpeed == old(time.timeSpeed)
    ensures var h := old(time.hour) + deltaSeconds / old(time.timeSpeed);
      (h >= 24.0 ==> time.hour == h - 24.0 && time.dayOfYear == NextDay(old(time.dayOfYear)))
      && (h < 24.0 ==> time.hour == h && time.dayOfYear == old(time.dayOfYear))
    ensures GetSeason(time.dayOfYear) != GetSeason(old(time.dayOfYear)) ==>
      seasonal.availableSpecies == SeasonSpecies(GetSeason(time.dayOfYear))
      && (seasonal.migrationActive <==> GetSeason(time.dayOfYear) in {Spring, Fall})
    ensures GetSeason(time.dayOfYear) == GetSeason(old(time.dayOfYear)) ==>
      seasonal.availableSpecies == old(seasonal.availableSpecies) && seasonal.migrationActive == old(seasonal.migrationActive)
    ensures InSeason(old(seasonal.availableSpecies), old(seasonal.migrationActive), old(time.dayOfYear)) ==>
      InSeason(seasonal.availableSpecies, seasonal.migrationActive, time.dayOfYear)
    ensures event.Some? <==> AsU32(time.hour) != AsU32(old(time.hour)) || time.dayOfYear != old(time.dayOfYear)
    ensures event.Some? ==> event.value == TimeChangeEvent(time.hour, time.dayOfYear)
  {
    var oldHour := time.hour;
    var oldDay := time.dayOfYear;
    var oldSeason := time.Season();
    time.hour := time.hour + deltaSeconds / time.timeSpeed;
    if time.hour >= 24.0 {
      time.hour := time.hour - 24.0;
      time.dayOfYear := time.dayOfYear + 1;
      if time.dayOfYear > 365 {
        time.dayOfYear := 1;
      }
      var newSeason := time.Season();
      if newSeason != oldSeason {
        seasonal.UpdateForSeason(newSeason);
      }
    }
    if AsU32(time.hour) != AsU32(oldHour) || time.dayOfYear != oldDay {
      event := Some(TimeChangeEvent(time.hour, time.dayOfYear));
    } else {
      event := None;
    }
  }
}
