/**
 * The shop catalog: the placeable item tables, the player's inventory with
 * purchases and placements, and the catalog's open/placement-mode state.
 */
module Catalog {
  import opened Wrappers
  import opened Species
  import opened Collections
  import opened BirdAiComponents

  datatype PlaceableItemType =
    | CardboardBox | CushionRed | CushionBlue | WoodenPerch | FancyPerch
    | BasicBirdSeed | PremiumSeed | SuetCake | NectarFeeder | FruitDispenser
    | BasicBirdbath | FountainBirdbath | StreamFeature
    | GardenGnome | WindChime | FlowerPot | BirdHouse | NestingBox
    | MirrorToy | BellToy | SwingSeat

  datatype ItemCategory = Comfort | Food | Water | Decorative | Special

  // ---- item tables ----

  /** The price in coins. */
  function Price(t: PlaceableItemType): (p: nat)
    ensures 10 <= p <= 500
    ensures p == 10 <==> t == CardboardBox
  {
    match t
    case CardboardBox => 10
    case CushionRed => 25
    case CushionBlue => 25
    case WoodenPerch => 50
    case FancyPerch => 150
    case BasicBirdSeed => 30
    case PremiumSeed => 75
    case SuetCake => 40
    case NectarFeeder => 120
    case FruitDispenser => 90
    case BasicBirdbath => 80
    case FountainBirdbath => 200
    case StreamFeature => 500
    case GardenGnome => 60
    case WindChime => 45
    case FlowerPot => 35
    case BirdHouse => 100
    case NestingBox => 120
    case MirrorToy => 85
    case BellToy => 70
    case SwingSeat => 180
  }

  /** The actions an item offers to birds; the first is its primary action. */
  function ProvidesActions(t: PlaceableItemType): (acts: seq<BirdAction>)
    ensures 1 <= |acts| <= 2
    ensures Distinct(acts)
    ensures Eat in acts <==> CategoryOf(t) == Food
    ensures Drink in acts <==> CategoryOf(t) == Water
  {
    match t
    case CardboardBox => [Explore, Perch]
    case CushionRed => [Perch]
    case CushionBlue => [Perch]
    case WoodenPerch => [Perch]
    case FancyPerch => [Perch]
    case BasicBirdSeed => [Eat]
    case PremiumSeed => [Eat]
    case SuetCake => [Eat]
    case NectarFeeder => [Eat]
    case FruitDispenser => [Eat]
    case BasicBirdbath => [Drink, Bathe]
    case FountainBirdbath => [Drink, Bathe]
    case StreamFeature => [Drink, Bathe]
    case GardenGnome => [Explore]
    case WindChime => [Explore]
    case FlowerPot => [Explore, Perch]
    case BirdHouse => [Nest, Perch]
    case NestingBox => [Nest, Perch]
    case MirrorToy => [Play, Explore]
    case BellToy => [Play]
    case SwingSeat => [Play, Perch]
  }

  function BaseUtility(t: PlaceableItemType): (u: real)
    ensures 0.3 <= u <= 0.95
    ensures u == 0.95 <==> t == StreamFeature
  {
    match t
    case CardboardBox => 0.6
    case CushionRed => 0.7
    case CushionBlue => 0.7
    case WoodenPerch => 0.8
    case FancyPerch => 0.9
    case BasicBirdSeed => 0.7
    case PremiumSeed => 0.9
    case SuetCake => 0.8
    case NectarFeeder => 0.9
    case FruitDispenser => 0.8
    case BasicBirdbath => 0.8
    case FountainBirdbath => 0.9
    case StreamFeature => 0.95
    case GardenGnome => 0.4
    case WindChime => 0.3
    case FlowerPot => 0.5
    case BirdHouse => 0.7
    case NestingBox => 0.8
    case MirrorToy => 0.6
    case BellToy => 0.4
    case SwingSeat => 0.7
  }

  function InteractionRange(t: PlaceableItemType): (r: real)
    ensures 30.0 <= r <= 120.0
    ensures CategoryOf(t) == Water ==> r >= 90.0
  {
    match t
    case CardboardBox => 40.0
    case CushionRed => 30.0
    case CushionBlue => 30.0
    case WoodenPerch => 35.0
    case FancyPerch => 35.0
    case BasicBirdSeed => 80.0
    case PremiumSeed => 80.0
    case SuetCake => 70.0
    case NectarFeeder => 60.0
    case FruitDispenser => 75.0
    case BasicBirdbath => 90.0
    case FountainBirdbath => 100.0
    case StreamFeature => 120.0
    case GardenGnome => 50.0
    case WindChime => 60.0
    case FlowerPot => 45.0
    case BirdHouse => 40.0
    case NestingBox => 40.0
    case MirrorToy => 35.0
    case BellToy => 30.0
    case SwingSeat => 45.0
  }

  /** The items the catalog lists under each category tab. */
  function CategoryItems(c: ItemCategory): (items: seq<PlaceableItemType>)
    ensures Distinct(items) && 3 <= |items| <= 5
  {
    match c
    case Comfort => [CardboardBox, CushionRed, CushionBlue, WoodenPerch, FancyPerch]
    case Food => [BasicBirdSeed, PremiumSeed, SuetCake, NectarFeeder, FruitDispenser]
    case Water => [BasicBirdbath, FountainBirdbath, StreamFeature]
    case Decorative => [GardenGnome, WindChime, FlowerPot, BirdHouse, NestingBox]
    case Special => [MirrorToy, BellToy, SwingSeat]
  }

  /** The tab an item is listed under, as a reference for the category lists. */
  function CategoryOf(t: PlaceableItemType): ItemCategory
  {
    match t
    case CardboardBox | CushionRed | CushionBlue | WoodenPerch | FancyPerch => Comfort
    case BasicBirdSeed | PremiumSeed | SuetCake | NectarFeeder | FruitDispenser => Food
    case BasicBirdbath | FountainBirdbath | StreamFeature => Water
    case GardenGnome | WindChime | FlowerPot | BirdHouse | NestingBox => Decorative
    case MirrorToy | BellToy | SwingSeat => Special
  }

  /** Every item is listed under its own tab. */
  lemma ListedUnderOwnTab(t: PlaceableItemType)
    ensures t in CategoryItems(CategoryOf(t))
  {
    match t
    case CardboardBox =>
    case CushionRed =>
    case CushionBlue =>
    case WoodenPerch =>
    case FancyPerch =>
    case BasicBirdSeed =>
    case PremiumSeed =>
    case SuetCake =>
    case NectarFeeder =>
    case FruitDispenser =>
    case BasicBirdbath =>
    case FountainBirdbath =>
    case StreamFeature =>
    case GardenGnome =>
    case WindChime =>
    case FlowerPot =>
    case BirdHouse =>
    case NestingBox =>
    case MirrorToy =>
    case BellToy =>
    case SwingSeat =>
  }

  /** A tab lists only items of its own category. */
  lemma ListedOnlyUnderOwnTab(t: PlaceableItemType, c: ItemCategory)
    requires t in CategoryItems(c)
    ensures CategoryOf(t) == c
  {
    var k :| 0 <= k < |CategoryItems(c)| && CategoryItems(c)[k] == t;
    TabEntryCategory(c, k);
  }

  /** The k-th entry of a tab belongs to that tab's category. */
  lemma TabEntryCategory(c: ItemCategory, k: nat)
    requires k < |CategoryItems(c)|
    ensures CategoryOf(CategoryItems(c)[k]) == c
  {
    match c
    case Comfort =>
    case Food =>
    case Water =>
    case Decorative =>
    case Special =>
  }

  /** The category tabs partition the items: each item is listed under exactly one tab. */
  lemma CategoriesPartition(t: PlaceableItemType, c: ItemCategory)
    ensures t in CategoryItems(c) <==> CategoryOf(t) == c
  {
    ListedUnderOwnTab(t);
    if t in CategoryItems(c) {
      ListedOnlyUnderOwnTab(t, c);
    }
  }

  /**
   * The utility providers a placed item spawns: its primary action at the
   * item's base utility, every further action at 0.8 of it, all with the
   * item's interaction range.
   */
  function UtilityProviders(t: PlaceableItemType): (ps: seq<ProvidesUtility>)
    ensures |ps| == |ProvidesActions(t)|
    ensures forall k :: 0 <= k < |ps| ==> ps[k].action == ProvidesActions(t)[k] && ps[k].range == InteractionRange(t)
    ensures ps[0].baseUtility == BaseUtility(t)
    ensures forall k :: 1 <= k < |ps| ==> ps[k].baseUtility == BaseUtility(t) * 0.8
  {
    var acts := ProvidesActions(t);
    seq(|acts|, k requires 0 <= k < |acts| =>
      ProvidesUtility(acts[k], if k == 0 then BaseUtility(t) else BaseUtility(t) * 0.8, InteractionRange(t)))
  }

  /**
   * Every spawned provider can be discovered by bird AI: a positive range to
   * divide by, and a utility no greater than the primary one.
   */
  lemma ProvidersUsable(t: PlaceableItemType)
    ensures forall p :: p in UtilityProviders(t) ==> p.range >= 30.0 && 0.24 <= p.baseUtility <= BaseUtility(t)
    ensures forall a :: a in ProvidesActions(t) <==> exists p :: p in UtilityProviders(t) && p.action == a
  {
    var ps := UtilityProviders(t);
    forall p | p in ps
      ensures p.range >= 30.0 && 0.24 <= p.baseUtility <= BaseUtility(t)
    {
      var k :| 0 <= k < |ps| && ps[k] == p;
    }
    forall a | a in ProvidesActions(t)
      ensures exists p :: p in ps && p.action == a
    {
      var k :| 0 <= k < |ProvidesActions(t)| && ProvidesActions(t)[k] == a;
      assert ps[k] in ps;
    }
  }

  // ---- purchases ----

  /** The notification a purchase event raises. */
  datatype PurchaseNotice = Bought(item: PlaceableItemType, amount: nat) | NeedCoins(price: nat, item: PlaceableItemType)

  /** The notice a purchase of t shows against a balance: bought at its price, or the coins it needs. */
  function Notice(balance: nat, t: PlaceableItemType): (n: PurchaseNotice)
    ensures n.Bought? <==> balance >= Price(t)
    ensures n.item == t && (if n.Bought? then n.amount else n.price) == Price(t)
  {
    if balance >= Price(t) then Bought(t, Price(t)) else NeedCoins(Price(t), t)
  }

  /** The outcome of a run of purchase events: the coins left and the items actually bought, in order. */
  datatype Ledger = Ledger(currency: nat, bought: seq<PlaceableItemType>)

  /** handle_purchase_events on the coin balance: each affordable event is paid for, the others are refused. */
  function Purchases(currency: nat, events: seq<PlaceableItemType>): (r: Ledger)
    ensures r.currency <= currency
  {
    if events == [] then Ledger(currency, [])
    else
      var before := Purchases(currency, events[..|events| - 1]);
      var t := events[|events| - 1];
      if before.currency >= Price(t) then Ledger(before.currency - Price(t), before.bought + [t])
      else before
  }

  /** At most one item is bought per event, and only items that were asked for. */
  lemma {:induction false} PurchasesBounded(currency: nat, events: seq<PlaceableItemType>)
    ensures |Purchases(currency, events).bought| <= |events|
    ensures forall t :: t in Purchases(currency, events).bought ==> t in events
  {
    if events != [] {
      var n := |events| - 1;
      PurchasesBounded(currency, events[..n]);
      assert forall t :: t in events[..n] ==> t in events;
    }
  }

  /** The notices handle_purchase_events shows, one per event, in order. */
  function Notices(currency: nat, events: seq<PlaceableItemType>): seq<PurchaseNotice>
  {
    if events == [] then []
    else
      var n := |events| - 1;
      Notices(currency, events[..n]) + [Notice(Purchases(currency, events[..n]).currency, events[n])]
  }

  /** One notice per event. */
  lemma {:induction false} NoticesLength(currency: nat, events: seq<PlaceableItemType>)
    ensures |Notices(currency, events)| == |events|
  {
    if events != [] {
      NoticesLength(currency, events[..|events| - 1]);
    }
  }

  /** Notice i is the one event i gets against the balance the events before it left. */
  lemma {:induction false} NoticeInOrder(currency: nat, events: seq<PlaceableItemType>, i: nat)
    requires i < |events|
    ensures |Notices(currency, events)| == |events|
    ensures Notices(currency, events)[i] == Notice(Purchases(currency, events[..i]).currency, events[i])
  {
    var n := |events| - 1;
    NoticesLength(currency, events);
    NoticesLength(currency, events[..n]);
    var prev := Notices(currency, events[..n]);
    assert Notices(currency, events) == prev + [Notice(Purchases(currency, events[..n]).currency, events[n])];
    if i < n {
      NoticeInOrder(currency, events[..n], i);
      assert events[..n][..i] == events[..i] && events[..n][i] == events[i];
      assert Notices(currency, events)[i] == prev[i];
    }
  }

  function PriceSum(items: seq<PlaceableItemType>): nat
  {
    if items == [] then 0 else PriceSum(items[..|items| - 1]) + Price(items[|items| - 1])
  }

  /** How many times an item occurs in a list. */
  function Count(items: seq<PlaceableItemType>, t: PlaceableItemType): (n: nat)
    ensures n <= |items|
    ensures n > 0 <==> t in items
  {
    if items == [] then 0
    else
      var rest := items[..|items| - 1];
      assert forall x :: x in items <==> x in rest || x == items[|items| - 1];
      Count(rest, t) + (if items[|items| - 1] == t then 1 else 0)
  }

  lemma CountAppend(items: seq<PlaceableItemType>, x: PlaceableItemType, t: PlaceableItemType)
    ensures Count(items + [x], t) == Count(items, t) + (if x == t then 1 else 0)
  {
    assert (items + [x])[..|items|] == items;
  }

  lemma PriceSumAppend(items: seq<PlaceableItemType>, x: PlaceableItemType)
    ensures PriceSum(items + [x]) == PriceSum(items) + Price(x)
  {
    assert (items + [x])[..|items|] == items;
  }

  /** No coin is created or lost: the balance left plus the prices of what was bought is the starting balance. */
  lemma {:induction false} PurchasesAccounted(currency: nat, events: seq<PlaceableItemType>)
    ensures Purchases(currency, events).currency + PriceSum(Purchases(currency, events).bought) == currency
  {
    if events != [] {
      var before := Purchases(currency, events[..|events| - 1]);
      PurchasesAccounted(currency, events[..|events| - 1]);
      if before.currency >= Price(events[|events| - 1]) {
        PriceSumAppend(before.bought, events[|events| - 1]);
      }
    }
  }

  /** An item is refused only when the coins left at that point do not cover it. */
  lemma PurchaseRefusedOnlyWhenShort(currency: nat, events: seq<PlaceableItemType>, i: nat)
    requires i < |events|
    ensures Purchases(currency, events[..i + 1]).bought == Purchases(currency, events[..i]).bought
      <==> Purchases(currency, events[..i]).currency < Price(events[i])
  {
    assert events[..i + 1][..i] == events[..i];
    var before := Purchases(currency, events[..i]);
    if before.currency >= Price(events[i]) {
      assert |(before.bought + [events[i]])| != |before.bought|;
    }
  }

  /** handle_purchase_buttons: a pressed button raises a purchase event only if the coins cover the price. */
  function ButtonEvents(currency: nat, pressed: seq<PlaceableItemType>): (events: seq<PlaceableItemType>)
    ensures forall t :: t in events <==> t in pressed && Price(t) <= currency
  {
    Filter(pressed, (t: PlaceableItemType) => Price(t) <= currency)
  }

  /** The first event a button raises is always paid for when it is handled at the same balance. */
  lemma ButtonEventAffordable(currency: nat, pressed: seq<PlaceableItemType>)
    requires ButtonEvents(currency, pressed) != []
    ensures Purchases(currency, ButtonEvents(currency, pressed)[..1]).bought == ButtonEvents(currency, pressed)[..1]
  {
    var events := ButtonEvents(currency, pressed);
    assert events[0] in events;
    assert events[..1][..0] == [];
  }

  class PlayerInventory {
    var currency: nat
    var ownedItems: map<PlaceableItemType, nat>

    /** A new game starts with 100 coins and nothing owned. */
    constructor ()
      ensures currency == 100 && ownedItems == map[]
    {
      currency := 100;
      ownedItems := map[];
    }

    function Owned(t: PlaceableItemType): nat
      reads this
    {
      OwnedIn(ownedItems, t)
    }

    /** One purchase event: pay and receive one more of the item, or change nothing and warn. */
    method Purchase(t: PlaceableItemType) returns (notice: PurchaseNotice)
      modifies this
      ensures notice == Notice(old(currency), t)
      ensures old(currency) >= Price(t) ==>
        currency == old(currency) - Price(t) && ownedItems == old(ownedItems)[t := old(Owned(t)) + 1]
      ensures old(currency) < Price(t) ==> currency == old(currency) && ownedItems == old(ownedItems)
    {
      var price := Price(t);
      if currency >= price {
        currency := currency - price;
        ownedItems := ownedItems[t := Owned(t) + 1];
        notice := Bought(t, price);
      } else {
        notice := NeedCoins(price, t);
      }
    }

    /** handle_purchase_events: the events in order, each against the balance the previous ones left. */
    method HandlePurchaseEvents(events: seq<PlaceableItemType>) returns (notices: seq<PurchaseNotice>)
      modifies this
      ensures currency == Purchases(old(currency), events).currency
      ensures forall t :: Owned(t) == OwnedIn(old(ownedItems), t) + Count(Purchases(old(currency), events).bought, t)
      ensures |notices| == |events|
      ensures notices == Notices(old(currency), events)
    {
      ghost var c0, o0 := currency, ownedItems;
      notices := [];
      for i := 0 to |events|
        invariant currency == Purchases(c0, events[..i]).currency
        invariant forall t :: Owned(t) == OwnedIn(o0, t) + Count(Purchases(c0, events[..i]).bought, t)
        invariant |notices| == i
        invariant notices == Notices(c0, events[..i])
      {
        ghost var before := Purchases(c0, events[..i]);
        ghost var owned := ownedItems;
        PurchasesStep(c0, events, i);
        var n := Purchase(events[i]);
        if n.Bought? {
          OwnedAfterPurchase(o0, before.bought, owned, events[i]);
        }
        notices := notices + [n];
      }
      assert events[..|events|] == events;
    }
  }

  /** Buying x on top of holdings that count o0 plus the items bought so far counts o0 plus those items and x. */
  lemma OwnedAfterPurchase(o0: map<PlaceableItemType, nat>, bought: seq<PlaceableItemType>,
                           owned: map<PlaceableItemType, nat>, x: PlaceableItemType)
    requires forall t :: OwnedIn(owned, t) == OwnedIn(o0, t) + Count(bought, t)
    ensures forall t :: OwnedIn(owned[x := OwnedIn(owned, x) + 1], t) == OwnedIn(o0, t) + Count(bought + [x], t)
  {
    forall t
      ensures OwnedIn(owned[x := OwnedIn(owned, x) + 1], t) == OwnedIn(o0, t) + Count(bought + [x], t)
    {
      CountAppend(bought, x, t);
    }
  }

  /** One more purchase event, unfolded. */
  lemma PurchasesStep(currency: nat, events: seq<PlaceableItemType>, i: nat)
    requires i < |events|
    ensures var before := Purchases(currency, events[..i]);
      Purchases(currency, events[..i + 1])
      == if before.currency >= Price(events[i]) then Ledger(before.currency - Price(events[i]), before.bought + [events[i]]) else before
    ensures Notices(currency, events[..i + 1]) == Notices(currency, events[..i]) + [Notice(Purchases(currency, events[..i]).currency, events[i])]
  {
    assert events[..i + 1][..i] == events[..i];
  }

  // ---- placement ----

  /** A request to place an item at a world position. */
  datatype PlaceObjectEvent = PlaceObjectEvent(itemType: PlaceableItemType, position: (real, real))

  /** An object spawned by a placement: its entity, item, position and the utility providers it carries. */
  datatype Spawned = Spawned(entity: Entity, itemType: PlaceableItemType, position: (real, real), providers: seq<ProvidesUtility>)

  /** The number of an item owned; a missing entry counts as none. */
  function OwnedIn(owned: map<PlaceableItemType, nat>, t: PlaceableItemType): nat
  {
    if t in owned then owned[t] else 0
  }

  /** The placements that go through: each event whose item is still owned at that point. */
  function Placed(owned: map<PlaceableItemType, nat>, events: seq<PlaceObjectEvent>): (r: seq<PlaceableItemType>)
    ensures |r| <= |events|
    decreases |events|
  {
    if events == [] then []
    else
      var before := Placed(owned, events[..|events| - 1]);
      var t := events[|events| - 1].itemType;
      if OwnedIn(owned, t) > Count(before, t) then before + [t] else before
  }

  /** Placement never uses more of an item than is owned. */
  lemma {:induction false} PlacedWithinOwned(owned: map<PlaceableItemType, nat>, events: seq<PlaceObjectEvent>, t: PlaceableItemType)
    ensures Count(Placed(owned, events), t) <= OwnedIn(owned, t)
    decreases |events|
  {
    if events != [] {
      var before := Placed(owned, events[..|events| - 1]);
      PlacedWithinOwned(owned, events[..|events| - 1], t);
      var x := events[|events| - 1].itemType;
      if OwnedIn(owned, x) > Count(before, x) {
        CountAppend(before, x, t);
      }
    }
  }

  /** An event is refused exactly when every owned unit of its item is already placed. */
  lemma PlacementRefusedIffNoneLeft(owned: map<PlaceableItemType, nat>, events: seq<PlaceObjectEvent>, i: nat)
    requires i < |events|
    ensures Placed(owned, events[..i + 1]) == Placed(owned, events[..i])
      <==> Count(Placed(owned, events[..i]), events[i].itemType) >= OwnedIn(owned, events[i].itemType)
  {
    assert events[..i + 1][..i] == events[..i];
    var before := Placed(owned, events[..i]);
    if OwnedIn(owned, events[i].itemType) > Count(before, events[i].itemType) {
      assert |before + [events[i].itemType]| != |before|;
    }
  }

  class PlacedObjects {
    var objects: map<Entity, PlaceableItemType>
    var placementMode: bool
    var ghostEntity: Option<Entity>

    constructor ()
      ensures objects == map[] && !placementMode && ghostEntity == None
    {
      objects := map[];
      placementMode := false;
      ghostEntity := None;
    }
  }

  /**
   * One placement event: when an item is owned, one unit is used up and the
   * object is spawned as `entity` with its utility providers and recorded.
   */
  method PlaceObject(inv: PlayerInventory, placed: PlacedObjects, e: PlaceObjectEvent, entity: Entity) returns (spawned: Option<Spawned>)
    modifies inv, placed
    ensures inv.currency == old(inv.currency)
    ensures placed.placementMode == old(placed.placementMode) && placed.ghostEntity == old(placed.ghostEntity)
    ensures old(inv.Owned(e.itemType)) > 0 ==>
      inv.ownedItems == old(inv.ownedItems)[e.itemType := old(inv.Owned(e.itemType)) - 1]
      && placed.objects == old(placed.objects)[entity := e.itemType]
      && spawned == Some(Spawned(entity, e.itemType, e.position, UtilityProviders(e.itemType)))
    ensures old(inv.Owned(e.itemType)) == 0 ==>
      inv.ownedItems == old(inv.ownedItems) && placed.objects == old(placed.objects) && spawned == None
  {
    var t := e.itemType;
    if t in inv.ownedItems && inv.ownedItems[t] > 0 {
      inv.ownedItems := inv.ownedItems[t := inv.ownedItems[t] - 1];
      spawned := Some(Spawned(entity, t, e.position, UtilityProviders(t)));
      placed.objects := placed.objects[entity := t];
    } else {
      spawned := None;
    }
  }

  /** The items of a list of spawned objects, in order. */
  function SpawnedItems(spawned: seq<Spawned>): (items: seq<PlaceableItemType>)
    ensures |items| == |spawned|
  {
    if spawned == [] then [] else SpawnedItems(spawned[..|spawned| - 1]) + [spawned[|spawned| - 1].itemType]
  }

  /** One more placement event, unfolded. */
  lemma PlacedStep(owned: map<PlaceableItemType, nat>, done: seq<PlaceObjectEvent>, e: PlaceObjectEvent)
    ensures var before := Placed(owned, done);
      Placed(owned, done + [e])
      == if OwnedIn(owned, e.itemType) > Count(before, e.itemType) then before + [e.itemType] else before
  {
    assert (done + [e])[..|done|] == done;
  }

  /** One placement event keeps the owned counts plus the placed counts at the starting counts. */
  lemma PlacedCountsStep(owned: map<PlaceableItemType, nat>, done: seq<PlaceObjectEvent>, e: PlaceObjectEvent,
                         now: map<PlaceableItemType, nat>, next: map<PlaceableItemType, nat>)
    requires forall t :: OwnedIn(now, t) + Count(Placed(owned, done), t) == OwnedIn(owned, t)
    requires var x := e.itemType;
      next == if OwnedIn(now, x) > 0 then now[x := OwnedIn(now, x) - 1] else now
    ensures forall t :: OwnedIn(next, t) + Count(Placed(owned, done + [e]), t) == OwnedIn(owned, t)
  {
    PlacedStep(owned, done, e);
    forall t
      ensures OwnedIn(next, t) + Count(Placed(owned, done + [e]), t) == OwnedIn(owned, t)
    {
      CountAppend(Placed(owned, done), e.itemType, t);
    }
  }

  /** The placed-object map after recording each spawned object under its entity, in order. */
  function Recorded(objects: map<Entity, PlaceableItemType>, spawned: seq<Spawned>): (r: map<Entity, PlaceableItemType>)
  {
    if spawned == [] then objects
    else
      var last := spawned[|spawned| - 1];
      Recorded(objects, spawned[..|spawned| - 1])[last.entity := last.itemType]
  }

  /** The recorded map's keys are the old keys and the spawned entities, and no others. */
  lemma {:induction false} RecordedKeys(objects: map<Entity, PlaceableItemType>, spawned: seq<Spawned>)
    ensures forall k :: k in Recorded(objects, spawned) <==> k in objects || exists s :: s in spawned && s.entity == k
  {
    if spawned != [] {
      var n := |spawned| - 1;
      RecordedKeys(objects, spawned[..n]);
      assert spawned == spawned[..n] + [spawned[n]];
    }
  }

  /** A key that no spawned object reuses keeps its old item. */
  lemma {:induction false} RecordedKeeps(objects: map<Entity, PlaceableItemType>, spawned: seq<Spawned>, k: Entity)
    requires k in objects && forall s :: s in spawned ==> s.entity != k
    ensures k in Recorded(objects, spawned) && Recorded(objects, spawned)[k] == objects[k]
  {
    if spawned != [] {
      var n := |spawned| - 1;
      assert forall s :: s in spawned[..n] ==> s in spawned;
      RecordedKeeps(objects, spawned[..n], k);
    }
  }

  /** With distinct entities, each spawned entity maps to its own item. */
  lemma {:induction false} RecordedLatest(objects: map<Entity, PlaceableItemType>, spawned: seq<Spawned>, a: nat)
    requires DistinctEntities(spawned) && a < |spawned|
    ensures spawned[a].entity in Recorded(objects, spawned) && Recorded(objects, spawned)[spawned[a].entity] == spawned[a].itemType
  {
    var n := |spawned| - 1;
    if a < n {
      assert spawned[..n][a] == spawned[a];
      RecordedLatest(objects, spawned[..n], a);
    }
  }

  /** The three facts about a recorded map together. */
  lemma RecordedFacts(objects: map<Entity, PlaceableItemType>, spawned: seq<Spawned>)
    ensures forall s :: s in spawned ==> s.entity in Recorded(objects, spawned)
    ensures forall k :: k in Recorded(objects, spawned) <==> k in objects || exists s :: s in spawned && s.entity == k
    ensures forall k :: k in objects && (forall s :: s in spawned ==> s.entity != k) ==>
      k in Recorded(objects, spawned) && Recorded(objects, spawned)[k] == objects[k]
    ensures DistinctEntities(spawned) ==> forall a :: 0 <= a < |spawned| ==>
      spawned[a].entity in Recorded(objects, spawned) && Recorded(objects, spawned)[spawned[a].entity] == spawned[a].itemType
  {
    RecordedKeys(objects, spawned);
    forall k | k in objects && (forall s :: s in spawned ==> s.entity != k)
      ensures k in Recorded(objects, spawned) && Recorded(objects, spawned)[k] == objects[k]
    {
      RecordedKeeps(objects, spawned, k);
    }
    if DistinctEntities(spawned) {
      forall a | 0 <= a < |spawned|
        ensures spawned[a].entity in Recorded(objects, spawned)
          && Recorded(objects, spawned)[spawned[a].entity] == spawned[a].itemType
      {
        RecordedLatest(objects, spawned, a);
      }
    }
  }

  /** No two spawned objects share an entity id. */
  predicate DistinctEntities(spawned: seq<Spawned>)
  {
    forall a, b :: 0 <= a < b < |spawned| ==> spawned[a].entity != spawned[b].entity
  }

  /** No entity id occurs twice. */
  predicate DistinctIds(entities: seq<Entity>)
  {
    forall a, b :: 0 <= a < b < |entities| ==> entities[a] != entities[b]
  }

  /** Every spawned object's entity is one of `ids`. */
  predicate SpawnedFrom(spawned: seq<Spawned>, ids: seq<Entity>)
  {
    forall a :: 0 <= a < |spawned| ==> spawned[a].entity in ids
  }

  /** Recording one more spawned object inserts it last. */
  lemma RecordedStep(objects: map<Entity, PlaceableItemType>, spawned: seq<Spawned>, x: Spawned)
    ensures Recorded(objects, spawned + [x]) == Recorded(objects, spawned)[x.entity := x.itemType]
  {
    assert (spawned + [x])[..|spawned|] == spawned;
  }

  /** One more event keeps the spawned entities among the ids used so far, and distinct when the ids are. */
  lemma EntityStep(spawned: seq<Spawned>, ids: seq<Entity>, id: Entity, x: Option<Spawned>)
    requires x.Some? ==> x.value.entity == id
    requires SpawnedFrom(spawned, ids)
    requires DistinctIds(ids) ==> DistinctEntities(spawned)
    ensures var next := if x.Some? then spawned + [x.value] else spawned;
      SpawnedFrom(next, ids + [id]) && (DistinctIds(ids + [id]) ==> DistinctEntities(next))
  {
    if DistinctIds(ids + [id]) {
      assert DistinctIds(ids) by {
        forall a, b | 0 <= a < b < |ids|
          ensures ids[a] != ids[b]
        {
          assert (ids + [id])[a] == ids[a] && (ids + [id])[b] == ids[b];
        }
      }
      if x.Some? {
        forall a | 0 <= a < |spawned|
          ensures spawned[a].entity != id
        {
          var k :| 0 <= k < |ids| && ids[k] == spawned[a].entity;
          assert (ids + [id])[k] == ids[k] && (ids + [id])[|ids|] == id;
        }
      }
    }
  }

  /** The owned counts left after the placement events, each taking one unit of its item when one is left. */
  function Remaining(owned: map<PlaceableItemType, nat>, events: seq<PlaceObjectEvent>): map<PlaceableItemType, nat>
    decreases |events|
  {
    if events == [] then owned
    else
      var r := Remaining(owned, events[..|events| - 1]);
      var x := events[|events| - 1].itemType;
      if OwnedIn(r, x) > 0 then r[x := OwnedIn(r, x) - 1] else r
  }

  /** What is left plus what was placed is, item by item, what was owned at the start. */
  lemma {:induction false} RemainingConserves(owned: map<PlaceableItemType, nat>, events: seq<PlaceObjectEvent>)
    ensures forall t :: OwnedIn(Remaining(owned, events), t) + Count(Placed(owned, events), t) == OwnedIn(owned, t)
  {
    if events != [] {
      var n := |events| - 1;
      RemainingConserves(owned, events[..n]);
      assert events == events[..n] + [events[n]];
      PlacedCountsStep(owned, events[..n], events[n], Remaining(owned, events[..n]), Remaining(owned, events));
    }
  }

  /**
   * The state after the placement events `done`, whose spawns were offered the
   * ids `ids`: counts conserved, the spawned items as specified, the object
   * map recording the spawns, and the spawned entities taken from `ids`.
   */
  predicate Placing(owned: map<PlaceableItemType, nat>, objects: map<Entity, PlaceableItemType>, spawned: seq<Spawned>,
                    o0: map<PlaceableItemType, nat>, objects0: map<Entity, PlaceableItemType>,
                    done: seq<PlaceObjectEvent>, ids: seq<Entity>)
  {
    owned == Remaining(o0, done)
    && SpawnedItems(spawned) == Placed(o0, done)
    && objects == Recorded(objects0, spawned)
    && SpawnedFrom(spawned, ids) && (DistinctIds(ids) ==> DistinctEntities(spawned))
  }

  /** The items of one more spawned object end with its item. */
  lemma SpawnedItemsStep(spawned: seq<Spawned>, x: Spawned)
    ensures SpawnedItems(spawned + [x]) == SpawnedItems(spawned) + [x.itemType]
  {
    assert (spawned + [x])[..|spawned|] == spawned;
  }

  /** One more event takes one unit of its item from what is left, when one is left. */
  lemma RemainingStep(owned: map<PlaceableItemType, nat>, done: seq<PlaceObjectEvent>, e: PlaceObjectEvent)
    ensures var r := Remaining(owned, done);
      Remaining(owned, done + [e]) == if OwnedIn(r, e.itemType) > 0 then r[e.itemType := OwnedIn(r, e.itemType) - 1] else r
  {
    assert (done + [e])[..|done|] == done;
  }

  /** One more event is placed exactly when a unit of its item is left. */
  lemma PlacedWhenLeft(owned: map<PlaceableItemType, nat>, done: seq<PlaceObjectEvent>, e: PlaceObjectEvent)
    ensures Placed(owned, done + [e])
      == if OwnedIn(Remaining(owned, done), e.itemType) > 0 then Placed(owned, done) + [e.itemType] else Placed(owned, done)
  {
    RemainingConserves(owned, done);
    PlacedStep(owned, done, e);
  }

  /** PlaceObject on one more event `e` with id `id` extends the placement state by that event. */
  lemma PlacingStep(o0: map<PlaceableItemType, nat>, objects0: map<Entity, PlaceableItemType>,
                    done: seq<PlaceObjectEvent>, ids: seq<Entity>, e: PlaceObjectEvent, id: Entity,
                    now: map<PlaceableItemType, nat>, nowObjects: map<Entity, PlaceableItemType>, spawned: seq<Spawned>,
                    next: map<PlaceableItemType, nat>, nextObjects: map<Entity, PlaceableItemType>, s: Option<Spawned>)
    requires Placing(now, nowObjects, spawned, o0, objects0, done, ids)
    requires var x := e.itemType;
      (OwnedIn(now, x) > 0 ==>
         (next == now[x := OwnedIn(now, x) - 1] && nextObjects == nowObjects[id := x]
          && s == Some(Spawned(id, x, e.position, UtilityProviders(x)))))
      && (OwnedIn(now, x) == 0 ==> next == now && nextObjects == nowObjects && s == None)
    ensures Placing(next, nextObjects, if s.Some? then spawned + [s.value] else spawned, o0, objects0, done + [e], ids + [id])
  {
    var after := if s.Some? then spawned + [s.value] else spawned;
    assert next == Remaining(o0, done + [e]) by {
      RemainingStep(o0, done, e);
    }
    assert SpawnedItems(after) == Placed(o0, done + [e]) by {
      PlacedWhenLeft(o0, done, e);
      if s.Some? {
        SpawnedItemsStep(spawned, s.value);
      }
    }
    assert nextObjects == Recorded(objects0, after) by {
      if s.Some? {
        RecordedStep(objects0, spawned, s.value);
      }
    }
    assert SpawnedFrom(after, ids + [id]) && (DistinctIds(ids + [id]) ==> DistinctEntities(after)) by {
      EntityStep(spawned, ids, id, s);
    }
  }

  /** The placement state after the first i events, offered the first i ids. */
  predicate PlacingAt(owned: map<PlaceableItemType, nat>, objects: map<Entity, PlaceableItemType>, spawned: seq<Spawned>,
                      o0: map<PlaceableItemType, nat>, objects0: map<Entity, PlaceableItemType>,
                      events: seq<PlaceObjectEvent>, entities: seq<Entity>, i: nat)
    requires i <= |events| && i <= |entities|
  {
    Placing(owned, objects, spawned, o0, objects0, events[..i], entities[..i])
  }

  /** PlacingStep for event i of the run. */
  lemma PlacingAtStep(o0: map<PlaceableItemType, nat>, objects0: map<Entity, PlaceableItemType>,
                      events: seq<PlaceObjectEvent>, entities: seq<Entity>, i: nat,
                      now: map<PlaceableItemType, nat>, nowObjects: map<Entity, PlaceableItemType>, spawned: seq<Spawned>,
                      next: map<PlaceableItemType, nat>, nextObjects: map<Entity, PlaceableItemType>, s: Option<Spawned>)
    requires i < |events| && |entities| == |events|
    requires PlacingAt(now, nowObjects, spawned, o0, objects0, events, entities, i)
    requires var x := events[i].itemType;
      (OwnedIn(now, x) > 0 ==>
         (next == now[x := OwnedIn(now, x) - 1] && nextObjects == nowObjects[entities[i] := x]
          && s == Some(Spawned(entities[i], x, events[i].position, UtilityProviders(x)))))
      && (OwnedIn(now, x) == 0 ==> next == now && nextObjects == nowObjects && s == None)
    ensures PlacingAt(next, nextObjects, if s.Some? then spawned + [s.value] else spawned, o0, objects0, events, entities, i + 1)
  {
    PlacingStep(o0, objects0, events[..i], entities[..i], events[i], entities[i], now, nowObjects, spawned, next, nextObjects, s);
    assert events[..i + 1] == events[..i] + [events[i]];
    assert entities[..i + 1] == entities[..i] + [entities[i]];
  }

  /**
   * handle_place_object_events: the events in order; `entities` are the ids the
   * spawns would receive, one per event.
   */
  method HandlePlaceObjectEvents(inv: PlayerInventory, placed: PlacedObjects, events: seq<PlaceObjectEvent>, entities: seq<Entity>)
    returns (spawned: seq<Spawned>)
    requires |entities| == |events|
    modifies inv, placed
    ensures inv.currency == old(inv.currency)
    ensures forall t :: inv.Owned(t) + Count(Placed(old(inv.ownedItems), events), t) == OwnedIn(old(inv.ownedItems), t)
    ensures SpawnedItems(spawned) == Placed(old(inv.ownedItems), events)
    ensures placed.objects == Recorded(old(placed.objects), spawned)
    ensures placed.placementMode == old(placed.placementMode) && placed.ghostEntity == old(placed.ghostEntity)
    ensures SpawnedFrom(spawned, entities) && (DistinctIds(entities) ==> DistinctEntities(spawned))
    ensures forall s :: s in spawned ==> s.entity in placed.objects
    ensures forall k :: k in old(placed.objects) ==> k in placed.objects
    ensures forall k :: k in placed.objects <==> k in old(placed.objects) || exists s :: s in spawned && s.entity == k
    ensures forall k :: k in old(placed.objects) && (forall s :: s in spawned ==> s.entity != k) ==>
      placed.objects[k] == old(placed.objects)[k]
    ensures DistinctIds(entities) ==> forall a :: 0 <= a < |spawned| ==> placed.objects[spawned[a].entity] == spawned[a].itemType
  {
    ghost var o0 := inv.ownedItems;
    ghost var objects0 := placed.objects;
    spawned := [];
    for i := 0 to |events|
      invariant inv.currency == old(inv.currency)
      invariant placed.placementMode == old(placed.placementMode) && placed.ghostEntity == old(placed.ghostEntity)
      invariant PlacingAt(inv.ownedItems, placed.objects, spawned, o0, objects0, events, entities, i)
    {
      ghost var now := inv.ownedItems;
      ghost var nowObjects := placed.objects;
      var s := PlaceObject(inv, placed, events[i], entities[i]);
      PlacingAtStep(o0, objects0, events, entities, i, now, nowObjects, spawned, inv.ownedItems, placed.objects, s);
      if s.Some? {
        spawned := spawned + [s.value];
      }
    }
    assert events[..|events|] == events;
    assert entities[..|entities|] == entities;
    RemainingConserves(o0, events);
    RecordedFacts(objects0, spawned);
  }

  // ---- catalog window and placement mode ----

  class CatalogState {
    var isOpen: bool
    var selectedCategory: ItemCategory
    var selectedItem: Option<PlaceableItemType>

    constructor ()
      ensures !isOpen && selectedCategory == Comfort && selectedItem == None
    {
      isOpen := false;
      selectedCategory := Comfort;
      selectedItem := None;
    }
  }

  /** handle_catalog_input: C toggles the catalog (closing it ends placement mode); Escape ends placement and drops the selection. */
  method HandleCatalogInput(state: CatalogState, placed: PlacedObjects, pressedC: bool, pressedEscape: bool)
    modifies state, placed
    ensures state.isOpen == (old(state.isOpen) != pressedC)
    ensures state.selectedCategory == old(state.selectedCategory)
    ensures state.selectedItem == if pressedEscape then None else old(state.selectedItem)
    ensures placed.placementMode == (old(placed.placementMode) && !pressedEscape && !(pressedC && old(state.isOpen)))
    ensures placed.objects == old(placed.objects) && placed.ghostEntity == old(placed.ghostEntity)
  {
    if pressedC {
      state.isOpen := !state.isOpen;
      if !state.isOpen {
        placed.placementMode := false;
      }
    }
    if pressedEscape {
      placed.placementMode := false;
      state.selectedItem := None;
    }
  }

  /** The selection after a run of place-button presses: the last pressed item that is owned. */
  function SelectionAfter(selected: Option<PlaceableItemType>, owned: map<PlaceableItemType, nat>, pressed: seq<PlaceableItemType>): (r: Option<PlaceableItemType>)
    ensures r == selected || (r.Some? && r.value in pressed && OwnedIn(owned, r.value) > 0)
    ensures (exists i :: 0 <= i < |pressed| && OwnedIn(owned, pressed[i]) > 0) ==>
      exists i :: 0 <= i < |pressed| && OwnedIn(owned, pressed[i]) > 0 && r == Some(pressed[i])
        && forall j :: i < j < |pressed| ==> OwnedIn(owned, pressed[j]) == 0
    ensures (forall i :: 0 <= i < |pressed| ==> OwnedIn(owned, pressed[i]) == 0) ==> r == selected
  {
    if pressed == [] then selected
    else
      var t := pressed[|pressed| - 1];
      if OwnedIn(owned, t) > 0 then Some(t) else SelectionAfter(selected, owned, pressed[..|pressed| - 1])
  }

  /** handle_place_buttons: pressing an owned item's Place button selects it. */
  method HandlePlaceButtons(state: CatalogState, inv: PlayerInventory, pressed: seq<PlaceableItemType>)
    modifies state
    ensures state.selectedItem == SelectionAfter(old(state.selectedItem), inv.ownedItems, pressed)
    ensures state.isOpen == old(state.isOpen) && state.selectedCategory == old(state.selectedCategory)
  {
    for i := 0 to |pressed|
      invariant state.selectedItem == SelectionAfter(old(state.selectedItem), inv.ownedItems, pressed[..i])
      invariant state.isOpen == old(state.isOpen) && state.selectedCategory == old(state.selectedCategory)
    {
      assert pressed[..i + 1][..i] == pressed[..i];
      var t := pressed[i];
      if t in inv.ownedItems && inv.ownedItems[t] > 0 {
        state.selectedItem := Some(t);
      }
    }
    assert pressed[..|pressed|] == pressed;
  }

  /** start_placement_mode: a selected item switches placement mode on, with a ghost preview `preview`. */
  method StartPlacementMode(state: CatalogState, placed: PlacedObjects, preview: Entity)
    modifies placed
    ensures state.selectedItem.Some? && !old(placed.placementMode) ==> placed.placementMode && placed.ghostEntity == Some(preview)
    ensures !(state.selectedItem.Some? && !old(placed.placementMode)) ==>
      placed.placementMode == old(placed.placementMode) && placed.ghostEntity == old(placed.ghostEntity)
    ensures placed.objects == old(placed.objects)
  {
    if state.selectedItem.Some? && !placed.placementMode {
      placed.placementMode := true;
      placed.ghostEntity := Some(preview);
    }
  }

  /** The world position under a cursor position in the window. */
  function CursorToWorld(cursor: (real, real)): (p: (real, real))
    ensures p.0 + 400.0 == cursor.0 && 300.0 - p.1 == cursor.1
  {
    (cursor.0 - 400.0, 300.0 - cursor.1)
  }

  /**
   * handle_object_placement: in placement mode a left click over the window
   * with an item selected requests the placement and leaves placement mode;
   * a right click cancels placement mode. Both drop the ghost preview.
   */
  method HandleObjectPlacement(state: CatalogState, placed: PlacedObjects, cursor: Option<(real, real)>, leftClick: bool, rightClick: bool)
    returns (event: Option<PlaceObjectEvent>)
    modifies placed
    ensures event.Some? <==> old(placed.placementMode) && cursor.Some? && leftClick && state.selectedItem.Some?
    ensures event.Some? ==> event.value == PlaceObjectEvent(state.selectedItem.value, CursorToWorld(cursor.value))
    ensures placed.placementMode == (old(placed.placementMode) && event.None? && !rightClick)
    ensures placed.ghostEntity == if placed.placementMode then old(placed.ghostEntity) else if old(placed.placementMode) then None else old(placed.ghostEntity)
    ensures placed.objects == old(placed.objects)
  {
    event := None;
    if placed.placementMode {
      if cursor.Some? && leftClick && state.selectedItem.Some? {
        event := Some(PlaceObjectEvent(state.selectedItem.value, CursorToWorld(cursor.value)));
        placed.placementMode := false;
        placed.ghostEntity := None;
      }
      if rightClick {
        placed.placementMode := false;
        placed.ghostEntity := None;
      }
    }
  }
}
