/**
 * The registry of smart object definitions: the loaded catalog plus the
 * workshop items registered by id. Workshop items shadow catalog entries
 * with the same id; searches scan the workshop items in the map's order.
 */
module ObjectRegistry {
  import opened Wrappers
  import opened Collections
  import opened Text
  import ObjectConfig

  datatype WorkshopMetadata = WorkshopMetadata(
    title: string, description: string, author: string, version: string,
    tags: seq<string>, rating: real, downloadCount: nat)

  datatype WorkshopObject = WorkshopObject(
    baseDefinition: ObjectConfig.Definition, metadata: WorkshopMetadata,
    localPath: string, isSubscribed: bool)

  /** A hash map's contents in its iteration order: one entry per key. */
  type Entries = seq<(string, WorkshopObject)>

  predicate DistinctKeys(entries: Entries)
  {
    forall i, j :: 0 <= i < j < |entries| ==> entries[i].0 != entries[j].0
  }

  function Find(entries: Entries, id: string): (r: Option<WorkshopObject>)
    ensures r.None? <==> forall k :: 0 <= k < |entries| ==> entries[k].0 != id
    ensures DistinctKeys(entries) ==> forall k :: 0 <= k < |entries| && entries[k].0 == id ==> r == Some(entries[k].1)
  {
    if entries == [] then None
    else if entries[0].0 == id then Some(entries[0].1)
    else
      assert forall k :: 1 <= k < |entries| ==> entries[1..][k - 1] == entries[k];
      Find(entries[1..], id)
  }

  /** HashMap::insert: the value under an existing key is replaced in place, a new key is added. */
  function Insert(entries: Entries, id: string, item: WorkshopObject): (r: Entries)
    ensures |r| == |entries| || |r| == |entries| + 1
    ensures DistinctKeys(entries) ==> DistinctKeys(r)
    ensures forall k :: 0 <= k < |r| ==> r[k] == (id, item) || r[k] in entries
    ensures (id, item) in r
    ensures forall e :: e in entries && e.0 != id ==> e in r
  {
    if entries == [] then [(id, item)]
    else if entries[0].0 == id then [(id, item)] + entries[1..]
    else
      var rest := Insert(entries[1..], id, item);
      assert forall e :: e in entries ==> e == entries[0] || e in entries[1..];
      [entries[0]] + rest
  }

  function Values(entries: Entries): (r: seq<WorkshopObject>)
    ensures |r| == |entries|
    ensures forall k :: 0 <= k < |r| ==> r[k] == entries[k].1
  {
    if entries == [] then [] else [entries[0].1] + Values(entries[1..])
  }

  // ---- search ----

  predicate TextMatch(item: WorkshopObject, query: string)
  {
    var q := LowerString(query);
    Contains(LowerString(item.metadata.title), q) || Contains(LowerString(item.metadata.description), q)
  }

  predicate TagMatch(item: WorkshopObject, tags: seq<string>)
  {
    tags == [] || exists t :: t in tags && t in item.metadata.tags
  }

  /** The empty query is contained in every title. */
  lemma EmptyQueryMatchesAll(item: WorkshopObject)
    ensures TextMatch(item, "")
  {
    assert OccursAt(LowerString(item.metadata.title), LowerString(""), 0);
  }

  class Registry {
    var catalog: Option<ObjectConfig.Catalog>
    var workshopItems: Entries

    ghost predicate Valid()
      reads this
    {
      DistinctKeys(workshopItems)
    }

    constructor(catalog: Option<ObjectConfig.Catalog>)
      ensures Valid() && this.catalog == catalog && workshopItems == []
    {
      this.catalog := catalog;
      workshopItems := [];
    }

    /** A workshop item with the id wins over the catalog; otherwise the catalog's first match. */
    function GetDefinition(id: string): (r: Option<ObjectConfig.Definition>)
      reads this
      requires Valid()
      ensures forall k :: 0 <= k < |workshopItems| && workshopItems[k].0 == id ==> r == Some(workshopItems[k].1.baseDefinition)
      ensures (forall k :: 0 <= k < |workshopItems| ==> workshopItems[k].0 != id) ==>
        (catalog.None? ==> r == None) && (catalog.Some? ==> r == ObjectConfig.GetDefinition(catalog.value.items, id))
    {
      match Find(workshopItems, id)
      case Some(item) => Some(item.baseDefinition)
      case None =>
        match catalog
        case None => None
        case Some(c) => ObjectConfig.GetDefinition(c.items, id)
    }

    /** The catalog's items in order, then every workshop item's definition. */
    function AllAvailableDefinitions(): (r: seq<ObjectConfig.Definition>)
      reads this
      ensures catalog.None? ==> |r| == |workshopItems|
      ensures catalog.Some? ==> |r| == |catalog.value.items| + |workshopItems| && r[..|catalog.value.items|] == catalog.value.items
      ensures forall k :: 0 <= k < |workshopItems| ==> r[|r| - |workshopItems| + k] == workshopItems[k].1.baseDefinition
    {
      var fromCatalog := if catalog.Some? then catalog.value.items else [];
      fromCatalog + seq(|workshopItems|, k requires 0 <= k < |workshopItems| reads this => workshopItems[k].1.baseDefinition)
    }

    method RegisterWorkshopItem(id: string, item: WorkshopObject)
      requires Valid()
      modifies this
      ensures Valid()
      ensures catalog == old(catalog)
      ensures workshopItems == Insert(old(workshopItems), id, item)
    {
      workshopItems := Insert(workshopItems, id, item);
    }

    function ItemsByAuthor(author: string): (r: seq<WorkshopObject>)
      reads this
      ensures forall x :: x in r <==> x in Values(workshopItems) && x.metadata.author == author
    {
      Filter(Values(workshopItems), (x: WorkshopObject) => x.metadata.author == author)
    }

    function SearchWorkshopItems(query: string, tags: seq<string>): (r: seq<WorkshopObject>)
      reads this
      ensures forall x :: x in r <==> x in Values(workshopItems) && TextMatch(x, query) && TagMatch(x, tags)
    {
      Filter(Values(workshopItems), (x: WorkshopObject) => TextMatch(x, query) && TagMatch(x, tags))
    }
  }

  /** After registering, looking the id up yields the new item's definition. */
  lemma RegisteredShadowsCatalog(entries: Entries, id: string, item: WorkshopObject)
    requires DistinctKeys(entries)
    ensures Find(Insert(entries, id, item), id) == Some(item)
  {
    var r := Insert(entries, id, item);
    var k :| 0 <= k < |r| && r[k] == (id, item);
  }

  /** Registering one id leaves every other id's lookup unchanged. */
  lemma {:induction false} InsertKeepsOthers(entries: Entries, id: string, item: WorkshopObject, other: string)
    requires other != id
    ensures Find(Insert(entries, id, item), other) == Find(entries, other)
  {
    if entries != [] && entries[0].0 != id {
      InsertKeepsOthers(entries[1..], id, item, other);
    }
  }

  /** With no tags to filter by, a search returns exactly the text matches, in map order. */
  lemma {:induction false} SearchWithoutTags(items: seq<WorkshopObject>, query: string)
    ensures Filter(items, (x: WorkshopObject) => TextMatch(x, query) && TagMatch(x, []))
         == Filter(items, (x: WorkshopObject) => TextMatch(x, query))
  {
    if items != [] {
      SearchWithoutTags(items[..|items| - 1], query);
    }
  }
}
