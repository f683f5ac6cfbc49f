/**
  The post-load hook: for every allow-listed map in the location table, each
  of five container types present in its static loot gains the map's
  codeword note, weighted from that container's existing total.
  The allow-list is checked against the table key, while the note is chosen
  by the map's own `baseId`.
 */
module PostDbLoad {
  import opened LootTables
  import opened Probability
  import opened SpawnChance
  import opened ExfilNotes

  /** The maps the hook edits, tested against the location table's keys. */
  const MapsWithSecretExfils: seq<string> := [
    "bigmap",
    "factory4_day",
    "factory4_night",
    "lighthouse",
    "rezervbase",
    "sandbox",
    "sandbox_high",
    "shoreline",
    "tarkovstreets",
    "woods"
  ]

  /** The host's ids of the five cache container types (buried barrel,
      ground cache, PMC body, scav body, dead scav). Their concrete values
      belong to the host and are opaque here. */
  datatype CacheTypes = CacheTypes(
    buriedBarrelCache: string, groundCache: string, pmcBody: string, scavBody: string, deadScav: string)
  {
    /** The container types in the order the hook handles them. */
    function InVisitOrder(): seq<string>
    {
      [buriedBarrelCache, groundCache, pmcBody, scavBody, deadScav]
    }

    predicate PairwiseDistinct()
    {
      forall i, j | 0 <= i < j < 5 :: InVisitOrder()[i] != InVisitOrder()[j]
    }
  }

  /**
    One container after aggregate, estimate and inject. In a recognised map
    it becomes its old list plus one note weighted from the old total, so
    the new total is the old one plus that weight; in any other map it is
    left as it was.
   */
  function AdjustedCache(mapName: string, chance: int, details: StaticLootDetails): (r: StaticLootDetails)
    ensures var before := details.itemDistribution;
      var weight := GetGuessChanceOfSpawn(chance, Sum(before));
      mapName in NoteByMap ==>
        && r.itemDistribution == before + [ItemDistribution(NoteByMap[mapName].Tpl(), weight)]
        && Sum(r.itemDistribution) == Sum(before) + weight
    ensures mapName !in NoteByMap ==> r == details
  {
    var before := details.itemDistribution;
    var weight := GetGuessChanceOfSpawn(chance, Sum(before));
    var r := AddCodeWordToCache(mapName, details, weight);
    if mapName in NoteByMap then
      SumAppend(before, ItemDistribution(NoteByMap[mapName].Tpl(), weight));
      r
    else
      r
  }

  /** Handle one container type of a map: skip it when absent, otherwise
      replace it by its adjusted version. */
  function AdjustCache(staticLoot: map<string, StaticLootDetails>, cacheType: string, mapName: string, chance: int)
    : (r: map<string, StaticLootDetails>)
    ensures r.Keys == staticLoot.Keys
    ensures forall k | k in staticLoot && k != cacheType :: r[k] == staticLoot[k]
  {
    if cacheType in staticLoot then
      staticLoot[cacheType := AdjustedCache(mapName, chance, staticLoot[cacheType])]
    else
      staticLoot
  }

  /** Handle the given container types one after another. */
  function AdjustCaches(staticLoot: map<string, StaticLootDetails>, cacheTypes: seq<string>, mapName: string, chance: int)
    : (r: map<string, StaticLootDetails>)
    ensures r.Keys == staticLoot.Keys
    ensures forall k | k in staticLoot && k !in cacheTypes :: r[k] == staticLoot[k]
  {
    if |cacheTypes| == 0 then
      staticLoot
    else
      AdjustCaches(AdjustCache(staticLoot, cacheTypes[0], mapName, chance), cacheTypes[1..], mapName, chance)
  }

  /**
    One allow-listed map: its five container types are handled in turn, the
    note chosen by the map's own `baseId`. No container type is added or
    removed and types other than the five are untouched; with distinct type
    ids each present one is adjusted once from its original contents; an
    unrecognised `baseId` leaves the map as it was.
   */
  function AdjustLocation(location: Location, chance: int, caches: CacheTypes): (r: Location)
    ensures r.baseId == location.baseId
    ensures r.staticLoot.Keys == location.staticLoot.Keys
    ensures forall cacheType | cacheType in location.staticLoot && cacheType !in caches.InVisitOrder() ::
      r.staticLoot[cacheType] == location.staticLoot[cacheType]
    ensures caches.PairwiseDistinct() ==>
      forall cacheType | cacheType in location.staticLoot && cacheType in caches.InVisitOrder() ::
        r.staticLoot[cacheType] == AdjustedCache(location.baseId, chance, location.staticLoot[cacheType])
    ensures location.baseId !in NoteByMap ==> r == location
  {
    var r := location.(staticLoot := AdjustCaches(location.staticLoot, caches.InVisitOrder(), location.baseId, chance));
    assert caches.PairwiseDistinct() ==>
      forall cacheType | cacheType in location.staticLoot && cacheType in caches.InVisitOrder() ::
        r.staticLoot[cacheType] == AdjustedCache(location.baseId, chance, location.staticLoot[cacheType])
    by {
      if caches.PairwiseDistinct() {
        AdjustCachesDistinct(location.staticLoot, caches.InVisitOrder(), location.baseId, chance);
      }
    }
    assert location.baseId !in NoteByMap ==> r == location by {
      if location.baseId !in NoteByMap {
        AdjustCachesUnrecognised(location.staticLoot, caches.InVisitOrder(), location.baseId, chance);
      }
    }
    r
  }

  /**
    The hook over the whole location table. Maps keyed outside the
    allow-list are untouched; no map and no container type is added or
    removed; container types other than the five are untouched.
   */
  function PostDBLoad(locationTable: LocationTable, chance: int, caches: CacheTypes): (r: LocationTable)
    ensures r.Keys == locationTable.Keys
    ensures forall location | location in locationTable && location !in MapsWithSecretExfils ::
      r[location] == locationTable[location]
    ensures forall location | location in locationTable ::
      && r[location].baseId == locationTable[location].baseId
      && r[location].staticLoot.Keys == locationTable[location].staticLoot.Keys
    ensures forall location, cacheType |
      location in locationTable && cacheType in locationTable[location].staticLoot && cacheType !in caches.InVisitOrder() ::
      r[location].staticLoot[cacheType] == locationTable[location].staticLoot[cacheType]
  {
    map location | location in locationTable ::
      if location in MapsWithSecretExfils then AdjustLocation(locationTable[location], chance, caches)
      else locationTable[location]
  }

  /**
    The hook as a loop over the table's keys, taken in an arbitrary order
    (the order of `for...in` is up to the host). Every order gives the same
    table, because each map is edited independently of the others.
   */
  method PostDBLoadByKeys(locationTable: LocationTable, chance: int, caches: CacheTypes)
    returns (result: LocationTable)
    ensures result == PostDBLoad(locationTable, chance, caches)
  {
    result := locationTable;
    var remaining := locationTable.Keys;
    while remaining != {}
      invariant remaining <= locationTable.Keys
      invariant result.Keys == locationTable.Keys
      invariant forall location | location in remaining :: result[location] == locationTable[location]
      invariant forall location | location in locationTable && location !in remaining ::
        result[location] == PostDBLoad(locationTable, chance, caches)[location]
      decreases remaining
    {
      var location :| location in remaining;
      if location in MapsWithSecretExfils {
        result := result[location := AdjustLocation(result[location], chance, caches)];
      }
      remaining := remaining - {location};
    }
  }

  /** The `switch` labels of the injector are exactly the allow-listed map
      keys: a map whose `baseId` equals its table key always gets a note. */
  lemma AllowListMatchesNoteTable()
    ensures forall id :: id in MapsWithSecretExfils <==> id in NoteByMap
  {
  }

  /** With pairwise distinct container types, each present one is adjusted
      exactly once, from its original contents. */
  lemma {:induction false} AdjustCachesDistinct(
    staticLoot: map<string, StaticLootDetails>, cacheTypes: seq<string>, mapName: string, chance: int)
    requires forall i, j | 0 <= i < j < |cacheTypes| :: cacheTypes[i] != cacheTypes[j]
    ensures forall k | k in staticLoot && k in cacheTypes ::
      AdjustCaches(staticLoot, cacheTypes, mapName, chance)[k] == AdjustedCache(mapName, chance, staticLoot[k])
  {
    if |cacheTypes| > 0 {
      var head := cacheTypes[0];
      var once := AdjustCache(staticLoot, head, mapName, chance);
      AdjustCachesDistinct(once, cacheTypes[1..], mapName, chance);
      forall k | k in staticLoot && k in cacheTypes
        ensures AdjustCaches(staticLoot, cacheTypes, mapName, chance)[k] == AdjustedCache(mapName, chance, staticLoot[k])
      {
        if k == head {
          assert k !in cacheTypes[1..] by {
            forall i | 0 <= i < |cacheTypes[1..]| ensures cacheTypes[1..][i] != k {
              assert cacheTypes[1..][i] == cacheTypes[i + 1];
            }
          }
        } else {
          assert k in cacheTypes[1..] by {
            var i :| 0 <= i < |cacheTypes| && cacheTypes[i] == k;
            assert cacheTypes[1..][i - 1] == k;
          }
        }
      }
    }
  }

  /** A map whose `baseId` no `switch` label recognises keeps all of its
      containers, whatever container types are handled. */
  lemma {:induction false} AdjustCachesUnrecognised(
    staticLoot: map<string, StaticLootDetails>, cacheTypes: seq<string>, mapName: string, chance: int)
    requires mapName !in NoteByMap
    ensures AdjustCaches(staticLoot, cacheTypes, mapName, chance) == staticLoot
  {
    if |cacheTypes| > 0 {
      var once := AdjustCache(staticLoot, cacheTypes[0], mapName, chance);
      assert once == staticLoot;
      AdjustCachesUnrecognised(once, cacheTypes[1..], mapName, chance);
    }
  }

  /**
    For an allow-listed map whose `baseId` is recognised, every one of the
    five container types it has gains exactly one entry at the end: that
    map's note, weighted from the container's total before the append.
   */
  lemma PostDBLoadAppendsNote(
    locationTable: LocationTable, chance: int, caches: CacheTypes, location: string, cacheType: string)
    requires caches.PairwiseDistinct()
    requires location in locationTable && location in MapsWithSecretExfils
    requires locationTable[location].baseId in NoteByMap
    requires cacheType in caches.InVisitOrder() && cacheType in locationTable[location].staticLoot
    ensures var before := locationTable[location].staticLoot[cacheType].itemDistribution;
      PostDBLoad(locationTable, chance, caches)[location].staticLoot[cacheType].itemDistribution
      == before + [ItemDistribution(NoteByMap[locationTable[location].baseId].Tpl(),
                                    GetGuessChanceOfSpawn(chance, Sum(before)))]
  {
    var loc := locationTable[location];
    assert PostDBLoad(locationTable, chance, caches)[location] == AdjustLocation(loc, chance, caches);
  }

  /** An allow-listed map whose `baseId` is not recognised is left unchanged:
      the allow-list and the injector look at different ids. */
  lemma PostDBLoadUnrecognisedBaseId(
    locationTable: LocationTable, chance: int, caches: CacheTypes, location: string)
    requires location in locationTable && locationTable[location].baseId !in NoteByMap
    ensures PostDBLoad(locationTable, chance, caches)[location] == locationTable[location]
  {
  }

  /** Keyed "bigmap" but with `baseId` "woods", a map is edited (its key is
      allow-listed) and receives the Woods note (chosen by `baseId`). */
  lemma KeyAndBaseIdExample(chance: int, caches: CacheTypes)
    requires caches.PairwiseDistinct()
    ensures var cache := StaticLootDetails([]);
      var table := map["bigmap" := Location("woods", map[caches.buriedBarrelCache := cache])];
      PostDBLoad(table, chance, caches)["bigmap"].staticLoot[caches.buriedBarrelCache].itemDistribution
      == [ItemDistribution(Woods.Tpl(), 0)]
  {
    var cache := StaticLootDetails([]);
    var table := map["bigmap" := Location("woods", map[caches.buriedBarrelCache := cache])];
    PostDBLoadAppendsNote(table, chance, caches, "bigmap", caches.buriedBarrelCache);
    GuessChanceZero(chance, 0);
  }

  /**
    The hook is not idempotent: running it twice leaves two notes at the end
    of every touched container, the second weighted from the container's
    total after the first was appended, which is the old total plus the
    first note's weight.
   */
  lemma PostDBLoadTwice(
    locationTable: LocationTable, chance: int, caches: CacheTypes, location: string, cacheType: string)
    requires caches.PairwiseDistinct()
    requires location in locationTable && location in MapsWithSecretExfils
    requires locationTable[location].baseId in NoteByMap
    requires cacheType in caches.InVisitOrder() && cacheType in locationTable[location].staticLoot
    ensures var before := locationTable[location].staticLoot[cacheType].itemDistribution;
      var tpl := NoteByMap[locationTable[location].baseId].Tpl();
      var first := ItemDistribution(tpl, GetGuessChanceOfSpawn(chance, Sum(before)));
      var middle := before + [first];
      var second := ItemDistribution(tpl, GetGuessChanceOfSpawn(chance, Sum(middle)));
      && PostDBLoad(PostDBLoad(locationTable, chance, caches), chance, caches)[location].staticLoot[cacheType].itemDistribution
         == middle + [second]
      && Sum(middle) == Sum(before) + first.relativeProbability
    ensures PostDBLoad(PostDBLoad(locationTable, chance, caches), chance, caches) != PostDBLoad(locationTable, chance, caches)
  {
    var once := PostDBLoad(locationTable, chance, caches);
    PostDBLoadAppendsNote(locationTable, chance, caches, location, cacheType);
    PostDBLoadAppendsNote(once, chance, caches, location, cacheType);
    var before := locationTable[location].staticLoot[cacheType].itemDistribution;
    var first := ItemDistribution(NoteByMap[locationTable[location].baseId].Tpl(), GetGuessChanceOfSpawn(chance, Sum(before)));
    SumAppend(before, first);
  }

  /**
    With a non-negative percentage, the hook keeps the host's invariant that
    every weight in every container is non-negative.
   */
  lemma PostDBLoadKeepsNonNegativeWeights(locationTable: LocationTable, chance: int, caches: CacheTypes)
    requires chance >= 0
    requires forall location, cacheType | location in locationTable && cacheType in locationTable[location].staticLoot ::
      NonNegativeWeights(locationTable[location].staticLoot[cacheType].itemDistribution)
    ensures var r := PostDBLoad(locationTable, chance, caches);
      forall location, cacheType | location in r && cacheType in r[location].staticLoot ::
        NonNegativeWeights(r[location].staticLoot[cacheType].itemDistribution)
  {
    forall location | location in locationTable && location in MapsWithSecretExfils
      ensures AllCachesNonNegative(AdjustLocation(locationTable[location], chance, caches).staticLoot)
    {
      var loc := locationTable[location];
      AdjustCachesKeepNonNegative(loc.staticLoot, caches.InVisitOrder(), loc.baseId, chance);
    }
  }

  predicate AllCachesNonNegative(staticLoot: map<string, StaticLootDetails>)
  {
    forall cacheType | cacheType in staticLoot :: NonNegativeWeights(staticLoot[cacheType].itemDistribution)
  }

  lemma {:induction false} AdjustCachesKeepNonNegative(
    staticLoot: map<string, StaticLootDetails>, cacheTypes: seq<string>, mapName: string, chance: int)
    requires chance >= 0 && AllCachesNonNegative(staticLoot)
    ensures AllCachesNonNegative(AdjustCaches(staticLoot, cacheTypes, mapName, chance))
  {
    if |cacheTypes| > 0 {
      var head := cacheTypes[0];
      var once := AdjustCache(staticLoot, head, mapName, chance);
      if head in staticLoot {
        var before := staticLoot[head].itemDistribution;
        GuessChanceNonNegative(chance, Sum(before));
      }
      AdjustCachesKeepNonNegative(once, cacheTypes[1..], mapName, chance);
    }
  }
}
