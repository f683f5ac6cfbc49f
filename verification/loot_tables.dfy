/**
  The slice of the game server's location database that the post-load hook
  reads and writes: per map, its display id and its static loot table, which
  maps a container type to the weighted list of items that may spawn in it.
  Every other field of the host's location and loot records is neither read
  nor written by the hook and is not modelled.
 */
module LootTables {

  /** One weighted spawn candidate of a container: an item template id and
      its unnormalised weight. */
  datatype ItemDistribution = ItemDistribution(tpl: string, relativeProbability: int)

  /** The loot record of one container type; only its item list is used. */
  datatype StaticLootDetails = StaticLootDetails(itemDistribution: seq<ItemDistribution>)

  /** One map: `baseId` is the map's own id (`base.Id`), which may differ
      from the key the map is stored under in the location table. */
  datatype Location = Location(baseId: string, staticLoot: map<string, StaticLootDetails>)

  /** The host's location table, keyed by map name. */
  type LocationTable = map<string, Location>

  /** Every weight in the list is non-negative (the host's own invariant). */
  predicate NonNegativeWeights(items: seq<ItemDistribution>)
  {
    forall i | 0 <= i < |items| :: items[i].relativeProbability >= 0
  }
}
