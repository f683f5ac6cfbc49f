/**
  Probability aggregator: the total weight of a container's item list.
 */
module Probability {
  import opened LootTables

  /** The arithmetic sum of the weights, taken front to back. */
  function Sum(items: seq<ItemDistribution>): (total: int)
    ensures NonNegativeWeights(items) ==> total >= 0
    ensures |items| == 0 ==> total == 0
  {
    if |items| == 0 then 0 else items[0].relativeProbability + Sum(items[1..])
  }

  /** Appending one entry adds exactly its weight to the total. */
  lemma {:induction false} SumAppend(items: seq<ItemDistribution>, e: ItemDistribution)
    ensures Sum(items + [e]) == Sum(items) + e.relativeProbability
  {
    if |items| == 0 {
      assert items + [e] == [e];
    } else {
      assert (items + [e])[1..] == items[1..] + [e];
      SumAppend(items[1..], e);
    }
  }

  /**
    The aggregator as the source writes it: a loop over the container's item
    list accumulating `relativeProbability`. The container must be present
    in the table; its callers only call it for present container types.
   */
  method GetItemDistributionProbability(staticLootTable: map<string, StaticLootDetails>, cacheType: string)
    returns (totalProbability: int)
    requires cacheType in staticLootTable
    ensures totalProbability == Sum(staticLootTable[cacheType].itemDistribution)
  {
    var itemDistribution := staticLootTable[cacheType].itemDistribution;
    totalProbability := 0;
    for item := 0 to |itemDistribution|
      invariant totalProbability == Sum(itemDistribution[..item])
    {
      assert itemDistribution[..item + 1] == itemDistribution[..item] + [itemDistribution[item]];
      SumAppend(itemDistribution[..item], itemDistribution[item]);
      totalProbability := totalProbability + itemDistribution[item].relativeProbability;
    }
    assert itemDistribution[..|itemDistribution|] == itemDistribution;
  }
}
