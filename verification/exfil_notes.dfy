/**
  The codeword notes, one per map, and the injector that appends a map's
  note to a container's item list.
 */
module ExfilNotes {
  import opened LootTables

  /** The eight note items, each with its fixed item template id. */
  datatype ExfilNote = Shoreline | Factory | GroundZero | Streets | Customs | Woods | Lighthouse | Reserve
  {
    function Tpl(): string
    {
      match this
      case Shoreline => "675aab0d6b6addc02a08f097"
      case Factory => "675aaaf674a7619a5304c233"
      case GroundZero => "675aaae75a3ab8372d0b02a7"
      case Streets => "675aaae1dcf102478202c537"
      case Customs => "675aaab74bca0b001d02f356"
      case Woods => "675aaa9a3107dac100063331"
      case Lighthouse => "675aaa8f7f3c962069072b27"
      case Reserve => "675aaa003107dac10006332f"
    }
  }

  /** The template id the injector starts from before it picks a note. */
  const PlaceholderTpl: string := "ThisIsAFakeIDGetRekt"

  /** Which note each map receives, as a lookup table. Both factory variants
      share one note, and so do both Ground Zero variants. */
  const NoteByMap: map<string, ExfilNote> := map[
    "bigmap" := Customs,
    "factory4_day" := Factory,
    "factory4_night" := Factory,
    "lighthouse" := Lighthouse,
    "rezervbase" := Reserve,
    "sandbox" := GroundZero,
    "sandbox_high" := GroundZero,
    "shoreline" := Shoreline,
    "tarkovstreets" := Streets,
    "woods" := Woods
  ]

  /** Distinct notes have distinct template ids, and none is the placeholder. */
  lemma TplInjective(a: ExfilNote, b: ExfilNote)
    ensures a.Tpl() == b.Tpl() <==> a == b
    ensures a.Tpl() != PlaceholderTpl
  {
  }

  function Append(details: StaticLootDetails, entry: ItemDistribution): StaticLootDetails
  {
    details.(itemDistribution := details.itemDistribution + [entry])
  }

  /**
    The injector, dispatching on the map id like the source's `switch`:
    a recognised id appends one entry carrying that map's note and the given
    weight; any other id falls through (there is no `default`) and leaves the
    container as it was.
   */
  function AddCodeWordToCache(location: string, staticLootItem: StaticLootDetails, chance: int): (r: StaticLootDetails)
    ensures location in NoteByMap ==>
      r.itemDistribution == staticLootItem.itemDistribution + [ItemDistribution(NoteByMap[location].Tpl(), chance)]
    ensures location !in NoteByMap ==> r == staticLootItem
  {
    var itemDistributionObject := ItemDistribution(PlaceholderTpl, 0);
    match location
    case "bigmap" =>
      Append(staticLootItem, itemDistributionObject.(tpl := Customs.Tpl(), relativeProbability := chance))
    case "factory4_day" | "factory4_night" =>
      Append(staticLootItem, itemDistributionObject.(tpl := Factory.Tpl(), relativeProbability := chance))
    case "lighthouse" =>
      Append(staticLootItem, itemDistributionObject.(tpl := Lighthouse.Tpl(), relativeProbability := chance))
    case "rezervbase" =>
      Append(staticLootItem, itemDistributionObject.(tpl := Reserve.Tpl(), relativeProbability := chance))
    case "sandbox" | "sandbox_high" =>
      Append(staticLootItem, itemDistributionObject.(tpl := GroundZero.Tpl(), relativeProbability := chance))
    case "shoreline" =>
      Append(staticLootItem, itemDistributionObject.(tpl := Shoreline.Tpl(), relativeProbability := chance))
    case "tarkovstreets" =>
      Append(staticLootItem, itemDistributionObject.(tpl := Streets.Tpl(), relativeProbability := chance))
    case "woods" =>
      Append(staticLootItem, itemDistributionObject.(tpl := Woods.Tpl(), relativeProbability := chance))
    case _ => staticLootItem
  }

  /**
    Append-only: the injector keeps every existing entry in place, adds at
    most one, and never adds the placeholder template id.
   */
  lemma AddCodeWordAppendOnly(location: string, staticLootItem: StaticLootDetails, chance: int)
    ensures var before := staticLootItem.itemDistribution;
      var after := AddCodeWordToCache(location, staticLootItem, chance).itemDistribution;
      && |after| == |before| + (if location in NoteByMap then 1 else 0)
      && after[..|before|] == before
      && forall i | |before| <= i < |after| :: after[i].tpl != PlaceholderTpl && after[i].relativeProbability == chance
  {
  }
}
