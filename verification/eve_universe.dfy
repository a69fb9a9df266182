/**
 * The parts of the external `eveuniverse` models that the pricing and tax
 * code reads: a type's id, its (inventory) group id and its market prices.
 */
module EveUniverse {
  import opened Wrappers

  /** Market prices of one type; either may be missing (`None`). */
  datatype EveMarketPrice = EveMarketPrice(averagePrice: Option<real>, adjustedPrice: Option<real>)

  /** A type of item, identified by `id`, belonging to the group `eveGroupId`. */
  datatype EveType = EveType(id: int, eveGroupId: int, marketPrice: EveMarketPrice)
}
