/**
 * The static group tables and the two constant helpers of the mining-tax
 * application: the groups whose types are priced, the mapping from a
 * group to its tax category, a flat tax rate and a market-price read.
 */
module Helpers {
  import opened Wrappers
  import opened EveUniverse

  /** Group ids whose types the application prices, in declaration order. */
  const PriceGroups: seq<int> := [
    711,   // Gasses
    1923,  // R64 moon ores
    1922,  // R32 moon ores
    1921,  // R16 moon ores
    1920,  // R8 moon ores
    1884,  // R4 moon ores
    427,   // Moon materials
    465,   // Ice
    423,   // Ice materials
    18,    // Ore materials
    468,   // Mercoxit
    450,   // Arkonor
    4031,  // Bezdnacine
    451,   // Bistot
    452,   // Crokite
    453,   // Dark Ochre
    467,   // Gneiss
    454,   // Hedbergite
    455,   // Hemorphite
    529,   // Jaspet
    457,   // Kernite
    526,   // Omber
    516,   // Plagioclase
    459,   // Pyroxeres
    4030,  // Rakovene
    460,   // Scordite
    461,   // Spodumain
    4029,  // Talassonite
    462    // Veldspar
  ]

  /** Group id to the name of its tax category. */
  const TaxGroups: map<int, string> := map[
    711 := "Gasses",
    1923 := "R64",
    1922 := "R32",
    1921 := "R16",
    1920 := "R8",
    1884 := "R4",
    465 := "Ice",
    468 := "Mercoxit",
    450 := "Ores",
    4031 := "Ores",
    451 := "Ores",
    452 := "Ores",
    453 := "Ores",
    467 := "Ores",
    454 := "Ores",
    455 := "Ores",
    529 := "Ores",
    457 := "Ores",
    526 := "Ores",
    516 := "Ores",
    459 := "Ores",
    4030 := "Ores",
    460 := "Ores",
    461 := "Ores",
    4029 := "Ores",
    462 := "Ores"
  ]

  /** The nine tax categories. */
  const TaxCategories: set<string> := {"Gasses", "R64", "R32", "R16", "R8", "R4", "Ice", "Mercoxit", "Ores"}

  /** The refined-material groups: priced, but given no tax category. */
  const MaterialGroups: set<int> := {427, 423, 18}

  /** The flat rate of the constant tax helper. */
  const FlatTaxRate: real := 0.10

  /** The constant tax helper: ten percent, whatever the type. */
  function GetTax(eveType: EveType): (r: real)
    ensures r == FlatTaxRate
  {
    FlatTaxRate
  }

  /** The market-price helper: the average market price, which may be missing. */
  function GetPrice(eveType: EveType): (r: Option<real>)
    ensures r.None? <==> eveType.marketPrice.averagePrice.None?
    ensures r.Some? ==> r.value == eveType.marketPrice.averagePrice.value
  {
    eveType.marketPrice.averagePrice
  }

  /** The taxed groups are exactly the priced groups other than the material groups. */
  lemma TaxGroupsArePriceGroups()
    ensures forall g :: g in TaxGroups ==> g in PriceGroups
    ensures forall g :: g in PriceGroups ==> (g in TaxGroups <==> g !in MaterialGroups)
  {
  }

  /** Every category name in the table is one of the nine. */
  lemma TaxGroupValuesAreCategories()
    ensures forall g :: g in TaxGroups ==> TaxGroups[g] in TaxCategories
  {
  }

  /** Each of the nine categories is the category of some group, so the table's values are exactly the nine. */
  lemma TaxCategoriesAllUsed()
    ensures TaxGroups.Values == TaxCategories
  {
    TaxGroupValuesAreCategories();
    forall c | c in TaxCategories
      ensures c in TaxGroups.Values
    {
      var g := if c == "Gasses" then 711 else if c == "R64" then 1923 else if c == "R32" then 1922
        else if c == "R16" then 1921 else if c == "R8" then 1920 else if c == "R4" then 1884
        else if c == "Ice" then 465 else if c == "Mercoxit" then 468 else 450;
      assert g in TaxGroups && TaxGroups[g] == c;
    }
  }

  /** The moon-ore groups map to the moon tiers R4 .. R64 in rarity order. */
  lemma MoonOreTiers()
    ensures TaxGroups[1884] == "R4" && TaxGroups[1920] == "R8" && TaxGroups[1921] == "R16"
    ensures TaxGroups[1922] == "R32" && TaxGroups[1923] == "R64"
  {
  }

  /** The material groups are priced but carry no tax category. */
  lemma MaterialGroupsUntaxed()
    ensures forall g :: g in MaterialGroups ==> g in PriceGroups && g !in TaxGroups
  {
  }

  /** No group is listed twice among the priced groups. */
  lemma PriceGroupsDistinct()
    ensures forall i, j :: 0 <= i < j < |PriceGroups| ==> PriceGroups[i] != PriceGroups[j]
  {
  }
}
