/**
 * Tax-rate lookup and unit-price fallback for mined types, and the
 * `OrePrices` cache of buy/sell prices (one row per type).
 */
module OrePrices {
  import opened Wrappers
  import opened EveUniverse
  import Helpers

  /** The rate applied to a type whose group has no tax category. */
  const UnknownTaxRate: real := 0.10

  /** Looking up a settings attribute that does not exist (Python's `KeyError`). */
  datatype TaxError = KeyError(attribute: string)

  /**
   * The numeric attributes of the loaded settings record, by attribute name
   * (the percentages are stored as entered, 0 to 100).
   */
  type SettingsAttributes = map<string, real>

  /** A cached price row; the table has at most one row per type, so it is a map keyed by type id. */
  datatype OrePricesRow = OrePricesRow(buy: real, sell: real, updated: int)

  type OrePricesTable = map<int, OrePricesRow>

  /** The settings attribute that holds the percentage of a tax category. */
  function TaxAttribute(category: string): (name: string)
    ensures |name| == |category| + 4 && name[..4] == "tax_" && name[4..] == category
  {
    "tax_" + category
  }

  /**
   * The tax rate of a type, as a fraction: the default for a group without a
   * category, otherwise the category's configured percentage divided by 100;
   * a configured category whose attribute is missing raises `KeyError`.
   */
  function GetTax(eveType: EveType, settings: SettingsAttributes): (r: Result<real, TaxError>)
    ensures eveType.eveGroupId !in Helpers.TaxGroups ==> r == Success(UnknownTaxRate)
    ensures eveType.eveGroupId in Helpers.TaxGroups ==>
      var attribute := TaxAttribute(Helpers.TaxGroups[eveType.eveGroupId]);
      && (r.Success? <==> attribute in settings)
      && (r.Success? ==> r.value * 100.0 == settings[attribute])
      && (r.Failure? ==> r.error == KeyError(attribute))
  {
    if eveType.eveGroupId !in Helpers.TaxGroups then
      Success(UnknownTaxRate)
    else
      var attribute := TaxAttribute(Helpers.TaxGroups[eveType.eveGroupId]);
      if attribute in settings then Success(settings[attribute] / 100.0)
      else Failure(KeyError(attribute))
  }

  /**
   * The unit price of a type: the cached buy price when the type has a row,
   * else the market average price, else the market adjusted price, else 0.
   */
  function GetPrice(eveType: EveType, orePrices: OrePricesTable): (r: real)
    ensures eveType.id in orePrices ==> r == orePrices[eveType.id].buy
    ensures eveType.id !in orePrices && eveType.marketPrice.averagePrice.Some? ==>
      r == eveType.marketPrice.averagePrice.value
    ensures eveType.id !in orePrices && eveType.marketPrice.averagePrice.None? && eveType.marketPrice.adjustedPrice.Some? ==>
      r == eveType.marketPrice.adjustedPrice.value
    ensures eveType.id !in orePrices && eveType.marketPrice.averagePrice.None? && eveType.marketPrice.adjustedPrice.None? ==>
      r == 0.0
  {
    if eveType.id !in orePrices then
      if eveType.marketPrice.averagePrice.Some? then eveType.marketPrice.averagePrice.value
      else if eveType.marketPrice.adjustedPrice.Some? then eveType.marketPrice.adjustedPrice.value
      else 0.0
    else
      orePrices[eveType.id].buy
  }

  /**
   * Reference semantics of a price-source fallback chain: the value of the
   * first source that has one, or `default` when none has.
   */
  function FirstAvailable(sources: seq<Option<real>>, default: real): (r: real)
    ensures (forall i :: 0 <= i < |sources| ==> sources[i].None?) ==> r == default
    ensures forall i :: 0 <= i < |sources| && sources[i].Some? && (forall j :: 0 <= j < i ==> sources[j].None?) ==>
      r == sources[i].value
    decreases |sources|
  {
    if sources == [] then default
    else if sources[0].Some? then sources[0].value
    else FirstAvailable(sources[1..], default)
  }

  /** The cached buy price of a type, if the cache has a row for it. */
  function CachedBuy(orePrices: OrePricesTable, typeId: int): Option<real> {
    if typeId in orePrices then Some(orePrices[typeId].buy) else None
  }

  /** The price lookup is the fallback chain cache, average, adjusted, with 0 as the last resort. */
  lemma GetPriceIsFirstAvailable(eveType: EveType, orePrices: OrePricesTable)
    ensures GetPrice(eveType, orePrices) ==
      FirstAvailable([CachedBuy(orePrices, eveType.id), eveType.marketPrice.averagePrice, eveType.marketPrice.adjustedPrice], 0.0)
  {
    var sources := [CachedBuy(orePrices, eveType.id), eveType.marketPrice.averagePrice, eveType.marketPrice.adjustedPrice];
    var r := FirstAvailable(sources, 0.0);
    if sources[0].Some? {
      assert r == sources[0].value;
    } else if sources[1].Some? {
      assert sources[0].None?;
      assert r == sources[1].value;
    } else if sources[2].Some? {
      assert sources[0].None? && sources[1].None?;
      assert r == sources[2].value;
    } else {
      assert forall i :: 0 <= i < |sources| ==> sources[i].None?;
    }
  }

  /** A cached row decides the price: the market prices of the type are not consulted. */
  lemma CachedPriceIgnoresMarket(eveType: EveType, market: EveMarketPrice, orePrices: OrePricesTable)
    requires eveType.id in orePrices
    ensures GetPrice(eveType, orePrices) == GetPrice(eveType.(marketPrice := market), orePrices)
  {
  }

  /**
   * Against the market-price helper: when the helper has an average price
   * and the type is not cached, both agree; when the helper has none, the
   * lookup still yields a number (the adjusted price, or 0).
   */
  lemma GetPriceExtendsHelper(eveType: EveType, orePrices: OrePricesTable)
    requires eveType.id !in orePrices
    ensures Helpers.GetPrice(eveType).Some? ==> GetPrice(eveType, orePrices) == Helpers.GetPrice(eveType).value
    ensures Helpers.GetPrice(eveType).None? ==> GetPrice(eveType, orePrices) == eveType.marketPrice.adjustedPrice.GetOr(0.0)
  {
  }

  /** With non-negative cached and market prices, the looked-up price is non-negative. */
  lemma GetPriceNonNegative(eveType: EveType, orePrices: OrePricesTable)
    requires forall id :: id in orePrices ==> orePrices[id].buy >= 0.0
    requires eveType.marketPrice.averagePrice.GetOr(0.0) >= 0.0
    requires eveType.marketPrice.adjustedPrice.GetOr(0.0) >= 0.0
    ensures GetPrice(eveType, orePrices) >= 0.0
  {
  }

  /** Distinct categories are read from distinct settings attributes. */
  lemma TaxAttributeInjective(a: string, b: string)
    ensures TaxAttribute(a) == TaxAttribute(b) ==> a == b
  {
    if TaxAttribute(a) == TaxAttribute(b) {
      assert a == TaxAttribute(a)[4..] == TaxAttribute(b)[4..] == b;
    }
  }

  /** The rate depends only on the group and the settings: two types of one group pay the same rate. */
  lemma SameGroupSameRate(a: EveType, b: EveType, settings: SettingsAttributes)
    requires a.eveGroupId == b.eveGroupId
    ensures GetTax(a, settings) == GetTax(b, settings)
  {
  }

  /** Percentages between 0 and 100 give rates between 0 and 1. */
  lemma RateWithinUnitInterval(eveType: EveType, settings: SettingsAttributes)
    requires forall name :: name in settings ==> 0.0 <= settings[name] <= 100.0
    ensures GetTax(eveType, settings).Success?  ==> 0.0 <= GetTax(eveType, settings).value <= 1.0
  {
  }

  /** Settings that configure all nine categories never make the lookup raise. */
  lemma CompleteSettingsNeverFail(eveType: EveType, settings: SettingsAttributes)
    requires forall c :: c in Helpers.TaxCategories ==> TaxAttribute(c) in settings
    ensures GetTax(eveType, settings).Success?
  {
    if eveType.eveGroupId in Helpers.TaxGroups {
      Helpers.TaxGroupValuesAreCategories();
      assert Helpers.TaxGroups[eveType.eveGroupId] in Helpers.TaxCategories;
    }
  }

  /** The refined-material groups are priced but uncategorised, so they pay the default rate. */
  lemma MaterialGroupsPayDefault(eveType: EveType, settings: SettingsAttributes)
    requires eveType.eveGroupId in Helpers.MaterialGroups
    ensures GetTax(eveType, settings) == Success(UnknownTaxRate)
  {
    Helpers.MaterialGroupsUntaxed();
  }

  /** For every uncategorised group the lookup agrees with the flat-rate helper. */
  lemma UnknownGroupsMatchFlatHelper(eveType: EveType, settings: SettingsAttributes)
    requires eveType.eveGroupId !in Helpers.TaxGroups
    ensures GetTax(eveType, settings) == Success(Helpers.GetTax(eveType))
  {
  }

  /** The moon-ore groups read the percentage of their own moon tier. */
  lemma MoonOreRates(eveType: EveType, settings: SettingsAttributes)
    ensures eveType.eveGroupId == 1884 && "tax_R4" in settings ==> GetTax(eveType, settings) == Success(settings["tax_R4"] / 100.0)
    ensures eveType.eveGroupId == 1920 && "tax_R8" in settings ==> GetTax(eveType, settings) == Success(settings["tax_R8"] / 100.0)
    ensures eveType.eveGroupId == 1921 && "tax_R16" in settings ==> GetTax(eveType, settings) == Success(settings["tax_R16"] / 100.0)
    ensures eveType.eveGroupId == 1922 && "tax_R32" in settings ==> GetTax(eveType, settings) == Success(settings["tax_R32"] / 100.0)
    ensures eveType.eveGroupId == 1923 && "tax_R64" in settings ==> GetTax(eveType, settings) == Success(settings["tax_R64"] / 100.0)
  {
    Helpers.MoonOreTiers();
    assert TaxAttribute("R4") == "tax_R4" && TaxAttribute("R8") == "tax_R8";
    assert TaxAttribute("R16") == "tax_R16" && TaxAttribute("R32") == "tax_R32" && TaxAttribute("R64") == "tax_R64";
  }
}
