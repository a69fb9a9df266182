# Mining taxes: tax-rate lookup, price fallback and the settings singleton

This project is a Dafny model of the pricing and tax core of the mining-tax
application (`miningtaxes`). The core has three parts:

- **Tax-rate lookup** (`OrePrices.GetTax`). A type's group (`eve_group_id`) selects one of nine tax categories: Gasses, R64, R32, R16, R8, R4, Ice, Mercoxit, Ores. The category's percentage is read from the settings attribute `tax_<category>` and divided by 100. A group with no category pays the hard-coded default of 10 %.
- **Unit-price fallback** (`OrePrices.GetPrice`). The price is the cached `OrePrices.buy` when the type has a row. Otherwise it is the market average price, then the market adjusted price, then 0.
- **Static tables and constant helpers** (`Helpers`). These are the priced groups, the group-to-category table, a flat-rate tax helper and a raw average-price helper.
- **Settings singleton** (`SettingsModel`). `save` forces primary key 1, `delete` does nothing, and `load` gets or creates row 1. `TaxGroups` rows hold per-category percentages that default to 10.

Modules:

- `wrappers.dfy`: `Option`, `Result` and `Outcome`.
- `eve_universe.dfy`: the external type and market-price records, as values.
- `helpers.dfy`, `ore_prices.dfy`, `settings.dfy`: one module per source file.

Modelling choices:

- **Reals.** Prices and rates are exact `real`s.
- **Price cache as a map.** The `OrePrices` table has at most one row per type, so it is a map from type id to row.
- **Settings attributes as a parameter.** The attributes of the loaded settings record are a map from attribute name to percentage, passed to `GetTax`.
- **Missing attribute.** The settings class in `miningtaxes/models/settings.py` declares no `tax_<category>` attributes. With that class, the dictionary read at `miningtaxes/models/orePrices.py:25` raises `KeyError` for every categorised group. The model keeps this error path: `GetTax` returns `Failure(KeyError(name))` when the attribute is absent. `CompleteSettingsNeverFail` shows that settings configuring all nine categories never fail.
- **Table source.** `get_tax` builds its table from a `PriceGroups()` object, but `miningtaxes/helpers.py` defines only the module-level tables. The model reads `Helpers.TaxGroups`.
- **Default rate.** The default rate for an uncategorised group is the literal `0.10` at `miningtaxes/models/orePrices.py:23`. The constant `MININGTAXES_UNKNOWN_TAX_RATE` at `miningtaxes/app_settings.py:27` is not read.
- **No refining.** The price fallback at `miningtaxes/models/orePrices.py:28-37` reads only the cached buy price and the two market prices. It does no refining valuation.
- **Specification helpers.** Three functions have no row of their own because rows of other members cover them:
  - `OrePrices.CachedBuy` is the cached-row read `OrePrices.objects.get(...).buy` (`miningtaxes/models/orePrices.py:29-31,37`). `GetPriceIsFirstAvailable` uses it.
  - `SettingsModel.Apply` is one step of save, delete or load. Its `Delete` case returns the table unchanged, the pure counterpart of the no-op at `miningtaxes/models/settings.py:19-20`.
  - `SettingsModel.Run` folds `Apply` over a sequence of operations. `RunKeepsSingleton` and `RunFromEmptyHasAtMostOneRow` state what it keeps.
- **Settings as state.** The settings table is a class with a row map from primary key to phrase. A settings record is a class whose `pk` stays `None` until it is saved. `Save`, `Delete` and the static `Load` (the source's class method) are methods proved against the step functions `SaveRows` and `LoadRows`. Lemmas about those functions show that any sequence of operations keeps the singleton invariant: at most one row, with primary key 1.
- **Column widths.** The 10-character `max_length` of `phrase` and `group` is modelled as a column constraint the database enforces on write.

## Model

| member | source | states |
|---|---|---|
| `Helpers.GetTax` | miningtaxes/helpers.py:65-66 | the flat helper's rate is 0.10 for every type |
| `Helpers.GetPrice` | miningtaxes/helpers.py:69-70 | the price helper gives the average market price with no fallback; it is absent exactly when the average price is absent |
| `Helpers.TaxGroupsArePriceGroups` | miningtaxes/helpers.py:3-62 | every taxed group is a priced group; a priced group is taxed exactly when it is not one of the material groups 427, 423, 18 |
| `Helpers.TaxGroupValuesAreCategories` | miningtaxes/helpers.py:35-62 | every category named in the tax table is one of the nine categories |
| `Helpers.TaxCategoriesAllUsed` | miningtaxes/helpers.py:35-62 | the values of the tax table are exactly the nine categories: each one is used by some group |
| `Helpers.MoonOreTiers` | miningtaxes/helpers.py:37-41 | moon-ore groups 1884, 1920, 1921, 1922, 1923 map to R4, R8, R16, R32, R64 |
| `Helpers.MaterialGroupsUntaxed` | miningtaxes/helpers.py:10-13 | material groups 427, 423 and 18 are priced but absent from the tax table |
| `Helpers.PriceGroupsDistinct` | miningtaxes/helpers.py:3-33 | no group is listed twice among the priced groups |
| `OrePrices.TaxAttribute` | miningtaxes/models/orePrices.py:24 | the attribute read for a category is "tax_" followed by the category name |
| `OrePrices.TaxAttributeInjective` | miningtaxes/models/orePrices.py:24 | distinct categories read distinct settings attributes |
| `OrePrices.GetTax` | miningtaxes/models/orePrices.py:16-25 | an uncategorised group gets exactly 0.10; a categorised group succeeds exactly when its `tax_` attribute exists, and then rate × 100 equals the stored percentage; otherwise `KeyError` names the missing attribute |
| `OrePrices.SameGroupSameRate` | miningtaxes/models/orePrices.py:16-25 | two types of the same group get the same result under the same settings |
| `OrePrices.RateWithinUnitInterval` | miningtaxes/models/orePrices.py:23-25 | percentages between 0 and 100 give rates between 0 and 1 |
| `OrePrices.CompleteSettingsNeverFail` | miningtaxes/models/orePrices.py:19-25 | settings with an attribute for each of the nine categories never make the lookup fail |
| `OrePrices.MaterialGroupsPayDefault` | miningtaxes/models/orePrices.py:19-23 | types of the material groups pay the 0.10 default |
| `OrePrices.UnknownGroupsMatchFlatHelper` | miningtaxes/models/orePrices.py:19-23 | for every uncategorised group the lookup equals the flat helper's rate |
| `OrePrices.MoonOreRates` | miningtaxes/models/orePrices.py:24-25 | each moon-ore group's rate is its own tier's percentage divided by 100 |
| `OrePrices.GetPrice` | miningtaxes/models/orePrices.py:28-37 | a cached row's buy price wins; without one, the average price wins even when the adjusted price is present; then the adjusted price; then 0, never absent |
| `OrePrices.FirstAvailable` | miningtaxes/models/orePrices.py:28-37 | reference fallback chain: the value of the first source that has one, or the default when none has |
| `OrePrices.GetPriceIsFirstAvailable` | miningtaxes/models/orePrices.py:28-37 | the price lookup equals the fallback chain over cached buy, average and adjusted prices, with 0 as the default |
| `OrePrices.CachedPriceIgnoresMarket` | miningtaxes/models/orePrices.py:29-31 | with a cached row, changing the type's market prices does not change the price |
| `OrePrices.GetPriceExtendsHelper` | miningtaxes/models/orePrices.py:32-36 | without a cached row, the lookup agrees with the average-price helper when that has a value; otherwise it gives the adjusted price or 0 |
| `OrePrices.GetPriceNonNegative` | miningtaxes/models/orePrices.py:28-37 | non-negative cached and market prices give a non-negative price |
| `SettingsModel.SaveRows` | miningtaxes/models/settings.py:15-17 | saving writes row 1 with the record's phrase and leaves every other row alone; a too-long phrase changes nothing; the singleton invariant is kept |
| `SettingsModel.LoadRows` | miningtaxes/models/settings.py:22-25 | after loading, row 1 exists; an existing row is kept as it was; a missing row is created with the empty phrase; the singleton invariant is kept |
| `SettingsModel.ApplyKeepsSingleton` | miningtaxes/models/settings.py:15-25 | save, delete and load each keep the singleton invariant |
| `SettingsModel.RunKeepsSingleton` | miningtaxes/models/settings.py:15-25 | any sequence of save, delete and load keeps the singleton invariant |
| `SettingsModel.SingletonHasAtMostOneRow` | miningtaxes/models/settings.py:15-17 | a table meeting the invariant has at most one row, with primary key 1 |
| `SettingsModel.RunFromEmptyHasAtMostOneRow` | miningtaxes/models/settings.py:15-25 | from an empty table, any sequence of operations leaves at most one row, with primary key 1 |
| `SettingsModel.LoadTwiceCreatesOnce` | miningtaxes/models/settings.py:22-25 | a second load changes nothing; one load adds at most one row |
| `SettingsModel.SettingsTable.constructor` | miningtaxes/models/settings.py:12 | a new settings table is empty and meets the invariant |
| `SettingsModel.Settings.constructor` | miningtaxes/models/settings.py:13 | a new settings record is unsaved and has the empty phrase |
| `SettingsModel.Settings.WithPhrase` | miningtaxes/models/settings.py:13 | a new settings record carries the given phrase and is unsaved |
| `SettingsModel.Settings.Save` | miningtaxes/models/settings.py:15-17 | the record's key becomes 1, even when the write is refused; the table becomes `SaveRows` of the old table; a phrase over 10 characters is refused |
| `SettingsModel.Settings.Delete` | miningtaxes/models/settings.py:19-20 | neither the record nor the table changes |
| `SettingsModel.Settings.Load` | miningtaxes/models/settings.py:22-25 | returns a fresh record with key 1 and the stored phrase; the table becomes `LoadRows` of the old table, so row 1 is created only when absent, with the empty phrase |
| `SettingsModel.CreateTaxGroups` | miningtaxes/models/settings.py:28-34 | a new row defaults to 10 %; a group name over 10 characters is refused, and so is a settings key with no row |
| `SettingsModel.TaxGroupsPointAtSingleton` | miningtaxes/models/settings.py:28-31 | against a table meeting the invariant, every row that can be created points at settings key 1 |
| `SettingsModel.TaxCategoriesFitGroupColumn` | miningtaxes/models/settings.py:33-34 | once settings row 1 exists, every tax category can be stored as a row, with the default value 10 |

## Left out

- SettingsModel.CreateTaxGroups: its `value` argument `None` stands for an omitted `value`, which gives the default 10.0. An explicit `value=None` would insert NULL into the non-null column (`miningtaxes/models/settings.py:34`) and raise `IntegrityError`; that error path is not modelled.
- SettingsModel.Settings.Save: does not model the `*args, **kwargs` that `save` passes on to the ORM (`miningtaxes/models/settings.py:15,17`). The model's `Save` always upserts row 1. Four error paths and variants are missing:
  - `force_insert=True` with row 1 present raises `IntegrityError` instead of overwriting.
  - `force_update=True` with row 1 absent raises instead of inserting.
  - `update_fields=[]` writes nothing.
  - `using=` writes to another database.
- Logging: the debug message for an unknown group is not modelled.
- The `Settings.load()` call inside `get_tax`: its get-or-create side effect is not part of the pure `GetTax`. The settings attributes are a parameter, and `Load` models that side effect on its own.
- The link between `TaxGroups` rows and the `tax_<category>` attributes: no code in the modelled files connects them, so `GetTax` takes the attribute map as given.
- Floating point: prices, percentages and 0.10 are exact reals, so rounding in `/ 100.0` is not modelled.
- Column constraints: `SettingsModel.Settings.Save` and `SettingsModel.CreateTaxGroups` model a database that enforces `max_length`. A database that does not enforce it, such as SQLite, would store a longer value.
- Retrieving the type's market prices: they are inputs, and a missing market-price relation is not modelled.
- Uses of `OrePrices.sell` and `OrePrices.updated`: both fields exist on the row, but the modelled code reads neither.
- Cascade deletion of `TaxGroups` rows: it is not modelled, because `delete` on the settings record is a no-op and never reaches the database.
- The ledger code: `Character.calc_prices`, `Character.get_monthly_taxes` and `Character.give_credit` are not part of this model. The same goes for views, URL routing, the periodic task wrapper and the application configuration constants.
