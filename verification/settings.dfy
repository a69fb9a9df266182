/**
 * The application's settings record, kept as a singleton: saving always
 * writes primary key 1, deleting does nothing, and loading gets or creates
 * the row with primary key 1. Also the per-category `TaxGroups` rows that
 * point at it.
 */
module SettingsModel {
  import opened Wrappers
  import Helpers

  /** The only primary key the settings table is ever written under. */
  const SingletonPk: int := 1

  /** Column width of `Settings.phrase` and of `TaxGroups.group`. */
  const PhraseMaxLength: nat := 10
  const GroupMaxLength: nat := 10

  /** Default percentage of a new `TaxGroups` row. */
  const DefaultTaxGroupValue: real := 10.0

  /** Errors the database raises on a write. */
  datatype DbError = ValueTooLong(column: string) | ForeignKeyViolation(setting: int)

  /** Rows of the settings table: primary key to phrase. */
  type SettingsRows = map<int, string>

  /** The singleton invariant: at most the row with primary key 1, holding a phrase that fits its column. */
  predicate IsSingleton(rows: SettingsRows) {
    && rows.Keys <= {SingletonPk}
    && forall pk :: pk in rows ==> |rows[pk]| <= PhraseMaxLength
  }

  /** The table after saving a record with `phrase`: row 1 is written when the phrase fits, else nothing changes. */
  function SaveRows(rows: SettingsRows, phrase: string): (r: SettingsRows)
    ensures |phrase| <= PhraseMaxLength ==> SingletonPk in r && r[SingletonPk] == phrase && r.Keys == rows.Keys + {SingletonPk}
    ensures |phrase| <= PhraseMaxLength ==> forall pk :: pk in rows && pk != SingletonPk ==> r[pk] == rows[pk]
    ensures |phrase| > PhraseMaxLength ==> r == rows
    ensures IsSingleton(rows) ==> IsSingleton(r)
  {
    if |phrase| <= PhraseMaxLength then rows[SingletonPk := phrase] else rows
  }

  /** The table after loading: row 1 is created with the default empty phrase when it is missing. */
  function LoadRows(rows: SettingsRows): (r: SettingsRows)
    ensures SingletonPk in r
    ensures SingletonPk in rows ==> r == rows
    ensures SingletonPk !in rows ==> r[SingletonPk] == "" && r.Keys == rows.Keys + {SingletonPk}
    ensures forall pk :: pk in rows ==> pk in r && r[pk] == rows[pk]
    ensures IsSingleton(rows) ==> IsSingleton(r)
  {
    if SingletonPk in rows then rows else rows[SingletonPk := ""]
  }

  /** An operation a client performs on the settings. */
  datatype Op = Save(phrase: string) | Delete | Load

  /** One operation's effect on the table; deleting has none. */
  function Apply(rows: SettingsRows, op: Op): SettingsRows {
    match op
    case Save(phrase) => SaveRows(rows, phrase)
    case Delete => rows
    case Load => LoadRows(rows)
  }

  /** The table after a sequence of operations. */
  function Run(rows: SettingsRows, ops: seq<Op>): SettingsRows
    decreases |ops|
  {
    if ops == [] then rows else Run(Apply(rows, ops[0]), ops[1..])
  }

  /** Every operation keeps the singleton invariant. */
  lemma ApplyKeepsSingleton(rows: SettingsRows, op: Op)
    requires IsSingleton(rows)
    ensures IsSingleton(Apply(rows, op))
  {
  }

  /** Any sequence of saves, loads and deletes keeps the singleton invariant. */
  lemma {:induction false} RunKeepsSingleton(rows: SettingsRows, ops: seq<Op>)
    requires IsSingleton(rows)
    ensures IsSingleton(Run(rows, ops))
    decreases |ops|
  {
    if ops != [] {
      ApplyKeepsSingleton(rows, ops[0]);
      RunKeepsSingleton(Apply(rows, ops[0]), ops[1..]);
    }
  }

  /** A singleton table holds at most one row, and that row has primary key 1. */
  lemma SingletonHasAtMostOneRow(rows: SettingsRows)
    requires IsSingleton(rows)
    ensures |rows| <= 1
    ensures forall pk :: pk in rows ==> pk == SingletonPk
  {
    if rows != map[] {
      assert rows.Keys == {SingletonPk};
    }
  }

  /** Starting from an empty table, any operation sequence leaves at most one row, with primary key 1. */
  lemma RunFromEmptyHasAtMostOneRow(ops: seq<Op>)
    ensures |Run(map[], ops)| <= 1
    ensures forall pk :: pk in Run(map[], ops) ==> pk == SingletonPk
  {
    RunKeepsSingleton(map[], ops);
    SingletonHasAtMostOneRow(Run(map[], ops));
  }

  /** Loading twice is loading once: the second load creates nothing. */
  lemma LoadTwiceCreatesOnce(rows: SettingsRows)
    ensures LoadRows(LoadRows(rows)) == LoadRows(rows)
    ensures |LoadRows(rows)| <= |rows| + 1
  {
  }

  /** The settings table, as the database holds it. */
  class SettingsTable {
    var rows: SettingsRows

    predicate Valid()
      reads this
    {
      IsSingleton(rows)
    }

    /** An empty table. */
    constructor ()
      ensures Valid() && rows == map[]
    {
      rows := map[];
    }
  }

  /** An in-memory settings record: `pk` is `None` until it is saved. */
  class Settings {
    var pk: Option<int>
    var phrase: string

    /** A new record with the default (empty) phrase. */
    constructor ()
      ensures pk == None && phrase == ""
    {
      pk := None;
      phrase := "";
    }

    /** A new record with the given phrase. */
    constructor WithPhrase(phrase: string)
      ensures pk == None && this.phrase == phrase
    {
      pk := None;
      this.phrase := phrase;
    }

    /**
     * Forces the primary key to 1, then writes the record: row 1 is inserted
     * or overwritten. A phrase longer than its column is refused by the
     * database after the primary key has been set.
     */
    method Save(db: SettingsTable) returns (r: Outcome<DbError>)
      requires db.Valid()
      modifies this, db
      ensures db.Valid()
      ensures pk == Some(SingletonPk) && phrase == old(phrase)
      ensures db.rows == SaveRows(old(db.rows), phrase)
      ensures r == if |phrase| <= PhraseMaxLength then Pass else Fail(ValueTooLong("phrase"))
    {
      pk := Some(SingletonPk);
      if |phrase| <= PhraseMaxLength {
        db.rows := db.rows[SingletonPk := phrase];
        r := Pass;
      } else {
        r := Fail(ValueTooLong("phrase"));
      }
    }

    /** Deleting the settings record is a no-op: neither the record nor the table changes. */
    method Delete(db: SettingsTable)
      ensures unchanged(this) && unchanged(db)
    {
    }

    /** Gets the record with primary key 1, creating it with the default phrase when it is missing. */
    static method Load(db: SettingsTable) returns (settings: Settings)
      requires db.Valid()
      modifies db
      ensures db.Valid()
      ensures db.rows == LoadRows(old(db.rows))
      ensures fresh(settings)
      ensures settings.pk == Some(SingletonPk) && settings.phrase == db.rows[SingletonPk]
      ensures SingletonPk in old(db.rows) ==> settings.phrase == old(db.rows)[SingletonPk]
      ensures SingletonPk !in old(db.rows) ==> settings.phrase == ""
    {
      if SingletonPk !in db.rows {
        db.rows := db.rows[SingletonPk := ""];
      }
      settings := new Settings.WithPhrase(db.rows[SingletonPk]);
      settings.pk := Some(SingletonPk);
    }
  }

  /** One row of `TaxGroups`: a category's percentage, attached to a settings record. */
  datatype TaxGroupsRow = TaxGroupsRow(setting: int, group: string, value: real)

  /**
   * Creating a `TaxGroups` row: the value defaults to 10 percent; a group
   * name longer than its column, or a settings key with no row, is refused.
   * `value == None` stands for an omitted `value` argument, not for an
   * explicit Python `None` (which the non-null column would refuse).
   */
  function CreateTaxGroups(rows: SettingsRows, setting: int, group: string, value: Option<real>): (r: Result<TaxGroupsRow, DbError>)
    ensures r.Success? <==> |group| <= GroupMaxLength && setting in rows
    ensures |group| > GroupMaxLength ==> r == Failure(ValueTooLong("group"))
    ensures |group| <= GroupMaxLength && setting !in rows ==> r == Failure(ForeignKeyViolation(setting))
    ensures r.Success? ==> r.value.setting == setting && r.value.group == group
    ensures r.Success? && value.None? ==> r.value.value == DefaultTaxGroupValue
    ensures r.Success? && value.Some? ==> r.value.value == value.value
  {
    if |group| > GroupMaxLength then Failure(ValueTooLong("group"))
    else if setting !in rows then Failure(ForeignKeyViolation(setting))
    else Success(TaxGroupsRow(setting, group, value.GetOr(DefaultTaxGroupValue)))
  }

  /** Against a singleton table, every `TaxGroups` row that can be created points at primary key 1. */
  lemma TaxGroupsPointAtSingleton(rows: SettingsRows, setting: int, group: string, value: Option<real>)
    requires IsSingleton(rows)
    ensures CreateTaxGroups(rows, setting, group, value).Success? ==> CreateTaxGroups(rows, setting, group, value).value.setting == SingletonPk
  {
  }

  /** Every tax category name fits the `group` column, so each can be stored once the settings row exists. */
  lemma TaxCategoriesFitGroupColumn(rows: SettingsRows, category: string)
    requires category in Helpers.TaxCategories
    requires SingletonPk in rows
    ensures CreateTaxGroups(rows, SingletonPk, category, None) == Success(TaxGroupsRow(SingletonPk, category, DefaultTaxGroupValue))
  {
  }
}
