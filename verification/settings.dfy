/** The keyed settings table (src/settings.rs): one row per name holding an
    optional integer and an optional string. The getters read a row by name
    with `fetch_one(..).unwrap()`, so a missing row is a panic rather than an
    error; the setters are `INSERT OR REPLACE` statements, which replace the
    whole row for that name and leave the other column NULL. */
module Settings {
  import opened Types
  import opened Sqlite
  import Decimal

  /** `get_settings_int` */
  function GetSettingsInt(settings: map<string, SettingRow>, name: string): (r: Result<Option<int>>)
    ensures r.Panicked? <==> name !in settings
    ensures !r.Err?
    ensures r.Ok? ==> r.value == settings[name].intValue
  {
    if name in settings then Ok(settings[name].intValue) else Panicked
  }

  /** `get_settings_str` */
  function GetSettingsStr(settings: map<string, SettingRow>, name: string): (r: Result<Option<string>>)
    ensures r.Panicked? <==> name !in settings
    ensures !r.Err?
    ensures r.Ok? ==> r.value == settings[name].strValue
  {
    if name in settings then Ok(settings[name].strValue) else Panicked
  }

  /** The row `INSERT OR REPLACE INTO settings (name, intValue)` leaves. */
  function IntRow(value: int): SettingRow {
    SettingRow(Some(value), None)
  }

  /** The row `INSERT OR REPLACE INTO settings (name, strValue)` leaves. The
      value bound is an integer; the TEXT column stores its decimal text. */
  function StrRow(value: int): SettingRow {
    SettingRow(None, Some(Decimal.ToString(value)))
  }

  /** `set_settings_int` */
  method SetSettingsInt(e: Transaction, name: string, value: int)
    modifies e
    ensures e.tables == old(e.tables).(settings := old(e.tables.settings)[name := IntRow(value)])
    ensures GetSettingsInt(e.tables.settings, name) == Ok(Some(value))
    ensures forall n :: n != name ==> GetSettingsInt(e.tables.settings, n) == GetSettingsInt(old(e.tables.settings), n)
  {
    e.tables := e.tables.(settings := e.tables.settings[name := IntRow(value)]);
  }

  /** `set_settings_str` */
  method SetSettingsStr(e: Transaction, name: string, value: int)
    modifies e
    ensures e.tables == old(e.tables).(settings := old(e.tables.settings)[name := StrRow(value)])
    ensures GetSettingsStr(e.tables.settings, name) == Ok(Some(Decimal.ToString(value)))
  {
    e.tables := e.tables.(settings := e.tables.settings[name := StrRow(value)]);
  }

  /** After an integer write, the name reads back that integer and no string:
      whatever string the row held before is gone. */
  lemma SetIntReplacesRow(settings: map<string, SettingRow>, name: string, value: int)
    ensures GetSettingsInt(settings[name := IntRow(value)], name) == Ok(Some(value))
    ensures GetSettingsStr(settings[name := IntRow(value)], name) == Ok(None)
    ensures forall n :: n != name ==>
      GetSettingsInt(settings[name := IntRow(value)], n) == GetSettingsInt(settings, n) &&
      GetSettingsStr(settings[name := IntRow(value)], n) == GetSettingsStr(settings, n)
  {
  }

  /** `set_settings_str` stores the integer's decimal text, which reads back
      as that integer, and clears the integer column. */
  lemma SetStrStoresDecimal(settings: map<string, SettingRow>, name: string, value: int)
    ensures GetSettingsInt(settings[name := StrRow(value)], name) == Ok(None)
    ensures var s := GetSettingsStr(settings[name := StrRow(value)], name);
      s.Ok? && s.value.Some? && Decimal.Parse(s.value.value) == Some(value)
  {
    Decimal.ParseFormat(value, 0);
  }
}
