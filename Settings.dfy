/**
  The application-settings store the feature's configuration lives in,
  reduced to what the feature does with it: typed reads with a default and
  writes under a key.
*/
module Settings {
  import opened Wrappers

  /** A stored setting: a boolean flag or a piece of text. */
  datatype Setting = Flag(b: bool) | Text(s: string)

  /** `Get(key, default)` for a boolean setting. */
  function GetFlag(store: map<string, Setting>, key: string, default: bool): (b: bool)
    ensures key !in store ==> b == default
  {
    if key in store && store[key].Flag? then store[key].b else default
  }

  /** `Get(key, default)` for a text setting. */
  function GetText(store: map<string, Setting>, key: string, default: string): (s: string)
    ensures key !in store ==> s == default
  {
    if key in store && store[key].Text? then store[key].s else default
  }

  /** `Get<string>(key)`: null when nothing is stored. */
  function GetString(store: map<string, Setting>, key: string): (s: Option<string>)
    ensures key !in store ==> s == None
  {
    if key in store && store[key].Text? then Some(store[key].s) else None
  }

  /** The settings provider, shared by reference with the feature. */
  class AppSettings {
    var store: map<string, Setting>

    constructor(store: map<string, Setting>)
      ensures this.store == store
    {
      this.store := store;
    }

    method Set(key: string, value: Setting)
      modifies this
      ensures store == old(store)[key := value]
    {
      store := store[key := value];
    }
  }

  /** A flag read back under the key it was written to is the value written. */
  lemma FlagRoundTrip(store: map<string, Setting>, key: string, b: bool, default: bool)
    ensures GetFlag(store[key := Flag(b)], key, default) == b
  {
  }

  /** Text read back under the key it was written to is the value written. */
  lemma TextRoundTrip(store: map<string, Setting>, key: string, s: string, default: string)
    ensures GetText(store[key := Text(s)], key, default) == s
    ensures GetString(store[key := Text(s)], key) == Some(s)
  {
  }

  /** Writing one key leaves every other key's reading untouched. */
  lemma WriteIsolated(store: map<string, Setting>, key: string, other: string, value: Setting, default: bool)
    requires key != other
    ensures GetFlag(store[key := value], other, default) == GetFlag(store, other, default)
    ensures GetString(store[key := value], other) == GetString(store, other)
  {
  }
}
