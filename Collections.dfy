/**
  The two .NET collections the logger mutates in place, as classes over a
  map: `Dictionary<string, V>` (the request-scoped item bag) and
  `SortedDictionary<string, V>` (the property bag of a log entry).
*/
module Collections {
  import opened Wrappers
  import Text

  /** A `Dictionary<string, V>`: unordered, unique keys, updated in place. */
  class Dictionary<V> {
    var entries: map<string, V>

    constructor(entries: map<string, V>)
      ensures this.entries == entries
    {
      this.entries := entries;
    }

    /** `Remove(key)`: drops the key if present and says whether it was. */
    method Remove(key: string) returns (removed: bool)
      modifies this
      ensures removed <==> key in old(entries)
      ensures entries == old(entries) - {key}
    {
      removed := key in entries;
      entries := entries - {key};
    }
  }

  /**
    A `SortedDictionary<string, V>`: unique keys, enumerated in ascending
    key order. `Add` on a key already present throws; the indexer overwrites.
  */
  class SortedDictionary<V(==)> {
    var items: map<string, V>

    constructor()
      ensures items == map[]
    {
      items := map[];
    }

    /** `Add(key, value)`; `ok` is false where .NET throws ArgumentException. */
    method Add(key: string, value: V) returns (ok: bool)
      modifies this
      ensures ok <==> key !in old(items)
      ensures items == if ok then old(items)[key := value] else old(items)
    {
      ok := key !in items;
      if ok {
        items := items[key := value];
      }
    }

    /** The indexer setter `this[key] = value`: inserts or overwrites. */
    method Set(key: string, value: V)
      modifies this
      ensures items == old(items)[key := value]
    {
      items := items[key := value];
    }

    function TryGetValue(key: string): (r: Option<V>)
      reads this
      ensures r.Some? <==> key in items
      ensures r.Some? ==> r.value == items[key]
    {
      if key in items then Some(items[key]) else None
    }

    /** `ContainsValue(value)`: some key currently maps to `value`. */
    function ContainsValue(value: V): (b: bool)
      reads this
      ensures b <==> exists k :: k in items && items[k] == value
    {
      value in items.Values
    }

    /** The keys in the order the dictionary enumerates them. */
    ghost function Keys(): (r: seq<string>)
      reads this
      ensures Text.StrictlySorted(r)
      ensures forall k :: k in r <==> k in items
      ensures |r| == |items|
    {
      Text.SortedKeys(items.Keys)
    }
  }
}
