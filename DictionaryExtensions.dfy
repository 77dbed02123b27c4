/**
  `GetOrAdd` on a sorted dictionary: return the value stored under a key,
  storing `createFn(key)` first when the key is absent.
*/
module DictionaryExtensions {
  import opened Collections

  /** The dictionary and the returned value after one GetOrAdd on `m`. */
  function GetOrAdded<V>(m: map<string, V>, key: string, createFn: string -> V): (r: (map<string, V>, V))
    ensures key in r.0 && r.0[key] == r.1
    ensures r.0.Keys == m.Keys + {key}
    ensures forall k :: k in m ==> r.0[k] == m[k]
    ensures key !in m ==> r.1 == createFn(key)
  {
    if key in m then (m, m[key]) else (m[key := createFn(key)], createFn(key))
  }

  /**
    The extension method itself: looks the key up and, only when it is
    missing, writes `createFn(key)` into the caller's dictionary.
  */
  method GetOrAdd<V(==)>(dict: SortedDictionary<V>, key: string, createFn: string -> V) returns (val: V)
    modifies dict
    ensures (dict.items, val) == GetOrAdded(old(dict.items), key, createFn)
    ensures key in old(dict.items) ==> val == old(dict.items)[key] && dict.items == old(dict.items)
    ensures key !in old(dict.items) ==> dict.items == old(dict.items)[key := createFn(key)]
  {
    var found := dict.TryGetValue(key);
    if found.None? {
      val := createFn(key);
      dict.Set(key, val);
    } else {
      val := found.value;
    }
  }

  /** When the key is present, the outcome does not depend on createFn at all. */
  lemma PresentKeyIgnoresCreateFn<V>(m: map<string, V>, key: string, f: string -> V, g: string -> V)
    requires key in m
    ensures GetOrAdded(m, key, f) == GetOrAdded(m, key, g) == (m, m[key])
  {
  }

  /** A repeated call with the same key returns the first call's value and changes nothing. */
  lemma RepeatedCallReturnsFirstValue<V>(m: map<string, V>, key: string, f: string -> V, g: string -> V)
    ensures var first := GetOrAdded(m, key, f);
            GetOrAdded(first.0, key, g) == first
  {
  }
}
