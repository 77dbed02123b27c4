/**
  `WithoutDuplicates`: strips the three internal keys the host keeps in a
  request's item bag before the bag is logged.
*/
module LogExtensions {
  import opened Collections

  const SessionKey := "__session"
  const StopwatchKey := "_requestDurationStopwatch"
  const RequestIdKey := "x-mac-requestId"

  const ReservedKeys: set<string> := {SessionKey, StopwatchKey, RequestIdKey}

  /** The bag's contents once the reserved keys are gone. */
  function WithoutReserved<V>(m: map<string, V>): (r: map<string, V>)
    ensures SessionKey !in r && StopwatchKey !in r && RequestIdKey !in r
    ensures forall k :: k in m && k !in ReservedKeys ==> k in r && r[k] == m[k]
    ensures forall k :: k in r ==> k in m
  {
    m - ReservedKeys
  }

  /**
    Removes the three keys from the caller's dictionary itself and returns
    that same dictionary.
  */
  method WithoutDuplicates<V>(items: Dictionary<V>) returns (r: Dictionary<V>)
    modifies items
    ensures r == items
    ensures items.entries == WithoutReserved(old(items.entries))
  {
    var removedSession := items.Remove(SessionKey);
    var removedStopwatch := items.Remove(StopwatchKey);
    var removedRequestId := items.Remove(RequestIdKey);
    r := items;
  }

  lemma WithoutReservedIdempotent<V>(m: map<string, V>)
    ensures WithoutReserved(WithoutReserved(m)) == WithoutReserved(m)
  {
  }

  /** A bag holding none of the reserved keys is left exactly as it was. */
  lemma NoReservedKeysNoChange<V>(m: map<string, V>)
    requires SessionKey !in m && StopwatchKey !in m && RequestIdKey !in m
    ensures WithoutReserved(m) == m
  {
  }
}
