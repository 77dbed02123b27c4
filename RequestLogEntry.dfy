/**
  The log entry the builder fills in and the sink ships: a mutable record
  whose property bag is a sorted dictionary owned by the entry.
*/
module RequestLogEntry {
  import opened Wrappers
  import opened Host
  import Collections
  import Text

  const DefaultMessageTemplate := "Servicestack CloudTrailRequestLogsFeature"
  const DefaultLevel := "Debug"

  /** The contents of an entry at one moment, as the encoder sees it. */
  datatype EntryRecord = EntryRecord(
    timestamp: Option<string>,
    level: string,
    properties: map<string, Value>,
    messageTemplate: string,
    exception: Option<string>)

  class CloudTrailRequestLogEntry {
    var timestamp: Option<string>
    var level: string
    /** Get-only: the dictionary's contents change, the reference never does. */
    const properties: Collections.SortedDictionary<Value>
    var messageTemplate: string
    var exception: Option<string>

    constructor()
      ensures messageTemplate == DefaultMessageTemplate
      ensures level == DefaultLevel
      ensures properties.items == map[]
      ensures timestamp.None? && exception.None?
      ensures fresh(properties)
    {
      messageTemplate := DefaultMessageTemplate;
      properties := new Collections.SortedDictionary();
      level := DefaultLevel;
      timestamp := None;
      exception := None;
    }

    function Snapshot(): (r: EntryRecord)
      reads this, properties
      ensures r.properties == properties.items
    {
      EntryRecord(timestamp, level, properties.items, messageTemplate, exception)
    }

    /** The property names in the order the encoder writes them. */
    ghost function PropertyOrder(): (r: seq<string>)
      reads this, properties
      ensures forall i, j :: 0 <= i < j < |r| ==> r[i] != r[j]
      ensures forall k :: k in r <==> k in properties.items
    {
      Text.SortedKeysDistinct(properties.items.Keys);
      properties.Keys()
    }
  }
}
