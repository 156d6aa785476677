/**
 * The browser's `localStorage`: one process-wide map from keys to stored strings.
 * A stored string that is the JSON serialisation of a list of transactions is
 * kept abstractly as that list (`Serialized`); every other stored string,
 * including the empty one, is `Text`.
 */
module LocalStorage {
  import opened Wrappers
  import opened Models

  datatype StoredValue = Text(text: string) | Serialized(items: seq<Transaction>)

  class KeyValueStore {
    var entries: map<string, StoredValue>

    constructor(initial: map<string, StoredValue>)
      ensures entries == initial
    {
      entries := initial;
    }

    /** `getItem(key)`: the stored value, or `None` (JavaScript's `null`) when the key is absent. */
    function GetItem(key: string): (v: Option<StoredValue>)
      reads this
      ensures v.Some? <==> key in entries
      ensures v.Some? ==> v.value == entries[key]
    {
      if key in entries then Some(entries[key]) else None
    }

    /** `setItem(key, value)`: overwrites one key and no other. */
    method SetItem(key: string, value: StoredValue)
      modifies this
      ensures entries == old(entries)[key := value]
    {
      entries := entries[key := value];
    }
  }
}
