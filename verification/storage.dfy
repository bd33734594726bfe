/**
 * The local-storage helpers of src/utils/dummyData.js. Browser storage is a map
 * from key to what `JSON.parse` makes of the stored text; serialisation of the
 * model's values is taken to round-trip.
 */
module Storage {

  /** What a key of local storage holds, as seen through `getItem` and `JSON.parse`. */
  datatype Slot<T> =
    | EmptyText            // the stored string is "", which is falsy
    | Unparsable           // JSON.parse throws on the stored string
    | Stored(value: T)     // the stored string parses to `value`

  /** `getFromLocalStorage(key, default)`. */
  function GetFromLocalStorage<T>(storage: map<string, Slot<T>>, key: string, default: T): T
  {
    if key in storage && storage[key].Stored? then storage[key].value else default
  }

  /** `saveToLocalStorage(key, data)`: a write of `data` under `key`. */
  function SaveToLocalStorage<T>(storage: map<string, Slot<T>>, key: string, data: T): map<string, Slot<T>>
  {
    storage[key := Stored(data)]
  }

  /** Reading a key back after saving it yields what was saved, whatever the default. */
  lemma SaveThenGet<T>(storage: map<string, Slot<T>>, key: string, data: T, default: T)
    ensures GetFromLocalStorage(SaveToLocalStorage(storage, key, data), key, default) == data
  {
  }

  /** Saving under one key does not change what any other key reads as. */
  lemma SaveLeavesOtherKeys<T>(storage: map<string, Slot<T>>, key: string, data: T, other: string, default: T)
    requires other != key
    ensures GetFromLocalStorage(SaveToLocalStorage(storage, key, data), other, default)
         == GetFromLocalStorage(storage, other, default)
  {
  }

  /** A second save under the same key replaces the first: only the last write is kept. */
  lemma SaveOverwrites<T>(storage: map<string, Slot<T>>, key: string, first: T, second: T)
    ensures SaveToLocalStorage(SaveToLocalStorage(storage, key, first), key, second)
         == SaveToLocalStorage(storage, key, second)
  {
  }

  /** An absent key, an empty string and unparsable text all read as the default. */
  lemma GetFallsBack<T>(storage: map<string, Slot<T>>, key: string, default: T)
    requires key !in storage || storage[key] == EmptyText || storage[key] == Unparsable
    ensures GetFromLocalStorage(storage, key, default) == default
  {
  }
}
