/**
 * The browser's `localStorage` as the history components use it: each key
 * holds the JSON text of an array of entries. JSON itself is not modelled; a
 * slot either decodes to a sequence of entries or fails to decode.
 */
module BrowserStorage {

  /** The contents of one storage key: a decodable array of entries, or text that `JSON.parse` rejects. */
  datatype Slot<T> = Entries(items: seq<T>) | Malformed

  class LocalStorage<T> {
    var slots: map<string, Slot<T>>

    constructor ()
      ensures slots == map[]
    {
      slots := map[];
    }

    /** `localStorage.setItem(key, JSON.stringify(items))` */
    method SetItem(key: string, items: seq<T>)
      modifies this
      ensures slots == old(slots)[key := Entries(items)]
    {
      slots := slots[key := Entries(items)];
    }

    /** `localStorage.removeItem(key)` */
    method RemoveItem(key: string)
      modifies this
      ensures slots == old(slots) - {key}
    {
      slots := slots - {key};
    }
  }
}
