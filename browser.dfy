/** The browser facilities the core relies on: `localStorage`, a key/value
    store that survives reloads, and the files a user picks in a file input. */
module Browser {
  import opened Common

  /** `window.localStorage`: string keys mapped to string values. */
  class LocalStorage {
    var items: map<string, string>

    constructor (initial: map<string, string>)
      ensures items == initial
    {
      items := initial;
    }

    /** `getItem(key)`: the stored value, or `null` (None) when absent. */
    function GetItem(key: string): (r: Option<string>)
      reads this
      ensures r.Some? <==> key in items
      ensures r.Some? ==> r.value == items[key]
    {
      if key in items then Some(items[key]) else None
    }

    /** `setItem(key, value)`. */
    method SetItem(key: string, value: string)
      modifies this
      ensures items == old(items)[key := value]
    {
      items := items[key := value];
    }

    /** `removeItem(key)`; removing an absent key changes nothing. */
    method RemoveItem(key: string)
      modifies this
      ensures items == old(items) - {key}
    {
      items := items - {key};
    }

    /** `clear()`: every key is removed, not only the session token. */
    method Clear()
      modifies this
      ensures items == map[]
    {
      items := map[];
    }
  }

  /** A file chosen in an `<input type="file">`; its contents are opaque. */
  datatype File = File(name: string)
}
