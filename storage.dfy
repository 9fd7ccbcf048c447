/**
 * The browser's `localStorage`, as the auth gates use it: a string-to-string
 * map that `getItem` reads and `setItem` / `removeItem` update in place.
 */
module LocalStorage {
  import opened Wrappers

  /** `getItem(key)` on a map of items: the stored value, or none (`null`). */
  function Lookup(items: map<string, string>, key: string): (r: Option<string>)
    ensures r.Some? <==> key in items
    ensures r.Some? ==> items[key] == r.value
  {
    if key in items then Some(items[key]) else None
  }

  class Storage {
    var items: map<string, string>

    /** An empty storage area. */
    constructor ()
      ensures items == map[]
    {
      items := map[];
    }

    /** `getItem(key)`. */
    function GetItem(key: string): (r: Option<string>)
      reads this
      ensures r == Lookup(items, key)
    {
      Lookup(items, key)
    }

    /** `setItem(key, value)`: the key now holds the value; no other key changes. */
    method SetItem(key: string, value: string)
      modifies this
      ensures items == old(items)[key := value]
    {
      items := items[key := value];
    }

    /** `removeItem(key)`: the key is gone; no other key changes. */
    method RemoveItem(key: string)
      modifies this
      ensures items == old(items) - {key}
    {
      items := items - {key};
    }
  }
}
