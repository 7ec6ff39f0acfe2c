/**
 * One Web Storage area (`localStorage` or `sessionStorage`): a map from
 * string keys to string values that the pages read and update in place.
 */
module WebStorage {
  import opened Wrappers

  class Storage {
    var items: map<string, string>

    constructor (initial: map<string, string>)
      ensures items == initial
    {
      items := initial;
    }

    /** `getItem(k)`: the stored value, or `null` (None) when the key is absent. */
    function GetItem(k: string): (r: Option<string>)
      reads this
      ensures r.Some? <==> k in items
      ensures r.Some? ==> r.value == items[k]
    {
      Get(items, k)
    }

    /** `setItem(k, v)`: `k` now holds `v`; every other key is unchanged. */
    method SetItem(k: string, v: string)
      modifies this
      ensures items == old(items)[k := v]
    {
      items := items[k := v];
    }

    /** `removeItem(k)`: `k` is gone; every other key is unchanged. */
    method RemoveItem(k: string)
      modifies this
      ensures items == old(items) - {k}
    {
      items := items - {k};
    }

    /** `clear()`: nothing is stored any more. */
    method Clear()
      modifies this
      ensures items == map[]
    {
      items := map[];
    }
  }
}
