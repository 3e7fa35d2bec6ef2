/**
 * The browser's `localStorage` as the lookup view and the cache test use it: a string-keyed store
 * with getItem, setItem, removeItem and clear.  A slot's text is modelled by what reading it
 * yields: the empty string, text that JSON.parse rejects, or a timestamped payload.
 */
module CacheStore {
  import opened Api

  datatype Entry<P> = Blank | Corrupt | Stamped(timestamp: int, data: P)

  /** A slot counts as cached when `getItem` returns something truthy: present and not the empty string. */
  predicate Present<P>(items: map<string, Entry<P>>, key: string) {
    key in items && !items[key].Blank?
  }

  class LocalStorage<P> {
    var items: map<string, Entry<P>>

    constructor ()
      ensures items == map[]
    {
      items := map[];
    }

    /** `getItem(key)`, read for truthiness: an absent key and an empty string both give null. */
    function GetItem(key: string): (r: Option<Entry<P>>)
      reads this
      ensures r.Some? <==> Present(items, key)
      ensures r.Some? ==> r.value == items[key]
    {
      if Present(items, key) then Some(items[key]) else None
    }

    method SetItem(key: string, e: Entry<P>)
      modifies this
      ensures items == old(items)[key := e]
    {
      items := items[key := e];
    }

    method RemoveItem(key: string)
      modifies this
      ensures items == old(items) - {key}
    {
      items := items - {key};
    }

    method Clear()
      modifies this
      ensures items == map[]
    {
      items := map[];
    }
  }
}
