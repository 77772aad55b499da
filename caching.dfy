/** The process-wide key/value cache that the server code reads through.
  * Entries carry the TTL they were stored with; expiry by the clock happens outside the model,
  * so `entries` holds exactly the entries that have not expired. */
module Caching {
  import opened Wrappers

  /** A stored value and the TTL argument it was set with (`None`: `set` was called without one). */
  datatype Entry<V> = Entry(value: V, ttl: Option<int>)

  class Cache<V> {
    var entries: map<string, Entry<V>>

    constructor ()
      ensures entries == map[]
    {
      entries := map[];
    }

    /** `cache.get(key)`: the stored value, or `undefined` when there is none. */
    method Get(key: string) returns (v: Option<V>)
      ensures key in entries <==> v.Some?
      ensures v.Some? ==> v.value == entries[key].value
    {
      v := if key in entries then Some(entries[key].value) else None;
    }

    /** `cache.set(key, value, ttl)`: overwrites whatever was under `key`. */
    method Set(key: string, value: V, ttl: Option<int>)
      modifies this
      ensures entries == old(entries)[key := Entry(value, ttl)]
    {
      entries := entries[key := Entry(value, ttl)];
    }
  }
}
