/**
 * The key-value cache the views share: `get(key)` and `set(key, value, timeout)`.
 * Expiry is not modelled; each entry records the timeout it was stored with.
 */
module WeatherCache {
  import opened Wrappers
  import opened Payloads

  datatype Entry = Entry(value: Payload, timeout: int)

  class Cache {
    var entries: map<string, Entry>

    constructor()
      ensures entries == map[]
    {
      entries := map[];
    }

    /** `cache.get(key)`: the stored payload, or nothing. */
    method Get(key: string) returns (v: Option<Payload>)
      ensures v.Some? <==> key in entries
      ensures v.Some? ==> v.value == entries[key].value
    {
      v := if key in entries then Some(entries[key].value) else None;
    }

    /** `cache.set(key, value, timeout=...)`: replaces the entry for `key` and no other. */
    method Set(key: string, value: Payload, timeout: int)
      modifies this
      ensures entries == old(entries)[key := Entry(value, timeout)]
    {
      entries := entries[key := Entry(value, timeout)];
    }
  }
}
