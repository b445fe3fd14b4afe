/**
 * A size-bounded cache from a key to a response, as built by
 * `CacheBuilder.newBuilder().maximumSize(n).build()`: `put` stores an entry,
 * evicting some other entry when the cache is full; `getIfPresent` looks an
 * entry up; `invalidate` removes it. Which entry is evicted is not specified,
 * so the model chooses it nondeterministically.
 */
module ResponseCaches {
  import opened Wrappers
  import opened HttpMessages

  class ResponseCache {
    const maximumSize: nat
    var entries: map<string, HttpResponse>

    ghost predicate Valid()
      reads this
    {
      0 < maximumSize && |entries| <= maximumSize
    }

    constructor (maximumSize: nat)
      requires 0 < maximumSize
      ensures Valid()
      ensures this.maximumSize == maximumSize && entries == map[]
    {
      this.maximumSize := maximumSize;
      entries := map[];
    }

    /** The cached response for `key`, or None when there is none. */
    function GetIfPresent(key: string): (r: Option<HttpResponse>)
      reads this
      ensures r.Some? <==> key in entries
      ensures r.Some? ==> r.value == entries[key]
    {
      if key in entries then Some(entries[key]) else None
    }

    /**
     * Stores `value` under `key`. When the cache is full and `key` is new, one
     * other entry is evicted first, so the size never exceeds the maximum.
     */
    method Put(key: string, value: HttpResponse)
      requires Valid()
      modifies this
      ensures Valid()
      ensures key in entries && entries[key] == value
      ensures entries.Keys <= old(entries).Keys + {key}
      ensures forall k :: k in entries && k != key ==> entries[k] == old(entries)[k]
      ensures key in old(entries) || |old(entries)| < maximumSize ==> entries == old(entries)[key := value]
    {
      if key !in entries && |entries| == maximumSize {
        assert |entries.Keys| > 0;
        var victim :| victim in entries.Keys;
        assert (entries - {victim}).Keys == entries.Keys - {victim};
        entries := entries - {victim};
      }
      entries := entries[key := value];
    }

    /** Removes the entry for `key`, if any. */
    method Invalidate(key: string)
      requires Valid()
      modifies this
      ensures Valid()
      ensures entries == old(entries) - {key}
    {
      assert (entries - {key}).Keys == entries.Keys - {key};
      entries := entries - {key};
    }
  }
}
