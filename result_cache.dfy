/** The module-level result cache of src/lib/database.ts: a map from key
    to the stored data and the clock time it was stored, read with a
    five-minute freshness window. */
module ResultCache {
  import opened Wrappers
  import opened Text

  const CacheDuration: int := 5 * 60 * 1000

  datatype Entry<V> = Entry(data: V, timestamp: int)

  /** An entry younger than the freshness window. */
  predicate Fresh<V>(entries: map<string, Entry<V>>, key: string, now: int)
    ensures Fresh(entries, key, now) ==> key in entries
  {
    key in entries && now - entries[key].timestamp < CacheDuration
  }

  /** The entries that a sweep over `prefix` keeps. */
  function WithoutPrefix<V>(entries: map<string, Entry<V>>, prefix: string): (m: map<string, Entry<V>>)
    ensures forall k :: k in m <==> k in entries && !StartsWith(k, prefix)
    ensures forall k :: k in m ==> m[k] == entries[k]
  {
    map k | k in entries && !StartsWith(k, prefix) :: entries[k]
  }

  /** A value stored at `now` is returned by a read at any time before the
      window closes and by none after. */
  lemma SetThenGet<V>(entries: map<string, Entry<V>>, key: string, v: V, now: int, later: int)
    ensures Fresh(entries[key := Entry(v, now)], key, later) <==> later < now + CacheDuration
    ensures entries[key := Entry(v, now)][key].data == v
  {
  }

  class ResultCache<V> {
    var entries: map<string, Entry<V>>

    constructor ()
      ensures entries == map[]
    {
      entries := map[];
    }

    /** `getFromCache`: the stored data while it is fresh; otherwise null,
        and the key is removed (a missing key stays missing). */
    method Get(key: string, now: int) returns (r: Option<V>)
      modifies this
      ensures r.Some? <==> Fresh(old(entries), key, now)
      ensures r.Some? ==> r.value == old(entries)[key].data && entries == old(entries)
      ensures r.None? ==> entries == old(entries) - {key} && key !in entries
    {
      if key in entries && now - entries[key].timestamp < CacheDuration {
        return Some(entries[key].data);
      }
      entries := entries - {key};
      return None;
    }

    /** `setCache`: store the data with the current time. */
    method Set(key: string, data: V, now: int)
      modifies this
      ensures entries == old(entries)[key := Entry(data, now)]
    {
      entries := entries[key := Entry(data, now)];
    }

    /** `cache.delete(key)`. */
    method Delete(key: string)
      modifies this
      ensures entries == old(entries) - {key}
    {
      entries := entries - {key};
    }

    /** The loop over `cache.keys()` in every `deleteX`: remove each key
        that starts with `prefix`, keep every other entry as it was. */
    method DeleteWithPrefix(prefix: string)
      modifies this
      ensures entries == WithoutPrefix(old(entries), prefix)
    {
      var keys := entries.Keys;
      while keys != {}
        invariant keys <= old(entries).Keys
        invariant entries == map k | k in old(entries) && (k in keys || !StartsWith(k, prefix)) :: old(entries)[k]
        decreases keys
      {
        var key :| key in keys;
        if StartsWith(key, prefix) {
          entries := entries - {key};
        }
        keys := keys - {key};
      }
    }
  }
}
