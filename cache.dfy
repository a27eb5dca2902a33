/** `SimpleCache`, the in-process dictionary with expiry times, and the
    `cache_for` decorator that memoises a call through it.  The clock is a
    parameter: `now` is the caller's reading of `datetime.utcnow()`, in
    seconds. */
module Caching {
  import opened Wrappers

  datatype Entry<V> = Entry(value: V, expires: int)

  /** What `get` answers: the value of an entry that expires strictly
      after `now`. */
  function Lookup<V>(entries: map<string, Entry<V>>, key: string, now: int): Option<V> {
    if key in entries && entries[key].expires > now then Some(entries[key].value) else None
  }

  /** What `get` leaves behind: it drops the entry it found expired. */
  function AfterGet<V>(entries: map<string, Entry<V>>, key: string, now: int): map<string, Entry<V>> {
    if key in entries && entries[key].expires <= now then entries - {key} else entries
  }

  /** A value set with a timeout is answered up to, and not at, the moment
      it expires. */
  lemma SetThenLookup<V>(entries: map<string, Entry<V>>, key: string, v: V, now: int, timeout: int, later: int)
    ensures Lookup(entries[key := Entry(v, now + timeout)], key, later) ==
      if later < now + timeout then Some(v) else None
  {
  }

  /** Setting one key changes no other key's answer. */
  lemma SetLeavesOthers<V>(entries: map<string, Entry<V>>, key: string, v: V, expires: int, other: string, t: int)
    requires other != key
    ensures Lookup(entries[key := Entry(v, expires)], other, t) == Lookup(entries, other, t)
  {
  }

  /** Dropping an expired entry changes no answer from then on: `get`
      only tidies up. */
  lemma GetOnlyTidies<V>(entries: map<string, Entry<V>>, key: string, now: int, k: string, t: int)
    requires now <= t
    ensures Lookup(AfterGet(entries, key, now), k, t) == Lookup(entries, k, t)
  {
  }

  /** An answer that has gone stays gone until the key is set again. */
  lemma ExpiryIsFinal<V>(entries: map<string, Entry<V>>, key: string, now: int, later: int)
    requires now <= later && Lookup(entries, key, now).None?
    ensures Lookup(entries, key, later).None?
  {
  }

  class SimpleCache<V> {
    var entries: map<string, Entry<V>>

    constructor ()
      ensures entries == map[]
    {
      entries := map[];
    }

    /** `get`. */
    method Get(key: string, now: int) returns (r: Option<V>)
      modifies this
      ensures r == Lookup(old(entries), key, now)
      ensures entries == AfterGet(old(entries), key, now)
    {
      r := None;
      if key in entries {
        var item := entries[key];
        if item.expires > now {
          r := Some(item.value);
        } else {
          entries := entries - {key};
        }
      }
    }

    /** `set`, with the default timeout of 300 seconds. */
    method Set(key: string, value: V, now: int, timeout: int := 300)
      modifies this
      ensures entries == old(entries)[key := Entry(value, now + timeout)]
    {
      entries := entries[key := Entry(value, now + timeout)];
    }

    /** `delete`. */
    method Delete(key: string)
      modifies this
      ensures entries == old(entries) - {key}
      ensures forall t :: Lookup(entries, key, t).None?
    {
      if key in entries {
        entries := entries - {key};
      }
    }
  }

  /** `cache_for(seconds)` around a call whose result is `computed`, a
      Python value that may be `None`.  A live cached value other than
      `None` is returned as it is; a miss, an expired entry or a cached
      `None` makes the call run again, and its result is stored for
      `seconds` and returned.  The clock is read twice: `now` for the
      lookup, and `later`, once the call has returned, for the store. */
  method CachedCall<V>(cache: SimpleCache<Option<V>>, key: string, now: int, later: int, seconds: int, computed: Option<V>)
    returns (r: Option<V>)
    requires now <= later
    modifies cache
    ensures Lookup(old(cache.entries), key, now).Some? && Lookup(old(cache.entries), key, now).value.Some? ==>
      r == Lookup(old(cache.entries), key, now).value && cache.entries == old(cache.entries)
    ensures Lookup(old(cache.entries), key, now).None? || Lookup(old(cache.entries), key, now).value.None? ==>
      r == computed && cache.entries == old(cache.entries)[key := Entry(computed, later + seconds)]
  {
    var cached := cache.Get(key, now);
    if cached.Some? && cached.value.Some? {
      return cached.value;
    }
    cache.Set(key, computed, later, seconds);
    r := computed;
  }
}
