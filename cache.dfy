/** The in-memory TTL cache (lib/cache.ts): entries stamped with the time
    they were stored expire once they are older than their time to live.
    Expired entries are evicted lazily by `get` and in bulk by `cleanup`;
    `invalidateCache` drops every key containing a pattern and `withCache`
    memoises a function through the cache.

    The clock is a parameter `now` (ms). The iteration order of the
    underlying `Map` never shows in any result here, so entries are a plain
    `map`. JavaScript `null` is `None`. */
module TtlCache {
  import opened Types
  import opened Text

  /** Five minutes, in ms. */
  const DEFAULT_TTL: int := 5 * 60 * 1000

  datatype Entry<T> = Entry(data: T, timestamp: int, ttl: int)

  /** Strictly older than its time to live: an entry exactly `ttl` old is
      still served. */
  predicate Expired<T>(e: Entry<T>, now: int)
  {
    now - e.timestamp > e.ttl
  }

  /** What `get` returns. */
  function Fetch<T>(m: map<string, Entry<T>>, key: string, now: int): (r: Option<T>)
    ensures r.Some? <==> key in m && !Expired(m[key], now)
    ensures r.Some? ==> r.value == m[key].data
  {
    if key !in m then None
    else if Expired(m[key], now) then None
    else Some(m[key].data)
  }

  /** The entries after `get`: an expired entry for `key` is dropped. */
  function AfterFetch<T>(m: map<string, Entry<T>>, key: string, now: int): (r: map<string, Entry<T>>)
    ensures forall k :: k in r <==> k in m && !(k == key && Expired(m[k], now))
    ensures forall k :: k in r ==> r[k] == m[k]
  {
    if key in m && Expired(m[key], now) then m - {key} else m
  }

  /** The entries `cleanup` keeps: the unexpired ones. */
  function Pruned<T>(m: map<string, Entry<T>>, now: int): (r: map<string, Entry<T>>)
    ensures forall k :: k in r <==> k in m && !Expired(m[k], now)
    ensures forall k :: k in r ==> r[k] == m[k]
  {
    map k | k in m && !Expired(m[k], now) :: m[k]
  }

  /** The entries `invalidateCache` keeps: those whose key does not contain
      `pattern`. */
  function WithoutMatching<T>(m: map<string, Entry<T>>, pattern: string): (r: map<string, Entry<T>>)
    ensures forall k :: k in r <==> k in m && !Contains(k, pattern)
    ensures forall k :: k in r ==> r[k] == m[k]
  {
    map k | k in m && !Contains(k, pattern) :: m[k]
  }

  class Cache<T> {
    var entries: map<string, Entry<T>>

    constructor()
      ensures entries == map[]
    {
      entries := map[];
    }

    /** `set`: stores `data` stamped `now`, replacing any entry for `key`. */
    method Set(key: string, data: T, now: int, ttl: int := DEFAULT_TTL)
      modifies this
      ensures entries == old(entries)[key := Entry(data, now, ttl)]
    {
      entries := entries[key := Entry(data, now, ttl)];
    }

    /** `get`: the stored data unless the entry is absent or expired; an
        expired entry is deleted on the way. */
    method Get(key: string, now: int) returns (r: Option<T>)
      modifies this
      ensures r == Fetch(old(entries), key, now)
      ensures entries == AfterFetch(old(entries), key, now)
    {
      if key !in entries {
        return None;
      }
      var entry := entries[key];
      if now - entry.timestamp > entry.ttl {
        entries := entries - {key};
        return None;
      }
      r := Some(entry.data);
    }

    /** `delete`: removes `key` only. */
    method Delete(key: string)
      modifies this
      ensures entries == old(entries) - {key}
    {
      entries := entries - {key};
    }

    /** `clear`. */
    method Clear()
      modifies this
      ensures entries == map[]
    {
      entries := map[];
    }

    /** `cleanup`: one pass over the keys deleting every expired entry. */
    method Cleanup(now: int)
      modifies this
      ensures entries == Pruned(old(entries), now)
    {
      ghost var start := entries;
      var pending := entries.Keys;
      while pending != {}
        invariant pending <= start.Keys
        invariant forall k :: k in entries <==> k in start && (k in pending || !Expired(start[k], now))
        invariant forall k :: k in entries ==> entries[k] == start[k]
        decreases |pending|
      {
        var key :| key in pending;
        if now - entries[key].timestamp > entries[key].ttl {
          entries := entries - {key};
        }
        pending := pending - {key};
      }
      assert entries == Pruned(start, now);
    }
  }

  /** `invalidateCache`: deletes every key that contains `pattern`. */
  method InvalidateCache<T>(c: Cache<T>, pattern: string)
    modifies c
    ensures c.entries == WithoutMatching(old(c.entries), pattern)
  {
    ghost var start := c.entries;
    var pending := c.entries.Keys;
    while pending != {}
      invariant pending <= start.Keys
      invariant forall k :: k in c.entries <==> k in start && (k in pending || !Contains(k, pattern))
      invariant forall k :: k in c.entries ==> c.entries[k] == start[k]
      decreases |pending|
    {
      var key :| key in pending;
      if Contains(key, pattern) {
        c.Delete(key);
      }
      pending := pending - {key};
    }
    assert c.entries == WithoutMatching(start, pattern);
  }

  /** The outcome of one memoised call: the value returned, whether the
      wrapped function ran, and the cache entries afterwards. */
  datatype Memo<R> = Memo(value: Option<R>, invoked: bool, entries: map<string, Entry<Option<R>>>)

  /** One call of the `withCache` wrapper for `args` under `key`: a cached
      non-null value is returned as is; otherwise (a miss, an expired entry,
      or a cached `null`) the function runs and its result is stored. */
  function Memoized<A, R>(m: map<string, Entry<Option<R>>>, fn: A -> Option<R>, key: string,
                          args: A, now: int, ttl: int): (res: Memo<R>)
    ensures !res.invoked <==> key in m && !Expired(m[key], now) && m[key].data.Some?
    ensures !res.invoked ==> res.value == m[key].data && res.entries == m
    ensures res.invoked ==> res.value == fn(args)
    ensures res.invoked ==> res.entries == AfterFetch(m, key, now)[key := Entry(fn(args), now, ttl)]
  {
    var cached := Fetch(m, key, now);
    var afterGet := AfterFetch(m, key, now);
    if cached.Some? && cached.value.Some? then Memo(cached.value, false, afterGet)
    else Memo(fn(args), true, afterGet[key := Entry(fn(args), now, ttl)])
  }

  /** `withCache(fn, ttl)(args)`. `keyOf` stands for the key built from the
      function's name and its serialised arguments. */
  method WithCache<A, R>(c: Cache<Option<R>>, fn: A -> Option<R>, keyOf: A -> string,
                         args: A, now: int, ttl: int := DEFAULT_TTL)
    returns (r: Option<R>, invoked: bool)
    modifies c
    ensures Memo(r, invoked, c.entries) == Memoized(old(c.entries), fn, keyOf(args), args, now, ttl)
  {
    var key := keyOf(args);
    var cached := c.Get(key, now);
    if cached.Some? && cached.value.Some? {
      return cached.value, false;
    }
    r := fn(args);
    invoked := true;
    c.Set(key, r, now, ttl);
  }

  // ---------------------------------------------------------------------------
  // Properties

  /** A stored entry is served until it is more than `ttl` old, and other
      keys read as before. */
  lemma FetchAfterSet<T>(m: map<string, Entry<T>>, key: string, data: T, now: int, ttl: int, later: int, other: string)
    requires other != key
    ensures Fetch(m[key := Entry(data, now, ttl)], key, later) == if later - now <= ttl then Some(data) else None
    ensures Fetch(m[key := Entry(data, now, ttl)], other, later) == Fetch(m, other, later)
  {
  }

  /** `cleanup` is invisible to readers at the same instant. */
  lemma PrunedKeepsFetch<T>(m: map<string, Entry<T>>, now: int, key: string)
    ensures Fetch(Pruned(m, now), key, now) == Fetch(m, key, now)
  {
  }

  /** A second `cleanup` at the same instant removes nothing more. */
  lemma PrunedIdempotent<T>(m: map<string, Entry<T>>, now: int)
    ensures Pruned(Pruned(m, now), now) == Pruned(m, now)
  {
    assert Pruned(Pruned(m, now), now).Keys == Pruned(m, now).Keys;
  }

  /** An entry unexpired at a later instant was unexpired earlier, so a
      later cleanup keeps a subset and subsumes an earlier one. */
  lemma PrunedLaterIsSmaller<T>(m: map<string, Entry<T>>, now: int, later: int)
    requires now <= later
    ensures Pruned(m, later).Keys <= Pruned(m, now).Keys
    ensures Pruned(Pruned(m, now), later) == Pruned(m, later)
  {
    assert Pruned(Pruned(m, now), later).Keys == Pruned(m, later).Keys;
  }

  /** The empty pattern is contained in every key, so it clears the cache. */
  lemma InvalidateEmptyClears<T>(m: map<string, Entry<T>>)
    ensures WithoutMatching(m, "") == map[]
  {
    forall k | k in m
      ensures Contains(k, "")
    {
      assert "" <= k;
    }
  }

  /** A freshly computed non-null result is served from the cache by every
      call within its ttl, without running the function again; a value
      served from the cache is served again at the same instant. */
  lemma MemoSecondCallHits<A, R>(m: map<string, Entry<Option<R>>>, fn: A -> Option<R>, key: string,
                                 args: A, now: int, ttl: int, later: int)
    requires fn(args).Some?
    ensures var first := Memoized(m, fn, key, args, now, ttl);
            var second := Memoized(first.entries, fn, key, args, later, ttl);
            (first.invoked && now <= later && later - now <= ttl) || (!first.invoked && later == now) ==>
              !second.invoked && second.value == first.value && second.entries == first.entries
  {
    var first := Memoized(m, fn, key, args, now, ttl);
    if first.invoked {
      assert first.entries[key] == Entry(fn(args), now, ttl);
    } else {
      assert first.entries == m;
    }
  }

  /** A `null` result is never served: every call runs the function. */
  lemma MemoNullNeverServed<A, R>(m: map<string, Entry<Option<R>>>, fn: A -> Option<R>, key: string,
                                  args: A, now: int, ttl: int, later: int)
    requires fn(args).None?
    ensures var first := Memoized(m, fn, key, args, now, ttl);
            first.invoked ==> Memoized(first.entries, fn, key, args, later, ttl).invoked
  {
  }
}
