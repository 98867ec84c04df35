/**
 * The session cache (backend/services/session_cache.py): analysis results
 * kept per session id with a time-to-live, renewed on every successful read
 * and swept by `cleanup`. The clock and the id generator are parameters:
 * `now` is the time of the call in microseconds, `freshId` the id that
 * `uuid4` would produce.
 */
module Sessions {
  import opened Wrappers

  datatype Entry<D> = Entry(data: Option<D>, created: int, expires: int)

  /** An entry is served while the clock is strictly before its expiry; `get` and `cleanup` share this boundary. */
  predicate Live<D>(e: Entry<D>, now: int) {
    now < e.expires
  }

  /** Microseconds in a minute, the unit of `timedelta(minutes=...)`. */
  const MinuteMicros := 60_000_000

  class SessionCache<D> {
    var entries: map<string, Entry<D>>
    const ttl: int

    constructor(ttlMinutes: int)
      ensures entries == map[]
      ensures ttl == ttlMinutes * MinuteMicros
    {
      entries := map[];
      ttl := ttlMinutes * MinuteMicros;
    }

    /** `create_session`: a new entry with no data, expiring one ttl from now. */
    method CreateSession(now: int, freshId: string) returns (sessionId: string)
      modifies this
      ensures sessionId == freshId
      ensures entries == old(entries)[freshId := Entry(None, now, now + ttl)]
    {
      sessionId := freshId;
      entries := entries[sessionId := Entry(None, now, now + ttl)];
    }

    /**
     * `set`: an id already in the cache, expired or not, is kept; an unknown
     * id is replaced by a fresh one. Either way the entry is overwritten.
     */
    method Set(sessionId: string, data: D, now: int, freshId: string) returns (id: string)
      modifies this
      ensures id == (if sessionId in old(entries) then sessionId else freshId)
      ensures entries == old(entries)[id := Entry(Some(data), now, now + ttl)]
    {
      id := sessionId;
      if id !in entries {
        id := freshId;
      }
      entries := entries[id := Entry(Some(data), now, now + ttl)];
    }

    /**
     * `get`: a live entry is renewed and its data returned; an expired one is
     * deleted; an absent id changes nothing.
     */
    method Get(sessionId: string, now: int) returns (r: Option<D>)
      modifies this
      ensures sessionId !in old(entries) ==> r == None && entries == old(entries)
      ensures sessionId in old(entries) && Live(old(entries)[sessionId], now) ==>
        r == old(entries)[sessionId].data
        && entries == old(entries)[sessionId := old(entries)[sessionId].(expires := now + ttl)]
      ensures sessionId in old(entries) && !Live(old(entries)[sessionId], now) ==>
        r == None && entries == old(entries) - {sessionId}
    {
      if sessionId in entries {
        var entry := entries[sessionId];
        if now < entry.expires {
          entries := entries[sessionId := entry.(expires := now + ttl)];
          return entry.data;
        }
        entries := entries - {sessionId};
      }
      return None;
    }

    /** `cleanup`: exactly the entries that are no longer live are removed; the rest are untouched. */
    method Cleanup(now: int)
      modifies this
      ensures forall id :: id in entries <==> id in old(entries) && Live(old(entries)[id], now)
      ensures forall id :: id in entries ==> entries[id] == old(entries)[id]
    {
      var expired := set sid | sid in entries && now >= entries[sid].expires;
      var remaining := expired;
      while remaining != {}
        invariant remaining <= expired
        invariant entries == old(entries) - (expired - remaining)
        decreases remaining
      {
        var sid :| sid in remaining;
        entries := entries - {sid};
        remaining := remaining - {sid};
      }
    }
  }

  /** Data stored with `set` is returned by a `get` with the returned id before its ttl has elapsed. */
  method SetThenGet<D>(cache: SessionCache<D>, sessionId: string, data: D, now: int, freshId: string, later: int)
    returns (id: string, r: Option<D>)
    requires later < now + cache.ttl
    modifies cache
    ensures r == Some(data)
    ensures id in cache.entries && cache.entries[id].expires == later + cache.ttl
  {
    id := cache.Set(sessionId, data, now, freshId);
    r := cache.Get(id, later);
  }

  /** A session just created holds no data: reading it before it expires gives `None` and renews it. */
  method CreateThenGet<D>(cache: SessionCache<D>, now: int, freshId: string, later: int)
    returns (id: string, r: Option<D>)
    requires later < now + cache.ttl
    modifies cache
    ensures r == None
    ensures id == freshId && id in cache.entries && cache.entries[id].expires == later + cache.ttl
  {
    id := cache.CreateSession(now, freshId);
    r := cache.Get(id, later);
  }

  /** After `cleanup` at `now`, every remaining entry is one `get` at the same `now` would serve. */
  method CleanupLeavesOnlyLive<D>(cache: SessionCache<D>, now: int)
    modifies cache
    ensures forall id :: id in cache.entries ==> Live(cache.entries[id], now)
  {
    cache.Cleanup(now);
  }
}
