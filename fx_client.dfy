/**
 * The rate client: an in-memory TTL cache (`FXCache`) and the client
 * (`FXClient`) that serves a query from the cache, else from the upstream
 * rate provider, else from the local fallback snapshot.
 *
 * Time is an explicit integer `now`, in microseconds (the resolution of
 * Python's `datetime`). The upstream call is an input `Upstream`, and the
 * fallback file is an input `Option<Payload>` whose `None` stands for a
 * missing or unreadable file.
 */
module FxClient {
  import opened Wrappers
  import opened RateData

  const MicrosPerSecond: int := 1_000_000
  /** Default lifetime of a cache entry, in seconds. */
  const DefaultTtlSeconds: int := 300
  const DefaultBase: string := "EUR"
  const DefaultSymbols: string := "USD"

  /** A stored value with the time it was stored. */
  datatype CacheEntry = CacheEntry(timestamp: int, value: Payload)

  /** The entry may still be served: less than `ttl` has elapsed since it was stored. */
  predicate Fresh(e: CacheEntry, ttl: int, now: int)
    ensures now == e.timestamp ==> (Fresh(e, ttl, now) <==> ttl > 0)
    ensures ttl <= 0 && e.timestamp <= now ==> !Fresh(e, ttl, now)
  {
    now - e.timestamp < ttl
  }

  /** What `FXCache.get` returns. */
  function Lookup(entries: map<string, CacheEntry>, ttl: int, key: string, now: int): (r: Option<Payload>)
    ensures r.Some? <==> key in entries && Fresh(entries[key], ttl, now)
    ensures r.Some? ==> r.value == entries[key].value
  {
    if key in entries && Fresh(entries[key], ttl, now) then Some(entries[key].value) else None
  }

  /** The store after `FXCache.get`: an expired entry for `key` is evicted,
      every other entry is kept as it was. */
  function AfterLookup(entries: map<string, CacheEntry>, ttl: int, key: string, now: int): (m: map<string, CacheEntry>)
    ensures forall k :: k in m ==> k in entries && m[k] == entries[k]
    ensures forall k :: k in entries && k != key ==> k in m
    ensures key in m <==> key in entries && Fresh(entries[key], ttl, now)
  {
    if key in entries && !Fresh(entries[key], ttl, now) then entries - {key} else entries
  }

  /** A time-bounded memoizing store, evicting expired entries lazily on access. */
  class FXCache {
    var entries: map<string, CacheEntry>
    /** Lifetime of an entry, in microseconds. */
    const ttl: int

    constructor (ttlSeconds: int := DefaultTtlSeconds)
      ensures entries == map[] && ttl == ttlSeconds * MicrosPerSecond
    {
      entries := map[];
      ttl := ttlSeconds * MicrosPerSecond;
    }

    /** Serves the entry for `key` while it is fresh; evicts it once expired. */
    method Get(key: string, now: int) returns (r: Option<Payload>)
      modifies this
      ensures r == Lookup(old(entries), ttl, key, now)
      ensures entries == AfterLookup(old(entries), ttl, key, now)
    {
      if key in entries {
        var entry := entries[key];
        if now - entry.timestamp < ttl {
          return Some(entry.value);
        } else {
          entries := entries - {key};
        }
      }
      return None;
    }

    /** Stores `value` under `key`, stamped with `now`, replacing any old entry. */
    method Set(key: string, value: Payload, now: int)
      modifies this
      ensures entries == old(entries)[key := CacheEntry(now, value)]
    {
      entries := entries[key := CacheEntry(now, value)];
    }

    /** Drops every entry. */
    method Clear()
      modifies this
      ensures entries == map[]
    {
      entries := map[];
    }
  }

  /** The outcome of the upstream request: the decoded body, or any failure
      (network error, non-2xx status, undecodable body, timeout). */
  datatype Upstream = Ok(data: Payload) | Fail

  /** Where a served payload came from. */
  datatype Origin = FromCache | FromUpstream | FromFallback

  /** A served payload, or the `ValueError` raised when the fallback fails too. */
  datatype Outcome = Served(data: Payload, origin: Origin) | DataUnavailable

  /** Cache key of a range query. */
  function RangeKey(startDate: string, endDate: string, base: string, symbols: string): (k: string)
    ensures |k| == |"range:"| + |startDate| + |endDate| + |base| + |symbols| + 3
    ensures k[..|"range:"|] == "range:"
    ensures k[|k| - |symbols|..] == symbols
  {
    "range:" + startDate + ":" + endDate + ":" + base + ":" + symbols
  }

  /** Cache key of a latest-rate query. */
  function LatestKey(base: string, symbols: string): (k: string)
    ensures |k| == |"latest:"| + |base| + |symbols| + 1
    ensures k[..|"latest:"|] == "latest:"
    ensures k[|k| - |symbols|..] == symbols
  {
    "latest:" + base + ":" + symbols
  }

  /** `_load_fallback`: the snapshot's contents, or `ValueError` when it cannot be read. */
  function LoadFallback(snapshot: Option<Payload>): (r: Outcome)
    ensures r.DataUnavailable? <==> snapshot.None?
    ensures r.Served? ==> r.data == snapshot.value && r.origin == FromFallback
  {
    match snapshot
    case Some(data) => Served(data, FromFallback)
    case None => DataUnavailable
  }

  /** The outcome of one query together with the store it leaves behind. */
  datatype Step = Step(outcome: Outcome, entries: map<string, CacheEntry>)

  /** The cached value is served only when `get` returns a truthy payload;
      an empty object counts as a miss. */
  predicate Hit(entries: map<string, CacheEntry>, ttl: int, key: string, now: int)
    ensures Hit(entries, ttl, key, now) <==>
              key in entries && Fresh(entries[key], ttl, now) && Truthy(entries[key].value)
  {
    var cached := Lookup(entries, ttl, key, now);
    cached.Some? && Truthy(cached.value)
  }

  /** One cache -> upstream -> fallback round for `key`, as a function of the store before it. */
  function Resolve(entries: map<string, CacheEntry>, ttl: int, key: string, now: int,
                   upstream: Upstream, snapshot: Option<Payload>): (s: Step)
    // Served from the cache exactly on a truthy fresh hit, which changes nothing.
    ensures s.outcome.Served? && s.outcome.origin == FromCache <==> Hit(entries, ttl, key, now)
    ensures Hit(entries, ttl, key, now) ==> s.outcome.data == entries[key].value && s.entries == entries
    // Otherwise an upstream success is returned and stored under `key` at `now`.
    ensures s.outcome.Served? && s.outcome.origin == FromUpstream <==> !Hit(entries, ttl, key, now) && upstream.Ok?
    ensures s.outcome.Served? && s.outcome.origin == FromUpstream ==>
              s.outcome.data == upstream.data && key in s.entries && s.entries[key] == CacheEntry(now, upstream.data)
    // Otherwise the fallback's contents are returned, or DataUnavailable when it fails too.
    ensures s.outcome.DataUnavailable? <==> !Hit(entries, ttl, key, now) && upstream.Fail? && snapshot.None?
    ensures s.outcome.Served? && s.outcome.origin == FromFallback ==> s.outcome.data == snapshot.value
    // On those two paths the store is left as the lookup left it.
    ensures !Hit(entries, ttl, key, now) && upstream.Fail? ==> s.entries == AfterLookup(entries, ttl, key, now)
    // No other key is ever touched.
    ensures forall k :: k != key ==> (k in s.entries <==> k in entries)
    ensures forall k :: k != key && k in entries ==> s.entries[k] == entries[k]
  {
    var cached := Lookup(entries, ttl, key, now);
    var afterGet := AfterLookup(entries, ttl, key, now);
    if Hit(entries, ttl, key, now) then
      Step(Served(cached.value, FromCache), afterGet)
    else
      match upstream
      case Ok(data) => Step(Served(data, FromUpstream), afterGet[key := CacheEntry(now, data)])
      case Fail => Step(LoadFallback(snapshot), afterGet)
  }

  /** Client for the rate provider, holding the cache it consults first. */
  class FXClient {
    const cache: FXCache

    constructor (cacheTtlSeconds: int := DefaultTtlSeconds)
      ensures fresh(cache)
      ensures cache.entries == map[] && cache.ttl == cacheTtlSeconds * MicrosPerSecond
    {
      cache := new FXCache(cacheTtlSeconds);
    }

    /** Rates for the dates from `startDate` to `endDate`. */
    method GetRange(now: int, upstream: Upstream, snapshot: Option<Payload>,
                    startDate: string, endDate: string,
                    base: string := DefaultBase, symbols: string := DefaultSymbols) returns (r: Outcome)
      modifies cache
      ensures Step(r, cache.entries) ==
              Resolve(old(cache.entries), cache.ttl, RangeKey(startDate, endDate, base, symbols), now, upstream, snapshot)
    {
      var cacheKey := RangeKey(startDate, endDate, base, symbols);
      r := Retrieve(cacheKey, now, upstream, snapshot);
    }

    /** The most recent rate. */
    method GetLatest(now: int, upstream: Upstream, snapshot: Option<Payload>,
                     base: string := DefaultBase, symbols: string := DefaultSymbols) returns (r: Outcome)
      modifies cache
      ensures Step(r, cache.entries) ==
              Resolve(old(cache.entries), cache.ttl, LatestKey(base, symbols), now, upstream, snapshot)
    {
      var cacheKey := LatestKey(base, symbols);
      r := Retrieve(cacheKey, now, upstream, snapshot);
    }

    /** The protocol both queries share once their key is built. */
    method Retrieve(cacheKey: string, now: int, upstream: Upstream, snapshot: Option<Payload>) returns (r: Outcome)
      modifies cache
      ensures Step(r, cache.entries) == Resolve(old(cache.entries), cache.ttl, cacheKey, now, upstream, snapshot)
    {
      var cached := cache.Get(cacheKey, now);
      if cached.Some? && Truthy(cached.value) {
        return Served(cached.value, FromCache);
      }
      match upstream {
        case Ok(data) =>
          cache.Set(cacheKey, data, now);
          return Served(data, FromUpstream);
        case Fail =>
          r := LoadFallback(snapshot);
      }
    }
  }

  // ---------------------------------------------------------------------------
  // Properties of the cache and of the protocol

  /** A value just stored is served back at the same instant whenever ttl > 0. */
  lemma SetThenGet(entries: map<string, CacheEntry>, ttl: int, key: string, value: Payload, now: int)
    requires ttl > 0
    ensures Lookup(entries[key := CacheEntry(now, value)], ttl, key, now) == Some(value)
  {
  }

  /** Range and latest keys never collide: their prefixes differ at the first character. */
  lemma {:induction false} RangeAndLatestKeysDiffer(startDate: string, endDate: string, base: string,
                                                    symbols: string, base': string, symbols': string)
    ensures RangeKey(startDate, endDate, base, symbols) != LatestKey(base', symbols')
  {
    assert RangeKey(startDate, endDate, base, symbols)[0] == 'r';
    assert LatestKey(base', symbols')[0] == 'l';
  }

  /** A field without ':' is recovered from the text it starts, up to the first ':'. */
  lemma {:induction false} SplitAtColon(x: string, rest: string, x': string, rest': string)
    requires ':' !in x && ':' !in x'
    requires x + ":" + rest == x' + ":" + rest'
    ensures x == x' && rest == rest'
  {
    var s := x + ":" + rest;
    assert |x| == |x'| by {
      assert forall i :: 0 <= i < |x| ==> s[i] == x[i];
      assert forall i :: 0 <= i < |x'| ==> s[i] == x'[i];
      assert s[|x|] == ':' && s[|x'|] == ':';
    }
    assert x == s[..|x|] == x';
    assert rest == s[|x| + 1..] == rest';
  }

  lemma RangeKeyShape(startDate: string, endDate: string, base: string, symbols: string)
    ensures RangeKey(startDate, endDate, base, symbols) ==
            "range:" + (startDate + ":" + (endDate + ":" + (base + ":" + symbols)))
  {
  }

  lemma LatestKeyShape(base: string, symbols: string)
    ensures LatestKey(base, symbols) == "latest:" + (base + ":" + symbols)
  {
  }

  /** Range keys identify their query whenever dates and base contain no ':'. */
  lemma {:induction false} RangeKeyInjective(startDate: string, endDate: string, base: string, symbols: string,
                                             startDate': string, endDate': string, base': string, symbols': string)
    requires ':' !in startDate && ':' !in endDate && ':' !in base
    requires ':' !in startDate' && ':' !in endDate' && ':' !in base'
    requires RangeKey(startDate, endDate, base, symbols) == RangeKey(startDate', endDate', base', symbols')
    ensures startDate == startDate' && endDate == endDate' && base == base' && symbols == symbols'
  {
    var rest2, rest2' := base + ":" + symbols, base' + ":" + symbols';
    var rest1, rest1' := endDate + ":" + rest2, endDate' + ":" + rest2';
    var tail, tail' := startDate + ":" + rest1, startDate' + ":" + rest1';
    RangeKeyShape(startDate, endDate, base, symbols);
    RangeKeyShape(startDate', endDate', base', symbols');
    assert tail == RangeKey(startDate, endDate, base, symbols)[|"range:"|..];
    assert tail' == RangeKey(startDate', endDate', base', symbols')[|"range:"|..];
    SplitAtColon(startDate, rest1, startDate', rest1');
    SplitAtColon(endDate, rest2, endDate', rest2');
    SplitAtColon(base, symbols, base', symbols');
  }

  /** Latest keys identify their query whenever the base contains no ':'. */
  lemma {:induction false} LatestKeyInjective(base: string, symbols: string, base': string, symbols': string)
    requires ':' !in base && ':' !in base'
    requires LatestKey(base, symbols) == LatestKey(base', symbols')
    ensures base == base' && symbols == symbols'
  {
    LatestKeyShape(base, symbols);
    LatestKeyShape(base', symbols');
    assert base + ":" + symbols == LatestKey(base, symbols)[|"latest:"|..];
    assert base' + ":" + symbols' == LatestKey(base', symbols')[|"latest:"|..];
    SplitAtColon(base, symbols, base', symbols');
  }

  /** Without that restriction two different range queries share a key. */
  lemma RangeKeyCollision()
    ensures RangeKey("2025:01", "x", "EUR", "USD") == RangeKey("2025", "01:x", "EUR", "USD")
  {
  }

  /** A repeated query within the TTL of a successful fetch is served from the
      cache, returns the same payload and leaves the store as it was. */
  lemma RepeatWithinTtlServedFromCache(entries: map<string, CacheEntry>, ttl: int, key: string,
                                        t1: int, data: Payload, snapshot: Option<Payload>,
                                        t2: int, upstream2: Upstream, snapshot2: Option<Payload>)
    requires Truthy(data) && t2 - t1 < ttl
    requires Resolve(entries, ttl, key, t1, Ok(data), snapshot).outcome == Served(data, FromUpstream)
    ensures var s1 := Resolve(entries, ttl, key, t1, Ok(data), snapshot);
            Resolve(s1.entries, ttl, key, t2, upstream2, snapshot2) == Step(Served(data, FromCache), s1.entries)
  {
  }

  /** Once the TTL has elapsed the entry is not served: the query goes upstream again. */
  lemma ExpiredEntryRefetched(entries: map<string, CacheEntry>, ttl: int, key: string, now: int,
                              upstream: Upstream, snapshot: Option<Payload>)
    requires key in entries && now - entries[key].timestamp >= ttl
    ensures var s := Resolve(entries, ttl, key, now, upstream, snapshot);
            !(s.outcome.Served? && s.outcome.origin == FromCache) &&
            (upstream.Fail? ==> key !in s.entries)
  {
  }

  /** A fresh entry holding an empty object is not served: the query goes upstream. */
  lemma EmptyEntryRefetched(entries: map<string, CacheEntry>, ttl: int, key: string, now: int,
                            upstream: Upstream, snapshot: Option<Payload>)
    requires key in entries && entries[key].value == EmptyPayload
    ensures var s := Resolve(entries, ttl, key, now, upstream, snapshot);
            !(s.outcome.Served? && s.outcome.origin == FromCache)
  {
  }

  /** A client's queries only ever touch their own entries: a range query
      leaves every latest entry as it was, and the other way round. */
  lemma {:induction false} QueriesIsolated(entries: map<string, CacheEntry>, ttl: int, now: int,
                                           startDate: string, endDate: string, base: string, symbols: string,
                                           base': string, symbols': string,
                                           upstream: Upstream, snapshot: Option<Payload>)
    ensures var latest := LatestKey(base', symbols');
            var s := Resolve(entries, ttl, RangeKey(startDate, endDate, base, symbols), now, upstream, snapshot);
            (latest in s.entries <==> latest in entries) &&
            (latest in entries ==> s.entries[latest] == entries[latest])
    ensures var range := RangeKey(startDate, endDate, base, symbols);
            var s := Resolve(entries, ttl, LatestKey(base', symbols'), now, upstream, snapshot);
            (range in s.entries <==> range in entries) &&
            (range in entries ==> s.entries[range] == entries[range])
  {
    RangeAndLatestKeysDiffer(startDate, endDate, base, symbols, base', symbols');
  }
}
