/**
 * The server's response cache (a module-level `Map` from request key to data
 * and expiry time) and the two coordinate routes that read and fill it.
 * Times are milliseconds, passed in where the server reads its clock.
 */
module ServerCache {
  import opened Wrappers
  import opened JsValues
  import opened ServerErrors
  import opened ServerRequests

  /** How long a stored answer is served: 60 seconds. */
  const TtlMs: int := 60 * 1000

  /** The `Cache-Control` header sent with relayed weather and forecast data. */
  const PublicOneMinute: string := "public, max-age=60"

  datatype Kind = WeatherKind | ForecastKind

  /**
   * The key `kind:lat:lon:units:lang`. Only `lang` can contain a colon and it
   * comes last, so the text determines its parts and the key is kept as a record.
   */
  datatype CacheKey = CacheKey(kind: Kind, lat: real, lon: real, units: string, lang: string)

  datatype CacheEntry = CacheEntry(data: Json, expires: int)

  /** `cache.get(key)` followed by the freshness test `cached.expires > now`. */
  function Lookup(m: map<CacheKey, CacheEntry>, key: CacheKey, now: int): (r: Option<Json>)
    ensures r.Some? <==> key in m && now < m[key].expires
    ensures r.Some? ==> r.value == m[key].data
  {
    if key in m && m[key].expires > now then Some(m[key].data) else None
  }

  /** `cache.set(key, { data, expires: now + 60000 })`. */
  function Store(m: map<CacheKey, CacheEntry>, key: CacheKey, data: Json, now: int): (r: map<CacheKey, CacheEntry>)
    ensures r.Keys == m.Keys + {key}
    ensures r[key] == CacheEntry(data, now + TtlMs)
    ensures forall k :: k in m && k != key ==> r[k] == m[k]
  {
    m[key := CacheEntry(data, now + TtlMs)]
  }

  /** Data stored at time `t` is served at `now` exactly when `now < t + 60000`, whatever was there before. */
  lemma ServedUntilExpiry(m: map<CacheKey, CacheEntry>, key: CacheKey, data: Json, t: int, now: int)
    ensures Lookup(Store(m, key, data, t), key, now) == if now < t + TtlMs then Some(data) else None
  {
  }

  /** Storing under one key changes what no other key serves. */
  lemma StoreKeepsOtherKeys(m: map<CacheKey, CacheEntry>, key: CacheKey, other: CacheKey, data: Json, t: int, now: int)
    requires other != key
    ensures Lookup(Store(m, key, data, t), other, now) == Lookup(m, other, now)
  {
  }

  /** The cache. Expired entries stay in the map; they are only overwritten. */
  class ResponseCache {
    var entries: map<CacheKey, CacheEntry>

    constructor ()
      ensures entries == map[]
    {
      entries := map[];
    }

    /** The data under `key` if it is still fresh at `now`. */
    method Get(key: CacheKey, now: int) returns (hit: Option<Json>)
      ensures hit == Lookup(entries, key, now)
    {
      var cached := if key in entries then Some(entries[key]) else None;
      if cached.Some? && cached.value.expires > now {
        hit := Some(cached.value.data);
      } else {
        hit := None;
      }
    }

    /** Stores `data` under `key` for 60 seconds from `now`, replacing any earlier entry. */
    method Put(key: CacheKey, data: Json, now: int)
      modifies this
      ensures entries == Store(old(entries), key, data, now)
    {
      entries := entries[key := CacheEntry(data, now + TtlMs)];
    }
  }

  /** The message `handleError` falls back on for each route. */
  function Fallback(kind: Kind): string {
    match kind
    case WeatherKind => "Failed to fetch weather data"
    case ForecastKind => "Failed to fetch forecast data"
  }

  /**
   * `/api/weather` and `/api/forecast`. Rejected coordinates get a 400 before
   * anything else; a fresh cached answer is relayed without calling the
   * provider; otherwise the provider's answer is stored and relayed, or its
   * failure goes through `handleError`. The clock is read at `now` for the
   * lookup and at `later`, after the provider has answered, for the expiry.
   */
  method ServeCoords(cache: ResponseCache, kind: Kind, lat: JsNumber, lon: JsNumber,
                     units: Option<string>, accepted: seq<string>, now: int,
                     upstream: Result<Json, UpstreamError>, later: int) returns (reply: Reply)
    modifies cache
    ensures CoordsRejected(lat, lon) ==>
      reply == InvalidCoords() && cache.entries == old(cache.entries)
    ensures !CoordsRejected(lat, lon) ==>
      var key := CacheKey(kind, lat.value, lon.value, UnitsSafe(units), LangOf(accepted));
      var cached := Lookup(old(cache.entries), key, now);
      && (cached.Some? ==>
            reply == Reply(200, Payload(cached.value), Some(PublicOneMinute))
            && cache.entries == old(cache.entries))
      && (cached.None? && upstream.Ok? ==>
            reply == Reply(200, Payload(upstream.value), Some(PublicOneMinute))
            && cache.entries == Store(old(cache.entries), key, upstream.value, later))
      && (cached.None? && upstream.Err? ==>
            reply == HandleError(upstream.error, Fallback(kind))
            && cache.entries == old(cache.entries))
  {
    var unitsSafe := UnitsSafe(units);
    if CoordsRejected(lat, lon) {
      return InvalidCoords();
    }
    var lang := LangOf(accepted);
    var key := CacheKey(kind, lat.value, lon.value, unitsSafe, lang);
    var cached := cache.Get(key, now);
    if cached.Some? {
      return Reply(200, Payload(cached.value), Some(PublicOneMinute));
    }
    match upstream {
      case Ok(data) =>
        cache.Put(key, data, later);
        reply := Reply(200, Payload(data), Some(PublicOneMinute));
      case Err(e) =>
        reply := HandleError(e, Fallback(kind));
    }
  }
}
