/**
 * Request validation of the `/api/weather`, `/api/forecast` and `/api/cities`
 * routes, and the way the cities route turns the provider's answer into a reply.
 * Query strings reach these functions already converted by `Number(...)`.
 */
module ServerRequests {
  import opened Wrappers
  import opened JsValues
  import opened Strings
  import opened ServerErrors

  /**
   * The rejection test of the coordinate routes, in JavaScript's terms: not
   * finite, or outside [-90, 90] for the latitude or [-180, 180] for the longitude.
   */
  predicate CoordsRejected(lat: JsNumber, lon: JsNumber): (r: bool)
    ensures r <==> !OnTheGlobe(lat, lon)
  {
    || !IsFinite(lat)
    || !IsFinite(lon)
    || LessThan(lat, -90.0)
    || GreaterThan(lat, 90.0)
    || LessThan(lon, -180.0)
    || GreaterThan(lon, 180.0)
  }

  /** The coordinates a map can show: finite, with both ends of each range included. */
  predicate OnTheGlobe(lat: JsNumber, lon: JsNumber) {
    && lat.Finite? && -90.0 <= lat.value <= 90.0
    && lon.Finite? && -180.0 <= lon.value <= 180.0
  }

  /** The 400 reply for rejected coordinates. */
  function InvalidCoords(): Reply {
    ErrorReply(400, "INVALID_COORDS", "Invalid coordinates")
  }

  /** `unitsSafe`: "imperial" or "metric" when asked for exactly, "metric" otherwise. */
  function UnitsSafe(units: Option<string>): (r: string)
    ensures r == "metric" || r == "imperial"
    ensures r == "imperial" <==> units == Some("imperial")
  {
    if units == Some("imperial") || units == Some("metric") then units.value else "metric"
  }

  /**
   * `lang`: the first two characters of the first accepted language, or "en"
   * when there is no language or it is empty.
   */
  function LangOf(accepted: seq<string>): (r: string)
    ensures 1 <= |r| <= 2
    ensures |accepted| > 0 && accepted[0] != "" ==> r == Prefix(accepted[0], 2)
    ensures |accepted| == 0 || accepted[0] == "" ==> r == "en"
  {
    var first := if |accepted| > 0 then Some(Prefix(accepted[0], 2)) else None;
    if first.Some? && first.value != "" then first.value else "en"
  }

  /** `DEFAULT_MIN_POP`: the converted `MIN_CITY_POP` setting, or 200000 when it is unset or empty. */
  function DefaultMinPop(setting: Option<JsNumber>): (r: JsNumber)
    ensures setting.None? ==> r == Finite(200000.0)
    ensures setting.Some? ==> r == setting.value
  {
    setting.GetOr(Finite(200000.0))
  }

  /**
   * `minPopulation`: the user's `minPop` when it is a finite number that is not
   * negative, the default otherwise.
   */
  function MinPopulation(userMin: JsNumber, setting: Option<JsNumber>): (r: JsNumber)
    ensures userMin.Finite? && userMin.value >= 0.0 ==> r == userMin
    ensures !(userMin.Finite? && userMin.value >= 0.0) ==> r == DefaultMinPop(setting)
    ensures setting.None? ==> r.Finite? && r.value >= 0.0
  {
    if IsFinite(userMin) && AtLeast(userMin, 0.0) then userMin else DefaultMinPop(setting)
  }

  /** The provider call the cities route makes: name prefix, minimum population, limit. */
  datatype CitiesCall = CitiesCall(namePrefix: string, minPopulation: JsNumber, limit: int)

  function MissingQuery(): Reply {
    ErrorReply(400, "MISSING_QUERY", "City query is required")
  }

  function QueryTooShort(): Reply {
    ErrorReply(400, "QUERY_TOO_SHORT", "Query must be at least 2 characters")
  }

  /**
   * The checks of `/api/cities` before any provider call: a missing or empty
   * query, then a query shorter than two characters once trimmed, are answered
   * with a 400 reply; otherwise the untrimmed query is sent with a limit of 10.
   */
  function PlanCities(query: Option<string>, userMin: JsNumber, setting: Option<JsNumber>): (r: Result<CitiesCall, Reply>)
    ensures query.None? || query == Some("") <==> r == Err(MissingQuery())
    ensures query.Some? && query.value != "" && |Trim(query.value)| < 2 <==> r == Err(QueryTooShort())
    ensures r.Ok? <==> query.Some? && |Trim(query.value)| >= 2
    ensures r.Ok? ==> r.value == CitiesCall(query.value, MinPopulation(userMin, setting), 10)
  {
    var minPopulation := MinPopulation(userMin, setting);
    if query.None? || query.value == "" then
      Err(MissingQuery())
    else if |Trim(query.value)| < 2 then
      Err(QueryTooShort())
    else
      Ok(CitiesCall(query.value, minPopulation, 10))
  }

  /**
   * The reply of `/api/cities` once the provider has answered: its `data` array
   * relayed with status 200, a 500 `BAD_UPSTREAM` when the answer has no such
   * array, and `handleError` when the call failed.
   */
  function FinishCities(upstream: Result<Option<Json>, UpstreamError>): (r: Reply)
    ensures upstream.Ok? && IsArray(Get(upstream.value, "data")) ==>
      r == Reply(200, Payload(Get(upstream.value, "data").value), None)
    ensures upstream.Ok? && !IsArray(Get(upstream.value, "data")) ==>
      r == ErrorReply(500, "BAD_UPSTREAM", "Unexpected API response format")
    ensures upstream.Err? ==> r == HandleError(upstream.error, "Failed to fetch city data")
    ensures r.body.Payload? <==> upstream.Ok? && IsArray(Get(upstream.value, "data"))
  {
    match upstream
    case Err(e) => HandleError(e, "Failed to fetch city data")
    case Ok(data) =>
      if !Truthy(data) || !IsArray(Get(data, "data")) then
        ErrorReply(500, "BAD_UPSTREAM", "Unexpected API response format")
      else
        Reply(200, Payload(Get(data, "data").value), None)
  }
}
