/**
 * `fetchData`, the client's one-attempt request helper, reduced to the shape of
 * the error it throws, which is what the hook's message choice reads.
 */
module ApiClient {
  import opened Wrappers
  import opened JsValues
  import opened WeatherHook

  /** What the network delivered: a response with a status and a parsed body (`None` when it is not JSON), or nothing. */
  datatype Transport = Delivered(status: int, body: Option<Json>) | Unreachable

  /** `response.ok`. */
  predicate IsOk(status: int) {
    200 <= status <= 299
  }

  /**
   * `fetchData` as written: every failure is a plain `Error` (a non-2xx status,
   * the `TypeError` of an unreachable network, the `SyntaxError` of a body that
   * is not JSON), and none of them has a `response` or a `request`.
   */
  function FetchData(t: Transport): (r: Result<Json, ThrownError>)
    ensures r.Ok? <==> t.Delivered? && IsOk(t.status) && t.body.Some?
    ensures r.Ok? ==> r.value == t.body.value
    ensures r.Err? ==> r.error == ThrownError(None, false)
  {
    match t
    case Delivered(status, body) =>
      if IsOk(status) && body.Some? then Ok(body.value) else Err(ThrownError(None, false))
    case Unreachable => Err(ThrownError(None, false))
  }

  /** As written, a 404 answer reaches the user as the generic message. */
  lemma NotFoundIsReportedGenerically(body: Option<Json>)
    ensures FetchData(Delivered(404, body)) == Err(ThrownError(None, false))
    ensures ErrorMessage(FetchData(Delivered(404, body)).error) == Generic
  {
  }

  /** As written, every failure reaches the user as the generic message. */
  lemma EveryFailureIsGeneric(t: Transport)
    requires FetchData(t).Err?
    ensures ErrorMessage(FetchData(t).error) == Generic
  {
  }

  /**
   * `fetchData` throwing the error shape the hook's message choice reads: a
   * non-2xx answer carries its `response` (and the `request` that got it), an
   * unreachable network carries only the `request`, and a body that is not
   * JSON carries neither.
   */
  function FetchDataCorrected(t: Transport): (r: Result<Json, ThrownError>)
    ensures r.Ok? <==> FetchData(t).Ok?
    ensures r.Ok? ==> r == FetchData(t)
  {
    match t
    case Delivered(status, body) =>
      if !IsOk(status) then Err(ThrownError(Some(ErrorResponse(status)), true))
      else if body.None? then Err(ThrownError(None, false))
      else Ok(body.value)
    case Unreachable => Err(ThrownError(None, true))
  }

  /** With the corrected helper each kind of failure gets its own message. */
  lemma CorrectedFailuresAreClassified(t: Transport)
    requires FetchDataCorrected(t).Err?
    ensures var m := ErrorMessage(FetchDataCorrected(t).error);
      && (t.Delivered? && t.status == 404 <==> m == NotFound)
      && (t.Delivered? && t.status == 429 <==> m == RateLimited)
      && (t.Delivered? && !IsOk(t.status) && t.status != 404 && t.status != 429 <==> m == FetchFailed)
      && (t.Unreachable? <==> m == NetworkIssue)
      && (t.Delivered? && IsOk(t.status) <==> m == Generic)
  {
  }

  /**
   * `fetchWeather` over the corrected helper: the hook's state and result when
   * the current-weather and forecast requests meet the given network outcomes.
   */
  method LoadWeather(fetcher: WeatherFetcher, weather: Transport, forecast: Transport, forecastFailsFirst: bool)
    returns (outcome: FetchOutcome)
    modifies fetcher
    ensures !fetcher.loading
    ensures outcome.Fetched? <==> FetchData(weather).Ok? && FetchData(forecast).Ok?
    ensures outcome.Fetched? ==> outcome == Fetched(weather.body.value, forecast.body.value) && fetcher.error == None
    ensures outcome.Failed? ==> fetcher.error == Some(outcome.error)
    ensures outcome.Failed? ==>
      || (FetchDataCorrected(weather).Err? && outcome.error == ErrorMessage(FetchDataCorrected(weather).error))
      || (FetchDataCorrected(forecast).Err? && outcome.error == ErrorMessage(FetchDataCorrected(forecast).error))
    ensures weather.Delivered? && weather.status == 404 && FetchData(forecast).Ok? ==> outcome == Failed(NotFound)
    ensures weather == Unreachable && FetchData(forecast).Ok? ==> outcome == Failed(NetworkIssue)
  {
    outcome := fetcher.FetchWeather(FetchDataCorrected(weather), FetchDataCorrected(forecast), forecastFailsFirst);
  }
}
