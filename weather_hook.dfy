/**
 * The `useFetchWeather` hook: its `error` and `loading` state, the joining of
 * the current-weather and forecast requests, and the message chosen for a failure.
 */
module WeatherHook {
  import opened Wrappers
  import opened JsValues

  /** `err.response`, as far as the hook reads it. */
  datatype ErrorResponse = ErrorResponse(status: int)

  /** The shape of a rejection: its `response`, and whether it has a `request`. */
  datatype ThrownError = ThrownError(response: Option<ErrorResponse>, request: bool)

  const NotFound: string := "City not found. Please try another city."
  const RateLimited: string := "API request limit exceeded. Try again later."
  const FetchFailed: string := "Error fetching data. Please try again."
  const NetworkIssue: string := "Network issue. Check your connection."
  const Generic: string := "Something went wrong. Please try again."

  /**
   * The message for a failure. With a response: 404 is "not found", 429 is the
   * rate limit, any other status a failed fetch; without one, a request means a
   * network problem and anything else is generic. Each message is chosen by
   * exactly its own kind of failure.
   */
  function ErrorMessage(err: ThrownError): (m: string)
    ensures m == NotFound <==> err.response.Some? && err.response.value.status == 404
    ensures m == RateLimited <==> err.response.Some? && err.response.value.status == 429
    ensures m == FetchFailed <==> err.response.Some? && err.response.value.status != 404 && err.response.value.status != 429
    ensures m == NetworkIssue <==> err.response.None? && err.request
    ensures m == Generic <==> err.response.None? && !err.request
  {
    if err.response.Some? then
      if err.response.value.status == 404 then NotFound
      else if err.response.value.status == 429 then RateLimited
      else FetchFailed
    else if err.request then NetworkIssue
    else Generic
  }

  /**
   * `Promise.all` of the two requests: both values when both succeed, otherwise
   * the error of the request that failed first (`forecastFailsFirst` says which
   * one did when both fail).
   */
  function JoinBoth(weather: Result<Json, ThrownError>, forecast: Result<Json, ThrownError>, forecastFailsFirst: bool)
    : (r: Result<(Json, Json), ThrownError>)
    ensures r.Ok? <==> weather.Ok? && forecast.Ok?
    ensures r.Ok? ==> r.value == (weather.value, forecast.value)
    ensures r.Err? ==> (weather.Err? && r.error == weather.error) || (forecast.Err? && r.error == forecast.error)
    ensures weather.Err? && forecast.Ok? ==> r == Err(weather.error)
    ensures weather.Ok? && forecast.Err? ==> r == Err(forecast.error)
  {
    match (weather, forecast)
    case (Ok(w), Ok(f)) => Ok((w, f))
    case (Err(e), Ok(_)) => Err(e)
    case (Ok(_), Err(e)) => Err(e)
    case (Err(we), Err(fe)) => if forecastFailsFirst then Err(fe) else Err(we)
  }

  /** What `fetchWeather` resolves to. */
  datatype FetchOutcome = Fetched(currentWeather: Json, forecast: Json) | Failed(error: string)

  /** The hook's state. */
  class WeatherFetcher {
    var error: Option<string>
    var loading: bool

    constructor ()
      ensures error == None && !loading
    {
      error := None;
      loading := false;
    }

    /** The start of `fetchWeather`, before the requests are awaited. */
    method Begin()
      modifies this
      ensures error == None && loading
    {
      error := None;
      loading := true;
    }

    /** The end of `fetchWeather`, once both requests have succeeded or one has failed. */
    method Settle(joined: Result<(Json, Json), ThrownError>) returns (outcome: FetchOutcome)
      modifies this
      ensures !loading
      ensures joined.Ok? ==> outcome == Fetched(joined.value.0, joined.value.1) && error == old(error)
      ensures joined.Err? ==> outcome == Failed(ErrorMessage(joined.error)) && error == Some(outcome.error)
    {
      match joined {
        case Ok((currentWeather, forecast)) =>
          loading := false;
          outcome := Fetched(currentWeather, forecast);
        case Err(err) =>
          loading := false;
          var errorMessage := ErrorMessage(err);
          error := Some(errorMessage);
          outcome := Failed(errorMessage);
      }
    }

    /**
     * `fetchWeather`: clears the error and sets `loading`, awaits both requests,
     * and clears `loading` again on either path. It resolves with both answers
     * only when both requests succeed, and then no error is stored; on failure
     * the stored error is the message it resolves with.
     */
    method FetchWeather(weather: Result<Json, ThrownError>, forecast: Result<Json, ThrownError>, forecastFailsFirst: bool)
      returns (outcome: FetchOutcome)
      modifies this
      ensures !loading
      ensures outcome.Fetched? <==> weather.Ok? && forecast.Ok?
      ensures outcome.Fetched? ==> outcome == Fetched(weather.value, forecast.value) && error == None
      ensures outcome.Failed? ==> error == Some(outcome.error)
      ensures outcome.Failed? ==>
        (weather.Err? && outcome.error == ErrorMessage(weather.error))
        || (forecast.Err? && outcome.error == ErrorMessage(forecast.error))
    {
      Begin();
      var joined := JoinBoth(weather, forecast, forecastFailsFirst);
      outcome := Settle(joined);
    }
  }
}
