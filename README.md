# Weatherly core, modelled in Dafny

Weatherly is a weather lookup application: an Express server that checks
coordinate and city queries and relays them to OpenWeather and GeoDB, and a
React client that searches cities and shows current conditions and a five-day
forecast. This project models the logic of four files and proves what they
promise:

- `server/index.js`: the coordinate and `units` checks of `/api/weather` and
  `/api/forecast`, the query and `minPopulation` handling of `/api/cities`, the
  CORS delegate and the `/api` origin guard, the one-minute response cache
  (a class whose lookup takes the current time and whose insert updates its
  map), and `handleError`'s precedence chains. The cache never evicts: an
  expired entry stays in the map until the same key is stored again.
- `src/components/forecast/Forecast.js`: the grouping of 3-hourly entries by
  date (a loop filling a map), the sort / min / max / midday pick / first-five
  pipeline, the input guard, and the one-open-card toggle.
- `src/hooks/useFetchWeather.js`: the `error` / `loading` state of
  `fetchWeather`, the joining of its two requests, and the choice among the
  five failure messages.
- `src/components/search/Search.js`: `loadOptions` (blank input, response
  shape, city-to-option mapping) and `handleOnChange`.

JavaScript values appear as `JsValues.Json` (parsed JSON, with JavaScript
truthiness, property reads and `String(...)`) and `JsValues.JsNumber` (what
`Number(...)` yields, NaN and the infinities included). `undefined` is
`Option.None`. Clock readings and upstream answers are parameters.

Modules: `Wrappers`, `JsValues`, `Strings` (trim, includes, string order),
`ServerErrors`, `ServerPolicy`, `ServerRequests`, `ServerCache`, `Forecast`,
`WeatherHook`, `ApiClient`, `CitySearch`.

## Model

| member | source | states |
|---|---|---|
| `ServerRequests.CoordsRejected` | server/index.js:136-145 | a coordinate request is rejected with `INVALID_COORDS` exactly when lat or lon is not finite, or lat is outside [-90, 90], or lon is outside [-180, 180]; both ends of each range are accepted |
| `ServerRequests.UnitsSafe` | server/index.js:134 | the units are always "metric" or "imperial"; they are "imperial" exactly when "imperial" was asked for, so anything else becomes "metric" |
| `ServerRequests.LangOf` | server/index.js:148 | the language is one or two characters long: the first two characters of the first accepted language, or "en" when there is none or it is empty |
| `ServerRequests.MinPopulation` | server/index.js:224-226 | the user's `minPop` is used when it is finite and not negative, otherwise the default; with no `MIN_CITY_POP` setting the result is always a finite non-negative number |
| `ServerRequests.DefaultMinPop` | server/index.js:224 | the default minimum population is the converted `MIN_CITY_POP` setting, or 200000 when it is unset or empty |
| `ServerRequests.PlanCities` | server/index.js:222-233 | a missing or empty query gets 400 `MISSING_QUERY`, whatever its length; a non-empty query under two characters once trimmed gets 400 `QUERY_TOO_SHORT`; a provider call is planned exactly when the trimmed query has at least two characters, with the untrimmed query, the effective minimum population and limit 10 |
| `ServerRequests.FinishCities` | server/index.js:235-256 | the provider's `data` array is relayed with 200 exactly when the answer has one; otherwise 500 `BAD_UPSTREAM`; a failed call goes through `handleError` with "Failed to fetch city data" |
| `ServerPolicy.CorsOptionsFor` | server/index.js:54-74 | with no Origin header any origin is allowed; with one, it is reflected exactly when it is on the allow-list and refused otherwise; methods GET/OPTIONS/HEAD, max age 86400 and preflight status 204 in every case, `credentials: false` only when an origin was given |
| `ServerPolicy.ApiGuard` | server/index.js:86-92 | the guard answers 403 `CORS_FORBIDDEN` exactly when an origin is present and not on the allow-list; a request with no origin passes |
| `ServerPolicy.GuardAgreesWithDelegate` | server/index.js:54-92 | the guard refuses exactly the requests for which the delegate sets `origin: false` |
| `ServerErrors.HandleError` | server/index.js:121-128 | status: the upstream status, else 500 (never 0); code: the error's own code, else the provider's `cod`, else "SERVER_ERROR", always truthy; message: the provider's message, else the fallback; a falsy value never wins |
| `ServerCache.Lookup` | server/index.js:151-152 | a lookup yields the stored data exactly when the key is present and its expiry is strictly later than `now` |
| `ServerCache.Store` | server/index.js:168 | a store sets the key to the data with expiry `now + 60000`, overwriting any earlier entry, adds no other key and changes no other entry |
| `ServerCache.ServedUntilExpiry` | server/index.js:151-155 | data stored at time t is served at `now` exactly when `now < t + 60000` (strict), whatever the key held before |
| `ServerCache.StoreKeepsOtherKeys` | server/index.js:168 | storing under one key changes what no other key serves |
| `ServerCache.ResponseCache.constructor` | server/index.js:119 | the cache starts empty |
| `ServerCache.ResponseCache.Get` | server/index.js:151-152 | `cache.get` with the freshness test: the answer is the `Lookup` of the current map at `now` |
| `ServerCache.ResponseCache.Put` | server/index.js:168 | `cache.set` in place: the new map is the `Store` of the old one, so the key expires at `now + 60000` and no other key changes |
| `ServerCache.ServeCoords` | server/index.js:130-220 | rejected coordinates get 400 and leave the cache alone; a fresh entry under `kind:lat:lon:units:lang` is relayed with `max-age=60` and the provider's answer is not used; otherwise a provider answer is relayed and stored with the expiry taken from the clock read after the call, and a failure goes through `handleError` with the route's fallback message, leaving the cache alone |
| `Forecast.GroupByDate` | src/components/forecast/Forecast.js:17-21 | the loop gives each date key of the list exactly one non-empty group, holding exactly the entries with that key in their original order; each key is recorded once |
| `Forecast.WithKeyMembers` | src/components/forecast/Forecast.js:17-21 | an entry is in the group of key k exactly when it is in the list and its date key is k, so the groups partition the list |
| `Forecast.WithKeySnoc` | src/components/forecast/Forecast.js:19 | appending an entry extends the group of its own key and no other |
| `Forecast.SortKeys` | src/components/forecast/Forecast.js:23-24 | the sorted keys are strictly ascending and are a permutation of the distinct keys |
| `Forecast.Insert` | src/components/forecast/Forecast.js:24 | inserting a new key into ascending keys keeps them ascending and adds just that key |
| `Forecast.DistinctCount` | src/components/forecast/Forecast.js:23-24 | an ascending list holding exactly the keys of a set has one element per key |
| `Forecast.MinTemp` | src/components/forecast/Forecast.js:26 | a day's minimum is at most every `temp_min` of its group and equal to one of them |
| `Forecast.MaxTemp` | src/components/forecast/Forecast.js:27 | a day's maximum is at least every `temp_max` of its group and equal to one of them |
| `Forecast.FindNoon` | src/components/forecast/Forecast.js:29 | the index found is the first entry whose `dt_txt` contains "12:00:00", or there is none |
| `Forecast.Representative` | src/components/forecast/Forecast.js:28-30 | the representative entry belongs to the group; it is the first midday entry when there is one, otherwise the entry at index floor(len/2) |
| `Forecast.Summarize` | src/components/forecast/Forecast.js:25-31 | a day's summary carries its date, the group's representative entry, and a minimum and maximum that bound every entry of the group and are attained by one of them |
| `Forecast.Summaries` | src/components/forecast/Forecast.js:25-32 | one summary per sorted date, in order, each made from that date's group |
| `Forecast.TakeFive` | src/components/forecast/Forecast.js:33 | the result is the first min(5, n) days |
| `Forecast.FirstFiveCount` | src/components/forecast/Forecast.js:23-33 | the output has min(5, number of dates) days with strictly ascending dates |
| `Forecast.FirstFiveSummarize` | src/components/forecast/Forecast.js:25-33 | each output day carries a date of the list, the representative of that date's group (the first midday entry, otherwise the middle one), and the minimum and maximum of that group |
| `Forecast.FirstFiveEarliest` | src/components/forecast/Forecast.js:23-33 | every date of the list is shown, or five days are shown and all of them come before it: the days are the first five dates in ascending order |
| `Forecast.DailyForecasts` | src/components/forecast/Forecast.js:13-33 | missing data, a missing `list` or a non-array `list` gives "unavailable" and nothing else; otherwise the days are at most five, strictly ascending by date, the earliest five dates of the list, each summarizing its own date's entries |
| `Forecast.DayCards.constructor` | src/components/forecast/Forecast.js:7 | no card is open at first |
| `Forecast.DayCards.ToggleDetails` | src/components/forecast/Forecast.js:35-37 | card i is open afterwards exactly when it was closed before, and no other card is open |
| `Strings.Includes` | src/components/forecast/Forecast.js:29 | `includes` holds exactly when the text occurs at some index |
| `Strings.LessTransitive` | src/components/forecast/Forecast.js:24 | the string order used by the sort comparator is transitive |
| `Strings.LessTotal` | src/components/forecast/Forecast.js:24 | two different date keys are ordered one way or the other, so the comparator answers 0 only for equal keys |
| `Strings.LessIrreflexive` | src/components/forecast/Forecast.js:24 | no date key is before itself |
| `Strings.Trim` | server/index.js:231 | `trim()` removes exactly the leading and trailing whitespace: the result is a contiguous part of the text, bordered only by whitespace, that neither starts nor ends with whitespace |
| `Strings.TrimEmptyIffAllWhitespace` | src/components/search/Search.js:10 | a text trims to "" exactly when all of its characters are whitespace |
| `WeatherHook.ErrorMessage` | src/hooks/useFetchWeather.js:23-34 | with a response: 404 gives "City not found…", 429 "API request limit exceeded…", any other status "Error fetching data…"; without one, a request gives "Network issue…", nothing gives "Something went wrong…"; each message comes from exactly its own kind of failure |
| `WeatherHook.JoinBoth` | src/hooks/useFetchWeather.js:13-16 | both answers come back exactly when both requests succeed; otherwise the error is that of a failed request, the only one when just one fails |
| `WeatherHook.WeatherFetcher.constructor` | src/hooks/useFetchWeather.js:6-7 | no error and not loading at first |
| `WeatherHook.WeatherFetcher.Begin` | src/hooks/useFetchWeather.js:10-11 | the error is cleared and `loading` set before the requests are awaited |
| `WeatherHook.WeatherFetcher.Settle` | src/hooks/useFetchWeather.js:18-40 | `loading` is cleared on both paths; success returns both answers; failure stores and returns the same message |
| `WeatherHook.WeatherFetcher.FetchWeather` | src/hooks/useFetchWeather.js:9-42 | `loading` ends false; the result carries both answers exactly when both requests succeed, and then no error is stored; on failure the stored error equals the returned message, the message of one of the failed requests |
| `ApiClient.FetchData` | src/api/apiClient.js:1-14 | `fetchData` as written: it succeeds exactly on a 2xx answer with a JSON body, and every failure is thrown with neither `response` nor `request` |
| `ApiClient.NotFoundIsReportedGenerically` | src/api/apiClient.js:5-7 | as written, a 404 answer is thrown without a `response`, and the user sees "Something went wrong…" |
| `ApiClient.EveryFailureIsGeneric` | src/api/apiClient.js:1-14 | as written, every failure of a request reaches the user as the generic message |
| `ApiClient.FetchDataCorrected` | src/api/apiClient.js:1-14 | the corrected helper succeeds exactly when the original does, with the same value |
| `ApiClient.LoadWeather` | src/hooks/useFetchWeather.js:9-42 | the hook run over the corrected helper: both response bodies, with no error stored, exactly when both requests succeed; on failure the stored error equals the returned message, which is the message of a failed request; a 404 or an unreachable network on the current-weather request (with the forecast fine) gives its own message |
| `ApiClient.CorrectedFailuresAreClassified` | src/hooks/useFetchWeather.js:25-34 | with the corrected helper a 404, a 429, another failed status, an unreachable network and an unreadable body each get their own message |
| `CitySearch.IsBlank` | src/components/search/Search.js:10-12 | input is blank exactly when it is missing or made only of whitespace |
| `CitySearch.TextOr` | src/components/search/Search.js:22-23 | `${v || fallback}`: the value's text when it is truthy, the fallback otherwise |
| `CitySearch.CityToOption` | src/components/search/Search.js:21-24 | value is "<lat> <lon>" with a falsy coordinate replaced by 0; label is "<name>, <countryCode>" with a falsy name replaced by "Unknown" and a falsy country code by ""; a `null` city throws |
| `CitySearch.MapCities` | src/components/search/Search.js:21-24 | the options have the length and order of the cities, one per city, unless a city is `null` |
| `CitySearch.OptionsFor` | src/components/search/Search.js:9-31 | blank input gives no options and no failure whatever the lookup would answer (no lookup is made); a thrown lookup or a `data` that is not an array gives no options and a failure; a valid answer gives one option per city in order |
| `CitySearch.OptionValueSplits` | src/components/search/Search.js:22 | the value built for a city, "<lat> <lon>", splits at its first space back into the latitude and longitude texts when the latitude text has no space, so the two coordinates can be recovered from a selection |
| `CitySearch.SearchBox.constructor` | src/components/search/Search.js:6-7 | no selection and no error at first |
| `CitySearch.SearchBox.LoadOptions` | src/components/search/Search.js:9-31 | resolves with the options of `OptionsFor`; the failure message is stored exactly when it failed, and the selection is untouched |
| `CitySearch.SearchBox.HandleOnChange` | src/components/search/Search.js:33-37 | the selection is stored, the error cleared, and the same selection forwarded |

## Findings

| source | as written | input that shows it | evidently intended | confidence | as-written member | corrected member |
|---|---|---|---|---|---|---|
| src/api/apiClient.js:5-7 | `fetchData` throws a plain `Error` for a non-2xx status, and an unreachable network rejects with a `TypeError`; neither has `response` or `request`, so the 404, 429, other-status and network branches of the hook's message choice (src/hooks/useFetchWeather.js:25-34) are never taken | `/api/weather` answers 404: the user sees "Something went wrong. Please try again." | a 404 shows "City not found…", a 429 the rate-limit message, other statuses "Error fetching data…", a network failure "Network issue…" | not executed; high | `ApiClient.NotFoundIsReportedGenerically` | `ApiClient.CorrectedFailuresAreClassified` |

## Left out

- Conversion of query strings and of the `MIN_CITY_POP` setting by `Number(...)`: the routes take the converted number, so that `lat=` (empty) converts to 0 and is accepted is not shown by the model. `DefaultMinPop` takes the setting already converted, with `None` standing for a setting that is unset or empty: `"" || 200000` falls back to 200000, whereas `Number("")` alone would give 0.
- Query parameters given more than once (arrays in `req.query`): `units` and `query` are taken as a single string or absent.
- Express wiring and middleware (helmet, compression, the `cors` package's own handling such as answering preflight requests before the `/api` guard runs, the rate limiters, static files, `app.listen`, dotenv) and all logging: library plumbing.
- The axios and fetch calls, their URLs, parameters, API keys and 10-second timeouts: network I/O, modelled as an answer or an error given as a parameter.
- `requestId` and `ts` in `handleError` replies: random and clock-dependent, dropped.
- `Date.now()`: passed in; the cache handler reads it twice (before and after the provider call), as two parameters.
- `acceptsLanguages()` negotiation: the list of accepted languages is a parameter.
- date-fns `parse`/`format` and the `Date` fallback: the date key is the first ten characters of `dt_txt`; an entry whose `dt_txt` cannot be parsed (where `format` throws) is not modelled.
- Forecast entries missing `main` or `dt_txt` (a `TypeError` in the source): entries are typed records.
- Floating-point temperatures and `Math.round`: temperatures are integers.
- Number formatting: a parsed JSON number carries the text `String(n)` gives for it.
- `Strings.Less`: compares characters by code point; JavaScript compares UTF-16 code units, which differs only between astral characters and U+E000..U+FFFF. Lengths and `slice` likewise count characters, not code units.
- `ServerCache.ServeCoords` and `WeatherHook.WeatherFetcher.FetchWeather`: each runs its request to completion, so their contracts assume nothing else runs during the provider `await` (server/index.js:157, 203) or while `Promise.all` is pending; interleavings, such as an earlier, slower `fetchWeather` setting `error` after a later one succeeded, are not captured by these two members (`ResponseCache.Get`/`Put` and `WeatherFetcher.Begin`/`Settle` are the separate steps such interleavings would be built from).
- `WeatherHook.JoinBoth`: when both requests fail, which failure `Promise.all` reports depends on timing, so it is a parameter.
- JSX rendering, icons, CSS, ARIA attributes, `toast` notifications and the debouncing of `AsyncPaginate`: presentation.
- `src/api/geoApi.js` and `src/api/weatherApi.js` (URL building and a single fetch each), and the presentational files `Header.js`, `ThemeToggle.js`, `SkeletonCard.js`, `Spinner.js`, `CurrentWeather.js`, `App.js`, `config.js`.
- Retries with backoff, device geolocation with fallbacks, and discarding of stale search answers: the code has none of them.
