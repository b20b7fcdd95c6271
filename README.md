# Weather query service: a Dafny model

This project models the request handlers of a small weather API
(`weather/views.py`). The API proxies an external weather provider and
caches the reshaped answers. It has three endpoints:

- **current weather** (`CurrentWeatherView.get`);
- **five-day forecast** (`ForecastWeatherView.get`);
- **health check** (`HealthCheckView.get`).

Both weather views follow the same cache-aside flow:

1. Strip the `city` query parameter, and reject a blank one with 400.
2. Build the cache key: the mode prefix (`weather_current_` or
   `weather_forecast_`) followed by the lower-cased city.
3. On a cache hit, return the stored payload with 200.
4. On a miss, ask the provider and map its outcome to a status and message.
   The outcomes are a 200 answer, a 404, another status, a timeout, another
   request error, or any other exception.
5. Store the normalised payload for 1800 seconds, and only on success.

Modules:

- `Text` (`text.dfy`): Python's `str.strip()`, `str.lower()` and
  `str.title()`, with lemmas about how they interact.
- `Rounding` (`rounding.dfy`): Python's `round(x)` and `round(x, 1)`, which
  round half to even.
- `Upstream` (`upstream.dfy`): the request a view sends, and the provider's
  outcome. A 200 body is either `Parsed` (every field the view reads is
  present) or `Malformed` (some read raises). Each forecast `list` element is
  either `Item` or `BadItem`.
- `Payloads` (`payloads.dfy`): the normalised current and forecast payloads
  and how they are built. It includes the forecast append loop
  (`FormatForecasts`), proved equal to the reference definition `FormatList`:
  one entry per upstream element, in order.
- `WeatherCache` (`weather_cache.dfy`): the shared cache, a class whose
  `entries: map<string, Entry>` field `Get` reads and `Set` updates. Each
  entry records the timeout it was stored with.
- `Views` (`views.dfy`): the handlers.
  - `CurrentStep` and `ForecastStep` are pure functions. Each says what one
    request answers, what the cache holds afterwards, and which upstream
    request was sent, if any.
  - `CurrentWeatherView.Get` and `ForecastWeatherView.Get` are the imperative
    handlers over a `Cache` object. Each is proved to do exactly what its
    step function says.
  - A success response's `Data` payload stands for the JSON object with
    `success: true`. `Failure(message)` stands for
    `{success: false, message}`.

The provider is a parameter of each handler: a function from the request to
its outcome. The handler's `sent` result records whether the provider was
consulted, and with what.

The two views' error mapping differs in two places:

- An unexpected upstream status answers 500 with "Failed to fetch weather
  data" in the current view and "Failed to fetch forecast data" in the
  forecast view.
- The current view has its own handler for request exceptions other than
  timeouts, which answers 503 "Network error. Please check your
  connection.". The forecast view has no such handler. The same failure
  falls to its generic handler and becomes 500 "An unexpected error
  occurred".

One might expect both views to answer 503 to a network failure; they do
not. `Views.NetworkFailureDiverges` states that difference.

## Model

| member | source | states |
|---|---|---|
| `Text.TrimStart` | weather/views.py:19 | the result is a suffix of the input, everything dropped is whitespace, and it does not start with whitespace |
| `Text.TrimEnd` | weather/views.py:19 | the result is a prefix of the input, everything dropped is whitespace, and it does not end with whitespace |
| `Text.Strip` | weather/views.py:19 | `strip()` is the infix of the input left after removing a blank prefix and a blank suffix. It is empty exactly when the input is empty or all whitespace; otherwise it starts and ends with a non-space character |
| `Text.StripIgnoresPadding` | weather/views.py:19 | whitespace added around a parameter does not change the stripped city |
| `Text.StripIdempotent` | weather/views.py:19 | stripping the stripped city changes nothing |
| `Text.Lower` | weather/views.py:28 | `lower()` keeps the length and lower-cases each character on its own |
| `Text.StripLower` | weather/views.py:28 | lower-casing the stripped city equals stripping the lower-cased parameter |
| `Text.LowerEqIff` | weather/views.py:28 | two cities lower-case to the same string if and only if they differ only in letter case |
| `Text.Title` | weather/views.py:65 | `title()` keeps the length, upper-cases a letter that starts a word and lower-cases every other letter |
| `Text.TitleIdempotent` | weather/views.py:169 | title-casing a title-cased description changes nothing |
| `Rounding.RoundHalfEven` | weather/views.py:59-62 | `round(x)` is the nearest integer to x, and at an exact tie the even one |
| `Rounding.NearestEvenUnique` | weather/views.py:163-166 | only one integer meets that contract, so the rounded temperatures are determined |
| `Rounding.RoundToTenths` | weather/views.py:68 | `round(x, 1)` is within 0.05 of x, has one decimal, and its tenths are the nearest-even rounding of 10·x |
| `Rounding.TiesToEven` | weather/views.py:163 | ties go to the even neighbour (0.5 → 0, 1.5 → 2, 2.5 → 2); 15.6 → 16 and 3.47 → 3.5 to one decimal |
| `Payloads.FormatCurrent` | weather/views.py:51-76 | city, country, coordinates, humidity, pressure, main, icon, clouds, sunrise, sunset, timezone and timestamp are passed through. The four temperatures are nearest-even integers. The wind speed has one decimal, its tenths are the nearest-even rounding of 10× the upstream speed, and it is within 0.05 of it. An absent `wind.deg` or `visibility` becomes 0 and a present one is kept. The description is `Title` of the upstream description |
| `Payloads.FormatEntry` | weather/views.py:160-175 | one entry is built from one upstream item. Timestamps, humidity, pressure, main, icon and clouds are passed through. Temperatures are nearest-even integers. Wind speed is rounded to one decimal, half to even. The description is `Title` of the upstream description. An absent `pop` counts as 0 and a present one is scaled by 100 |
| `Payloads.FormatForecasts` | weather/views.py:158-175 | the append loop produces a list exactly when every item is well-formed. The list has the upstream list's length and order, and entry i is built from item i alone |
| `Payloads.FormatForecast` | weather/views.py:177-186 | the forecast payload carries the upstream city name, country and coordinates and one entry per upstream item, in order |
| `WeatherCache.Cache.Get` | weather/views.py:29 | `cache.get` yields a payload exactly when the key is present, and then the stored one |
| `WeatherCache.Cache.Set` | weather/views.py:79 | `cache.set` replaces the entry for its key, recording the timeout, and changes no other key |
| `Views.NotFoundMessage` | weather/views.py:85-88 | the 404 message contains the city as the user wrote it (trimmed) |
| `Views.CityOf` | weather/views.py:19-25 | the city is empty, and the request is rejected, exactly when the parameter is absent, empty or all whitespace |
| `Views.CacheKey` | weather/views.py:28 | the key starts with the mode prefix, followed by one character per city character |
| `Views.CacheKeyIgnoresCase` | weather/views.py:135 | two cities get the same key in one mode if and only if they differ only in letter case |
| `Views.PaddedVariantsShareKey` | weather/views.py:19-28 | parameters that differ only in surrounding whitespace and letter case share one cache entry |
| `Views.ModesDisjoint` | weather/views.py:28 | no key carries both the `weather_current_` and the `weather_forecast_` prefix, so the two modes never share an entry |
| `Views.CurrentFetch` | weather/views.py:47-116 | a payload is stored exactly on a 200 answer with a well-formed body. A 404 is 404 with a message naming the city. Another status is 500 "Failed to fetch weather data". A malformed 200 body is 500 "An unexpected error occurred". A timeout is 408. Another request error is 503. Any other exception is 500. Every failure is `{success: false}` with an error status |
| `Views.ForecastFetch` | weather/views.py:154-217 | the same mapping, with "Failed to fetch forecast data" for other statuses. A malformed body or item is 500. Both network errors and other exceptions are 500 "An unexpected error occurred" |
| `Views.CacheAside` | weather/views.py:19-82 | a blank city is 400 "City parameter is required", with no cache access and no upstream call. A hit returns the stored payload with 200, sends nothing and leaves the cache unchanged. A miss sends the request and returns its mapped response. Only a 200 changes the cache, and then by storing exactly that payload under the key with timeout 1800 |
| `Views.CurrentStep` | weather/views.py:18-116 | for the current view: a blank city is 400. A hit answers 200 with the stored payload, sends nothing and leaves the cache unchanged. A miss sends `/weather` with `q` = the trimmed city and `units=metric`, and answers `CurrentFetch` of the provider's outcome. After any 200 the key maps to the returned payload. Any other answer leaves the cache unchanged |
| `Views.ForecastStep` | weather/views.py:125-217 | for the forecast view, the same: a hit answers the stored payload, and a miss sends `/forecast` with `cnt=40` and answers `ForecastFetch` of the provider's outcome |
| `Views.StoreKeepsConsistent` | weather/views.py:189 | storing a payload of the kind the key's prefix names keeps every entry well-kinded, with timeout 1800 |
| `Views.CurrentKeepsCacheConsistent` | weather/views.py:28-33 | the current view keeps the cache consistent, so each of its 200 answers, hit or miss, is a current-weather payload |
| `Views.ForecastKeepsCacheConsistent` | weather/views.py:135-140 | the forecast view keeps the cache consistent, so each of its 200 answers is a forecast payload |
| `Views.RepeatedCurrentIsHit` | weather/views.py:29-33 | after a 200, asking again for the same city in any letter case is a hit: the same response, no upstream call, and the cache unchanged |
| `Views.RepeatedForecastIsHit` | weather/views.py:136-140 | the same for the forecast view |
| `Views.NetworkFailureDiverges` | weather/views.py:104-109 | on a miss, a non-timeout request error is 503 in the current view but 500 in the forecast view (one of the two differences in the views' error mapping) |
| `Views.HealthCheck` | weather/views.py:226-231 | the health check always answers 200 with "Weather API is running" and version "1.0.0" |
| `Views.CurrentWeatherView.Get` | weather/views.py:18-116 | the imperative handler's response, the request it sent and the cache afterwards are exactly those of `CurrentStep` on the cache before |
| `Views.ForecastWeatherView.Get` | weather/views.py:125-217 | the imperative handler, including its append loop, answers, sends and updates the cache exactly as `ForecastStep` says |

## Left out

- The HTTP call is not modelled: `requests.get`, the configured base URL, the API key (`appid`) and the 10-second timeout. The provider is a function parameter from request to outcome.
- The cache backend is not modelled. Entries never expire in the model; each records the 1800-second timeout it was stored with. Failures inside `cache.get`/`cache.set` and key-validity warnings are not modelled.
- A cache hit is decided by `if cached_data:`. The model treats it as presence of the key, because the views only ever store non-empty payloads.
- Text.Lower: case mapping is modelled for ASCII letters only. Every other character is left as it is. Python's full Unicode lower-casing, including multi-character expansions, is a library behaviour not modelled here.
- Text.Title: same restriction. Only ASCII letters are cased; any other character counts as a word boundary and is unchanged.
- Rounding.RoundToTenths: numbers are the exact real values of the decoded JSON numbers. For `round(x)` this matches Python, which rounds the exact binary value half to even. For `round(x, 1)` and for `pop * 100`, the final conversion back to a double and its representation error are not modelled.
- The JSON bodies are typed records. Any body from which a read raises (`KeyError`, `IndexError`, `TypeError`) is one `Malformed` value, or a `BadItem` for one forecast element. Fields passed through unchanged (humidity, pressure, clouds, timestamps) are typed as integers.
- A 200 body that is not JSON at all is not modelled. Whether `response.json()` then raises a `requests` exception (503 in the current view) or a plain `ValueError` (500) depends on the installed `requests` version.
- Repeated `city` parameters are not modelled (Django's `QueryDict.get` returns the last one). The parameter is an optional string.
- Logging, the DRF `Response`/`APIView` plumbing, and the routing files (`weather/urls.py`, `weather_backend/urls.py`, with the index and admin pages) are not modelled.
- Concurrency is not modelled. Two simultaneous misses for the same key may both call the provider; the model handles one request at a time.
