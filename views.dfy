/**
 * The three request handlers of the weather API. Each weather view trims the
 * `city` parameter, derives a namespaced lower-case cache key, answers from the
 * cache on a hit, and otherwise asks the provider, maps its outcome to a
 * status and message, and caches the payload only on success.
 *
 * `CurrentStep` and `ForecastStep` state what one request does to the cache
 * and what it answers; the view classes are proved to behave exactly so.
 */
module Views {
  import opened Wrappers
  import opened Text
  import opened Upstream
  import opened Payloads
  import opened WeatherCache

  const CurrentPrefix: string := "weather_current_"
  const ForecastPrefix: string := "weather_forecast_"
  /** Seconds each successful payload is cached for. */
  const CacheTimeout: int := 1800
  /** Forecast intervals requested: five days of three-hour steps. */
  const ForecastCount: int := 40

  const CityRequired: string := "City parameter is required"
  const TimeoutMessage: string := "Request timeout. Please try again."
  const NetworkMessage: string := "Network error. Please check your connection."
  const UnexpectedMessage: string := "An unexpected error occurred"
  const CurrentFailedMessage: string := "Failed to fetch weather data"
  const ForecastFailedMessage: string := "Failed to fetch forecast data"

  /** A response body: `{success: false, message}`, a payload, or the health report. */
  datatype Body = Failure(message: string) | Data(payload: Payload) | Health(message: string, version: string)

  datatype Response = Response(status: int, body: Body)

  predicate HasPrefix(s: string, prefix: string) {
    |prefix| <= |s| && s[..|prefix|] == prefix
  }

  predicate OccursAt(message: string, city: string, i: nat) {
    i + |city| <= |message| && message[i..i + |city|] == city
  }

  ghost predicate Mentions(message: string, city: string) {
    exists i: nat :: OccursAt(message, city, i)
  }

  function NotFoundMessage(city: string): (m: string)
    ensures Mentions(m, city)
  {
    var m := "City \"" + city + "\" not found";
    assert OccursAt(m, city, 6);
    m
  }

  /** The city a request names: its `city` parameter, "" when absent, stripped. */
  function CityOf(param: Option<string>): (city: string)
    ensures city == [] <==> param.None? || Blank(param.value)
  {
    Strip(param.GetOr(""))
  }

  function CacheKey(prefix: string, city: string): (key: string)
    ensures HasPrefix(key, prefix) && |key| == |prefix| + |city|
  {
    prefix + Lower(city)
  }

  /** Two cities share a cache entry exactly when they differ only in letter case. */
  lemma CacheKeyIgnoresCase(prefix: string, a: string, b: string)
    ensures CacheKey(prefix, a) == CacheKey(prefix, b) <==> SameIgnoringCase(a, b)
  {
    LowerEqIff(a, b);
    if CacheKey(prefix, a) == CacheKey(prefix, b) {
      assert Lower(a) == CacheKey(prefix, a)[|prefix|..];
    }
  }

  /** Parameters that differ only in surrounding whitespace and letter case share a cache entry. */
  lemma PaddedVariantsShareKey(prefix: string, pre: string, a: string, post: string, b: string)
    requires Blank(pre) && Blank(post) && SameIgnoringCase(a, b)
    ensures CacheKey(prefix, CityOf(Some(pre + a + post))) == CacheKey(prefix, CityOf(Some(b)))
  {
    StripIgnoresPadding(pre, a, post);
    LowerEqIff(a, b);
    StripLower(a);
    StripLower(b);
  }

  /** Keys of the two views never collide, whatever the cities. */
  lemma ModesDisjoint(key: string)
    ensures !(HasPrefix(key, CurrentPrefix) && HasPrefix(key, ForecastPrefix))
  {
    if HasPrefix(key, CurrentPrefix) {
      assert key[8] == CurrentPrefix[8] == 'c';
    }
  }

  function CurrentRequest(city: string): Request {
    Request("/weather", city, "metric", None)
  }

  function ForecastRequest(city: string): Request {
    Request("/forecast", city, "metric", Some(ForecastCount))
  }

  /** What a cache miss produces: the response, and the payload to store, if any. */
  datatype Fetched = Fetched(response: Response, store: Option<Payload>)

  /** Statuses a failed request can answer with. */
  predicate IsErrorStatus(status: int) {
    status == 400 || status == 404 || status == 408 || status == 500 || status == 503
  }

  /** The current view after a cache miss: outcome to response, in the order of its handlers. */
  function CurrentFetch(city: string, outcome: Outcome<CurrentDoc>): (f: Fetched)
    ensures f.store.Some? <==> outcome.Answered? && outcome.status == 200 && outcome.body.Parsed?
    ensures f.store.Some? ==> f.store.value == Current(FormatCurrent(outcome.body.doc))
    ensures f.store.Some? ==> f.response == Response(200, Data(f.store.value))
    ensures f.store.None? ==> f.response.body.Failure? && IsErrorStatus(f.response.status)
    ensures outcome.Answered? && outcome.status == 404 ==> f.response.status == 404 && Mentions(f.response.body.message, city)
    ensures outcome.Answered? && outcome.status != 200 && outcome.status != 404 ==>
      f.response == Response(500, Failure(CurrentFailedMessage))
    ensures outcome == Answered(200, Malformed) ==> f.response == Response(500, Failure(UnexpectedMessage))
    ensures outcome.Timeout? ==> f.response == Response(408, Failure(TimeoutMessage))
    ensures outcome.NetworkError? ==> f.response == Response(503, Failure(NetworkMessage))
    ensures outcome.OtherError? ==> f.response == Response(500, Failure(UnexpectedMessage))
  {
    match outcome
    case Answered(status, body) =>
      if status == 200 then
        match body
        case Parsed(doc) =>
          var payload := Current(FormatCurrent(doc));
          Fetched(Response(200, Data(payload)), Some(payload))
        case Malformed => Fetched(Response(500, Failure(UnexpectedMessage)), None)
      else if status == 404 then Fetched(Response(404, Failure(NotFoundMessage(city))), None)
      else Fetched(Response(500, Failure(CurrentFailedMessage)), None)
    case Timeout => Fetched(Response(408, Failure(TimeoutMessage)), None)
    case NetworkError => Fetched(Response(503, Failure(NetworkMessage)), None)
    case OtherError => Fetched(Response(500, Failure(UnexpectedMessage)), None)
  }

  /** The forecast view after a cache miss. It has no handler for network errors of its own,
      so they fall to the generic one. */
  function ForecastFetch(city: string, outcome: Outcome<ForecastDoc>): (f: Fetched)
    ensures f.store.Some? <==>
      outcome.Answered? && outcome.status == 200 && outcome.body.Parsed? && AllWellFormed(outcome.body.doc.list)
    ensures f.store.Some? ==> f.store.value == Forecast(FormatForecast(outcome.body.doc).value)
    ensures f.store.Some? ==> f.response == Response(200, Data(f.store.value))
    ensures f.store.None? ==> f.response.body.Failure? && IsErrorStatus(f.response.status)
    ensures outcome.Answered? && outcome.status == 404 ==> f.response.status == 404 && Mentions(f.response.body.message, city)
    ensures outcome.Answered? && outcome.status != 200 && outcome.status != 404 ==>
      f.response == Response(500, Failure(ForecastFailedMessage))
    ensures outcome.Answered? && outcome.status == 200 && f.store.None? ==> f.response == Response(500, Failure(UnexpectedMessage))
    ensures outcome.Timeout? ==> f.response == Response(408, Failure(TimeoutMessage))
    ensures outcome.NetworkError? || outcome.OtherError? ==> f.response == Response(500, Failure(UnexpectedMessage))
  {
    match outcome
    case Answered(status, body) =>
      if status == 200 then
        match body
        case Parsed(doc) =>
          (match FormatForecast(doc)
           case Some(forecast) =>
             var payload := Forecast(forecast);
             Fetched(Response(200, Data(payload)), Some(payload))
           case None => Fetched(Response(500, Failure(UnexpectedMessage)), None))
        case Malformed => Fetched(Response(500, Failure(UnexpectedMessage)), None)
      else if status == 404 then Fetched(Response(404, Failure(NotFoundMessage(city))), None)
      else Fetched(Response(500, Failure(ForecastFailedMessage)), None)
    case Timeout => Fetched(Response(408, Failure(TimeoutMessage)), None)
    case NetworkError => Fetched(Response(500, Failure(UnexpectedMessage)), None)
    case OtherError => Fetched(Response(500, Failure(UnexpectedMessage)), None)
  }

  /** One request: its response, the cache afterwards, and the upstream request sent, if any. */
  datatype Step = Step(response: Response, cache: map<string, Entry>, sent: Option<Request>)

  /** A miss result as the views produce it: a payload is stored exactly when the answer is 200 with that payload. */
  predicate StoresOnlySuccess(fetched: Fetched) {
    && (fetched.store.Some? <==> fetched.response.status == 200)
    && (fetched.store.Some? ==> fetched.response.body == Data(fetched.store.value))
  }

  /** The cache-aside flow both weather views follow: reject a blank city, answer a hit
      from the cache, otherwise send `request` and answer `fetched`, storing its payload. */
  function CacheAside(entries: map<string, Entry>, city: string, key: string, request: Request, fetched: Fetched): (s: Step)
    requires StoresOnlySuccess(fetched)
    ensures city == [] ==> s == Step(Response(400, Failure(CityRequired)), entries, None)
    ensures city != [] && key in entries ==> s == Step(Response(200, Data(entries[key].value)), entries, None)
    ensures city != [] && key !in entries ==> s.sent == Some(request) && s.response == fetched.response
    ensures s.sent.None? ==> s.cache == entries
    ensures s.response.status != 200 ==> s.cache == entries
    ensures s.cache != entries ==>
      && s.sent == Some(request) && key !in entries && s.response.status == 200 && s.response.body.Data?
      && s.cache == entries[key := Entry(s.response.body.payload, CacheTimeout)]
    ensures s.response.status == 200 ==>
      s.response.body.Data? && key in s.cache && s.cache[key].value == s.response.body.payload
  {
    if city == [] then Step(Response(400, Failure(CityRequired)), entries, None)
    else if key in entries then Step(Response(200, Data(entries[key].value)), entries, None)
    else
      var cache := if fetched.store.Some? then entries[key := Entry(fetched.store.value, CacheTimeout)] else entries;
      Step(fetched.response, cache, Some(request))
  }

  /** GET /api/weather/current/?city=... against a cache holding `entries`. */
  function CurrentStep(entries: map<string, Entry>, param: Option<string>, upstream: Request -> Outcome<CurrentDoc>): (s: Step)
    ensures var city := CityOf(param); var key := CacheKey(CurrentPrefix, city);
      && (city == [] ==> s == Step(Response(400, Failure(CityRequired)), entries, None))
      && (city != [] && key in entries ==> s == Step(Response(200, Data(entries[key].value)), entries, None))
      && (city != [] && key !in entries ==>
            s.sent == Some(CurrentRequest(city)) && s.response == CurrentFetch(city, upstream(CurrentRequest(city))).response)
      && (s.sent.Some? ==> s.sent == Some(CurrentRequest(city)) && key !in entries)
      && (s.sent.None? ==> s.cache == entries)
      && (s.response.status == 200 ==>
            s.response.body.Data? && key in s.cache && s.cache[key].value == s.response.body.payload)
      && (s.cache != entries ==>
            s.response.status == 200 && s.cache == entries[key := Entry(s.response.body.payload, CacheTimeout)])
  {
    var city := CityOf(param);
    var request := CurrentRequest(city);
    CacheAside(entries, city, CacheKey(CurrentPrefix, city), request, CurrentFetch(city, upstream(request)))
  }

  /** GET /api/weather/forecast/?city=... against a cache holding `entries`. */
  function ForecastStep(entries: map<string, Entry>, param: Option<string>, upstream: Request -> Outcome<ForecastDoc>): (s: Step)
    ensures var city := CityOf(param); var key := CacheKey(ForecastPrefix, city);
      && (city == [] ==> s == Step(Response(400, Failure(CityRequired)), entries, None))
      && (city != [] && key in entries ==> s == Step(Response(200, Data(entries[key].value)), entries, None))
      && (city != [] && key !in entries ==>
            s.sent == Some(ForecastRequest(city)) && s.response == ForecastFetch(city, upstream(ForecastRequest(city))).response)
      && (s.sent.Some? ==> s.sent == Some(ForecastRequest(city)) && key !in entries)
      && (s.sent.None? ==> s.cache == entries)
      && (s.response.status == 200 ==>
            s.response.body.Data? && key in s.cache && s.cache[key].value == s.response.body.payload)
      && (s.cache != entries ==>
            s.response.status == 200 && s.cache == entries[key := Entry(s.response.body.payload, CacheTimeout)])
  {
    var city := CityOf(param);
    var request := ForecastRequest(city);
    CacheAside(entries, city, CacheKey(ForecastPrefix, city), request, ForecastFetch(city, upstream(request)))
  }

  /** Every entry was stored by one of the views: with the fixed timeout, and of the kind its prefix names. */
  ghost predicate CacheConsistent(entries: map<string, Entry>) {
    forall k :: k in entries ==>
      && entries[k].timeout == CacheTimeout
      && (HasPrefix(k, CurrentPrefix) ==> entries[k].value.Current?)
      && (HasPrefix(k, ForecastPrefix) ==> entries[k].value.Forecast?)
  }

  /** Storing a payload of the kind a key's prefix names keeps the cache consistent. */
  lemma StoreKeepsConsistent(entries: map<string, Entry>, key: string, value: Payload)
    requires CacheConsistent(entries)
    requires HasPrefix(key, CurrentPrefix) ==> value.Current?
    requires HasPrefix(key, ForecastPrefix) ==> value.Forecast?
    ensures CacheConsistent(entries[key := Entry(value, CacheTimeout)])
  {
  }

  /** The current view keeps the cache consistent, so its hits return current payloads. */
  lemma CurrentKeepsCacheConsistent(entries: map<string, Entry>, param: Option<string>, upstream: Request -> Outcome<CurrentDoc>)
    requires CacheConsistent(entries)
    ensures var s := CurrentStep(entries, param, upstream);
      CacheConsistent(s.cache) && (s.response.status == 200 ==> s.response.body.Data? && s.response.body.payload.Current?)
  {
    var city := CityOf(param);
    var key := CacheKey(CurrentPrefix, city);
    var s := CurrentStep(entries, param, upstream);
    ModesDisjoint(key);
    if s.cache != entries {
      StoreKeepsConsistent(entries, key, s.response.body.payload);
    }
  }

  /** The forecast view keeps the cache consistent, so its hits return forecast payloads. */
  lemma ForecastKeepsCacheConsistent(entries: map<string, Entry>, param: Option<string>, upstream: Request -> Outcome<ForecastDoc>)
    requires CacheConsistent(entries)
    ensures var s := ForecastStep(entries, param, upstream);
      CacheConsistent(s.cache) && (s.response.status == 200 ==> s.response.body.Data? && s.response.body.payload.Forecast?)
  {
    var city := CityOf(param);
    var key := CacheKey(ForecastPrefix, city);
    var s := ForecastStep(entries, param, upstream);
    ModesDisjoint(key);
    if s.cache != entries {
      StoreKeepsConsistent(entries, key, s.response.body.payload);
    }
  }

  /** Asking again, for the same city in any letter case, within the cache's lifetime:
      the same answer, from the cache, without consulting the provider. */
  lemma RepeatedCurrentIsHit(entries: map<string, Entry>, p1: Option<string>, p2: Option<string>,
                             up1: Request -> Outcome<CurrentDoc>, up2: Request -> Outcome<CurrentDoc>)
    requires SameIgnoringCase(CityOf(p1), CityOf(p2))
    requires CurrentStep(entries, p1, up1).response.status == 200
    ensures var s1 := CurrentStep(entries, p1, up1); var s2 := CurrentStep(s1.cache, p2, up2);
      s2 == Step(s1.response, s1.cache, None)
  {
    CacheKeyIgnoresCase(CurrentPrefix, CityOf(p1), CityOf(p2));
  }

  /** The same for the forecast view. */
  lemma RepeatedForecastIsHit(entries: map<string, Entry>, p1: Option<string>, p2: Option<string>,
                              up1: Request -> Outcome<ForecastDoc>, up2: Request -> Outcome<ForecastDoc>)
    requires SameIgnoringCase(CityOf(p1), CityOf(p2))
    requires ForecastStep(entries, p1, up1).response.status == 200
    ensures var s1 := ForecastStep(entries, p1, up1); var s2 := ForecastStep(s1.cache, p2, up2);
      s2 == Step(s1.response, s1.cache, None)
  {
    CacheKeyIgnoresCase(ForecastPrefix, CityOf(p1), CityOf(p2));
  }

  /** One of the two places the views' error mapping differs (the other is the message for an
      unexpected status): a network failure is 503 in the current view and 500 in the forecast view. */
  lemma NetworkFailureDiverges(entries: map<string, Entry>, param: Option<string>,
                               current: Request -> Outcome<CurrentDoc>, forecast: Request -> Outcome<ForecastDoc>)
    requires CityOf(param) != []
    requires CacheKey(CurrentPrefix, CityOf(param)) !in entries && CacheKey(ForecastPrefix, CityOf(param)) !in entries
    requires current(CurrentRequest(CityOf(param))) == NetworkError
    requires forecast(ForecastRequest(CityOf(param))) == NetworkError
    ensures CurrentStep(entries, param, current).response == Response(503, Failure(NetworkMessage))
    ensures ForecastStep(entries, param, forecast).response == Response(500, Failure(UnexpectedMessage))
  {
  }

  /** GET /api/weather/health/: always up. */
  function HealthCheck(): (r: Response)
    ensures r.status == 200 && r.body.Health?
    ensures r.body == Health("Weather API is running", "1.0.0")
  {
    Response(200, Health("Weather API is running", "1.0.0"))
  }

  class CurrentWeatherView {
    const cache: Cache

    constructor(cache: Cache)
      ensures this.cache == cache
    {
      this.cache := cache;
    }

    /** Handles one request; `upstream` is the provider's answer to whatever is sent. */
    method Get(param: Option<string>, upstream: Request -> Outcome<CurrentDoc>) returns (response: Response, sent: Option<Request>)
      modifies cache
      ensures Step(response, cache.entries, sent) == CurrentStep(old(cache.entries), param, upstream)
    {
      sent := None;
      var city := CityOf(param);
      if city == [] {
        response := Response(400, Failure(CityRequired));
        return;
      }
      var key := CacheKey(CurrentPrefix, city);
      var cached := cache.Get(key);
      if cached.Some? {
        response := Response(200, Data(cached.value));
        return;
      }
      var request := CurrentRequest(city);
      sent := Some(request);
      var fetched := CurrentFetch(city, upstream(request));
      if fetched.store.Some? {
        cache.Set(key, fetched.store.value, CacheTimeout);
      }
      response := fetched.response;
    }
  }

  class ForecastWeatherView {
    const cache: Cache

    constructor(cache: Cache)
      ensures this.cache == cache
    {
      this.cache := cache;
    }

    /** Handles one request; on a well-formed 200 answer it runs the append loop over the list. */
    method Get(param: Option<string>, upstream: Request -> Outcome<ForecastDoc>) returns (response: Response, sent: Option<Request>)
      modifies cache
      ensures Step(response, cache.entries, sent) == ForecastStep(old(cache.entries), param, upstream)
    {
      sent := None;
      var city := CityOf(param);
      if city == [] {
        response := Response(400, Failure(CityRequired));
        return;
      }
      var key := CacheKey(ForecastPrefix, city);
      var cached := cache.Get(key);
      if cached.Some? {
        response := Response(200, Data(cached.value));
        return;
      }
      var request := ForecastRequest(city);
      sent := Some(request);
      var outcome := upstream(request);
      if outcome.Answered? && outcome.status == 200 && outcome.body.Parsed? {
        var doc := outcome.body.doc;
        var forecasts := FormatForecasts(doc.list);
        if forecasts.Some? {
          var payload := Forecast(ForecastWeather(doc.city.name, doc.city.country, doc.city.coord, forecasts.value));
          cache.Set(key, payload, CacheTimeout);
          response := Response(200, Data(payload));
        } else {
          response := Response(500, Failure(UnexpectedMessage));
        }
      } else {
        response := ForecastFetch(city, outcome).response;
      }
    }
  }
}
