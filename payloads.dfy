/**
 * The normalised payloads the views return and cache, and how they are built
 * from the upstream answer.
 */
module Payloads {
  import opened Wrappers
  import opened Text
  import opened Rounding
  import opened Upstream

  datatype CurrentWeather = CurrentWeather(
    city: string,
    country: string,
    coordinates: Coord,
    temperature: int,
    feelsLike: int,
    tempMin: int,
    tempMax: int,
    humidity: int,
    pressure: int,
    description: string,
    main: string,
    icon: string,
    windSpeed: real,
    windDeg: int,
    clouds: int,
    visibility: int,
    sunrise: int,
    sunset: int,
    timezone: int,
    timestamp: int)

  datatype ForecastEntry = ForecastEntry(
    datetime: int,
    dateText: string,
    temperature: int,
    feelsLike: int,
    tempMin: int,
    tempMax: int,
    humidity: int,
    pressure: int,
    description: string,
    main: string,
    icon: string,
    windSpeed: real,
    clouds: int,
    pop: real)

  datatype ForecastWeather = ForecastWeather(
    city: string,
    country: string,
    coordinates: Coord,
    forecasts: seq<ForecastEntry>)

  /** What the cache holds; both kinds carry `success: true`. */
  datatype Payload = Current(current: CurrentWeather) | Forecast(forecast: ForecastWeather)

  /** The current-weather payload built from a well-formed upstream answer. */
  function FormatCurrent(d: CurrentDoc): (w: CurrentWeather)
    ensures w.city == d.name && w.country == d.country && w.coordinates == d.coord
    ensures IsNearestEven(d.main.temp, w.temperature) && IsNearestEven(d.main.feelsLike, w.feelsLike)
    ensures IsNearestEven(d.main.tempMin, w.tempMin) && IsNearestEven(d.main.tempMax, w.tempMax)
    ensures -0.05 <= w.windSpeed - d.windSpeed <= 0.05
    ensures (w.windSpeed * 10.0).Floor as real == w.windSpeed * 10.0
    ensures IsNearestEven(d.windSpeed * 10.0, (w.windSpeed * 10.0).Floor)
    ensures w.humidity == d.main.humidity && w.pressure == d.main.pressure
    ensures w.main == d.weather.main && w.icon == d.weather.icon && w.clouds == d.clouds
    ensures w.sunrise == d.sunrise && w.sunset == d.sunset && w.timezone == d.timezone && w.timestamp == d.dt
    ensures d.windDeg.None? ==> w.windDeg == 0
    ensures d.windDeg.Some? ==> w.windDeg == d.windDeg.value
    ensures d.visibility.None? ==> w.visibility == 0
    ensures d.visibility.Some? ==> w.visibility == d.visibility.value
    ensures w.description == Title(d.weather.description)
    ensures |w.description| == |d.weather.description| && w.description == Title(w.description)
  {
    TitleIdempotent(d.weather.description);
    CurrentWeather(
      d.name, d.country, d.coord,
      RoundHalfEven(d.main.temp), RoundHalfEven(d.main.feelsLike),
      RoundHalfEven(d.main.tempMin), RoundHalfEven(d.main.tempMax),
      d.main.humidity, d.main.pressure,
      Title(d.weather.description), d.weather.main, d.weather.icon,
      RoundToTenths(d.windSpeed), d.windDeg.GetOr(0),
      d.clouds, d.visibility.GetOr(0),
      d.sunrise, d.sunset, d.timezone, d.dt)
  }

  /** One forecast entry, built from one upstream `list` element and nothing else. */
  function FormatEntry(it: ForecastItem): (e: ForecastEntry)
    ensures e.datetime == it.dt && e.dateText == it.dtText
    ensures IsNearestEven(it.main.temp, e.temperature) && IsNearestEven(it.main.feelsLike, e.feelsLike)
    ensures IsNearestEven(it.main.tempMin, e.tempMin) && IsNearestEven(it.main.tempMax, e.tempMax)
    ensures -0.05 <= e.windSpeed - it.windSpeed <= 0.05
    ensures (e.windSpeed * 10.0).Floor as real == e.windSpeed * 10.0
    ensures IsNearestEven(it.windSpeed * 10.0, (e.windSpeed * 10.0).Floor)
    ensures e.humidity == it.main.humidity && e.pressure == it.main.pressure
    ensures e.main == it.weather.main && e.icon == it.weather.icon && e.clouds == it.clouds
    ensures it.pop.None? ==> e.pop == 0.0
    ensures it.pop.Some? ==> e.pop == 100.0 * it.pop.value
    ensures e.description == Title(it.weather.description)
    ensures |e.description| == |it.weather.description| && e.description == Title(e.description)
  {
    TitleIdempotent(it.weather.description);
    ForecastEntry(
      it.dt, it.dtText,
      RoundHalfEven(it.main.temp), RoundHalfEven(it.main.feelsLike),
      RoundHalfEven(it.main.tempMin), RoundHalfEven(it.main.tempMax),
      it.main.humidity, it.main.pressure,
      Title(it.weather.description), it.weather.main, it.weather.icon,
      RoundToTenths(it.windSpeed), it.clouds,
      it.pop.GetOr(0.0) * 100.0)
  }

  predicate AllWellFormed(list: seq<RawItem>) {
    forall i :: 0 <= i < |list| ==> list[i].Item?
  }

  /** Reference definition of the forecast list: every element mapped on its own, in order;
      no list at all when some element is malformed. */
  function FormatList(list: seq<RawItem>): Option<seq<ForecastEntry>> {
    if AllWellFormed(list) then Some(seq(|list|, i requires 0 <= i < |list| => FormatEntry(list[i].item)))
    else None
  }

  /** The view's append loop over the upstream `list`. */
  method FormatForecasts(list: seq<RawItem>) returns (r: Option<seq<ForecastEntry>>)
    ensures r == FormatList(list)
    ensures r.Some? <==> AllWellFormed(list)
    ensures r.Some? ==> |r.value| == |list|
    ensures r.Some? ==> forall i :: 0 <= i < |list| ==> r.value[i] == FormatEntry(list[i].item)
  {
    var forecasts: seq<ForecastEntry> := [];
    for i := 0 to |list|
      invariant |forecasts| == i
      invariant forall k :: 0 <= k < i ==> list[k].Item? && forecasts[k] == FormatEntry(list[k].item)
    {
      match list[i]
      case BadItem =>
        assert !AllWellFormed(list);
        return None;
      case Item(it) =>
        forecasts := forecasts + [FormatEntry(it)];
    }
    assert AllWellFormed(list);
    assert forecasts == seq(|list|, i requires 0 <= i < |list| => FormatEntry(list[i].item));
    return Some(forecasts);
  }

  /** The forecast payload built from a well-formed upstream answer, if every element is. */
  function FormatForecast(d: ForecastDoc): (r: Option<ForecastWeather>)
    ensures r.Some? <==> AllWellFormed(d.list)
    ensures r.Some? ==> r.value.city == d.city.name && r.value.country == d.city.country
    ensures r.Some? ==> r.value.coordinates == d.city.coord && |r.value.forecasts| == |d.list|
    ensures r.Some? ==> forall i :: 0 <= i < |d.list| ==> r.value.forecasts[i] == FormatEntry(d.list[i].item)
  {
    match FormatList(d.list)
    case None => None
    case Some(forecasts) => Some(ForecastWeather(d.city.name, d.city.country, d.city.coord, forecasts))
  }
}
