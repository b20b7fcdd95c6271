/**
 * The weather provider as the views see it: the request they send and what
 * comes back. The HTTP call itself is not modelled; a view is given the
 * provider as a function from request to outcome.
 *
 * A 200 body is either one that holds every field the view reads
 * (`Parsed`), or one from which some read raises (`Malformed`: a missing
 * key, an empty `weather` list, a value of the wrong type). Fields the view
 * reads with `.get(key, 0)` are `Option`s.
 */
module Upstream {
  import opened Wrappers

  /** The query a view sends: endpoint path, `q`, `units` and, for the forecast, `cnt`. */
  datatype Request = Request(path: string, q: string, units: string, count: Option<int>)

  /** What `requests.get` does: answer with a status and body, or raise. */
  datatype Outcome<D> =
    | Answered(status: int, body: Body<D>)
    | Timeout       // requests.exceptions.Timeout
    | NetworkError  // any other requests.exceptions.RequestException
    | OtherError    // any other exception raised while calling

  datatype Body<D> = Parsed(doc: D) | Malformed

  datatype Coord = Coord(lat: real, lon: real)

  /** The `main` object of a reading. */
  datatype Readings = Readings(temp: real, feelsLike: real, tempMin: real, tempMax: real, humidity: int, pressure: int)

  /** The first element of the `weather` list. */
  datatype Condition = Condition(description: string, main: string, icon: string)

  /** The fields of a current-weather answer that the view reads. */
  datatype CurrentDoc = CurrentDoc(
    name: string,
    country: string,
    coord: Coord,
    main: Readings,
    weather: Condition,
    windSpeed: real,
    windDeg: Option<int>,
    clouds: int,
    visibility: Option<int>,
    sunrise: int,
    sunset: int,
    timezone: int,
    dt: int)

  /** One element of a forecast answer's `list`. */
  datatype ForecastItem = ForecastItem(
    dt: int,
    dtText: string,
    main: Readings,
    weather: Condition,
    windSpeed: real,
    clouds: int,
    pop: Option<real>)

  /** A `list` element is well-formed, or some read of it raises. */
  datatype RawItem = Item(item: ForecastItem) | BadItem

  datatype CityInfo = CityInfo(name: string, country: string, coord: Coord)

  /** The fields of a forecast answer that the view reads. */
  datatype ForecastDoc = ForecastDoc(city: CityInfo, list: seq<RawItem>)
}
