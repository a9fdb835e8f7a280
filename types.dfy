/**
 * Value types shared by the weather app: the city record, the three
 * response shapes of the forecast and geocoding services, and the network
 * as the app sees it during one event.
 */
module Types {

  datatype Option<+T> = None | Some(value: T) {
    /** JavaScript's `x ?? fallback`. */
    function GetOr(fallback: T): T {
      match this
      case Some(v) => v
      case None => fallback
    }
  }

  /**
   * A named point. Latitude and longitude are JavaScript numbers; the app
   * only ever compares them with `===`, which on the non-NaN numbers
   * modelled here is equality of reals.
   */
  datatype City = City(name: string, latitude: real, longitude: real)

  /** The `current` block of a current-weather response. */
  datatype Current = Current(temperature: real, weatherCode: int)

  /**
   * A parsed current-weather response. Nothing validates it: `current` is
   * absent when the service answered with an error body.
   */
  datatype WeatherResponse = WeatherResponse(current: Option<Current>)

  /**
   * The `daily` block of a forecast response: parallel arrays, each of which
   * may be absent, and whose elements may be null.
   */
  datatype Daily = Daily(
    time: Option<seq<string>>,
    weatherCode: Option<seq<Option<int>>>,
    tempMax: Option<seq<Option<real>>>,
    tempMin: Option<seq<Option<real>>>)

  datatype ForecastResponse = ForecastResponse(daily: Option<Daily>)

  datatype GeoResult = GeoResult(name: string, latitude: real, longitude: real)

  /** A geocoding response; `results` is absent when nothing matched. */
  datatype GeocodeResponse = GeocodeResponse(results: Option<seq<GeoResult>>)

  /**
   * The answers the network gives during one event: `None` when the request
   * or the decoding of its JSON body rejects.
   */
  datatype Network = Network(
    weather: City -> Option<WeatherResponse>,
    forecast: City -> Option<ForecastResponse>,
    geocode: string -> Option<GeocodeResponse>)
}
