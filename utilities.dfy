/**
 * The city construction helpers and the icon helper of the app's
 * utilities file.
 */
module Utilities {
  import opened Types

  const WeatherIconViewBox := "0 0 16 16"
  const ControlIconViewBox := "0 0 576 512"

  /** The parts of the icon markup that vary; the rest of the SVG text is fixed. */
  datatype Svg = Svg(viewBox: string, path: string)

  /** Weather icons and control icons (search, map, back) differ only in their viewBox. */
  function GetSvgIcon(path: string, isWeatherIcon: bool): (icon: Svg)
    ensures icon.path == path
    ensures icon.viewBox == WeatherIconViewBox <==> isWeatherIcon
    ensures icon.viewBox == ControlIconViewBox <==> !isWeatherIcon
  {
    Svg(if isWeatherIcon then WeatherIconViewBox else ControlIconViewBox, path)
  }

  /**
   * The city of the first geocoding result. Reading `results[0]` throws
   * when the results are absent or empty; that is the `None` here.
   */
  function ExtractCityData(data: GeocodeResponse): (city: Option<City>)
    ensures city.Some? <==> data.results.Some? && |data.results.value| > 0
    ensures city.Some? ==>
      var first := data.results.value[0];
      city.value.name == first.name && city.value.latitude == first.latitude &&
      city.value.longitude == first.longitude
  {
    match data.results
    case None => None
    case Some(results) =>
      if |results| == 0 then None
      else Some(City(results[0].name, results[0].latitude, results[0].longitude))
  }

  /** Only the first result matters: whatever follows it is ignored. */
  lemma ExtractCityDataIgnoresLaterResults(first: GeoResult, rest: seq<GeoResult>)
    ensures ExtractCityData(GeocodeResponse(Some([first] + rest)))
         == ExtractCityData(GeocodeResponse(Some([first])))
  {
  }

  /**
   * The city for a map click. `toFixed2` is JavaScript's `toFixed(2)`,
   * left uninterpreted.
   */
  function CreateCityFromLatLng(lat: real, lng: real, toFixed2: real -> string): (city: City)
    ensures city.latitude == lat && city.longitude == lng
    ensures city.name == toFixed2(lat) + "°, " + toFixed2(lng) + "°"
  {
    City(toFixed2(lat) + "°, " + toFixed2(lng) + "°", lat, lng)
  }

  /**
   * Two clicks at the same point give the same city, whatever the
   * formatter, and a click's coordinates can be read back from its city.
   */
  lemma CreateCityFromLatLngInjective(lat1: real, lng1: real, lat2: real, lng2: real, toFixed2: real -> string)
    ensures CreateCityFromLatLng(lat1, lng1, toFixed2) == CreateCityFromLatLng(lat2, lng2, toFixed2)
        <==> lat1 == lat2 && lng1 == lng2
  {
  }
}
