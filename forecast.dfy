/**
 * The forecast payload of the external weather API, in the shape of the
 * front end's `ForecastItem` type. Temperatures and speeds are reals (the
 * source's floating-point numbers without rounding).
 */
module Forecast {
  import opened Wrappers

  /** One element of an entry's `weather` array. */
  datatype WeatherCondition = WeatherCondition(id: int, main: string, description: string, icon: string)

  /** An entry's `main` block. */
  datatype Readings = Readings(temp: real, tempMin: real, tempMax: real, pressure: int, humidity: int)

  datatype Wind = Wind(speed: real, deg: int)

  /**
   * One 3-hour sample. `dt` is a Unix time in seconds; `rain` and `snow` hold
   * the 3-hour volume in millimetres when the API sends the block.
   */
  datatype ForecastItem = ForecastItem(
    dt: int,
    main: Readings,
    weather: seq<WeatherCondition>,
    clouds: int,
    wind: Wind,
    visibility: int,
    pop: real,
    rain: Option<real>,
    snow: Option<real>)

  datatype CityInfo = CityInfo(name: string, country: string)

  /** The API's forecast response: city metadata and the ordered list of samples. */
  datatype ForecastData = ForecastData(city: CityInfo, list: seq<ForecastItem>)

  /** `item.weather[0]`, which is `undefined` when the array is empty. */
  function FirstWeather(item: ForecastItem): (r: Option<WeatherCondition>)
    ensures r.Some? <==> |item.weather| > 0
    ensures r.Some? ==> r.value == item.weather[0]
  {
    if |item.weather| > 0 then Some(item.weather[0]) else None
  }
}
