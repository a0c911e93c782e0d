/**
 * The parts of the weather API's JSON response (interfaces.ts) that the card
 * renderer reads.  Floating-point readings (temperatures, wind speed,
 * humidity) are not part of this model; where the renderer prints them it is
 * given their already formatted text.
 */
module Weather {

  datatype Option<T> = None | Some(value: T)

  /** `condition` of an hour or of the current reading. */
  datatype Condition = Condition(text: string, icon: string, code: int)

  /** One entry of `forecastday[d].hour`. */
  datatype Hour = Hour(timeEpoch: int, condition: Condition)

  /** `current`, reduced to what the renderer uses. */
  datatype Current = Current(lastUpdatedEpoch: int, condition: Condition)

  /** `location`. */
  datatype Place = Place(name: string, country: string, tzId: string)

  /** One entry of `forecast.forecastday`. */
  datatype ForecastDay = ForecastDay(hour: seq<Hour>)

  datatype WeatherData = WeatherData(location: Place, current: Current, forecastday: seq<ForecastDay>)

  /** `forecast.forecastday[0]`, which is `undefined` when the list is empty. */
  function Today(data: WeatherData): (today: Option<ForecastDay>)
    ensures today.None? <==> data.forecastday == []
    ensures today.Some? ==> today.value == data.forecastday[0]
  {
    if data.forecastday == [] then None else Some(data.forecastday[0])
  }
}
