/**
 * The weather reading returned by the provider, as the components declare
 * it (the `WeatherData` interface). Numbers the model only displays are
 * `real`; visibility is an integral number of metres.
 */
module Reading {

  /** One entry of the reading's condition list. */
  datatype Condition = Condition(main: string, description: string, icon: string)

  datatype WeatherData = WeatherData(
    name: string,
    temp: real,
    feelsLike: real,
    humidity: real,
    pressure: real,
    weather: seq<Condition>,
    windSpeed: real,
    visibility: int)

}
