/** Values exchanged with the platform services (location, search, geocoding,
    weather). The services themselves are not modelled: their answers arrive as
    parameters of the completion events of the classes that use them. */
module Platform {

  datatype Option<+T> = None | Some(value: T)

  /** A geographic point. Latitude and longitude are only stored, copied and
      compared for equality; no arithmetic is done on them. */
  datatype Coordinate = Coordinate(latitude: real, longitude: real)

  /** A reverse-geocoded or searched place: optional display name, optional
      locality and optional location. */
  datatype Placemark = Placemark(name: Option<string>, locality: Option<string>, location: Option<Coordinate>)

  /** An instant, abstracted to what the app asks of it:
      - hourIndex: the instant truncated to the hour, counted from a fixed origin
        (the hour-granularity comparison),
      - month, day, hour: calendar components in the current calendar,
      - hourText, weekdayText: the text the "ha" and "EEE" date formatters
        produce for it (opaque to the app). */
  datatype Date = Date(hourIndex: int, month: int, day: int, hour: int, hourText: string, weekdayText: string)

  /** A temperature measurement, abstracted to the text its formatter produces
      (a number followed by a unit symbol, such as "12°"). */
  datatype Temperature = Temperature(formatted: string)

  /** The current conditions of a weather bundle. `condition` is the
      condition's description text. */
  datatype CurrentWeather = CurrentWeather(temperature: Temperature, condition: string)

  /** One entry of the provider's hourly series. */
  datatype HourForecast = HourForecast(date: Date, symbolName: string, temperature: Temperature)

  /** One entry of the provider's daily series. */
  datatype DayForecast = DayForecast(date: Date, symbolName: string, lowTemperature: Temperature, highTemperature: Temperature)

  /** What the weather service returns for a coordinate. */
  datatype WeatherBundle = WeatherBundle(current: CurrentWeather, hourly: seq<HourForecast>, daily: seq<DayForecast>)

  /** The outcome of one weather request: the bundle, or a thrown error. */
  datatype WeatherOutcome = WeatherFetched(bundle: WeatherBundle) | WeatherFailed
}
