/** The `get_weather` tool of the weather server: shutdown gate, then a mock
    record whose temperature depends on the requested units. */
module Weather {
  import opened Wrappers
  import opened Shutdown

  const MetricTemperature: real := 22.5
  const ImperialTemperature: real := 72.5
  const MockDescription: string := "Partly cloudy with a chance of rain"
  const MockHumidity: real := 65.0
  const MockWindSpeed: real := 10.0
  const WeatherErrorPrefix: string := "Error getting weather: "

  datatype WeatherData = WeatherData(
    temperature: real,
    description: string,
    humidity: real,
    windSpeed: real,
    location: string)

  /** The `get_weather` tool. `simulatedCall` is the outcome of the awaited
      stand-in for a weather API call (`asyncio.sleep(1)` in the source);
      `units` defaults to "metric". */
  function GetWeather(flag: ShutdownFlag, location: string, simulatedCall: Outcome,
                      units: string := "metric"): (r: Result<WeatherData>)
    reads flag
    // Once shutdown was requested no record is produced.
    ensures flag.requested ==> r == Failure(ShuttingDownMessage)
    // A failure inside the call is re-raised with the prefix.
    ensures !flag.requested && simulatedCall.Fail? ==>
              r == Failure(WeatherErrorPrefix + simulatedCall.error)
    ensures r.Success? <==> !flag.requested && simulatedCall.Pass?
    // 22.5 exactly for "metric", 72.5 for every other units string.
    ensures r.Success? ==> (r.value.temperature == MetricTemperature <==> units == "metric")
    ensures r.Success? && units != "metric" ==> r.value.temperature == ImperialTemperature
    // The location is echoed verbatim and the other fields are constants.
    ensures r.Success? ==>
              && r.value.location == location
              && r.value.description == MockDescription
              && r.value.humidity == MockHumidity
              && r.value.windSpeed == MockWindSpeed
  {
    if flag.requested then Failure(ShuttingDownMessage)
    else
      var inner :=
        match simulatedCall
        case Fail(e) => Failure(e)
        case Pass =>
          var temperature := if units == "metric" then MetricTemperature else ImperialTemperature;
          Success(WeatherData(temperature, MockDescription, MockHumidity, MockWindSpeed, location));
      WithPrefix(WeatherErrorPrefix, inner)
  }

  /** Leaving `units` out means metric units. */
  lemma DefaultUnitsAreMetric(flag: ShutdownFlag, location: string)
    requires !flag.requested
    ensures GetWeather(flag, location, Pass).Success?
    ensures GetWeather(flag, location, Pass).value.temperature == MetricTemperature
  {
  }
}
