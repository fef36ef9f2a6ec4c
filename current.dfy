/**
 * `processCurrentWeather`: the current-conditions payload of the weather API
 * reduced to the record the page displays.
 */
module CurrentWeather {
  import opened JsMath
  import opened Text

  datatype Sys = Sys(country: string)
  datatype MainReadings = MainReadings(temp: real, feelsLike: real, humidity: int, pressure: int)
  /** The first entry of the payload's `weather` list. */
  datatype Condition = Condition(main: string, description: string)
  datatype Wind = Wind(speed: real)
  /** The fields of the payload the app reads; `visibility` in metres, `speed` in m/s,
      `dt` in seconds since the epoch. */
  datatype RawCurrent = RawCurrent(
    name: string, sys: Sys, main: MainReadings, weather: Condition,
    wind: Wind, visibility: int, dt: int)

  /** The processed record; `timestamp` is the observation time in milliseconds
      (the value of `new Date(dt * 1000)`). */
  datatype Conditions = Conditions(
    location: string, temperature: int, feelsLike: int, description: string,
    icon: string, humidity: int, windSpeed: int, pressure: int, visibility: int,
    timestamp: int)

  /** m/s to km/h, rounded. */
  function KmPerHour(metresPerSecond: real): (kmh: int)
    ensures metresPerSecond * 3.6 - 0.5 < kmh as real <= metresPerSecond * 3.6 + 0.5
  {
    Round(metresPerSecond * 3.6)
  }

  /** Metres to kilometres, rounded; equal to the integer form `(m + 500) / 1000`. */
  function Kilometres(metres: int): (km: int)
    ensures km == (metres + 500) / 1000
  {
    var q := (metres + 500) / 1000;
    var r := (metres + 500) % 1000;
    assert metres as real / 1000.0 + 0.5 == q as real + r as real / 1000.0;
    Round(metres as real / 1000.0)
  }

  /** `processCurrentWeather(rawData, coords)`; the coordinates are not used. */
  function ProcessCurrentWeather(raw: RawCurrent): (c: Conditions)
    ensures c.location == raw.name + ", " + raw.sys.country
    ensures raw.main.temp - 0.5 < c.temperature as real <= raw.main.temp + 0.5
    ensures raw.main.feelsLike - 0.5 < c.feelsLike as real <= raw.main.feelsLike + 0.5
    ensures c.description == raw.weather.description
    ensures c.icon == ToLower(raw.weather.main)
    ensures c.humidity == raw.main.humidity && c.pressure == raw.main.pressure
    ensures raw.wind.speed * 3.6 - 0.5 < c.windSpeed as real <= raw.wind.speed * 3.6 + 0.5
    ensures c.visibility == (raw.visibility + 500) / 1000
    ensures c.timestamp == raw.dt * 1000
  {
    Conditions(
      location := raw.name + ", " + raw.sys.country,
      temperature := Round(raw.main.temp),
      feelsLike := Round(raw.main.feelsLike),
      description := raw.weather.description,
      icon := ToLower(raw.weather.main),
      humidity := raw.main.humidity,
      windSpeed := KmPerHour(raw.wind.speed),
      pressure := raw.main.pressure,
      visibility := Kilometres(raw.visibility),
      timestamp := raw.dt * 1000)
  }

  /** A worked example: Paris at 21.6 C (feels 20.4), wind 5.2 m/s, 8500 m visibility.
      8.5 km rounds up, as `Math.round` does, to 9. */
  lemma ParisExample()
    ensures var c := ProcessCurrentWeather(RawCurrent(
              "Paris", Sys("FR"), MainReadings(21.6, 20.4, 55, 1013),
              Condition("Clouds", "overcast clouds"), Wind(5.2), 8500, 1700000000));
            && c.location == "Paris, FR" && c.temperature == 22 && c.feelsLike == 20
            && c.windSpeed == 19 && c.visibility == 9 && c.icon == "clouds"
            && c.humidity == 55 && c.timestamp == 1700000000000
  {
  }
}
