/**
 * Condition category -> display glyph. The app carries the same fifteen-entry
 * table twice: `getWeatherEmoji`, used when rendering, and `getWeatherIcon`,
 * an async variant whose resolved value is modelled here. The first is
 * written as a case analysis, the second as the table itself, and the two
 * are proved to agree on every input.
 */
module Glyphs {

  const Sun := "\U{2600}\U{FE0F}"
  const Cloud := "\U{2601}\U{FE0F}"
  const CloudRain := "\U{1F327}\U{FE0F}"
  const SunRain := "\U{1F326}\U{FE0F}"
  const Storm := "\U{26C8}\U{FE0F}"
  const Snowflake := "\U{2744}\U{FE0F}"
  const Fog := "\U{1F32B}\U{FE0F}"
  const Gust := "\U{1F4A8}"
  const Cyclone := "\U{1F32A}\U{FE0F}"
  /** The glyph for any category outside the table. */
  const Fallback := "\U{1F324}\U{FE0F}"

  /** The lower-cased condition categories the tables know. */
  const KnownCategories: set<string> :=
    {"clear", "clouds", "rain", "drizzle", "thunderstorm", "snow", "mist", "smoke",
     "haze", "dust", "fog", "sand", "ash", "squall", "tornado"}

  /** `getWeatherEmoji(weatherType)`. */
  function WeatherEmoji(weatherType: string): (glyph: string)
    ensures glyph != ""
    ensures weatherType !in KnownCategories <==> glyph == Fallback
  {
    match weatherType
    case "clear" => Sun
    case "clouds" => Cloud
    case "rain" => CloudRain
    case "drizzle" => SunRain
    case "thunderstorm" => Storm
    case "snow" => Snowflake
    case "mist" => Fog
    case "smoke" => Gust
    case "haze" => Fog
    case "dust" => Cyclone
    case "fog" => Fog
    case "sand" => Cyclone
    case "ash" => Gust
    case "squall" => Gust
    case "tornado" => Cyclone
    case _ => Fallback
  }

  /** The `iconMap` object literal of `getWeatherIcon`. */
  const IconMap: map<string, string> := map[
    "clear" := Sun,
    "clouds" := Cloud,
    "rain" := CloudRain,
    "drizzle" := SunRain,
    "thunderstorm" := Storm,
    "snow" := Snowflake,
    "mist" := Fog,
    "smoke" := Gust,
    "haze" := Fog,
    "dust" := Cyclone,
    "fog" := Fog,
    "sand" := Cyclone,
    "ash" := Gust,
    "squall" := Gust,
    "tornado" := Cyclone
  ]

  /** The value `getWeatherIcon(weatherType)` resolves to: the table entry unless it is
      missing or empty (`iconMap[weatherType] || fallback`). */
  function WeatherIcon(weatherType: string): (glyph: string)
    ensures weatherType in KnownCategories ==> glyph == IconMap[weatherType]
    ensures weatherType !in KnownCategories ==> glyph == Fallback
  {
    if weatherType in IconMap && IconMap[weatherType] != "" then IconMap[weatherType] else Fallback
  }

  /** The two copies of the table agree on every input. */
  lemma IconAgreesWithEmoji(weatherType: string)
    ensures WeatherIcon(weatherType) == WeatherEmoji(weatherType)
  {
  }

  /** Spot checks of the table: a few categories and an unknown one. */
  lemma GlyphExamples()
    ensures WeatherEmoji("clear") == Sun && WeatherEmoji("haze") == WeatherEmoji("fog") == Fog
    ensures WeatherEmoji("Clear") == Fallback && WeatherEmoji("") == Fallback
  {
  }
}
