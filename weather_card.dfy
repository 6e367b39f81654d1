/**
 * The weather card: the icon chosen for a condition category, the choice
 * between the loading skeleton, the empty placeholder and the details, and
 * the visibility shown in kilometres.
 */
module WeatherCard {

  import opened Text
  import opened Wrappers
  import opened Reading

  /** The lucide icon drawn for the reading's condition. */
  datatype Icon = Sun | Cloud | CloudRain | CloudSnow | Zap

  /** The six condition categories the switch statements name, lower-cased. */
  const KnownCategories: set<string> := {"clear", "clouds", "rain", "drizzle", "snow", "thunderstorm"}

  /**
   * getWeatherIcon: an exact match on the lower-cased category, falling
   * back to `Cloud`.
   */
  function GetWeatherIcon(weatherMain: string): (icon: Icon)
  {
    var category := Lower(weatherMain);
    if category == "clear" then Sun
    else if category == "clouds" then Cloud
    else if category == "rain" || category == "drizzle" then CloudRain
    else if category == "snow" then CloudSnow
    else if category == "thunderstorm" then Zap
    else Cloud
  }

  /** The icon table: each icon and the lower-cased categories that select it. */
  lemma IconCases(weatherMain: string)
    ensures GetWeatherIcon(weatherMain) == Sun <==> Lower(weatherMain) == "clear"
    ensures GetWeatherIcon(weatherMain) == CloudRain <==> Lower(weatherMain) == "rain" || Lower(weatherMain) == "drizzle"
    ensures GetWeatherIcon(weatherMain) == CloudSnow <==> Lower(weatherMain) == "snow"
    ensures GetWeatherIcon(weatherMain) == Zap <==> Lower(weatherMain) == "thunderstorm"
    ensures GetWeatherIcon(weatherMain) == Cloud <==> Lower(weatherMain) == "clouds" || Lower(weatherMain) !in KnownCategories
  {
  }

  /** The icon depends on the category only up to case. */
  lemma IconCaseInsensitive(weatherMain: string)
    ensures GetWeatherIcon(weatherMain) == GetWeatherIcon(Lower(weatherMain))
  {
    LowerIdempotent(weatherMain);
  }

  /** Two spellings that lower-case alike get the same icon. */
  lemma IconIgnoresCase(s: string, t: string)
    requires Lower(s) == Lower(t)
    ensures GetWeatherIcon(s) == GetWeatherIcon(t)
  {
  }

  /** `Math.round` of a number: the nearest integer, halves going up. */
  function MathRound(x: real): (n: int)
    ensures n as real - 0.5 <= x < n as real + 0.5
  {
    (x + 0.5).Floor
  }

  /** The visibility line of the card: `Math.round(visibility / 1000)` kilometres. */
  function VisibilityKm(metres: int): (km: int)
    ensures 1000 * km - 500 <= metres < 1000 * km + 500
  {
    (metres + 500) / 1000
  }

  /** The integer formula is exactly `Math.round` of the real quotient, for every integer. */
  lemma VisibilityIsRoundedQuotient(metres: int)
    ensures VisibilityKm(metres) == MathRound(metres as real / 1000.0)
  {
    var km := VisibilityKm(metres);
    var x := metres as real / 1000.0;
    assert (1000 * km - 500) as real <= metres as real < (1000 * km + 500) as real;
    assert km as real - 0.5 <= x < km as real + 0.5;
    var n := MathRound(x);
    assert n as real - 0.5 <= x < n as real + 0.5;
    assert n - 1 < km < n + 1;
  }

  /** What the card component renders. */
  datatype CardView =
    | Skeleton
    | Placeholder
    | Details(name: string, icon: Icon, description: string,
              humidity: real, windSpeed: real, pressure: real, visibilityKm: int)
      /** The reading has no first condition: reading `weather[0].main` throws while rendering. */
    | RenderFailure

  /** WeatherCard: the early returns for loading and for a missing reading, then the details. */
  function RenderCard(weatherData: Option<WeatherData>, loading: bool): (v: CardView)
    ensures loading ==> v == Skeleton
    ensures !loading && weatherData.None? ==> v == Placeholder
    ensures !loading && weatherData.Some? && |weatherData.value.weather| == 0 ==> v == RenderFailure
    ensures !loading && weatherData.Some? && |weatherData.value.weather| > 0 ==>
      var d := weatherData.value;
      && v.Details?
      && v.name == d.name
      && v.icon == GetWeatherIcon(d.weather[0].main)
      && v.description == d.weather[0].description
      && v.humidity == d.humidity && v.windSpeed == d.windSpeed && v.pressure == d.pressure
      && v.visibilityKm == VisibilityKm(d.visibility)
  {
    if loading then Skeleton
    else if weatherData.None? then Placeholder
    else
      var d := weatherData.value;
      if |d.weather| == 0 then RenderFailure
      else Details(d.name, GetWeatherIcon(d.weather[0].main), d.weather[0].description,
                   d.humidity, d.windSpeed, d.pressure, VisibilityKm(d.visibility))
  }

  /** While loading, what the card shows does not depend on the reading at all. */
  lemma LoadingTakesPrecedence(d1: Option<WeatherData>, d2: Option<WeatherData>)
    ensures RenderCard(d1, true) == RenderCard(d2, true) == Skeleton
  {
  }
}
