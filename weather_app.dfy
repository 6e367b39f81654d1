/**
 * The weather shell: the background classifier, the state cells of the
 * page, and how fetching (by city or by position), the API-key storage
 * effects and the input fields change them.
 *
 * The network request is replaced by its outcome, a `Response`; the
 * geolocation prompt by a `Geolocation` answer. Each fetch runs to
 * completion before the next user action.
 */
module WeatherApp {

  import opened Text
  import opened Wrappers
  import opened Reading
  import opened WeatherCard
  import opened WeatherAnimations

  /** The five background gradients. */
  datatype Background = Sunny | Cloudy | Rainy | Snowy | Stormy

  /** The CSS class of a background. */
  function ClassName(b: Background): (c: string)
    ensures c in {"bg-gradient-sunny", "bg-gradient-cloudy", "bg-gradient-rainy", "bg-gradient-snowy", "bg-gradient-stormy"}
  {
    match b
    case Sunny => "bg-gradient-sunny"
    case Cloudy => "bg-gradient-cloudy"
    case Rainy => "bg-gradient-rainy"
    case Snowy => "bg-gradient-snowy"
    case Stormy => "bg-gradient-stormy"
  }

  /** Distinct backgrounds have distinct class names. */
  lemma ClassNameInjective(a: Background, b: Background)
    requires ClassName(a) == ClassName(b)
    ensures a == b
  {
  }

  /**
   * getWeatherBackground: an exact match on the lower-cased category,
   * falling back to cloudy.
   */
  function GetWeatherBackground(weatherMain: string): (b: Background)
  {
    var category := Lower(weatherMain);
    if category == "clear" then Sunny
    else if category == "clouds" then Cloudy
    else if category == "rain" || category == "drizzle" then Rainy
    else if category == "snow" then Snowy
    else if category == "thunderstorm" then Stormy
    else Cloudy
  }

  /**
   * The background table: each gradient and the lower-cased categories
   * that select it; anything unrecognised is cloudy.
   */
  lemma BackgroundCases(weatherMain: string)
    ensures GetWeatherBackground(weatherMain) == Sunny <==> Lower(weatherMain) == "clear"
    ensures GetWeatherBackground(weatherMain) == Rainy <==> Lower(weatherMain) == "rain" || Lower(weatherMain) == "drizzle"
    ensures GetWeatherBackground(weatherMain) == Snowy <==> Lower(weatherMain) == "snow"
    ensures GetWeatherBackground(weatherMain) == Stormy <==> Lower(weatherMain) == "thunderstorm"
    ensures GetWeatherBackground(weatherMain) == Cloudy <==> Lower(weatherMain) == "clouds" || Lower(weatherMain) !in KnownCategories
  {
  }

  /** The background depends on the category only up to case. */
  lemma BackgroundCaseInsensitive(weatherMain: string)
    ensures GetWeatherBackground(weatherMain) == GetWeatherBackground(Lower(weatherMain))
  {
    LowerIdempotent(weatherMain);
  }

  /** The categories the provider reports, as it spells them. */
  lemma ProviderCategoryBackgrounds()
    ensures GetWeatherBackground("Clear") == Sunny
    ensures GetWeatherBackground("Clouds") == Cloudy
    ensures GetWeatherBackground("Rain") == Rainy && GetWeatherBackground("Drizzle") == Rainy
    ensures GetWeatherBackground("Snow") == Snowy
    ensures GetWeatherBackground("Thunderstorm") == Stormy
  {
    assert Lower("Clear") == "clear";
    assert Lower("Clouds") == "clouds";
    assert Lower("Rain") == "rain";
    assert Lower("Drizzle") == "drizzle";
    assert Lower("Snow") == "snow";
    assert Lower("Thunderstorm") == "thunderstorm";
  }

  /** Words that are only part of a category are not cases of the match: they fall back to cloudy. */
  lemma PartialWordsAreCloudy()
    ensures GetWeatherBackground("cloud") == Cloudy
    ensures GetWeatherBackground("storm") == Cloudy && GetWeatherBackground("thunder") == Cloudy
  {
    LowerFixesLower("cloud");
    LowerFixesLower("storm");
    LowerFixesLower("thunder");
  }

  /** The background an icon stands for. */
  function IconBackground(icon: Icon): (b: Background)
    ensures icon == Sun <==> b == Sunny
    ensures icon == Cloud <==> b == Cloudy
    ensures icon == CloudRain <==> b == Rainy
    ensures icon == CloudSnow <==> b == Snowy
    ensures icon == Zap <==> b == Stormy
  {
    match icon
    case Sun => Sunny
    case Cloud => Cloudy
    case CloudRain => Rainy
    case CloudSnow => Snowy
    case Zap => Stormy
  }

  /** The card's icon and the page's background always pick the same bucket. */
  lemma IconAgreesWithBackground(weatherMain: string)
    ensures IconBackground(GetWeatherIcon(weatherMain)) == GetWeatherBackground(weatherMain)
  {
  }

  /**
   * Every background other than cloudy comes with its decoration: the
   * lower-cased category that selects it also switches that decoration on.
   */
  lemma DecorationFollowsBackground(weatherMain: string)
    ensures GetWeatherBackground(weatherMain) == Sunny ==> ShowsSun(Lower(weatherMain))
    ensures GetWeatherBackground(weatherMain) == Rainy ==> ShowsRain(Lower(weatherMain))
    ensures GetWeatherBackground(weatherMain) == Snowy ==> ShowsSnow(Lower(weatherMain))
    ensures GetWeatherBackground(weatherMain) == Stormy ==> ShowsLightning(Lower(weatherMain))
  {
    var category := Lower(weatherMain);
    if category == "clear" || category == "rain" || category == "drizzle" || category == "snow" {
      ContainsAt(category, category, 0);
    } else if category == "thunderstorm" {
      ContainsAt(category, "thunder", 0);
    }
  }

  // The page state.

  /** A notification: its title and whether it is shown as destructive. */
  datatype Toast = Toast(title: string, destructive: bool)

  const ApiKeyRequired := Toast("API Key Required", true)
  const CityRequired := Toast("City Required", true)
  const FetchFailed := Toast("Error", true)
  const WeatherUpdated := Toast("Weather Updated", false)
  const LocationWeatherUpdated := Toast("Location Weather Updated", false)
  const GeolocationUnsupported := Toast("Geolocation not supported", true)
  const LocationDenied := Toast("Location access denied", true)

  /** The outcome of a request: a parsed reading, or a failure (network, non-2xx status, bad body). */
  datatype Response = Ok(data: WeatherData) | Err

  /** The browser's answer to a position request. */
  datatype Geolocation = Unsupported | Denied | Granted

  /** The state cells of the page plus the `openweather-api-key` storage slot and the toasts shown. */
  datatype Shell = Shell(
    apiKey: string,
    city: string,
    weatherData: Option<WeatherData>,
    loading: bool,
    background: Background,
    toasts: seq<Toast>,
    savedApiKey: Option<string>)

  /** The `useState` initial values, over whatever the store already holds. */
  function InitialShell(stored: Option<string>): (s: Shell)
    ensures s.apiKey == "" && s.city == "London" && s.weatherData == None
    ensures !s.loading && s.background == Cloudy && s.toasts == [] && s.savedApiKey == stored
  {
    Shell("", "London", None, false, Cloudy, [], stored)
  }

  /** The reading has a first condition. */
  predicate HasCondition(d: Option<WeatherData>) {
    d.Some? && |d.value.weather| > 0
  }

  /** `weatherData?.weather[0]?.main?.toLowerCase() || ''`. */
  function WeatherType(d: Option<WeatherData>): (t: string)
    ensures IsLower(t)
    ensures !HasCondition(d) ==> t == ""
    ensures HasCondition(d) ==> t == Lower(d.value.weather[0].main)
  {
    LowerIdempotent(if HasCondition(d) then d.value.weather[0].main else "");
    if HasCondition(d) then Lower(d.value.weather[0].main) else ""
  }

  /** `setLoading(true)`: the state shown while the request is in flight. */
  function Started(s: Shell): (t: Shell)
    ensures t.loading && t.(loading := s.loading) == s
  {
    s.(loading := true)
  }

  /**
   * The `try`/`catch`/`finally` after a request. The reading is stored
   * before `weather[0].main` is read: a reading without conditions
   * replaces the old one and then fails as an error. The position path
   * also takes the reading's `name` as the city.
   */
  function Settled(s: Shell, response: Response, byPosition: bool): (t: Shell)
    ensures t.apiKey == s.apiKey && t.savedApiKey == s.savedApiKey && !t.loading
    ensures |t.toasts| == |s.toasts| + 1 && t.toasts[..|s.toasts|] == s.toasts
    ensures response.Err? ==> t == s.(loading := false, toasts := s.toasts + [FetchFailed])
    ensures response.Ok? ==>
      && t.weatherData == Some(response.data)
      && t.city == (if byPosition then response.data.name else s.city)
    ensures response.Ok? && |response.data.weather| == 0 ==>
      t.background == s.background && t.toasts[|s.toasts|] == FetchFailed
    ensures response.Ok? && |response.data.weather| > 0 ==>
      && t.background == GetWeatherBackground(response.data.weather[0].main)
      && t.toasts[|s.toasts|] == (if byPosition then LocationWeatherUpdated else WeatherUpdated)
  {
    match response
    case Err => s.(loading := false, toasts := s.toasts + [FetchFailed])
    case Ok(d) =>
      var stored := s.(weatherData := Some(d), city := if byPosition then d.name else s.city);
      if |d.weather| == 0 then
        stored.(loading := false, toasts := s.toasts + [FetchFailed])
      else
        stored.(background := GetWeatherBackground(d.weather[0].main), loading := false,
                toasts := s.toasts + [if byPosition then LocationWeatherUpdated else WeatherUpdated])
  }

  /** fetchWeather issues a request only with a non-blank key and a non-blank city. */
  predicate CityRequestAllowed(s: Shell) {
    !IsBlank(s.apiKey) && !IsBlank(s.city)
  }

  /** fetchWeather: the key guard, then the city guard, then the request. */
  function AfterFetch(s: Shell, response: Response): (t: Shell)
    ensures IsBlank(s.apiKey) ==> t == s.(toasts := s.toasts + [ApiKeyRequired])
    ensures !IsBlank(s.apiKey) && IsBlank(s.city) ==> t == s.(toasts := s.toasts + [CityRequired])
    ensures CityRequestAllowed(s) ==> t == Settled(Started(s), response, false)
  {
    if IsBlank(s.apiKey) then s.(toasts := s.toasts + [ApiKeyRequired])
    else if IsBlank(s.city) then s.(toasts := s.toasts + [CityRequired])
    else Settled(Started(s), response, false)
  }

  /** getCurrentLocation issues a request only when a position was granted and the key is non-blank. */
  predicate PositionRequestAllowed(s: Shell, geo: Geolocation) {
    geo == Granted && !IsBlank(s.apiKey)
  }

  /**
   * getCurrentLocation: unsupported and denied each give their own toast;
   * with a position, only the key is checked, never the city.
   */
  function AfterLocate(s: Shell, geo: Geolocation, response: Response): (t: Shell)
    ensures geo == Unsupported ==> t == s.(toasts := s.toasts + [GeolocationUnsupported])
    ensures geo == Denied ==> t == s.(toasts := s.toasts + [LocationDenied])
    ensures geo == Granted && IsBlank(s.apiKey) ==> t == s.(toasts := s.toasts + [ApiKeyRequired])
    ensures PositionRequestAllowed(s, geo) ==> t == Settled(Started(s), response, true)
  {
    match geo
    case Unsupported => s.(toasts := s.toasts + [GeolocationUnsupported])
    case Denied => s.(toasts := s.toasts + [LocationDenied])
    case Granted =>
      if IsBlank(s.apiKey) then s.(toasts := s.toasts + [ApiKeyRequired])
      else Settled(Started(s), response, true)
  }

  /** The save effect: a non-blank key is written (untrimmed) to the store. */
  function SaveApiKey(s: Shell): (t: Shell)
    ensures !IsBlank(s.apiKey) ==> t == s.(savedApiKey := Some(s.apiKey))
    ensures IsBlank(s.apiKey) ==> t == s
  {
    if IsBlank(s.apiKey) then s else s.(savedApiKey := Some(s.apiKey))
  }

  /**
   * The mount: the load effect reads the store, the save effect runs with
   * the key of the first render, and runs again if the load changed it.
   * `if (savedApiKey)`: only a present, non-empty value is taken.
   */
  function AfterMount(s: Shell): (t: Shell)
    ensures s.savedApiKey.Some? && s.savedApiKey.value != "" ==> t.apiKey == s.savedApiKey.value
    ensures s.savedApiKey.None? || s.savedApiKey == Some("") ==> t.apiKey == s.apiKey
    ensures t.(apiKey := s.apiKey, savedApiKey := s.savedApiKey) == s
  {
    var key := match s.savedApiKey
      case Some(k) => if k != "" then k else s.apiKey
      case None => s.apiKey;
    var firstRun := SaveApiKey(s);
    if key != s.apiKey then SaveApiKey(firstRun.(apiKey := key)) else firstRun
  }

  /** Typing in the key field: `setApiKey`, then the save effect if the value changed. */
  function AfterApiKeyEdit(s: Shell, key: string): (t: Shell)
    ensures t.apiKey == key
    ensures t.savedApiKey == if key != s.apiKey && !IsBlank(key) then Some(key) else s.savedApiKey
    ensures t.(apiKey := s.apiKey, savedApiKey := s.savedApiKey) == s
  {
    if key == s.apiKey then s else SaveApiKey(s.(apiKey := key))
  }

  /** Typing in the city field. */
  function AfterCityEdit(s: Shell, city: string): (t: Shell)
    ensures t.city == city && t.(city := s.city) == s
  {
    s.(city := city)
  }

  /**
   * What holds between user actions: no request in flight, the background
   * matches the reading it was computed from (cloudy before any reading),
   * and a non-blank key is the one in the store.
   */
  ghost predicate Consistent(s: Shell) {
    && !s.loading
    && (s.weatherData.None? ==> s.background == Cloudy)
    && (HasCondition(s.weatherData) ==> s.background == GetWeatherBackground(s.weatherData.value.weather[0].main))
    && (!IsBlank(s.apiKey) ==> s.savedApiKey == Some(s.apiKey))
  }

  lemma InitialConsistent(stored: Option<string>)
    ensures Consistent(InitialShell(stored))
  {
  }

  /** Every user action keeps the page consistent. */
  lemma FetchPreservesConsistent(s: Shell, response: Response)
    requires Consistent(s)
    ensures Consistent(AfterFetch(s, response))
  {
  }

  lemma LocatePreservesConsistent(s: Shell, geo: Geolocation, response: Response)
    requires Consistent(s)
    ensures Consistent(AfterLocate(s, geo, response))
  {
  }

  lemma MountPreservesConsistent(s: Shell)
    requires Consistent(s)
    ensures Consistent(AfterMount(s))
  {
  }

  lemma EditsPreserveConsistent(s: Shell, text: string)
    requires Consistent(s)
    ensures Consistent(AfterApiKeyEdit(s, text))
    ensures Consistent(AfterCityEdit(s, text))
  {
  }

  /** On a consistent page the animations' weather type selects the very background on show. */
  lemma WeatherTypeSelectsBackground(s: Shell)
    requires Consistent(s) && HasCondition(s.weatherData)
    ensures GetWeatherBackground(WeatherType(s.weatherData)) == s.background
  {
    BackgroundCaseInsensitive(s.weatherData.value.weather[0].main);
  }

  /** On a consistent page with a reading the card shows the icon of the background on show. */
  lemma CardIconMatchesBackground(s: Shell)
    requires Consistent(s) && HasCondition(s.weatherData)
    ensures RenderCard(s.weatherData, s.loading).Details?
    ensures IconBackground(RenderCard(s.weatherData, s.loading).icon) == s.background
  {
    IconAgreesWithBackground(s.weatherData.value.weather[0].main);
  }

  /**
   * A blank key stops fetchWeather before anything else: exactly one
   * "API Key Required" toast, even when the city is blank too, and no other change.
   */
  lemma BlankKeyOnlyWarns(s: Shell, response: Response)
    requires IsBlank(s.apiKey)
    ensures !CityRequestAllowed(s)
    ensures AfterFetch(s, response).toasts == s.toasts + [ApiKeyRequired]
    ensures AfterFetch(s, response).(toasts := s.toasts) == s
  {
  }

  /** A failed request changes neither the reading, the background nor the city. */
  lemma FailureKeepsReading(s: Shell)
    requires CityRequestAllowed(s)
    ensures var t := AfterFetch(s, Err);
      && t.weatherData == s.weatherData && t.background == s.background && t.city == s.city
      && t.toasts == s.toasts + [FetchFailed] && !t.loading
  {
  }

  /**
   * A request for "Rain" shows the rainy background and, once the
   * animations' effect has run, 150 rain drops.
   */
  lemma RainReadingRainsOnScreen(s: Shell, d: WeatherData, effectRandom: nat -> real, renderRandom: nat -> real, p: Particles)
    requires CityRequestAllowed(s) && |d.weather| > 0 && d.weather[0].main == "Rain"
    requires UnitSource(effectRandom) && UnitSource(renderRandom)
    ensures var t := AfterFetch(s, Ok(d));
      var weatherType := WeatherType(t.weatherData);
      && t.background == Rainy
      && weatherType == "rain"
      && |RenderScene(weatherType, Regenerate(p, weatherType, effectRandom), renderRandom).drops| == RainDropCount
  {
    var weatherType := WeatherType(AfterFetch(s, Ok(d)).weatherData);
    assert weatherType == "rain";
    RainTypeRainsOnScreen(weatherType, effectRandom, renderRandom, p);
  }

  lemma RainTypeRainsOnScreen(weatherType: string, effectRandom: nat -> real, renderRandom: nat -> real, p: Particles)
    requires weatherType == "rain"
    requires UnitSource(effectRandom) && UnitSource(renderRandom)
    ensures |RenderScene(weatherType, Regenerate(p, weatherType, effectRandom), renderRandom).drops| == RainDropCount
  {
    ContainsAt(weatherType, "rain", 0);
    SceneAfterEffect(p, weatherType, effectRandom, renderRandom);
  }

  /** A key typed in non-blank is the key a reload starts with. */
  lemma ApiKeySurvivesReload(s: Shell, key: string)
    requires Consistent(s) && !IsBlank(key)
    ensures AfterMount(InitialShell(AfterApiKeyEdit(s, key).savedApiKey)).apiKey == key
  {
  }

  /** The mount effects never change the store of a consistent page. */
  lemma MountKeepsStore(s: Shell)
    requires Consistent(s)
    ensures AfterMount(s).savedApiKey == s.savedApiKey
  {
  }

  /** The store only ever receives a non-blank key. */
  lemma OnlyNonBlankKeysStored(s: Shell, key: string)
    requires AfterApiKeyEdit(s, key).savedApiKey != s.savedApiKey
    ensures !IsBlank(key) && AfterApiKeyEdit(s, key).savedApiKey == Some(key)
  {
  }

  /** The WeatherApp component. */
  class WeatherApp {
    var apiKey: string
    var city: string
    var weatherData: Option<WeatherData>
    var loading: bool
    var backgroundClass: Background
    /** The toasts shown so far, oldest first. */
    var toasts: seq<Toast>
    /** `localStorage['openweather-api-key']`. */
    var savedApiKey: Option<string>

    function State(): Shell
      reads this
    {
      Shell(apiKey, city, weatherData, loading, backgroundClass, toasts, savedApiKey)
    }

    ghost predicate Valid()
      reads this
    {
      Consistent(State())
    }

    /** The first render. */
    constructor (stored: Option<string>)
      ensures Valid() && State() == InitialShell(stored)
    {
      apiKey, city, weatherData, loading := "", "London", None, false;
      backgroundClass, toasts, savedApiKey := Cloudy, [], stored;
    }

    /** The two storage effects on mount. */
    method Mount()
      requires Valid()
      modifies this
      ensures Valid() && State() == AfterMount(old(State()))
    {
      MountPreservesConsistent(State());
      var saved := savedApiKey;
      var initialKey := apiKey;
      if !IsBlank(initialKey) {
        savedApiKey := Some(initialKey);
      }
      if saved.Some? && saved.value != "" {
        apiKey := saved.value;
      }
      if apiKey != initialKey && !IsBlank(apiKey) {
        savedApiKey := Some(apiKey);
      }
    }

    /** The key field's `onChange`. */
    method EditApiKey(key: string)
      requires Valid()
      modifies this
      ensures Valid() && State() == AfterApiKeyEdit(old(State()), key)
    {
      EditsPreserveConsistent(State(), key);
      if key != apiKey {
        apiKey := key;
        if !IsBlank(apiKey) {
          savedApiKey := Some(apiKey);
        }
      }
    }

    /** The city field's `onChange`. */
    method EditCity(newCity: string)
      requires Valid()
      modifies this
      ensures Valid() && State() == AfterCityEdit(old(State()), newCity)
    {
      EditsPreserveConsistent(State(), newCity);
      city := newCity;
    }

    /** The request outcome shared by both fetch paths, from the `try` on. */
    method Settle(response: Response, byPosition: bool)
      modifies this
      ensures State() == Settled(old(State()), response, byPosition)
    {
      match response {
        case Err =>
          toasts := toasts + [FetchFailed];
        case Ok(d) =>
          weatherData := Some(d);
          if byPosition {
            city := d.name;
          }
          if |d.weather| == 0 {
            toasts := toasts + [FetchFailed];
          } else {
            backgroundClass := GetWeatherBackground(d.weather[0].main);
            toasts := toasts + [if byPosition then LocationWeatherUpdated else WeatherUpdated];
          }
      }
      loading := false;
    }

    /** fetchWeather, with the request's outcome given; `requested` says whether a request was made. */
    method FetchWeather(response: Response) returns (requested: bool)
      requires Valid()
      modifies this
      ensures requested == CityRequestAllowed(old(State()))
      ensures Valid() && State() == AfterFetch(old(State()), response)
    {
      FetchPreservesConsistent(State(), response);
      if IsBlank(apiKey) {
        toasts := toasts + [ApiKeyRequired];
        return false;
      }
      if IsBlank(city) {
        toasts := toasts + [CityRequired];
        return false;
      }
      loading := true;
      Settle(response, false);
      requested := true;
    }

    /** getCurrentLocation, with the browser's answer and the request's outcome given. */
    method GetCurrentLocation(geo: Geolocation, response: Response) returns (requested: bool)
      requires Valid()
      modifies this
      ensures requested == PositionRequestAllowed(old(State()), geo)
      ensures Valid() && State() == AfterLocate(old(State()), geo, response)
    {
      LocatePreservesConsistent(State(), geo, response);
      if geo == Unsupported {
        toasts := toasts + [GeolocationUnsupported];
        return false;
      }
      if geo == Denied {
        toasts := toasts + [LocationDenied];
        return false;
      }
      if IsBlank(apiKey) {
        toasts := toasts + [ApiKeyRequired];
        return false;
      }
      loading := true;
      Settle(response, true);
      requested := true;
    }

    /** The `weatherType` passed to the animations. */
    function CurrentWeatherType(): (t: string)
      reads this
      requires Valid()
      ensures t == WeatherType(weatherData)
      ensures HasCondition(weatherData) ==> GetWeatherBackground(t) == backgroundClass
      ensures !HasCondition(weatherData) ==> t == ""
    {
      if HasCondition(weatherData) then
        WeatherTypeSelectsBackground(State());
        WeatherType(weatherData)
      else
        WeatherType(weatherData)
    }
  }
}
