# Weather Studio: a verified model of the weather components

Weather Studio is a single-page weather viewer. The user enters an
OpenWeatherMap API key and a city, or asks for the weather at their
position. The page then shows a card with the reading, paints a background
gradient chosen from the reported condition, and lays an animated overlay
on top: rain drops, clouds, snow flakes, sun rays or lightning. A separate
toggle switches between a dark and a light theme and remembers the choice
in local storage.

The project models the four components that hold this logic. Each one is a
Dafny module:

- `WeatherApp` (weather_app.dfy) models the page shell:
  - the condition-to-background classifier;
  - the page state cells (`apiKey`, `city`, `weatherData`, `loading`, the background), plus the toasts shown;
  - the `openweather-api-key` storage slot;
  - the two fetch paths, the API-key load/save effects on mount, the input fields, and the `weatherType` handed to the overlay.

  The pure transitions are functions over a `Shell` value. The `WeatherApp` class holds the same cells as fields, and each method is proved to produce exactly its transition. The invariant `Consistent` is proved to survive every user action. It says that nothing is loading, that the background matches the reading it was computed from, and that a non-blank key is the one in the store.
- `WeatherCard` (weather_card.dfy) models the card. It covers the icon classifier, the choice between skeleton, placeholder and details, and the visibility in kilometres.
- `WeatherAnimations` (weather_animations.dfy) models the overlay:
  - the substring flags for each decoration;
  - the three particle generators;
  - the effect, which regenerates only the arrays whose flag holds and reruns only when the weather type changes;
  - the rendered scene.

  `Math.random` is a parameter `random: nat -> real` whose k-th value is the k-th draw. The draws are taken in the order the source makes them.
- `ThemeToggle` (theme_toggle.dfy) models the dark-mode flag, the `weather-theme` storage slot, the calls made to the `onThemeChange` callback, the load effect and the toggle.
- `Text` (text.dfy) models the JavaScript string operations the components use:
  - `trim`, with the exact ECMAScript whitespace set;
  - `toLowerCase`, for ASCII;
  - `includes`.
- `Reading` (reading.dfy) holds the reading type. `Wrappers` (wrappers.dfy) holds `Option`.

The network request is replaced by its outcome: `Ok(reading)` or `Err`. `Err` stands for a network failure, a non-2xx status or a body that does not parse. The browser's geolocation answer is an input: `Unsupported`, `Denied` or `Granted`.

The provider may send a reading whose `weather` list is empty. The source stores that reading (and, on the position path, its `name` as the city) before it reads `weather[0].main`. That read then throws, so the catch shows the "Error" toast and the old background stays. The model does the same. With such a reading stored, the card's own `weather[0]` read fails as well; the model gives this its own view, `RenderFailure`.

## Model

| member | source | states |
|---|---|---|
| Text.TrimStart | src/components/weather/WeatherApp.tsx:56 | the result is a suffix of the input; every character it drops is whitespace; it does not start with whitespace |
| Text.TrimEnd | src/components/weather/WeatherApp.tsx:56 | the result is a prefix of the input; every character it drops is whitespace; it does not end with whitespace |
| Text.IsBlank | src/components/weather/WeatherApp.tsx:56 | the blank test behind every `!x.trim()` guard: all characters are whitespace (tied to `trim` by TrimEmptyIffBlank) |
| Text.Trim | src/components/weather/WeatherApp.tsx:56 | `trim` returns the middle of its input between an all-whitespace start and an all-whitespace end, and a non-empty result neither starts nor ends with whitespace |
| Text.TrimEmptyIffBlank | src/components/weather/WeatherApp.tsx:56 | `!s.trim()` holds exactly when every character of `s` is whitespace (both directions) |
| Text.LowerChar | src/components/weather/WeatherApp.tsx:38 | each capital `A`–`Z` becomes its own small letter (code point + 32); the result is never a capital; any other character is unchanged |
| Text.Lower | src/components/weather/WeatherApp.tsx:38 | `toLowerCase` keeps the length and lower-cases each character in place |
| Text.LowerFixesLower | src/components/weather/WeatherApp.tsx:38 | lower-casing a string that has no upper-case letter gives the same string |
| Text.LowerIdempotent | src/components/weather/WeatherApp.tsx:38 | lower-casing gives a lower-case string, so doing it twice is the same as doing it once |
| Text.Contains | src/components/weather/WeatherAnimations.tsx:14 | `includes`: the pattern occurs at some index (used through ContainsAt and AbsentCharExcludes) |
| Text.ContainsAt | src/components/weather/WeatherAnimations.tsx:14 | `includes` holds when the pattern occurs at some index |
| Text.AbsentCharExcludes | src/components/weather/WeatherAnimations.tsx:14 | `includes` fails when the string lacks a character of the pattern |
| Text.EmptyContainsNothing | src/components/weather/WeatherAnimations.tsx:14 | the empty string includes no non-empty pattern |
| WeatherApp.ClassName | src/components/weather/WeatherApp.tsx:37-53 | every background is one of the five `bg-gradient-*` classes |
| WeatherApp.ClassNameInjective | src/components/weather/WeatherApp.tsx:37-53 | distinct backgrounds have distinct class names |
| WeatherApp.GetWeatherBackground | src/components/weather/WeatherApp.tsx:37-53 | the switch on the lower-cased category; its table is stated by BackgroundCases |
| WeatherApp.BackgroundCases | src/components/weather/WeatherApp.tsx:37-53 | sunny iff the lower-cased input is `clear`; rainy iff `rain` or `drizzle`; snowy iff `snow`; stormy iff `thunderstorm`; cloudy iff `clouds` or none of the six cases |
| WeatherApp.BackgroundCaseInsensitive | src/components/weather/WeatherApp.tsx:38 | the background of a string equals the background of its lower-cased form |
| WeatherApp.ProviderCategoryBackgrounds | src/components/weather/WeatherApp.tsx:39-49 | the provider's spellings map as named: `Clear` sunny, `Clouds` cloudy, `Rain` and `Drizzle` rainy, `Snow` snowy, `Thunderstorm` stormy |
| WeatherApp.PartialWordsAreCloudy | src/components/weather/WeatherApp.tsx:38-51 | `cloud`, `storm` and `thunder` are not cases, so each falls back to cloudy |
| WeatherApp.IconBackground | src/components/weather/WeatherCard.tsx:28-44 | the bucket an icon stands for is a bijection between the five icons and the five backgrounds |
| WeatherApp.IconAgreesWithBackground | src/components/weather/WeatherCard.tsx:28-44 | for every string, the card icon's bucket equals the background `getWeatherBackground` chooses |
| WeatherApp.DecorationFollowsBackground | src/components/weather/WeatherAnimations.tsx:14-49 | the lower-cased category behind a sunny, rainy, snowy or stormy background also switches on the sun, rain, snow or lightning decoration |
| WeatherApp.InitialShell | src/components/weather/WeatherApp.tsx:30-34 | the first render has key `""`, city `London`, no reading, not loading, a cloudy background and no toasts |
| WeatherApp.WeatherType | src/components/weather/WeatherApp.tsx:179 | `weatherType` is lower-case; it is `""` without a first condition, and otherwise the lower-cased `weather[0].main` |
| WeatherApp.Started | src/components/weather/WeatherApp.tsx:74 | `setLoading(true)` sets the flag and changes nothing else |
| WeatherApp.Settled | src/components/weather/WeatherApp.tsx:75-100 | key and store are kept, loading ends false, one toast is appended. `Err` changes nothing else. `Ok(d)` stores `d` (and on the position path its name as the city). With a first condition it sets the background from it and shows the success toast; without one it keeps the background and shows the error toast |
| WeatherApp.AfterFetch | src/components/weather/WeatherApp.tsx:55-101 | a blank key gives only "API Key Required"; a non-blank key with a blank city gives only "City Required"; otherwise the request runs and settles on the city path |
| WeatherApp.AfterLocate | src/components/weather/WeatherApp.tsx:103-162 | no geolocation gives its toast; a refusal gives "Location access denied"; a position with a blank key gives "API Key Required"; otherwise the request runs and settles without the city being checked |
| WeatherApp.SaveApiKey | src/components/weather/WeatherApp.tsx:173-177 | the save effect writes the key, untrimmed, exactly when it is non-blank |
| WeatherApp.AfterMount | src/components/weather/WeatherApp.tsx:165-177 | a present, non-empty stored key becomes `apiKey`; a missing or empty one leaves it; nothing but key and store changes |
| WeatherApp.AfterApiKeyEdit | src/components/weather/WeatherApp.tsx:212 | typing sets the key; the store receives it only when it changed and is non-blank; nothing else changes |
| WeatherApp.AfterCityEdit | src/components/weather/WeatherApp.tsx:233 | typing sets the city and nothing else |
| WeatherApp.InitialConsistent | src/components/weather/WeatherApp.tsx:30-34 | the first render satisfies the page invariant |
| WeatherApp.FetchPreservesConsistent | src/components/weather/WeatherApp.tsx:55-101 | a fetch by city keeps the page invariant |
| WeatherApp.LocatePreservesConsistent | src/components/weather/WeatherApp.tsx:103-162 | a fetch by position keeps the page invariant |
| WeatherApp.MountPreservesConsistent | src/components/weather/WeatherApp.tsx:165-177 | the mount effects keep the page invariant |
| WeatherApp.EditsPreserveConsistent | src/components/weather/WeatherApp.tsx:212-233 | typing in either field keeps the page invariant |
| WeatherApp.WeatherTypeSelectsBackground | src/components/weather/WeatherApp.tsx:179-184 | on a consistent page, the `weatherType` given to the overlay selects the background on show |
| WeatherApp.CardIconMatchesBackground | src/components/weather/WeatherApp.tsx:259 | on a consistent page with a reading, the card shows details whose icon is the bucket of the background on show |
| WeatherApp.BlankKeyOnlyWarns | src/components/weather/WeatherApp.tsx:56-63 | a blank key issues no request and appends exactly one "API Key Required", even with a blank city; nothing else changes |
| WeatherApp.FailureKeepsReading | src/components/weather/WeatherApp.tsx:80-82 | on `Err`, reading, background and city are unchanged, one "Error" toast is appended and loading ends false |
| WeatherApp.RainReadingRainsOnScreen | src/components/weather/WeatherApp.tsx:84-86 | a fetched `Rain` reading gives the rainy background, weather type `rain`, and after the overlay's effect 150 drops |
| WeatherApp.RainTypeRainsOnScreen | src/components/weather/WeatherAnimations.tsx:14-20 | once the effect has run for type `rain`, the overlay draws 150 drops |
| WeatherApp.ApiKeySurvivesReload | src/components/weather/WeatherApp.tsx:165-177 | a non-blank key typed in is the key a reload starts with |
| WeatherApp.MountKeepsStore | src/components/weather/WeatherApp.tsx:165-177 | on a consistent page, the mount effects never change the store |
| WeatherApp.OnlyNonBlankKeysStored | src/components/weather/WeatherApp.tsx:173-177 | any change to the store writes exactly the typed key, and that key is non-blank |
| WeatherApp.WeatherApp.constructor | src/components/weather/WeatherApp.tsx:30-34 | the fields hold the initial state, which is consistent |
| WeatherApp.WeatherApp.Mount | src/components/weather/WeatherApp.tsx:165-177 | running the two storage effects leaves the state `AfterMount` and keeps the invariant |
| WeatherApp.WeatherApp.EditApiKey | src/components/weather/WeatherApp.tsx:212 | leaves the state `AfterApiKeyEdit` and keeps the invariant |
| WeatherApp.WeatherApp.EditCity | src/components/weather/WeatherApp.tsx:233 | leaves the state `AfterCityEdit` and keeps the invariant |
| WeatherApp.WeatherApp.Settle | src/components/weather/WeatherApp.tsx:75-100 | updating the fields step by step leaves the state `Settled` |
| WeatherApp.WeatherApp.FetchWeather | src/components/weather/WeatherApp.tsx:55-101 | issues a request exactly when key and city are non-blank, leaves the state `AfterFetch`, and keeps the invariant |
| WeatherApp.WeatherApp.GetCurrentLocation | src/components/weather/WeatherApp.tsx:103-162 | issues a request exactly when a position is granted and the key is non-blank, leaves the state `AfterLocate`, and keeps the invariant |
| WeatherApp.WeatherApp.CurrentWeatherType | src/components/weather/WeatherApp.tsx:179 | the type handed to the overlay is `WeatherType` of the current reading (`""` without a condition, otherwise the lower-cased `weather[0].main`), and it selects the background on show |
| WeatherCard.GetWeatherIcon | src/components/weather/WeatherCard.tsx:28-44 | the switch on the lower-cased category; its table is stated by IconCases |
| WeatherCard.IconCases | src/components/weather/WeatherCard.tsx:28-44 | Sun iff the lower-cased input is `clear`; CloudRain iff `rain` or `drizzle`; CloudSnow iff `snow`; Zap iff `thunderstorm`; Cloud iff `clouds` or none of the six cases |
| WeatherCard.IconCaseInsensitive | src/components/weather/WeatherCard.tsx:29 | the icon of a string equals the icon of its lower-cased form |
| WeatherCard.IconIgnoresCase | src/components/weather/WeatherCard.tsx:29 | two strings that lower-case alike get the same icon |
| WeatherCard.MathRound | src/components/weather/WeatherCard.tsx:121 | `Math.round` is the integer within half a unit, halves rounding up |
| WeatherCard.VisibilityKm | src/components/weather/WeatherCard.tsx:121 | the kilometres shown are within 500 m of the visibility |
| WeatherCard.VisibilityIsRoundedQuotient | src/components/weather/WeatherCard.tsx:121 | for every integer number of metres, `(v + 500) / 1000` equals `Math.round(v / 1000)` |
| WeatherCard.RenderCard | src/components/weather/WeatherCard.tsx:46-128 | loading gives the skeleton; otherwise no reading gives the placeholder; a reading without a first condition fails; otherwise the name, `weather[0]`'s icon and description, humidity, wind, pressure and visibility in km |
| WeatherCard.LoadingTakesPrecedence | src/components/weather/WeatherCard.tsx:47-60 | while loading, the card is the skeleton whatever the reading |
| WeatherAnimations.ShowsRain | src/components/weather/WeatherAnimations.tsx:14 | rain is on iff the type includes `rain` or `drizzle` (the same test guards the render at line 57) |
| WeatherAnimations.ShowsClouds | src/components/weather/WeatherAnimations.tsx:24 | clouds are on iff the type includes `cloud` (the same test guards the render at line 74) |
| WeatherAnimations.ShowsSnow | src/components/weather/WeatherAnimations.tsx:35 | snow is on iff the type includes `snow` (the same test guards the render at line 96) |
| WeatherAnimations.ShowsSun | src/components/weather/WeatherAnimations.tsx:49 | the sun rays are on iff the type includes `clear` |
| WeatherAnimations.ShowsLightning | src/components/weather/WeatherAnimations.tsx:115 | lightning is on iff the type includes `thunder` or `storm` |
| WeatherAnimations.GenerateRain | src/components/weather/WeatherAnimations.tsx:15-19 | exactly 150 drops with ids 0..149 in order |
| WeatherAnimations.GenerateClouds | src/components/weather/WeatherAnimations.tsx:25-30 | exactly 5 shapes with ids 0..4 in order |
| WeatherAnimations.GenerateSnow | src/components/weather/WeatherAnimations.tsx:36-41 | exactly 50 flakes with ids 0..49 in order |
| WeatherAnimations.GeneratedParticlesInRange | src/components/weather/WeatherAnimations.tsx:15-41 | with draws in [0,1): drops have left in [0,100) and delay in [0,2); clouds have top in [10,40), size in [60,140) and delay in [0,20); flakes have left in [0,100), size in [2,6) and delay in [0,3) |
| WeatherAnimations.RainReadsOnlyItsDraws | src/components/weather/WeatherAnimations.tsx:15-19 | the 150 drops depend only on the 300 draws from their offset on: two sources that agree there give the same drops |
| WeatherAnimations.CloudsReadOnlyTheirDraws | src/components/weather/WeatherAnimations.tsx:25-30 | the 5 shapes depend only on the 15 draws from their offset on |
| WeatherAnimations.SnowReadsOnlyItsDraws | src/components/weather/WeatherAnimations.tsx:36-41 | the 50 flakes depend only on the 150 draws from their offset on |
| WeatherAnimations.Regenerate | src/components/weather/WeatherAnimations.tsx:12-44 | the effect replaces exactly the arrays whose flag holds, in rain, cloud, snow order on one stream of draws: clouds start after the rain draws (300 when rain is on, else 0) and snow after the cloud draws (15 when clouds are on, else 0); the others keep their contents |
| WeatherAnimations.RegeneratePreservesWellFormed | src/components/weather/WeatherAnimations.tsx:12-44 | after the effect, every array is empty or fully generated with fields in range, and every array the type shows is full |
| WeatherAnimations.RainDuration | src/components/weather/WeatherAnimations.tsx:66 | a rain drop's duration lies in [0.8,1.2) s |
| WeatherAnimations.SnowDuration | src/components/weather/WeatherAnimations.tsx:107 | a snow flake's duration lies in [2,4) s |
| WeatherAnimations.GeneratedCloudViews | src/components/weather/WeatherAnimations.tsx:76-88 | each generated shape is drawn, in order, at its top, width and delay |
| WeatherAnimations.RenderScene | src/components/weather/WeatherAnimations.tsx:46-119 | sun rays iff `clear`, lightning iff `thunder` or `storm`. Drops, clouds and flakes appear only under their flags. Drops and flakes are drawn in array order with their key and fields and a duration in range. Clouds are the generated shapes followed by the two fixed layers |
| WeatherAnimations.SceneAfterEffect | src/components/weather/WeatherAnimations.tsx:12-117 | once the effect has run, the overlay shows 150 drops, 5 + 2 clouds and 50 flakes for the flags that hold and none for the others; drop and flake keys are 0..n-1 |
| WeatherAnimations.ClearShowsOnlySun | src/components/weather/WeatherAnimations.tsx:49-117 | type `clear` draws the sun rays and nothing else, whatever the arrays hold |
| WeatherAnimations.ThunderstormIsNotRain | src/components/weather/WeatherAnimations.tsx:14-117 | type `thunderstorm` switches lightning on and rain off |
| WeatherAnimations.EmptyTypeShowsNothing | src/components/weather/WeatherAnimations.tsx:14-115 | type `""` switches every decoration off |
| WeatherAnimations.FlagsOverlap | src/components/weather/WeatherAnimations.tsx:14-24 | the flags are not exclusive: `cloudy rain` switches on both clouds and rain |
| WeatherAnimations.Animations.constructor | src/components/weather/WeatherAnimations.tsx:8-10 | the three arrays start empty, before any effect has run |
| WeatherAnimations.Animations.Update | src/components/weather/WeatherAnimations.tsx:12-44 | the effect reruns only when the type differs from the previous render's, and then overwrites the arrays as `Regenerate` says; well-formedness is kept |
| WeatherAnimations.Animations.View | src/components/weather/WeatherAnimations.tsx:46-119 | after the effect, the overlay has 150 drops, 7 clouds and 50 flakes for the flags that hold and none for the others |
| ThemeToggle.ThemeValue | src/components/weather/ThemeToggle.tsx:26 | the stored value is `dark` or `light`, and `dark` exactly for dark mode |
| ThemeToggle.Loaded | src/components/weather/ThemeToggle.tsx:12-20 | a non-empty saved value sets the flag to (`value == "dark"`) and reports it to the callback; a missing or empty value changes nothing |
| ThemeToggle.Toggled | src/components/weather/ThemeToggle.tsx:22-27 | the toggle negates the flag, reports the new flag, and stores its value |
| ThemeToggle.StoreRoundTrip | src/components/weather/ThemeToggle.tsx:16-26 | loading back a stored flag's value gives that flag |
| ThemeToggle.ReloadAfterToggle | src/components/weather/ThemeToggle.tsx:10-26 | a fresh component (dark, no callbacks) mounted over the toggled store loads the toggled flag, reports it once, and leaves the store as it was |
| ThemeToggle.ToggleTwice | src/components/weather/ThemeToggle.tsx:23-26 | two toggles restore the flag, and the stored value too if it matched the flag; the callback sees both flags in order |
| ThemeToggle.ThemeToggle.constructor | src/components/weather/ThemeToggle.tsx:10 | the toggle starts in dark mode over whatever the store holds, with no callback yet |
| ThemeToggle.ThemeToggle.LoadSavedTheme | src/components/weather/ThemeToggle.tsx:12-20 | the load effect leaves the state `Loaded` |
| ThemeToggle.ThemeToggle.ToggleTheme | src/components/weather/ThemeToggle.tsx:22-27 | the click handler leaves the state `Toggled` |
| ThemeToggle.ThemeToggle.Icon | src/components/weather/ThemeToggle.tsx:36-40 | the button shows the sun exactly in dark mode and the moon exactly in light mode |

## Left out

- The HTTP request is not modelled: URL building (including the unencoded `city`), `fetch`, status checks and JSON parsing. Their combined outcome is the `Response` parameter.
- The geolocation API is not modelled, and neither are the coordinates it returns. The browser's answer is a parameter, and the coordinates appear only inside the request that is abstracted away.
- Concurrency is not modelled, because each fetch is treated as atomic. That leaves out:
  - overlapping requests and which response wins;
  - the Enter key in the city field, which calls `fetchWeather` even while `disabled={loading}` blocks the buttons.
- Toasts are recorded by title and variant only. Their descriptions are display text.
- JSX layout, CSS classes other than the background, lucide components and the toast UI are left out. Icons are enum tags.
- CSS value formatting is left out: the `%`, `px` and `s` suffixes, a cloud's height from `parseInt(size) * 0.6`, and the fixed layers' heights and the `25s` duration. Fields are kept as the numbers they format.
- The card's temperature and feels-like values are not modelled. They are floating-point display rounding of values the model does not reason about.
- Text.Lower: only ASCII `A`–`Z` are case-mapped; the Unicode case mapping of `toLowerCase` for other letters is not modelled.
- WeatherCard.VisibilityKm: visibility is an integral number of metres; the floating-point division and rounding of fractional values is not modelled.
- `Math.random` is not modelled. Its values are the `random` parameter, assumed to lie in [0,1).
- Floating point is not modelled: particle fields, durations and the visibility quotient are exact reals. The half-open ranges in WeatherAnimations.GeneratedParticlesInRange, WeatherAnimations.RainDuration and WeatherAnimations.SnowDuration hold in real arithmetic only. In IEEE doubles a draw just below 1 can round a field onto its upper bound; for example `r * 80 + 60` can give exactly 140.
- A new `onThemeChange` identity makes the theme load effect run again; the model runs it once, on mount.
- A render in which the weather type changes draws the previous arrays before the effect replaces them. The model's views are taken after the effect has run.
- `tailwind.config.ts` is static styling configuration and is not part of this model.
