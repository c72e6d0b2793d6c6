# WeatherNow: icon classifier and fetch/display state, in Dafny

WeatherNow is a single React component (`src/App.jsx`) that looks up the
current weather for a typed city or for the device's position and renders it.
Two pieces of it are logic rather than markup or network I/O, and this project
models both:

- **The condition classifier** `getWeatherIcon`: it lowercases a free-text
  condition description and picks one of four icons (Sun, Cloud, CloudRain,
  CloudSnow) by ordered substring tests, first match wins, Cloud by default.
  It is `Conditions.WeatherIcon` (`conditions.dfy`), built on the string
  primitives of module `Text` (`text.dfy`): `Lower` for ASCII `toLowerCase`
  and `Includes` for `includes`.
- **The fetch and display state**: the four state variables `city`,
  `weather`, `loading` and `error`; the transitions of `fetchWeatherByCoords`,
  `fetchWeather` (with its local rejection of a blank city, tested with
  `Text.Trim` for `trim`), the geolocation error branches and
  `loadDemoData`; and the render's choice of panels.
  Module `WeatherModel` (`weather_model.dfy`) states each transition as a
  function on a `State` value and proves the lifecycle properties about those
  functions: `CityEdited` (the input's change handler), `RequestStarted` and
  `RequestFinished` (the shared start and the `try`/`catch`/`finally` end of
  both fetches), `CoordsFinished` (`fetchWeatherByCoords`), `CityStarted` and
  `CityFinished` (`fetchWeather`), `LocationDenied` and `LocationUnsupported`
  (the geolocation error branches), `DemoLoaded` (`loadDemoData`) and
  `Render` (the panel conditions). Module `App` (`app.dfy`) holds the
  component as a class `WeatherApp` whose fields are the four state variables. Each handler is a
  method that assigns the fields in the order the component's setters run,
  and its `ensures` ties the new fields to the transition function.

Each async fetch is split at its `await`. `BeginFetchByCoords` and
`BeginFetchWeather` run up to the network call. The state they leave is what
is on screen while the request is outstanding. `EndFetchByCoords` and
`EndFetchWeather` take the request's outcome as an input: `Success(reading)`
with the fields read from the body, or `Failure`. `Failure` covers everything
that throws inside the `try` block: a transport error, a non-2xx status, an
unparsable body, a missing nested object.

Behaviour of the component worth noting:

- The error panel is shown whenever `error` is non-empty, also while
  `loading` is true (`ErrorShownWhileLoading`). The result panel does not
  depend on `error`, so a result and an error can be shown together. A blank
  search after a successful one does exactly that (`BlankCityRejected`).
  There is no precedence of error over result.
- A fetch that succeeds leaves no error unless another handler set the
  error while its request was outstanding: the success path never calls
  `setError` (`SuccessKeepsError`). A geolocation denial given during a city
  fetch, while the permission prompt was still open
  (`DenialDuringSearchSurvivesSuccess`), or a blank search submitted with
  the Enter key while loading (`BlankSearchDuringFetchSurvivesSuccess`; only
  the button is disabled), ends with the error and the new record shown
  together.
- A description containing "rain" does not always get the rain icon. The
  earlier tests win, so "rain and clouds" gets the cloud icon (`RainAndClouds`).
- The classifier has four icons. A description that matches no test gets
  the cloud icon, the same as one that mentions clouds (`MistFallsBack`).
- `loadDemoData` is defined but nothing calls it: no handler the render
  wires up (`onChange`, `handleKeyPress`, `handleSearch`) calls it. In the
  running component a record comes only from a successful fetch, and it
  survives a blank-city rejection. `DemoLoaded`, `DemoData` and `LoadDemoData` describe what
  `loadDemoData` would do if it were called.

## Model

| member | source | states |
|---|---|---|
| Text.Lower | src/App.jsx:43 | the lowercased string has the same length and, at every index, the ASCII-lowercased character |
| Text.Trim | src/App.jsx:75 | the trimmed city is empty exactly when every character is JavaScript whitespace; otherwise it is the slice of the input between the leading and the trailing whitespace, and starts and ends with non-whitespace |
| Text.Includes | src/App.jsx:44-51 | no contract of its own: `includes` as some slice of the string equal to the pattern; NotIncludes, NotIncludesLower and IncludesLower state its properties |
| Text.NotIncludes | src/App.jsx:44 | a pattern holding a character the string lacks is not included in it |
| Text.NotIncludesLower | src/App.jsx:43-44 | a pattern holding a character that no character of the description lowercases to is not included in the lowercased description |
| Text.TrimBlank | src/App.jsx:75 | nothing is left after trimming both ends exactly when every character is whitespace |
| Text.TrimIsSlice | src/App.jsx:75 | trimming the end of the start-trimmed string leaves a slice of the original starting where the start trim stopped |
| Text.IncludesLower | src/App.jsx:43-44 | an occurrence of a word in any mix of cases is an occurrence of the lowercased word in the lowercased description |
| Conditions.WeatherIcon | src/App.jsx:42-55 | no contract of its own: the if/else chain over the lowercased description; its meaning is stated by WeatherIconIsFirstMatch and the four rule lemmas |
| Conditions.FirstMatch | src/App.jsx:42-55 | a first-match-wins rule table returns the icon of the first matching rule, or the fallback when no rule matches |
| Conditions.WeatherIconIsFirstMatch | src/App.jsx:42-55 | the if/else chain equals first-match-wins over the rules sunny, clear, cloud, rain, drizzle, snow applied to the lowercased description, with Cloud as fallback |
| Conditions.SunRule | src/App.jsx:44-45 | Sun is chosen exactly when "sunny" or "clear" occurs, whatever else occurs |
| Conditions.CloudRule | src/App.jsx:46-53 | Cloud is chosen exactly when "cloud" occurs without "sunny"/"clear", or none of the six substrings occurs |
| Conditions.RainRule | src/App.jsx:48-49 | CloudRain is chosen exactly when "rain" or "drizzle" occurs and none of "sunny", "clear", "cloud" does |
| Conditions.SnowRule | src/App.jsx:50-51 | CloudSnow is chosen exactly when "snow" occurs and all five earlier substrings are absent |
| Conditions.CaseInsensitive | src/App.jsx:43 | the icon of a description equals the icon of its lowercased form |
| Conditions.SunInAnyCase | src/App.jsx:43-45 | "sunny" or "clear" spelt in any case anywhere gives Sun |
| Conditions.RainInAnyCase | src/App.jsx:43-49 | "rain" or "drizzle" spelt in any case gives CloudRain when no earlier test matches |
| Conditions.ClearBeatsCloud | src/App.jsx:44-47 | "clear with few clouds" gets Sun: the clear test precedes the cloud test |
| Conditions.RainAndClouds | src/App.jsx:46-49 | "rain and clouds" gets Cloud: the cloud test precedes the rain test |
| Conditions.LightRainShowers | src/App.jsx:48-49 | "light rain showers" gets CloudRain |
| Conditions.LightSnow | src/App.jsx:50-51 | "light snow" gets CloudSnow |
| Conditions.MistFallsBack | src/App.jsx:52-53 | "mist" matches no test and gets the default Cloud |
| Conditions.PartlyCloudy | src/App.jsx:132 | the demo record's "Partly Cloudy" gets Cloud |
| WeatherModel.Round | src/App.jsx:26 | `Math.round`: the result is within half of the input, ties going up |
| WeatherModel.ToSnapshot | src/App.jsx:23-32 | the record copies name, country, description, humidity, pressure and wind speed, rounds the temperature and has the visibility in kilometres |
| WeatherModel.CityEdited | src/App.jsx:160 | no contract of its own: the change handler replaces the city only; App.WeatherApp.SetCity is tied to it |
| WeatherModel.RequestStarted | src/App.jsx:15-16 | no contract of its own: sets `loading` and clears the error; its meaning is stated by WaitingShowsOnlyLoading |
| WeatherModel.RequestFinished | src/App.jsx:23-38 | no contract of its own: success installs the built record, failure sets the message and clears the record, and both clear `loading`; stated by CoordsFetch, CityFetch and SuccessKeepsError |
| WeatherModel.CoordsFinished | src/App.jsx:23-38 | no contract of its own: the end of the coordinate fetch with the location message; stated by CoordsFetch |
| WeatherModel.CityStarted | src/App.jsx:75-81 | no contract of its own: a blank city is rejected with the blank-city message and no request, any other starts a request; stated by CityFetch and BlankCityRejected |
| WeatherModel.CityFinished | src/App.jsx:105-111 | no contract of its own: the end of the city fetch with the city message; stated by CityFetch |
| WeatherModel.LocationDenied | src/App.jsx:64-66 | no contract of its own: sets the denial message; stated by GeolocationErrors |
| WeatherModel.LocationUnsupported | src/App.jsx:68-69 | no contract of its own: sets the no-geolocation message; stated by GeolocationErrors |
| WeatherModel.DemoLoaded | src/App.jsx:127-139 | no contract of its own: installs the demo record and clears the error; stated by DemoData |
| WeatherModel.Render | src/App.jsx:176-193 | loading and result are never shown together; a result shows the current record with the icon of its condition; an error panel shows the non-empty error |
| WeatherModel.PanelRules | src/App.jsx:176-193 | loading panel iff `loading`; error panel iff `error` non-empty, not gated on `loading`; result panel iff a record and not `loading` |
| WeatherModel.WaitingShowsOnlyLoading | src/App.jsx:15-16 | starting a request sets `loading`, clears the error, keeps the record, and shows only the loading panel |
| WeatherModel.CoordsFetch | src/App.jsx:14-39 | when no other handler runs while the request is outstanding, a coordinate fetch ends with `loading` false; success installs the built record and leaves no error; failure clears the record and sets the location message |
| WeatherModel.CityFetch | src/App.jsx:74-112 | a city fetch for a non-blank city issues a request and, when no other handler runs while it is outstanding, has the same lifecycle, with the city message on failure |
| WeatherModel.BlankCityRejected | src/App.jsx:75-78 | a blank city issues no request and only sets "Please enter a city name"; loading and result panels stay as they were |
| WeatherModel.CompletedFetchShowsOnePanel | src/App.jsx:14-112 | when no other handler runs while the request is outstanding, after a coordinate fetch or a fetch for a non-blank city completes there is no loading panel and exactly one of error and result is shown |
| WeatherModel.SuccessKeepsError | src/App.jsx:23-37 | a successful fetch of either kind installs the record and clears `loading` but leaves `error` as it found it |
| WeatherModel.DenialDuringSearchSurvivesSuccess | src/App.jsx:64-66 | a geolocation denial given while a search for a non-blank city is outstanding survives the search's success: the denial message and the new record are shown together |
| WeatherModel.BlankSearchDuringFetchSurvivesSuccess | src/App.jsx:74-123 | a blank search submitted with Enter during a city fetch issues no request; when the fetch succeeds, the blank-city message and the new record are shown together |
| WeatherModel.ErrorShownWhileLoading | src/App.jsx:186 | a geolocation error during a pending request is shown beside the loading panel |
| WeatherModel.GeolocationErrors | src/App.jsx:64-70 | the denial and no-geolocation branches set only the error, each to its own message, which the error panel shows |
| WeatherModel.DemoData | src/App.jsx:127-139 | the demo record replaces the record, the error is cleared, `loading` is untouched; the record shows with the Cloud icon unless loading |
| WeatherModel.RoundExamples | src/App.jsx:26 | 21.8 rounds to 22, 2.5 to 3, -2.5 to -2, -0.5 to 0 |
| WeatherModel.NewYorkScenario | src/App.jsx:14-39 | a clear-sky reading of 21.8 degrees and 9000 m visibility ends showing 22 degrees, 9 km and the Sun icon, with no error |
| WeatherModel.UnknownCityScenario | src/App.jsx:74-112 | searching "Nowhereville" and failing ends with the city message and no result |
| App.WeatherApp.constructor | src/App.jsx:6-9 | the fields start as empty city, no record, not loading, no error |
| App.WeatherApp.SetCity | src/App.jsx:160 | the input handler replaces the city and nothing else |
| App.WeatherApp.BeginFetchByCoords | src/App.jsx:15-16 | the fields become the started-request state |
| App.WeatherApp.EndFetchByCoords | src/App.jsx:23-38 | the fields become the finished coordinate-fetch state for the given outcome |
| App.WeatherApp.BeginFetchWeather | src/App.jsx:75-81 | the fields and the request flag are the city-fetch start: rejection of a blank city, or the started-request state |
| App.WeatherApp.EndFetchWeather | src/App.jsx:105-111 | the fields become the finished city-fetch state for the given outcome |
| App.WeatherApp.OnLocationError | src/App.jsx:64-66 | the fields become the location-denied state |
| App.WeatherApp.OnGeolocationMissing | src/App.jsx:68-69 | the fields become the no-geolocation state |
| App.WeatherApp.LoadDemoData | src/App.jsx:127-139 | the fields become the demo-loaded state |
| App.WeatherApp.CurrentView | src/App.jsx:176-193 | the panels shown are the render of the current fields, with each panel's condition spelt out |

## Left out

- The HTTP requests, their URLs and query strings, the API key read from the build environment, and `response.json()`. These are network I/O against the provider. An outcome is an input to the `End` methods.
- How the body is read. The model takes the fields already read (`Reading`). In the code only a missing nested object (`sys`, `main`, `weather[0]`, `wind`) throws and so fails. A missing leaf field gives `undefined` in the record, except `main.temp` and `visibility`, whose absence gives `NaN` (`Math.round(undefined)`, `undefined / 1000`); the model represents neither. A missing `weather[0].description` is worse: the render then calls `getWeatherIcon` on `undefined`, and `condition.toLowerCase()` throws during rendering, so the component crashes instead of showing a result.
- WeatherModel.ToSnapshot: the temperature and visibility are exact reals. `Math.round` is modelled exactly, but the binary floating-point rounding of `visibility / 1000` is not.
- The browser geolocation API. Its success callback starts a coordinate fetch (`BeginFetchByCoords`). Its two failures are `OnLocationError` and `OnGeolocationMissing`.
- React's scheduling and `useEffect`. The Enter-key and click handlers only call `fetchWeather`. The disabled state of the search button depends only on `loading`.
- Overlapping fetches. The split `Begin`/`End` methods can be called interleaved, but no property about the last completion winning is stated. Other handlers running between a `Begin` and its `End` are covered only by the two interleaving lemmas (`DenialDuringSearchSurvivesSuccess`, `BlankSearchDuringFetchSurvivesSuccess`) and by `SuccessKeepsError`.
- The JSX markup, its styling and the icon components. The classifier returns an `Icon` value. The result panel is the record plus its icon.
- Text.Lower: lowercases ASCII letters only, not the full Unicode mapping of `toLowerCase`. Two non-ASCII characters lowercase to something holding an ASCII letter: U+212A KELVIN SIGN to `k`, and U+0130 to `i` followed by U+0307. Neither changes the icon: none of the six tested words contains `k`, none ends in `i`, and an `i` that comes from U+0130 is always followed by U+0307, which no tested word contains, so such an `i` can be neither inside nor at the end of a match. Apart from the ASCII capitals, which the model lowercases too, every other character is either unchanged by both or lowercases to non-ASCII characters that no tested word contains.
