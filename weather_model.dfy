/** The application state of the weather component, the transitions that
    change it, and the panels the component renders from it. */
module WeatherModel {
  import opened Text
  import opened Conditions

  datatype Option<T> = None | Some(value: T)

  /** The record kept in `weather` and shown by the result panel. */
  datatype Snapshot = Snapshot(
    city: string,
    country: string,
    temperature: int,
    condition: string,
    humidity: int,
    pressure: int,
    windSpeed: real,
    visibility: real)

  /** The fields the component reads from a provider response body:
      `name`, `sys.country`, `main.temp`, `weather[0].description`,
      `main.humidity`, `main.pressure`, `wind.speed` and `visibility`. */
  datatype Reading = Reading(
    name: string,
    country: string,
    temp: real,
    description: string,
    humidity: int,
    pressure: int,
    windSpeed: real,
    visibilityMeters: real)

  /** How a request ends: a parsed body, or anything that throws inside the
      `try` block (a transport error, a non-2xx status, an unparsable body). */
  datatype Outcome = Success(reading: Reading) | Failure

  /** The four state variables of the component. */
  datatype State = State(city: string, weather: Option<Snapshot>, loading: bool, error: string)

  const CoordsFailureMessage: string := "Could not get weather for your location."
  const CityFailureMessage: string := "City not found. Please try again with a valid city name."
  const EmptyCityMessage: string := "Please enter a city name"
  const LocationDeniedMessage: string := "Location access denied. Please search manually."
  const NoGeolocationMessage: string := "Geolocation is not supported by your browser."

  /** The state the component starts in: no input, no record, not loading, no error. */
  const InitialState: State := State("", None, false, "")

  /** The record `loadDemoData` installs. */
  const DemoSnapshot: Snapshot :=
    Snapshot("New York", "United States", 22, "Partly Cloudy", 65, 1013, 15.0, 10.0)

  /** `Math.round`: the nearest integer, ties going towards +infinity. */
  function Round(x: real): (n: int)
    ensures n as real - 0.5 <= x < n as real + 0.5
  {
    (x + 0.5).Floor
  }

  /** The record built from a response: the provider's fields, the
      temperature rounded to an integer and the visibility in kilometres. */
  function ToSnapshot(r: Reading): (s: Snapshot)
    ensures s.city == r.name && s.country == r.country && s.condition == r.description
    ensures s.humidity == r.humidity && s.pressure == r.pressure && s.windSpeed == r.windSpeed
    ensures s.temperature as real - 0.5 <= r.temp < s.temperature as real + 0.5
    ensures s.visibility * 1000.0 == r.visibilityMeters
  {
    Snapshot(r.name, r.country, Round(r.temp), r.description, r.humidity, r.pressure,
             r.windSpeed, r.visibilityMeters / 1000.0)
  }

  /** The input box's change handler. */
  function CityEdited(s: State, text: string): State {
    s.(city := text)
  }

  /** What both fetch functions do before they await the network. */
  function RequestStarted(s: State): State {
    s.(loading := true, error := "")
  }

  /** What both fetch functions do once the network answers: the `try`
      body on success, the `catch` block on failure, then the `finally`. */
  function RequestFinished(s: State, outcome: Outcome, failureMessage: string): State {
    match outcome
    case Success(r) => s.(weather := Some(ToSnapshot(r)), loading := false)
    case Failure => s.(error := failureMessage, weather := None, loading := false)
  }

  /** `fetchWeatherByCoords` after its request completes. */
  function CoordsFinished(s: State, outcome: Outcome): State {
    RequestFinished(s, outcome, CoordsFailureMessage)
  }

  /** `fetchWeather` up to its request: a blank city is rejected locally
      (no request), anything else starts a request. The flag says whether
      a request was issued. */
  function CityStarted(s: State): (State, bool) {
    if Trim(s.city) == [] then (s.(error := EmptyCityMessage), false)
    else (RequestStarted(s), true)
  }

  /** `fetchWeather` after its request completes. */
  function CityFinished(s: State, outcome: Outcome): State {
    RequestFinished(s, outcome, CityFailureMessage)
  }

  /** The geolocation error callback. */
  function LocationDenied(s: State): State {
    s.(error := LocationDeniedMessage)
  }

  /** The branch taken when the host offers no geolocation. */
  function LocationUnsupported(s: State): State {
    s.(error := NoGeolocationMessage)
  }

  /** `loadDemoData`. */
  function DemoLoaded(s: State): State {
    s.(weather := Some(DemoSnapshot), error := "")
  }

  /** The result panel: the record and the icon for its condition. */
  datatype ResultPanel = ResultPanel(snapshot: Snapshot, icon: Icon)

  /** The panels below the search box: a loading indicator, an error
      message, a result. */
  datatype View = View(loadingPanel: bool, errorPanel: Option<string>, resultPanel: Option<ResultPanel>)

  /** The render's panel conditions. */
  function Render(s: State): (v: View)
    ensures !(v.loadingPanel && v.resultPanel.Some?)
    ensures v.resultPanel.Some? ==>
      s.weather == Some(v.resultPanel.value.snapshot) &&
      v.resultPanel.value.icon == WeatherIcon(v.resultPanel.value.snapshot.condition)
    ensures v.errorPanel.Some? ==> v.errorPanel.value == s.error != ""
  {
    View(s.loading,
         if s.error != "" then Some(s.error) else None,
         if s.weather.Some? && !s.loading
         then Some(ResultPanel(s.weather.value, WeatherIcon(s.weather.value.condition)))
         else None)
  }

  /** Each panel's condition: loading iff `loading`; error iff the error is
      non-empty, whatever `loading` is; result iff there is a record and
      `loading` is false. */
  lemma PanelRules(s: State)
    ensures Render(s).loadingPanel <==> s.loading
    ensures Render(s).errorPanel.Some? <==> s.error != ""
    ensures Render(s).resultPanel.Some? <==> s.weather.Some? && !s.loading
  {
  }

  /** A request in flight shows only the loading panel: starting a request
      cleared the error and hides the record, which it leaves untouched. */
  lemma {:induction false} WaitingShowsOnlyLoading(s: State)
    ensures var w := RequestStarted(s);
      w.loading && w.error == "" && w.weather == s.weather && w.city == s.city &&
      Render(w) == View(true, None, None)
  {
  }

  /** The whole of `fetchWeatherByCoords`: it starts with `loading` set and
      the error cleared and ends with `loading` false; success replaces the
      record wholesale and leaves no error, failure clears the record and
      sets the location message. */
  lemma {:induction false} CoordsFetch(s: State, outcome: Outcome)
    ensures var w := RequestStarted(s);
      w.loading && w.error == "" && w.weather == s.weather
    ensures var d := CoordsFinished(RequestStarted(s), outcome);
      !d.loading && d.city == s.city &&
      (outcome.Success? ==> d.weather == Some(ToSnapshot(outcome.reading)) && d.error == "") &&
      (outcome.Failure? ==> d.weather == None && d.error == CoordsFailureMessage)
  {
  }

  /** The whole of `fetchWeather` for a city that is not blank: the same
      lifecycle as the coordinate fetch, with the city message on failure. */
  lemma {:induction false} CityFetch(s: State, outcome: Outcome)
    requires exists k :: 0 <= k < |s.city| && !IsWhiteSpace(s.city[k])
    ensures CityStarted(s).1
    ensures var w := CityStarted(s).0;
      w.loading && w.error == "" && w.weather == s.weather && w.city == s.city
    ensures var d := CityFinished(CityStarted(s).0, outcome);
      !d.loading && d.city == s.city &&
      (outcome.Success? ==> d.weather == Some(ToSnapshot(outcome.reading)) && d.error == "") &&
      (outcome.Failure? ==> d.weather == None && d.error == CityFailureMessage)
  {
  }

  /** A blank or whitespace-only city issues no request and only sets the
      error: `loading` and the record stay as they were, so a result already
      on screen stays visible next to the error. */
  lemma {:induction false} BlankCityRejected(s: State)
    requires forall k :: 0 <= k < |s.city| ==> IsWhiteSpace(s.city[k])
    ensures !CityStarted(s).1
    ensures CityStarted(s).0 == s.(error := EmptyCityMessage)
    ensures var v := Render(CityStarted(s).0);
      v.errorPanel == Some(EmptyCityMessage) &&
      v.loadingPanel == Render(s).loadingPanel && v.resultPanel == Render(s).resultPanel
  {
    assert Trim(s.city) == [];
    assert CityStarted(s) == (s.(error := EmptyCityMessage), false);
  }

  /** Once a fetch of either kind has run to completion, the loading panel
      is gone and exactly one of the error and result panels is shown; a city
      fetch is one for a city that is not blank, the only kind that issues a
      request. */
  lemma {:induction false} CompletedFetchShowsOnePanel(s: State, outcome: Outcome)
    ensures var v := Render(CoordsFinished(RequestStarted(s), outcome));
      !v.loadingPanel && (v.errorPanel.Some? <==> v.resultPanel.None?)
    ensures (exists k :: 0 <= k < |s.city| && !IsWhiteSpace(s.city[k])) ==>
      CityStarted(s).1 &&
      var v := Render(CityFinished(CityStarted(s).0, outcome));
      !v.loadingPanel && (v.errorPanel.Some? <==> v.resultPanel.None?)
  {
    if Trim(s.city) != [] {
      assert CityStarted(s) == (RequestStarted(s), true);
    }
  }

  /** The success path never touches `error`: whatever error is present
      when a request succeeds stays, for either fetch. */
  lemma {:induction false} SuccessKeepsError(s: State, r: Reading)
    ensures CoordsFinished(s, Success(r)) == s.(weather := Some(ToSnapshot(r)), loading := false)
    ensures CityFinished(s, Success(r)) == s.(weather := Some(ToSnapshot(r)), loading := false)
  {
  }

  /** A geolocation denial given while a city search is outstanding (the
      permission prompt was still open when the user searched) survives the
      search's success: the error and the new record are shown together. */
  lemma {:induction false} DenialDuringSearchSurvivesSuccess(s: State, r: Reading)
    requires exists k :: 0 <= k < |s.city| && !IsWhiteSpace(s.city[k])
    ensures CityStarted(s).1
    ensures var v := Render(CityFinished(LocationDenied(CityStarted(s).0), Success(r)));
      !v.loadingPanel && v.errorPanel == Some(LocationDeniedMessage) &&
      v.resultPanel == Some(ResultPanel(ToSnapshot(r), WeatherIcon(r.description)))
  {
    assert Trim(s.city) != [];
    assert CityStarted(s) == (RequestStarted(s), true);
  }

  /** A blank search submitted (with Enter, which is not disabled) while a
      city fetch is outstanding issues no request; when the outstanding
      fetch succeeds, its record is shown beside the blank-city message. */
  lemma {:induction false} BlankSearchDuringFetchSurvivesSuccess(s: State, blank: string, r: Reading)
    requires forall k :: 0 <= k < |blank| ==> IsWhiteSpace(blank[k])
    ensures !CityStarted(CityEdited(RequestStarted(s), blank)).1
    ensures var v := Render(CityFinished(CityStarted(CityEdited(RequestStarted(s), blank)).0, Success(r)));
      !v.loadingPanel && v.errorPanel == Some(EmptyCityMessage) &&
      v.resultPanel == Some(ResultPanel(ToSnapshot(r), WeatherIcon(r.description)))
  {
    var e := CityEdited(RequestStarted(s), blank);
    assert Trim(e.city) == [];
    assert CityStarted(e) == (e.(error := EmptyCityMessage), false);
  }

  /** The error panel is not gated on `loading`: a geolocation error that
      arrives while a search is in flight is shown beside the loading panel. */
  lemma {:induction false} ErrorShownWhileLoading(s: State)
    requires s.loading
    ensures var v := Render(LocationDenied(s));
      v.loadingPanel && v.errorPanel == Some(LocationDeniedMessage)
  {
  }

  /** The geolocation branches only set their own message. */
  lemma {:induction false} GeolocationErrors(s: State)
    ensures LocationDenied(s) == s.(error := LocationDeniedMessage)
    ensures LocationUnsupported(s) == s.(error := NoGeolocationMessage)
    ensures Render(LocationDenied(s)).errorPanel == Some(LocationDeniedMessage)
    ensures Render(LocationUnsupported(s)).errorPanel == Some(NoGeolocationMessage)
  {
  }

  /** `loadDemoData` installs the demo record and clears the error without
      touching `loading`; the record is visible (with the cloud icon) unless
      a request is in flight. */
  lemma {:induction false} DemoData(s: State)
    ensures var d := DemoLoaded(s);
      d.weather == Some(DemoSnapshot) && d.error == "" && d.loading == s.loading && d.city == s.city
    ensures var v := Render(DemoLoaded(s));
      v.errorPanel == None && v.loadingPanel == s.loading &&
      v.resultPanel == if s.loading then None else Some(ResultPanel(DemoSnapshot, Cloud))
  {
    PartlyCloudy(DemoSnapshot.condition);
  }

  /** Rounding keeps the tie rule of `Math.round`. */
  lemma RoundExamples()
    ensures Round(21.8) == 22 && Round(2.5) == 3 && Round(-2.5) == -2 && Round(-0.5) == 0
  {
  }

  /** A coordinate fetch answered with a clear-sky reading over New York
      ends showing exactly that record, with the sun icon. (The reading is a
      parameter fixed by `requires` rather than a literal in the `ensures`:
      the solver unfolds a literal in a postcondition far more eagerly.) */
  lemma {:induction false} NewYorkScenario(r: Reading)
    requires r == Reading("New York", "US", 21.8, "clear sky", 60, 1012, 10.0, 9000.0)
    ensures var s := CoordsFinished(RequestStarted(InitialState), Success(r));
      Render(s) == View(false, None, Some(ResultPanel(
        Snapshot("New York", "US", 22, "clear sky", 60, 1012, 10.0, 9.0), Sun)))
  {
    assert Round(21.8) == 22;
    assert OccursAt("clear sky", "clear", 0);
    SunInAnyCase("clear sky", "clear");
  }

  /** A search for an unknown city that the provider rejects ends with the
      city message and no result. (The state is a parameter fixed by
      `requires`, as in the scenario above, to keep the proof cheap.) */
  lemma {:induction false} UnknownCityScenario(s: State)
    requires s == CityEdited(InitialState, "Nowhereville")
    ensures CityStarted(s).1
    ensures Render(CityFinished(CityStarted(s).0, Failure)) ==
      View(false, Some(CityFailureMessage), None)
  {
    assert !IsWhiteSpace(s.city[0]);
    CityFetch(s, Failure);
  }
}
