/** The weather component as an object: its four state variables are
    fields, and each handler updates them in the order the component's
    setters run. A fetch is split at its `await`: the `Begin` method runs
    up to the network call, the `End` method runs once it has answered. */
module App {
  import opened Text
  import opened WeatherModel

  class WeatherApp {
    var city: string
    var weather: Option<Snapshot>
    var loading: bool
    var error: string

    /** The fields as a state value. */
    function Model(): State
      reads this
    {
      State(city, weather, loading, error)
    }

    /** The initial values of the four state hooks. */
    constructor ()
      ensures Model() == InitialState
    {
      city := "";
      weather := None;
      loading := false;
      error := "";
    }

    /** The input's change handler. */
    method SetCity(text: string)
      modifies this
      ensures Model() == CityEdited(old(Model()), text)
    {
      city := text;
    }

    /** `fetchWeatherByCoords` up to its request. */
    method BeginFetchByCoords()
      modifies this
      ensures Model() == RequestStarted(old(Model()))
    {
      loading := true;
      error := "";
    }

    /** `fetchWeatherByCoords` once its request has answered. */
    method EndFetchByCoords(outcome: Outcome)
      modifies this
      ensures Model() == CoordsFinished(old(Model()), outcome)
    {
      match outcome {
        case Success(r) =>
          weather := Some(ToSnapshot(r));
        case Failure =>
          error := CoordsFailureMessage;
          weather := None;
      }
      loading := false;
    }

    /** `fetchWeather` up to its request; `requested` is false when the
        city was blank and no request was issued. */
    method BeginFetchWeather() returns (requested: bool)
      modifies this
      ensures (Model(), requested) == CityStarted(old(Model()))
    {
      if Trim(city) == [] {
        error := EmptyCityMessage;
        return false;
      }
      loading := true;
      error := "";
      requested := true;
    }

    /** `fetchWeather` once its request has answered. */
    method EndFetchWeather(outcome: Outcome)
      modifies this
      ensures Model() == CityFinished(old(Model()), outcome)
    {
      match outcome {
        case Success(r) =>
          weather := Some(ToSnapshot(r));
        case Failure =>
          error := CityFailureMessage;
          weather := None;
      }
      loading := false;
    }

    /** The geolocation error callback. */
    method OnLocationError()
      modifies this
      ensures Model() == LocationDenied(old(Model()))
    {
      error := LocationDeniedMessage;
    }

    /** The startup branch for a host without geolocation. */
    method OnGeolocationMissing()
      modifies this
      ensures Model() == LocationUnsupported(old(Model()))
    {
      error := NoGeolocationMessage;
    }

    /** `loadDemoData`. */
    method LoadDemoData()
      modifies this
      ensures Model() == DemoLoaded(old(Model()))
    {
      weather := Some(DemoSnapshot);
      error := "";
    }

    /** The panels the render shows for the current fields. */
    method CurrentView() returns (v: View)
      ensures v == Render(Model())
      ensures v.loadingPanel == loading
      ensures v.errorPanel.Some? <==> error != ""
      ensures v.resultPanel.Some? <==> weather.Some? && !loading
    {
      v := Render(Model());
      PanelRules(Model());
    }
  }
}
