/**
 * The `App` component as an object: one field per state cell, one method
 * per handler.  Each method leaves the fields as the matching transition of
 * `Lifecycle` prescribes and keeps the component's invariant.
 */
module Component {

  import opened Common
  import opened WeatherModel
  import opened JsText
  import opened Endpoints
  import opened Playlist
  import opened Lifecycle

  /** The playlist the component is written with: a single clip. */
  const VideoList: seq<string> := ["/videos/videoplayback4 .mp4"]

  class App {
    var city: string
    var weatherData: Option<Payload>
    var loading: bool
    var unit: Unit
    var currentVideoIndex: nat
    const videoList: seq<string>

    /** The state cells as one value. */
    function State(): AppState
      reads this
    {
      AppState(city, weatherData, loading, unit, currentVideoIndex)
    }

    ghost predicate Valid()
      reads this
    {
      Consistent(State(), |videoList|)
    }

    constructor (videoList: seq<string>)
      requires videoList != []
      ensures Valid() && State() == InitialState && this.videoList == videoList
    {
      city, weatherData, loading, unit, currentVideoIndex := "", None, false, Metric, 0;
      this.videoList := videoList;
    }

    /** The clip the `<source>` element plays. */
    function CurrentVideo(): (src: string)
      reads this
      requires Valid()
      ensures src in videoList
    {
      videoList[currentVideoIndex]
    }

    method SetCity(text: string)
      requires Valid()
      modifies this
      ensures Valid() && State() == CityTyped(old(State()), text)
    {
      city := text;
    }

    method HandleVideoEnded()
      requires Valid()
      modifies this
      ensures Valid() && State() == VideoEnded(old(State()), |videoList|)
      ensures currentVideoIndex == (old(currentVideoIndex) + 1) % |videoList|
    {
      currentVideoIndex := if currentVideoIndex == |videoList| - 1 then 0 else currentVideoIndex + 1;
    }

    method HandleUnitToggle()
      requires Valid()
      modifies this
      ensures Valid() && State() == UnitToggled(old(State()))
      ensures unit == Toggled(old(unit)) && weatherData == None
    {
      unit := if unit == Metric then Imperial else Metric;
      weatherData := None;
    }

    /** `fetchWeatherData` up to the `await`: returns the GET it issues, or the prompt it raises. */
    method BeginFetch(apiKey: Option<string>) returns (request: Option<string>, notice: Option<Notice>)
      requires Valid()
      modifies this
      ensures Valid()
      ensures var t := Submit(old(State()), apiKey); State() == t.next && request == t.request && notice == t.notice
      ensures request.Some? ==> loading
    {
      if IsBlank(city) {
        return None, Some(EnterValidCity);
      }
      loading := true;
      request := Some(RequestUrl(city, unit, apiKey));
      notice := None;
    }

    /** `fetchWeatherData` after the `await`, through `finally`. */
    method CompleteFetch(outcome: Outcome) returns (notice: Option<Notice>)
      requires Valid()
      modifies this
      ensures Valid()
      ensures var t := Settle(old(State()), outcome); State() == t.next && notice == t.notice
      ensures !loading
    {
      notice := None;
      if outcome.Failed? || outcome.data.sys.None? {
        notice := Some(FetchUnavailable);
      } else if outcome.data.sys.value.country != SupportedCountry {
        notice := Some(EnterSouthAfricanCity);
        weatherData := None;
      } else {
        weatherData := Some(outcome.data);
      }
      loading := false;
    }

    /** The whole handler, with the request settling before any other event. */
    method FetchWeatherData(apiKey: Option<string>, outcome: Outcome) returns (request: Option<string>, notice: Option<Notice>)
      requires Valid()
      modifies this
      ensures Valid()
      ensures var t := FetchWeather(old(State()), apiKey, outcome);
              State() == t.next && request == t.request && notice == t.notice
    {
      request, notice := BeginFetch(apiKey);
      if request.Some? {
        notice := CompleteFetch(outcome);
      }
    }
  }

}
