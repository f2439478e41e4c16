/**
 * The render decision of the `App` component: a spinner while loading, the
 * held result, or the placeholder.  Evaluating the result's fields can throw
 * (a missing `main` or `wind`, an empty `weather` array); such a throw
 * happens while `App` itself renders.
 */
module Display {

  import opened Common
  import opened WeatherModel
  import opened JsText
  import opened Endpoints
  import opened Lifecycle

  /** What the result box shows, field by field. */
  datatype Report = Report(
    place: string,
    temperature: real,
    suffix: string,
    description: string,
    iconUrl: string,
    humidity: real,
    windSpeed: real)

  datatype View = Spinner | Weather(report: Report) | Placeholder(message: string)

  /** A render either produces a view or throws. */
  datatype Rendering = Drawn(view: View) | Thrown

  const NoDataMessage: string := "No data to display."

  /** `unit === "metric" ? "C" : "F"`, on the unit in force when rendering. */
  function TemperatureSuffix(u: Unit): (suffix: string)
    ensures suffix == "C" <==> u == Metric
    ensures suffix == "C" || suffix == "F"
  {
    if u == Metric then "C" else "F"
  }

  /** Every field the result box dereferences is there. */
  predicate Displayable(p: Payload) {
    p.sys.Some? && p.main.Some? && |p.weather| > 0 && p.wind.Some?
  }

  /** The result box for a held record, with the suffix of the unit in force. */
  function ReportOf(p: Payload, u: Unit): (r: Report)
    requires Displayable(p)
    ensures r.place == p.name + ", " + p.sys.value.country
    ensures r.temperature == p.main.value.temp && r.suffix == TemperatureSuffix(u)
    ensures r.description == p.weather[0].description && IconIdOf(r.iconUrl) == Some(p.weather[0].icon)
    ensures r.humidity == p.main.value.humidity && r.windSpeed == p.wind.value.speed
  {
    Report(
      p.name + ", " + p.sys.value.country,
      p.main.value.temp,
      TemperatureSuffix(u),
      p.weather[0].description,
      IconUrl(p.weather[0].icon),
      p.main.value.humidity,
      p.wind.value.speed)
  }

  function Render(s: AppState): (r: Rendering)
    ensures s.loading ==> r == Drawn(Spinner)
    ensures !s.loading && s.weatherData.None? ==> r == Drawn(Placeholder(NoDataMessage))
    ensures r == Thrown <==> !s.loading && s.weatherData.Some? && !Displayable(s.weatherData.value)
    ensures !s.loading && s.weatherData.Some? && Displayable(s.weatherData.value) ==> r.Drawn? && r.view.Weather?
    ensures r.Drawn? && r.view.Weather? ==>
              var p := s.weatherData.value;
              && s.weatherData.Some? && Displayable(p)
              && r.view.report.place == p.name + ", " + p.sys.value.country
              && r.view.report.temperature == p.main.value.temp
              && r.view.report.suffix == TemperatureSuffix(s.unit)
              && r.view.report.description == p.weather[0].description
              && IconIdOf(r.view.report.iconUrl) == Some(p.weather[0].icon)
              && r.view.report.humidity == p.main.value.humidity
              && r.view.report.windSpeed == p.wind.value.speed
  {
    if s.loading then Drawn(Spinner)
    else if s.weatherData.None? then Drawn(Placeholder(NoDataMessage))
    else if Displayable(s.weatherData.value) then Drawn(Weather(ReportOf(s.weatherData.value, s.unit)))
    else Thrown
  }

  /** In any reachable state a shown result names the supported country. */
  lemma ShownCountry(s: AppState, playlistLength: nat)
    requires Consistent(s, playlistLength)
    requires Render(s).Drawn? && Render(s).view.Weather?
    ensures Render(s).view.report.place == s.weatherData.value.name + ", " + SupportedCountry
  {
  }

  /**
   * Submitting and settling with nothing in between: while the request is
   * out the spinner shows; an in-region record is then shown with the suffix
   * of the unit the request was built with.  When city and key hold no '&'
   * or '#', that unit is the one the request's units field carries.
   */
  lemma SequentialFetchShowsRequestedUnit(s: AppState, apiKey: Option<string>, data: Payload)
    requires !IsBlank(s.city) && InRegion(data) && Displayable(data)
    ensures Render(Submit(s, apiKey).next) == Drawn(Spinner)
    ensures var t := FetchWeather(s, apiKey, Received(data));
            && t.request == Some(RequestUrl(s.city, s.unit, apiKey))
            && Render(t.next) == Drawn(Weather(ReportOf(data, s.unit)))
            && ReportOf(data, s.unit).suffix == TemperatureSuffix(s.unit)
    ensures '&' !in s.city && '#' !in s.city && '&' !in CredentialText(apiKey) && '#' !in CredentialText(apiKey) ==>
              ParseRequest(RequestUrl(s.city, s.unit, apiKey)) == Some(Query(s.city, UnitName(s.unit), CredentialText(apiKey)))
  {
    RequestUrlRoundTrip(s.city, s.unit, apiKey);
  }

  /**
   * The suffix follows the unit at render time: a toggle while the request
   * is out clears the result, but the settling request then stores a record
   * fetched in the old unit, which is shown with the new unit's suffix.
   */
  lemma ToggleWhilePendingRelabels(s: AppState, apiKey: Option<string>, data: Payload)
    requires !IsBlank(s.city) && InRegion(data) && Displayable(data)
    ensures var started := Submit(s, apiKey);
            var settled := Settle(UnitToggled(started.next), Received(data)).next;
            && started.request == Some(RequestUrl(s.city, s.unit, apiKey))
            && Render(settled) == Drawn(Weather(ReportOf(data, Toggled(s.unit))))
            && ReportOf(data, Toggled(s.unit)).suffix != TemperatureSuffix(s.unit)
    ensures '&' !in s.city && '#' !in s.city && '&' !in CredentialText(apiKey) && '#' !in CredentialText(apiKey) ==>
              ParseRequest(RequestUrl(s.city, s.unit, apiKey)) == Some(Query(s.city, UnitName(s.unit), CredentialText(apiKey)))
  {
    RequestUrlRoundTrip(s.city, s.unit, apiKey);
  }

}
