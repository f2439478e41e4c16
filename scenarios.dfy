/** Client code driving the component through concrete sessions, using only the methods' contracts. */
module Scenarios {

  import opened Common
  import opened WeatherModel
  import opened JsText
  import opened Lifecycle
  import opened Display
  import opened Component
  import opened Boundary

  function Gauteng(): Payload {
    Payload("Gauteng", Some(Sys("ZA")), Some(Readings(22.5, 40.0)), [Condition("clear sky", "01d")], Some(Wind(3.1)))
  }

  lemma GautengReport()
    ensures ReportOf(Gauteng(), Metric) == Report("Gauteng, ZA", 22.5, "C", "clear sky", Endpoints.IconUrl("01d"), 40.0, 3.1)
  {
  }

  /** An in-region lookup in metric units, then a toggle that clears it. */
  method GautengSession() {
    var app := new App(VideoList);
    app.SetCity("Gauteng");
    assert !IsBlank(app.city) by {
      assert !IsWhitespace(app.city[0]);
    }
    var request, notice := app.FetchWeatherData(Some("key"), Received(Gauteng()));
    assert request.Some? && notice.None? && !app.loading;
    assert app.weatherData == Some(Gauteng()) && app.unit == Metric;
    assert Render(app.State()) == Drawn(Weather(ReportOf(Gauteng(), Metric)));
    GautengReport();
    app.HandleUnitToggle();
    assert app.unit == Imperial;
    assert Render(app.State()) == Drawn(Placeholder(NoDataMessage));
    app.HandleUnitToggle();
    assert app.unit == Metric && app.weatherData == None && app.city == "Gauteng";
  }

  /** An out-of-region answer clears an earlier result; a failed request leaves the result alone. */
  method RejectionSession() {
    var app := new App(VideoList);
    app.SetCity("Gauteng");
    assert !IsWhitespace(app.city[0]);
    var request, notice := app.FetchWeatherData(None, Received(Gauteng()));
    assert app.weatherData == Some(Gauteng());
    request, notice := app.FetchWeatherData(None, Failed);
    assert notice == Some(FetchUnavailable) && app.weatherData == Some(Gauteng()) && !app.loading;
    app.SetCity("Paris");
    assert !IsWhitespace(app.city[0]);
    var paris := Gauteng().(name := "Paris", sys := Some(Sys("FR")));
    request, notice := app.FetchWeatherData(None, Received(paris));
    assert notice == Some(EnterSouthAfricanCity) && app.weatherData == None && !app.loading;
  }

  lemma WhitespaceQueryIsBlank()
    ensures IsBlank(" \t ")
  {
    var q := " \t ";
    assert IsWhitespace(q[0]) && IsWhitespace(q[1]) && IsWhitespace(q[2]);
  }

  /** A whitespace-only query issues nothing and changes nothing. */
  method BlankSession() {
    var app := new App(VideoList);
    app.SetCity(" \t ");
    WhitespaceQueryIsBlank();
    var before := app.State();
    var request, notice := app.FetchWeatherData(Some("key"), Failed);
    assert request == None && notice == Some(EnterValidCity) && app.State() == before;
  }

  /** A two-clip playlist comes back to its first clip after two endings. */
  method PlaylistSession() {
    var app := new App(["a.mp4", "b.mp4"]);
    app.HandleVideoEnded();
    assert app.CurrentVideo() == "b.mp4";
    app.HandleVideoEnded();
    assert app.currentVideoIndex == 0;
  }

  /** A descendant's throw latches the boundary for good. */
  method BoundarySession() {
    var boundary := new ErrorBoundary();
    var shown := boundary.RenderPass(Rendered(1));
    assert shown == Children(1);
    shown := boundary.RenderPass(Threw);
    assert shown == Fallback(ApologyText);
    shown := boundary.RenderPass(Rendered(2));
    assert shown == Fallback(ApologyText);
  }

}
