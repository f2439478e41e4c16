/**
 * The values the weather view works with: the unit system, the provider's
 * response body as far as the view reads it, the outcome of the request and
 * the notifications the view raises with `alert`.
 */
module WeatherModel {

  import opened Common

  /** The `unit` state cell only ever holds "metric" or "imperial". */
  datatype Unit = Metric | Imperial

  /** The text the unit is interpolated as into the request. */
  function UnitName(u: Unit): (name: string)
    ensures name == "metric" || name == "imperial"
    ensures '&' !in name && '#' !in name
  {
    match u
    case Metric => "metric"
    case Imperial => "imperial"
  }

  /** The toggle rule `prevUnit === "metric" ? "imperial" : "metric"`: an involution without fixed point. */
  function Toggled(u: Unit): (t: Unit)
    ensures t != u
    ensures UnitName(t) == (if UnitName(u) == "metric" then "imperial" else "metric")
  {
    if u == Metric then Imperial else Metric
  }

  lemma ToggledTwice(u: Unit)
    ensures Toggled(Toggled(u)) == u
  {
  }

  /**
   * The parts of the provider's JSON body that the view reads.  A part that
   * may be absent in a body the view still reaches is an Option (or, for the
   * `weather` array, a possibly empty sequence); temperature, humidity and
   * wind speed are opaque numbers that are only displayed.
   */
  datatype Sys = Sys(country: string)
  datatype Readings = Readings(temp: real, humidity: real)
  datatype Condition = Condition(description: string, icon: string)
  datatype Wind = Wind(speed: real)
  datatype Payload = Payload(
    name: string,
    sys: Option<Sys>,
    main: Option<Readings>,
    weather: seq<Condition>,
    wind: Option<Wind>)

  /** How the awaited GET settles: a body, or a rejected promise (transport error, non-2xx status). */
  datatype Outcome = Received(data: Payload) | Failed

  /** The single country whose results the view accepts. */
  const SupportedCountry: string := "ZA"

  /** The three `alert` notifications of the fetch handler. */
  datatype Notice = EnterValidCity | EnterSouthAfricanCity | FetchUnavailable

  function NoticeText(n: Notice): (text: string)
    ensures |text| > 0
  {
    match n
    case EnterValidCity => "Please enter a valid city name."
    case EnterSouthAfricanCity => "Please enter a city in South Africa."
    case FetchUnavailable => "Unable to fetch weather data. Please try again later."
  }

  /** The three alerts can be told apart by their text. */
  lemma NoticeTextsDistinct(a: Notice, b: Notice)
    ensures NoticeText(a) == NoticeText(b) <==> a == b
  {
  }

}
