/**
 * The state cells of the `App` component and the rules by which its event
 * handlers update them, as functions from the state before an event to the
 * state after it.  The `await` in the fetch handler is its one suspension
 * point, so the handler is two transitions: `Submit` runs up to the request,
 * `Settle` runs from the settled request to the end of `finally`.
 */
module Lifecycle {

  import opened Common
  import opened WeatherModel
  import opened JsText
  import opened Endpoints
  import opened Playlist

  /** `city`, `weatherData`, `loading`, `unit` and `currentVideoIndex`. */
  datatype AppState = AppState(
    city: string,
    weatherData: Option<Payload>,
    loading: bool,
    unit: Unit,
    videoIndex: nat)

  /** The initial values given to `useState`. */
  const InitialState: AppState := AppState("", None, false, Metric, 0)

  /** The state a handler leaves, the GET it issues (if any) and the alert it raises (if any). */
  datatype Transition = Transition(next: AppState, request: Option<string>, notice: Option<Notice>)

  /** A record passes the region filter when its `sys.country` is the supported country. */
  predicate InRegion(p: Payload): (accepted: bool)
    ensures accepted <==> p.sys == Some(Sys("ZA"))
  {
    p.sys.Some? && p.sys.value.country == SupportedCountry
  }

  /** The input's `onChange`: only the query changes. */
  function CityTyped(s: AppState, text: string): (t: AppState)
    ensures t.city == text
    ensures t.(city := s.city) == s
  {
    s.(city := text)
  }

  /** `handleVideoEnded`: only the cursor moves, wrapping at the end of the playlist. */
  function VideoEnded(s: AppState, playlistLength: nat): (t: AppState)
    ensures s.videoIndex < playlistLength ==> t.videoIndex < playlistLength
    ensures s.videoIndex < playlistLength ==> t.videoIndex == (s.videoIndex + 1) % playlistLength
    ensures t.(videoIndex := s.videoIndex) == s
  {
    s.(videoIndex := NextIndex(s.videoIndex, playlistLength))
  }

  /** `handleUnitToggle`: the unit flips, the result is cleared, nothing else changes. */
  function UnitToggled(s: AppState): (t: AppState)
    ensures t.unit != s.unit && t.weatherData == None
    ensures t.city == s.city && t.loading == s.loading && t.videoIndex == s.videoIndex
  {
    s.(unit := Toggled(s.unit), weatherData := None)
  }

  /** Toggling twice restores the unit; the result stays cleared. */
  lemma ToggleTwice(s: AppState)
    ensures UnitToggled(UnitToggled(s)) == s.(weatherData := None)
  {
    ToggledTwice(s.unit);
  }

  /**
   * `fetchWeatherData` up to the `await`: a blank query raises the prompt and
   * changes nothing; any other query sets `loading` and issues exactly one
   * GET built from the query and the unit in force.
   */
  function Submit(s: AppState, apiKey: Option<string>): (t: Transition)
    ensures t.request.None? <==> IsBlank(s.city)
    ensures IsBlank(s.city) ==> t.next == s && t.notice == Some(EnterValidCity)
    ensures !IsBlank(s.city) ==> t.next.loading && t.next.(loading := s.loading) == s && t.notice.None?
    ensures t.request.Some? ==> t.request.value == RequestUrl(s.city, s.unit, apiKey)
  {
    if IsBlank(s.city) then Transition(s, None, Some(EnterValidCity))
    else Transition(s.(loading := true), Some(RequestUrl(s.city, s.unit, apiKey)), None)
  }

  /**
   * `fetchWeatherData` from the settled request to the end of `finally`.
   * A rejected request, or a body without `sys` (whose `sys.country` throws
   * inside the `try`), lands in `catch`: the result keeps its value.  A body
   * outside the region clears the result, one inside it becomes the result.
   * Whichever way, `loading` ends false and nothing else changes.
   */
  function Settle(s: AppState, outcome: Outcome): (t: Transition)
    ensures !t.next.loading && t.request.None?
    ensures t.next.(loading := s.loading, weatherData := s.weatherData) == s
    ensures outcome.Failed? || outcome.data.sys.None? ==> t.next.weatherData == s.weatherData && t.notice == Some(FetchUnavailable)
    ensures outcome.Received? && outcome.data.sys.Some? ==>
              t.next.weatherData == (if InRegion(outcome.data) then Some(outcome.data) else None)
    ensures outcome.Received? && outcome.data.sys.Some? ==>
              t.notice == (if InRegion(outcome.data) then None else Some(EnterSouthAfricanCity))
  {
    match outcome
    case Failed => Transition(s.(loading := false), None, Some(FetchUnavailable))
    case Received(data) =>
      if data.sys.None? then Transition(s.(loading := false), None, Some(FetchUnavailable))
      else if data.sys.value.country != SupportedCountry then
        Transition(s.(weatherData := None, loading := false), None, Some(EnterSouthAfricanCity))
      else Transition(s.(weatherData := Some(data), loading := false), None, None)
  }

  /** The whole handler, when nothing else happens between the request and its settling. */
  function FetchWeather(s: AppState, apiKey: Option<string>, outcome: Outcome): (t: Transition)
    ensures IsBlank(s.city) ==> t == Submit(s, apiKey)
    ensures !IsBlank(s.city) ==> t.request == Submit(s, apiKey).request && !t.next.loading
    ensures !IsBlank(s.city) ==> t.notice == Settle(Submit(s, apiKey).next, outcome).notice
  {
    var started := Submit(s, apiKey);
    if started.request.None? then started
    else
      var settled := Settle(started.next, outcome);
      Transition(settled.next, started.request, settled.notice)
  }

  /** The loading bracket: set for the whole wait on every issued request, clear once it settles, whatever the outcome. */
  lemma LoadingBracket(s: AppState, apiKey: Option<string>, outcome: Outcome)
    requires !IsBlank(s.city)
    ensures Submit(s, apiKey).next.loading
    ensures !FetchWeather(s, apiKey, outcome).next.loading
    ensures FetchWeather(s, apiKey, outcome).next.(loading := s.loading, weatherData := s.weatherData) == s
  {
  }

  /** The region filter over the whole handler: the prior result matters only when the request failed. */
  lemma FetchResult(s: AppState, apiKey: Option<string>, outcome: Outcome)
    requires !IsBlank(s.city)
    ensures FetchWeather(s, apiKey, outcome).next.weatherData ==
              if outcome.Received? && InRegion(outcome.data) then Some(outcome.data)
              else if outcome.Received? && outcome.data.sys.Some? then None
              else s.weatherData
  {
  }

  /** The events the component reacts to, one handler each. */
  datatype Event =
    | Typed(text: string)
    | Ended
    | ToggleClicked
    | FetchClicked(apiKey: Option<string>)
    | ResponseSettled(outcome: Outcome)

  function Step(s: AppState, playlistLength: nat, e: Event): (t: AppState)
    ensures Consistent(s, playlistLength) ==> Consistent(t, playlistLength)
    ensures !e.Typed? ==> t.city == s.city
    ensures !e.ToggleClicked? ==> t.unit == s.unit
    ensures !e.Ended? ==> t.videoIndex == s.videoIndex
    ensures !e.FetchClicked? && !s.loading ==> !t.loading
  {
    match e
    case Typed(text) => CityTyped(s, text)
    case Ended => VideoEnded(s, playlistLength)
    case ToggleClicked => UnitToggled(s)
    case FetchClicked(apiKey) => Submit(s, apiKey).next
    case ResponseSettled(outcome) => Settle(s, outcome).next
  }

  /** Events handled one at a time, each to completion, in the order they are delivered. */
  function Run(s: AppState, playlistLength: nat, events: seq<Event>): (t: AppState)
    ensures (forall i :: 0 <= i < |events| ==> !events[i].Typed?) ==> t.city == s.city
    ensures (forall i :: 0 <= i < |events| ==> !events[i].ToggleClicked?) ==> t.unit == s.unit
    ensures (forall i :: 0 <= i < |events| ==> !events[i].Ended?) ==> t.videoIndex == s.videoIndex
    ensures (forall i :: 0 <= i < |events| ==> !events[i].FetchClicked?) && !s.loading ==> !t.loading
    decreases |events|
  {
    if events == [] then s
    else
      assert forall i :: 0 <= i < |events| - 1 ==> events[1..][i] == events[i + 1];
      Run(Step(s, playlistLength, events[0]), playlistLength, events[1..])
  }

  /** What every reachable state satisfies: the cursor indexes the playlist, and a held result is in the region. */
  predicate Consistent(s: AppState, playlistLength: nat) {
    && s.videoIndex < playlistLength
    && (s.weatherData.Some? ==> InRegion(s.weatherData.value))
  }

  lemma InitialConsistent(playlistLength: nat)
    requires playlistLength > 0
    ensures Consistent(InitialState, playlistLength)
  {
  }

  lemma {:induction false} RunConsistent(s: AppState, playlistLength: nat, events: seq<Event>)
    requires Consistent(s, playlistLength)
    ensures Consistent(Run(s, playlistLength, events), playlistLength)
    decreases |events|
  {
    if events != [] {
      RunConsistent(Step(s, playlistLength, events[0]), playlistLength, events[1..]);
    }
  }

  /** `n` end-of-playback signals in a row move the cursor by `n` places, so a playlist's length of them is a full cycle. */
  lemma {:induction false} EndedRun(s: AppState, playlistLength: nat, n: nat)
    requires s.videoIndex < playlistLength
    ensures Run(s, playlistLength, seq(n, _ => Ended)) == s.(videoIndex := Advance(s.videoIndex, playlistLength, n))
    decreases n
  {
    if n > 0 {
      var events := seq(n, _ => Ended);
      assert events[0] == Ended && events[1..] == seq(n - 1, _ => Ended);
      var t := Step(s, playlistLength, Ended);
      EndedRun(t, playlistLength, n - 1);
    }
  }

  lemma EndedFullCycle(s: AppState, playlistLength: nat)
    requires s.videoIndex < playlistLength
    ensures Run(s, playlistLength, seq(playlistLength, _ => Ended)) == s
  {
    EndedRun(s, playlistLength, playlistLength);
    AdvanceFullCycle(s.videoIndex, playlistLength);
  }

}
