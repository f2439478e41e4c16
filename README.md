# Weather dashboard view: a Dafny model

This project models the logic of the single-page weather lookup view in
`src/App.js`. The user types a South African province or city and presses
"Fetch Weather". The view then asks OpenWeatherMap for current conditions and
shows them, with a metric/imperial toggle and a looping background video.
Around the view sits an `ErrorBoundary` that switches to an apology when a
descendant throws while rendering.

What is modelled:

- **State cells.** `Lifecycle.AppState` holds `city`, `weatherData` (absent or a
  `WeatherModel.Payload`), `loading`, `unit` and `currentVideoIndex`.
  `Component.App` is the same state as an object with one field per cell. Its
  methods are the handlers, and each is proved to leave the fields exactly as
  the matching `Lifecycle` function prescribes.
- **Handlers.** `handleVideoEnded` is a wrap-around cursor advance.
  `handleUnitToggle` flips the unit and clears the result. `fetchWeatherData`
  has one suspension point (the `await`), so it is split in two:
  - `Submit` covers the blank-query guard, `setLoading(true)` and the one GET
    it issues.
  - `Settle` covers the region filter, the `catch` and the `finally`.
  - `FetchWeather` composes the two when nothing happens in between.
- **Request outcome.** The network call is an input, `WeatherModel.Outcome`: a
  received body, or a rejected request.
- **Alerts.** Each `alert` is the `WeatherModel.Notice` value a transition
  returns.
- **Event trace.** `Lifecycle.Run` processes a sequence of events one at a time,
  each to completion, as the single-threaded event loop does.
  `Lifecycle.Consistent` is the invariant every reachable state keeps: the
  cursor is a valid index, and a held result is from country `"ZA"`.
- **Pure projections.** `Endpoints.RequestUrl` and `Endpoints.IconUrl` are the
  two URL templates. Each has a reader (`ParseRequest`, `IconIdOf`) that takes
  the URL apart again. `Display.Render` is the three-way render decision
  (spinner, result, placeholder). It also has a fourth outcome, `Thrown`, for a
  held record whose `sys`, `main`, `wind` or `weather[0]` is missing. A missing
  `sys` cannot be held in a reachable state, because the fetch handler stores
  only records whose `sys.country` is `"ZA"` (`Display.ShownCountry` rests on
  this), but `Render` still treats it as a throw, as the source's
  `sys.country` dereference would.
- **Error boundary.** `Boundary.ErrorBoundary` is the `hasError` latch.
  `Boundary.Outputs` is what a sequence of render passes shows.
- **Scenarios.** The client methods in `Scenarios` drive the class through
  concrete sessions: an in-region lookup, a rejection, a failure, a blank
  query, the playlist and the boundary.

Where the code does something other than one might expect, the model follows the code:

- A failed request does not clear `weatherData`. The `catch` block only logs
  and alerts (`src/App.js:96-98`). `Lifecycle.Settle` keeps the prior value.
- A body without `sys` is not a separate error path. Reading `sys.country`
  throws inside the `try`, so it lands in the same `catch`.
- The temperature suffix comes from the unit in force at render time
  (`src/App.js:165`), not from the unit of the request. A toggle while a request
  is out clears the result. The settling request then stores data fetched in
  the old unit, and the view labels it with the new unit.
  `Display.ToggleWhilePendingRelabels` proves this for every such input.
- A throw while rendering the result is not caught by this `ErrorBoundary`.
  Such a throw comes from a missing `main` or `wind`, or an empty `weather`
  array, and it happens while evaluating `App`'s own JSX. The boundary is a
  child of `App`, so it only catches throws from components rendered below
  it. `Display.Render` therefore reports `Thrown` on its own. The boundary
  model takes a descendant's throw as an abstract input (`Boundary.ChildPass`).

Other modelling choices:

- The `unit` cell only ever holds `"metric"` or `"imperial"`, so it is the
  datatype `Unit` with `UnitName` giving its text.
- A missing API key is interpolated as the text `"undefined"` (`CredentialText`).
- `trim` removes the ECMAScript white-space and line-terminator code points
  (`JsText.IsWhitespace`).
- Temperature, humidity and wind speed are opaque `real` values. They are only
  displayed.

## Model

| member | source | states |
|---|---|---|
| JsText.TrimStart | src/App.js:79 | the result is a suffix of the input, everything dropped is whitespace, and the result does not start with whitespace |
| JsText.TrimEnd | src/App.js:79 | the result is a prefix of the input, everything dropped is whitespace, and the result does not end with whitespace |
| JsText.Trim | src/App.js:79 | the trimmed query is empty exactly when every character is whitespace; otherwise it neither starts nor ends with whitespace |
| WeatherModel.UnitName | src/App.js:41 | the unit is interpolated as "metric" or "imperial", neither containing '&' or '#' |
| WeatherModel.Toggled | src/App.js:105 | toggling always changes the unit: "metric" becomes "imperial" and anything else becomes "metric" |
| WeatherModel.ToggledTwice | src/App.js:105 | toggling twice gives back the original unit |
| WeatherModel.NoticeText | src/App.js:78-101 | each of the three alerts has a non-empty message |
| WeatherModel.NoticeTextsDistinct | src/App.js:80-98 | two alerts have the same text exactly when they are the same alert |
| Endpoints.CredentialText | src/App.js:43 | a present key is interpolated verbatim |
| Endpoints.RequestUrl | src/App.js:86 | the request URL is the weather endpoint followed by the query string |
| Endpoints.QueryString | src/App.js:86 | the query string starts with the city exactly as typed, followed by the units and appid fields |
| Endpoints.RequestUrlRoundTrip | src/App.js:86 | a reader that ends the query at the first '#' and splits it at '&' gets back exactly the city, the unit name and the key if and only if neither city nor key contains '&' or '#'; nothing is encoded |
| Endpoints.JoinSplitOn | src/App.js:86 | joining the '&'-separated fields again gives back the query string |
| Endpoints.SplitOnCount | src/App.js:86 | a query string splits into one more field than it has '&' characters |
| Endpoints.IconUrl | src/App.js:172 | the icon identifier can be read back out of the icon URL unchanged |
| Playlist.NextIndex | src/App.js:52-56 | from a valid index the cursor stays in [0, len) and equals (i + 1) mod len |
| Playlist.AdvanceIsModular | src/App.js:52-56 | n advances from a valid index stay in range and land on (i + n) mod len |
| Playlist.AdvanceFullCycle | src/App.js:52-56 | len consecutive advances return the cursor to its start |
| Lifecycle.InRegion | src/App.js:89 | a body passes the region filter exactly when its sys is present with country "ZA" |
| Lifecycle.CityTyped | src/App.js:145 | typing replaces the query and changes nothing else |
| Lifecycle.VideoEnded | src/App.js:52-56 | the end of a clip moves the cursor to (i + 1) mod len, keeps it in range, and changes nothing else |
| Lifecycle.UnitToggled | src/App.js:104-107 | the toggle changes the unit and clears the result; city, loading and the video index are unchanged |
| Lifecycle.ToggleTwice | src/App.js:104-107 | two toggles restore the state except that the result is cleared |
| Lifecycle.Submit | src/App.js:78-86 | a blank query issues no request, leaves the state unchanged and asks for a valid city; any other query sets loading, changes nothing else, and issues exactly one GET to the request URL built from city, unit and key |
| Lifecycle.Settle | src/App.js:87-101 | loading ends false and only loading and the result can change; a rejected request or a body without sys keeps the prior result and raises the fetch-failed alert; a body from "ZA" becomes the result; any other country clears the result and raises the region alert |
| Lifecycle.FetchWeather | src/App.js:78-102 | a blank query behaves as the guard says; otherwise the handler issues the submitted request, leaves loading false, and raises the alert of the settling step |
| Lifecycle.LoadingBracket | src/App.js:83-101 | loading is true while the request is out and false after it settles, on every outcome; only loading and the result differ from the state before |
| Lifecycle.FetchResult | src/App.js:89-98 | after the handler the result is the body if it is from "ZA", absent if another country, and the prior result if the request failed or the body has no sys |
| Lifecycle.Step | src/App.js:119-188 | every handler keeps the invariant (the video index is in range and a held result is from "ZA"); only typing changes the query, only the toggle changes the unit, only the end of a clip moves the cursor, and only a fetch click can set loading |
| Lifecycle.Run | src/App.js:119-188 | over any event sequence, the query, the unit and the cursor change only if a typing, toggle or end-of-clip event occurs, and loading stays false unless a fetch click occurs |
| Lifecycle.InitialConsistent | src/App.js:38-50 | the initial state cells meet the invariant for a non-empty playlist |
| Lifecycle.RunConsistent | src/App.js:38-107 | any sequence of events handled one at a time keeps the invariant |
| Lifecycle.EndedRun | src/App.js:52-56 | n end-of-clip events in a row move only the cursor, by n places |
| Lifecycle.EndedFullCycle | src/App.js:52-56 | as many end-of-clip events as the playlist has entries restore the whole state |
| Display.TemperatureSuffix | src/App.js:165 | the suffix is "C" exactly when the unit is metric, and "F" otherwise |
| Display.ReportOf | src/App.js:160-181 | the result box shows "name, country", the temperature, the suffix of the given unit ("C" for metric, "F" for imperial), the description, the icon URL of the icon, the humidity and the wind speed of the record |
| Display.Render | src/App.js:157-186 | loading gives the spinner whether or not data is held; no data gives the "No data to display." placeholder; a held record missing a field the result box reads throws; a complete held record is drawn as the result, showing "name, country", the temperature, the suffix of the current unit ("C" for metric, "F" for imperial), the description, the icon URL, the humidity and the wind speed of the record |
| Display.ShownCountry | src/App.js:162 | in every reachable state a shown result is headed "name, ZA" |
| Display.SequentialFetchShowsRequestedUnit | src/App.js:83-172 | while the request is out the spinner shows; after an in-region answer the report shows with the suffix of the unit the request was built with; when city and key hold no '&' or '#', the request's units field names that unit |
| Display.ToggleWhilePendingRelabels | src/App.js:104-165 | for every query, a toggle between request and answer makes the view show data fetched in one unit under the other unit's suffix |
| Component.App.constructor | src/App.js:38-50 | the cells start as "", null, false, "metric", 0, which meets the invariant |
| Component.App.CurrentVideo | src/App.js:121 | the clip played is an entry of the playlist |
| Component.App.SetCity | src/App.js:145 | the fields become those of CityTyped and the invariant is kept |
| Component.App.HandleVideoEnded | src/App.js:52-56 | the index becomes (i + 1) mod len, and the fields become those of VideoEnded |
| Component.App.HandleUnitToggle | src/App.js:104-107 | the unit flips and the result is cleared, as UnitToggled says |
| Component.App.BeginFetch | src/App.js:78-86 | the fields, the request and the alert are those of Submit; an issued request leaves loading set |
| Component.App.CompleteFetch | src/App.js:87-101 | the fields and the alert are those of Settle; loading is false afterwards |
| Component.App.FetchWeatherData | src/App.js:78-102 | the fields, the request and the alert are those of FetchWeather |
| Boundary.Latch | src/App.js:19-21 | after a render pass the error flag is set exactly when it was set before or the pass threw |
| Boundary.Output | src/App.js:27-33 | a pass shows the apology exactly when the latch is set after it, and otherwise the children's own output |
| Boundary.LatchAllIff | src/App.js:17-21 | starting clear, the flag ends set exactly when some pass threw |
| Boundary.LatchedStaysApology | src/App.js:19-33 | once set, the flag is never reset and every later pass shows the fixed apology |
| Boundary.ThrowIsTerminal | src/App.js:19-33 | from the first throwing pass on, every pass shows the apology |
| Boundary.ErrorBoundary.constructor | src/App.js:17 | the flag starts false |
| Boundary.ErrorBoundary.GetDerivedStateFromError | src/App.js:19-21 | the flag becomes true |
| Boundary.ErrorBoundary.Render | src/App.js:27-34 | the apology when the flag is set, the children otherwise |
| Boundary.ErrorBoundary.RenderPass | src/App.js:19-33 | a throwing pass sets the flag, and the pass shows what Output prescribes |

## Left out

- The video element effect (`load`, `play`, and adding and removing the `canplay` listener, `src/App.js:58-76`): this is browser media I/O. The model keeps only the cursor it depends on.
- `axios.get` and the network: the request is returned as its URL and the settlement is an `Outcome` input. There is no timeout, retry or cancellation in the code either.
- `process.env.REACT_APP_OPENWEATHER_API_KEY` is a parameter of the submit.
- `alert`, `console.log`, `console.error` and `componentDidCatch`'s logging: these are I/O. Alerts are returned as `Notice` values; logging is not modelled.
- Overlapping submits and out-of-order settlement: the code has no guard against them. `Lifecycle.Run` accepts events in any order, including several fetch clicks before a settlement and a settlement with no request out, so `RunConsistent` covers these orders too. The model does not pair a settlement with the request it answers, and `FetchWeather` and `Component.App.FetchWeatherData` describe one request settling before any other event.
- React's batching of `set…` calls within a handler: the state after the handler is the same as applying the updates in order, which is what the model does.
- The Chakra markup, styling, the tooltip, and the text formatting of numbers ("22.5° C"): the report keeps the displayed values as fields.
- Component.App.SetCity: the input's `onChange` binding is kept only as the one-line setter, so that the query can change.
- Endpoints.ParseRequest: the reader stands for the provider's query parsing only as far as '#' and '&' go. It does not percent-decode or turn '+' into a space, so a city such as "%41" reads back unchanged here while a server would read "A".
- Display.Render: a throw during `App`'s own render unmounts the page, because no boundary above `App` catches it. The model reports `Thrown` and does not model what the page shows afterwards.
- Boundary.ErrorBoundary: remounting (the only way to clear the flag) is outside the component and is not modelled.
- JsText.Trim: Dafny characters are Unicode scalar values, while JavaScript strings are UTF-16 code units. Every character `trim` removes lies in the Basic Multilingual Plane, so the two agree on what is removed.
- `src/index.js` (mounting), `src/provider.js` (theme wrapper) and `middleWare/webpack.config.js` (dev server): they contain no logic of the view.
