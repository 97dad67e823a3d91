# Live-route map view, modelled in Dafny

This project models the core of the `Maps` React component of a small
Google-Maps walking-route viewer. The component tracks the user's live
position, lets the user pick a destination by clicking the map or by
geocoding an address, and keeps walking directions to that destination up
to date by polling the directions service every 30 seconds. It shows the
ETA, the distance, the turn-by-turn steps and a red polyline with arrows
along the route.

The model has two parts:

- `RouteOverlay` (`route_overlay.dfy`) covers the pure geometry.
  - `Polyline` is `generatePolyline`: the overview path with its final point dropped, written as the source's `map` followed by `filter`.
  - `ArrowSymbols` is `renderArrowSymbols`: one arrow per polyline point, at `index / length * 100` percent, kept as an exact `real`.
- `MapsView` (`maps_view.dfy`) covers the component state.
  - The class `MapView` has one field per `useState` variable and one method per event that writes those variables.
  - Each method states the whole new state as a record update of the old one (`State() == old(State()).(…)`) and keeps the invariant `Valid()`.
  - `Valid()` says that ETA, distance, steps and polyline are either all blank or all taken from one route, and that shown clicked coordinates are always the destination.
  - Service answers (status, results, legs, overview path), position readings and the loader's `isLoaded` flag arrive as method parameters.
- `Scenarios` (`scenarios.dfy`) runs event sequences on a fresh view and proves what the user then sees, using only the methods' contracts.

Coordinates are opaque latitude/longitude pairs. The model only stores them and compares them for equality.

The component has no request-id fence and no "moved far enough" threshold on position updates. Directions answers are applied in the order they arrive, whatever request they answer. The model follows the code here, and two scenarios show the consequences:
- `LastArrivingAnswerWins`: after the position moves, a slow answer to the request from the old position replaces the route from the new one.
- `AnswerAfterClear`: an answer that arrives after "Clear Destination" shows an ETA while no destination is set.

Likewise there is no separate "failed" state. A non-OK directions answer only logs, so the last route stays on screen (`FailedRefreshKeepsRoute`).

## Model

| member | source | states |
|---|---|---|
| `RouteOverlay.Polyline` | src/Maps.js:143-153 | the polyline has `max(N-1, 0)` points, point `i` is path point `i`, and a path of 0 or 1 points gives an empty polyline |
| `RouteOverlay.PolylineIsPrefix` | src/Maps.js:144-152 | mapping the last point to `null` and filtering out `null`s yields exactly the path without its last point |
| `RouteOverlay.PolylineRestoresPath` | src/Maps.js:143-153 | appending the dropped final point to the polyline gives back the whole path |
| `RouteOverlay.ArrowOffset` | src/Maps.js:160 | the offset of arrow `index` of `count` lies in `[0, 100)` and is 0 for the first arrow |
| `RouteOverlay.ArrowSymbols` | src/Maps.js:155-166 | no polyline gives no arrows; otherwise there is exactly one arrow per point, arrow `i` sits at `i / n * 100` percent and has scale 3, colour `#FF0000`, opacity 1.0 and weight 2 |
| `RouteOverlay.ArrowOffsetsIncrease` | src/Maps.js:158-160 | the first offset is 0, and offsets strictly increase and stay in `[0, 100)` |
| `RouteOverlay.ArrowsEvenlySpaced` | src/Maps.js:158-160 | consecutive arrows are `100 / n` percent apart, so spacing is by index and not by arc length |
| `RouteOverlay.RouteArrowCount` | src/Maps.js:143-166 | a route whose path has `N` points is drawn with `max(N-1, 0)` arrows |
| `RouteOverlay.FivePointRoute` | src/Maps.js:143-166 | a five-point path gives four arrows, at 0, 25, 50 and 75 percent |
| `MapsView.MapView.constructor` | src/Maps.js:12-28 | the first render takes the saved location if there is one and otherwise the default centre (34.0522, -118.2437), takes the saved destination (possibly a stored `null`) and otherwise `null`, and starts with no directions, no polyline, an empty input, no clicked point, blank ETA and distance, and no steps |
| `MapsView.MapView.UpdatePosition` | src/Maps.js:47-66 | a position reading, first or watched, replaces the location and changes nothing else |
| `MapsView.MapView.HandleMapClick` | src/Maps.js:114-121 | a click sets both the destination and the clicked coordinates to the clicked point and changes nothing else |
| `MapsView.MapView.EditDestinationInput` | src/Maps.js:219-221 | typing replaces the address input and changes nothing else |
| `MapsView.MapView.HandleGeocode` | src/Maps.js:123-141 | an address lookup is sent exactly when the API is loaded and the input is non-empty, and the address sent is the input |
| `MapsView.MapView.GeocodeCallback` | src/Maps.js:126-137 | OK with at least one result sets the destination to the first result and clears the clicked coordinates; any other answer changes nothing |
| `MapsView.MapView.ClearDestination` | src/Maps.js:227-235 | destination, directions, clicked coordinates and polyline become `null`, ETA and distance become empty, steps become empty; location and input are kept |
| `MapsView.MapView.RouteEffect` | src/Maps.js:80-112 | with the API loaded and a destination set, it subscribes to walking directions from the location to the destination every 30000 ms and changes nothing; otherwise it only nulls the directions |
| `MapsView.MapView.DirectionsCallback` | src/Maps.js:90-103 | OK with a first route that has a first leg sets directions, ETA, distance, steps and the polyline of that route; OK without a leg sets only the directions; a non-OK status changes nothing; the summary invariant is kept |
| `MapsView.MapView.RenderArrowSymbols` | src/Maps.js:155-166 | the arrows drawn are none without a shown route; otherwise they are the arrows of the polyline of its overview path (offsets and style as in `ArrowSymbols`), one per point of that path but the last |
| `Scenarios.ClickThenRoute` | src/Maps.js:80-166 | after a click and a five-point one-leg answer, directions are requested from the location to the click, the leg's ETA and distance are shown, and arrows sit at 0, 25, 50 and 75 percent |
| `Scenarios.FailedRefreshKeepsRoute` | src/Maps.js:90-103 | a failing poll after a successful answer leaves the whole view state unchanged |
| `Scenarios.UnresolvedAddressKeepsDestination` | src/Maps.js:123-141 | a `ZERO_RESULTS` answer leaves the clicked destination and the clicked coordinates as they were |
| `Scenarios.AddressReplacesClick` | src/Maps.js:114-137 | a resolved address replaces a clicked destination and hides the clicked coordinates |
| `Scenarios.LastArrivingAnswerWins` | src/Maps.js:80-108 | the effect requests a route from the first position and, after a move, from the new one; when the answer to the first request arrives after the answer to the second, the route from the old position is shown |
| `Scenarios.AnswerAfterClear` | src/Maps.js:80-112 | after Clear the re-run effect subscribes to nothing, and an answer still in flight then shows its ETA and directions with no destination set |
| `Scenarios.Reload` | src/Maps.js:12-42 | what the storage effects write (`MapView.Persisted`: the location, and the destination as JSON, `null` when cleared) gives back the same location and destination on the next first render |

## Left out

- Rendering (JSX, styles, markers, the step list written as HTML) is presentation only.
- The arrow icon's `path` (`SymbolPath.FORWARD_CLOSED_ARROW`) is a constant of the Maps library and is not modelled.
- The percent string of an arrow's offset is not modelled. The offset is kept as the exact number written before `%`, with no floating-point rounding.
- The Maps script loader, `DirectionsService` and `Geocoder` are foreign calls. Only their results are modelled: `isLoaded`, and the status and results handed to the callbacks. `loadError` only changes what is rendered.
- The status values are plain strings. The directions status constant `DirectionsStatus.OK` is taken to be the string `"OK"` that the geocoder branch compares against.
- The geolocation subscription (`getCurrentPosition`, `watchPosition`, `clearWatch`) is not modelled; only its readings are, as `UpdatePosition`. Error callbacks and a missing geolocation API only log, so they change no state.
- `setInterval`/`clearInterval`, the effect's re-run and clean-up, and React's batching of `setState` calls are scheduling. `RouteEffect` returns the subscription an effect run sets up, and each answer of the first request or of a poll is one `DirectionsCallback` call, in any order.
- The storage effects and `JSON.parse`/`JSON.stringify` are I/O. Storage is modelled only as the optional saved values the first render reads and, through `MapView.Persisted`, the values the effects write; when the effects run is not modelled. An unparseable stored value, which makes `JSON.parse` throw, is not modelled.
- A stored location of `null` is not modelled, because the component never writes one. In the model, `location` is therefore always a coordinate.
- A `null` directions `result` is not modelled. It comes only with a non-OK status, and that branch uses it only inside the log message, never dereferencing it.
