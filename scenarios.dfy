/**
 * Event sequences run against a fresh `MapView`, each proved from the
 * methods' contracts alone: what a user sees after them.
 */
module Scenarios {
  import opened Wrappers
  import opened RouteOverlay
  import opened MapsView

  /** A result whose only route has one leg with the given texts and path. */
  function OneLegResult(duration: string, distance: string, path: seq<Coordinate>): (result: DirectionsResult)
    ensures |result.routes| == 1 && |result.routes[0].legs| == 1
    ensures result.routes[0].legs[0].durationText == duration && result.routes[0].overviewPath == path
  {
    DirectionsResult([Route([Leg(duration, distance, [])], path)])
  }

  /**
   * Click a destination, let the route effect subscribe, and receive a
   * one-leg route of five points: walking directions are requested from the
   * location to the clicked point, the ETA and distance of the leg are shown
   * and four arrows sit at 0, 25, 50 and 75 percent.
   */
  method ClickThenRoute(origin: Coordinate, target: Coordinate, path: seq<Coordinate>)
    returns (request: Option<DirectionsRequest>, duration: string, distance: string, offsets: seq<real>)
    requires |path| == 5
    ensures request == Some(DirectionsRequest(origin, target, Walking))
    ensures duration == "12 mins" && distance == "0.6 mi"
    ensures offsets == [0.0, 25.0, 50.0, 75.0]
  {
    var view := new MapView(Some(origin), None);
    view.HandleMapClick(target);
    var subscription := view.RouteEffect(true);
    request := if subscription.Some? then Some(subscription.value.request) else None;
    view.DirectionsCallback(StatusOK, OneLegResult("12 mins", "0.6 mi", path));
    duration, distance := view.duration, view.distance;
    var arrows := view.RenderArrowSymbols();
    assert path == [path[0], path[1], path[2], path[3], path[4]];
    FivePointRoute(path[0], path[1], path[2], path[3], path[4]);
    offsets := [arrows[0].offsetPercent, arrows[1].offsetPercent, arrows[2].offsetPercent, arrows[3].offsetPercent];
  }

  /**
   * After a route is shown, a poll that fails leaves the ETA, distance,
   * steps and polyline exactly as they were.
   */
  method FailedRefreshKeepsRoute(target: Coordinate, routed: DirectionsResult, failure: string)
    returns (before: ViewState, after: ViewState)
    requires |routed.routes| > 0 && |routed.routes[0].legs| > 0
    requires failure != StatusOK
    ensures after == before
    ensures after.duration == routed.routes[0].legs[0].durationText
    ensures after.routePolyline == Some(Polyline(routed.routes[0].overviewPath))
  {
    var view := new MapView(None, Some(Some(target)));
    view.DirectionsCallback(StatusOK, routed);
    before := ViewState(view.location, view.destination, view.directions, view.routePolyline, view.destinationInput,
                        view.clickedCoordinates, view.duration, view.distance, view.steps);
    view.DirectionsCallback(failure, routed);
    after := ViewState(view.location, view.destination, view.directions, view.routePolyline, view.destinationInput,
                       view.clickedCoordinates, view.duration, view.distance, view.steps);
  }

  /**
   * An address the geocoder cannot resolve: the lookup is sent, the answer
   * is not OK, and the clicked destination stays as it was.
   */
  method UnresolvedAddressKeepsDestination(clicked: Coordinate, address: string)
    returns (sent: Option<string>, destination: Option<Coordinate>, shownClick: Option<Coordinate>)
    requires address != ""
    ensures sent == Some(address)
    ensures destination == Some(clicked) && shownClick == Some(clicked)
  {
    var view := new MapView(None, None);
    view.HandleMapClick(clicked);
    view.EditDestinationInput(address);
    sent := view.HandleGeocode(true);
    view.GeocodeCallback("ZERO_RESULTS", []);
    destination, shownClick := view.destination, view.clickedCoordinates;
  }

  /**
   * A resolved address replaces a clicked destination and hides the
   * clicked coordinates.
   */
  method AddressReplacesClick(clicked: Coordinate, resolved: Coordinate)
    returns (destination: Option<Coordinate>, shownClick: Option<Coordinate>)
    ensures destination == Some(resolved) && shownClick == None
  {
    var view := new MapView(None, None);
    view.HandleMapClick(clicked);
    view.GeocodeCallback(StatusOK, [GeocoderResult(resolved)]);
    destination, shownClick := view.destination, view.clickedCoordinates;
  }

  /**
   * Answers are applied in the order they arrive, whatever request they
   * answer.  The route effect subscribes from `origin`; the position then
   * moves and the effect subscribes again from `moved`.  When the answer to
   * the second request arrives first and the answer to the first request
   * arrives after it, the route from the old position is what the view ends
   * up showing.
   */
  method LastArrivingAnswerWins(origin: Coordinate, moved: Coordinate, target: Coordinate,
                                earlier: DirectionsResult, later: DirectionsResult)
    returns (firstRequest: DirectionsRequest, secondRequest: DirectionsRequest,
             duration: string, directions: Option<DirectionsResult>)
    requires origin != moved
    requires |earlier.routes| > 0 && |earlier.routes[0].legs| > 0
    ensures firstRequest == DirectionsRequest(origin, target, Walking)
    ensures secondRequest == DirectionsRequest(moved, target, Walking)
    ensures firstRequest.origin != secondRequest.origin
    ensures duration == earlier.routes[0].legs[0].durationText
    ensures directions == Some(earlier)
  {
    var view := new MapView(Some(origin), Some(Some(target)));
    var first := view.RouteEffect(true);
    view.UpdatePosition(moved);
    var second := view.RouteEffect(true);
    firstRequest, secondRequest := first.value.request, second.value.request;
    view.DirectionsCallback(StatusOK, later);    // answers `secondRequest`
    view.DirectionsCallback(StatusOK, earlier);  // answers `firstRequest`, arriving last
    duration, directions := view.duration, view.directions;
  }

  /**
   * An answer still in flight when the destination is cleared brings the
   * route back: the view then shows an ETA with no destination set.
   */
  method AnswerAfterClear(target: Coordinate, pending: DirectionsResult)
    returns (afterClear: Option<RouteSubscription>, destination: Option<Coordinate>, duration: string,
             directions: Option<DirectionsResult>)
    requires |pending.routes| > 0 && |pending.routes[0].legs| > 0
    ensures afterClear == None
    ensures destination == None
    ensures duration == pending.routes[0].legs[0].durationText
    ensures directions == Some(pending)
  {
    var view := new MapView(None, None);
    view.HandleMapClick(target);
    var subscription := view.RouteEffect(true);
    view.ClearDestination();
    afterClear := view.RouteEffect(true);
    view.DirectionsCallback(StatusOK, pending);
    destination, duration, directions := view.destination, view.duration, view.directions;
  }

  /**
   * What the storage effects write, the next first render reads back: the
   * location, and the destination even when it was cleared (stored as JSON
   * `null`).
   */
  method Reload(view: MapView) returns (location: Coordinate, destination: Option<Coordinate>)
    ensures location == view.location
    ensures destination == view.destination
  {
    var saved := view.Persisted();
    var restored := new MapView(saved.0, saved.1);
    location, destination := restored.location, restored.destination;
  }
}
