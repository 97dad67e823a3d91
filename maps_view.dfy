/**
 * The state of the map view and the events that change it: a map click, an
 * address lookup, "Clear Destination", a directions response, a position
 * reading and the route effect's guard.  The Google Maps services, the
 * position feed and local storage are not modelled; what they deliver
 * arrives as method parameters.
 */
module MapsView {
  import opened Wrappers
  import opened RouteOverlay

  /** A latitude/longitude pair; the view only stores and compares them. */
  datatype Coordinate = Coordinate(lat: real, lng: real)

  /** Where the map starts when no location was saved. */
  const DefaultCenter := Coordinate(34.0522, -118.2437)

  /** The status string both services report on success. */
  const StatusOK := "OK"

  /** How often the route effect asks again for directions, in milliseconds. */
  const PollIntervalMs: nat := 30000

  datatype TravelMode = Walking

  datatype Step = Step(instructions: string)

  /** One leg of a route: the texts shown as ETA and distance, and its turn-by-turn steps. */
  datatype Leg = Leg(durationText: string, distanceText: string, steps: seq<Step>)

  datatype Route = Route(legs: seq<Leg>, overviewPath: seq<Coordinate>)

  /** What the directions service hands to its callback. */
  datatype DirectionsResult = DirectionsResult(routes: seq<Route>)

  datatype GeocoderResult = GeocoderResult(location: Coordinate)

  datatype DirectionsRequest = DirectionsRequest(origin: Coordinate, destination: Coordinate, travelMode: TravelMode)

  /** A directions request issued at once and again every `pollIntervalMs`. */
  datatype RouteSubscription = RouteSubscription(request: DirectionsRequest, pollIntervalMs: nat)

  /** A snapshot of every state variable of the view. */
  datatype ViewState = ViewState(
    location: Coordinate,
    destination: Option<Coordinate>,
    directions: Option<DirectionsResult>,
    routePolyline: Option<seq<Coordinate>>,
    destinationInput: string,
    clickedCoordinates: Option<Coordinate>,
    duration: string,
    distance: string,
    steps: seq<Step>)

  class MapView {
    var location: Coordinate
    var destination: Option<Coordinate>
    var directions: Option<DirectionsResult>
    var routePolyline: Option<seq<Coordinate>>
    var destinationInput: string
    var clickedCoordinates: Option<Coordinate>
    var duration: string
    var distance: string
    var steps: seq<Step>

    /** The route whose first leg the trip summary currently shows, if any. */
    ghost var shownRoute: Option<Route>

    ghost function State(): ViewState
      reads this
    {
      ViewState(location, destination, directions, routePolyline, destinationInput,
                clickedCoordinates, duration, distance, steps)
    }

    /**
     * The trip summary (ETA, distance, steps and polyline) is all blank or
     * all taken from the first leg and overview path of one route.
     */
    ghost predicate ShowsRoute(route: Option<Route>)
      reads this
    {
      match route
      case None =>
        duration == "" && distance == "" && steps == [] && routePolyline == None
      case Some(r) =>
        |r.legs| > 0 &&
        duration == r.legs[0].durationText &&
        distance == r.legs[0].distanceText &&
        steps == r.legs[0].steps &&
        routePolyline == Some(Polyline(r.overviewPath))
    }

    /**
     * The view's invariant: the summary fields never mix two responses, and
     * clicked coordinates, while shown, are the current destination.
     */
    ghost predicate Valid()
      reads this
    {
      ShowsRoute(shownRoute) &&
      (clickedCoordinates.Some? ==> destination == clickedCoordinates)
    }

    /**
     * The first render: location and destination restored from storage,
     * everything else empty.  Each saved value is `None` when its key is
     * absent and otherwise the JSON value stored under it; a stored
     * destination is itself `null` after a clear.
     */
    constructor (savedLocation: Option<Coordinate>, savedDestination: Option<Option<Coordinate>>)
      ensures Valid()
      ensures location == if savedLocation.Some? then savedLocation.value else DefaultCenter
      ensures destination == if savedDestination.Some? then savedDestination.value else None
      ensures State() == ViewState(location, destination, None, None, "", None, "", "", [])
      ensures shownRoute == None
    {
      location := if savedLocation.Some? then savedLocation.value else DefaultCenter;
      destination := if savedDestination.Some? then savedDestination.value else None;
      directions := None;
      routePolyline := None;
      destinationInput := "";
      clickedCoordinates := None;
      duration := "";
      distance := "";
      steps := [];
      shownRoute := None;
    }

    /**
     * What the two storage effects write: the location, and the destination
     * as a JSON value (`null` when there is none).
     */
    function Persisted(): (saved: (Option<Coordinate>, Option<Option<Coordinate>>))
      reads this
    {
      (Some(location), Some(destination))
    }

    /** A reading from the position feed (the first one or a watched one) becomes the location. */
    method UpdatePosition(reading: Coordinate)
      requires Valid()
      modifies this
      ensures Valid() && shownRoute == old(shownRoute)
      ensures State() == old(State()).(location := reading)
    {
      location := reading;
    }

    /** A click on the map makes the clicked point both the destination and the shown clicked coordinates. */
    method HandleMapClick(clicked: Coordinate)
      requires Valid()
      modifies this
      ensures Valid() && shownRoute == old(shownRoute)
      ensures State() == old(State()).(destination := Some(clicked), clickedCoordinates := Some(clicked))
    {
      destination := Some(clicked);
      clickedCoordinates := Some(clicked);
    }

    /** Typing into the address box. */
    method EditDestinationInput(text: string)
      requires Valid()
      modifies this
      ensures Valid() && shownRoute == old(shownRoute)
      ensures State() == old(State()).(destinationInput := text)
    {
      destinationInput := text;
    }

    /**
     * "Set Destination by Address": the address sent to the geocoder, or
     * `None` (only an error is logged) when the API is not loaded or the
     * input is empty.  Nothing changes until the geocoder answers.
     */
    method HandleGeocode(isLoaded: bool) returns (address: Option<string>)
      ensures address.Some? <==> isLoaded && destinationInput != ""
      ensures address.Some? ==> address.value == destinationInput
    {
      if isLoaded && destinationInput != "" {
        address := Some(destinationInput);
      } else {
        address := None;
      }
    }

    /**
     * The geocoder's answer: with status OK and at least one result, the
     * first result's location becomes the destination and the clicked
     * coordinates are cleared; any other answer changes nothing.
     */
    method GeocodeCallback(status: string, results: seq<GeocoderResult>)
      requires Valid()
      modifies this
      ensures Valid() && shownRoute == old(shownRoute)
      ensures status == StatusOK && |results| > 0 ==>
        State() == old(State()).(destination := Some(results[0].location), clickedCoordinates := None)
      ensures !(status == StatusOK && |results| > 0) ==> State() == old(State())
    {
      if status == StatusOK && |results| > 0 {
        destination := Some(results[0].location);
        clickedCoordinates := None;
      }
    }

    /** "Clear Destination": everything about the destination and its route is reset; location and input stay. */
    method ClearDestination()
      requires Valid()
      modifies this
      ensures Valid() && shownRoute == None
      ensures State() == old(State()).(destination := None, directions := None, clickedCoordinates := None,
                                       duration := "", distance := "", steps := [], routePolyline := None)
    {
      destination := None;
      directions := None;
      clickedCoordinates := None;
      duration := "";
      distance := "";
      steps := [];
      routePolyline := None;
      shownRoute := None;
    }

    /**
     * The route effect, run whenever `isLoaded`, the location or the
     * destination change: with the API loaded and a destination set it
     * subscribes to walking directions from the location to the destination
     * and changes nothing; otherwise it drops the directions.
     */
    method RouteEffect(isLoaded: bool) returns (subscription: Option<RouteSubscription>)
      requires Valid()
      modifies this
      ensures Valid() && shownRoute == old(shownRoute)
      ensures subscription.Some? <==> isLoaded && old(destination).Some?
      ensures subscription.Some? ==>
        && subscription.value == RouteSubscription(DirectionsRequest(old(location), old(destination).value, Walking), PollIntervalMs)
        && State() == old(State())
      ensures subscription.None? ==> State() == old(State()).(directions := None)
    {
      if isLoaded && destination.Some? {
        subscription := Some(RouteSubscription(DirectionsRequest(location, destination.value, Walking), PollIntervalMs));
      } else {
        subscription := None;
        directions := None;
      }
    }

    /**
     * The directions service's answer, from the first request or a poll.
     * On OK the result becomes the directions, and when its first route has
     * a leg, that leg's ETA, distance and steps and the route's polyline are
     * shown.  Any other status changes nothing, so the last route stays.
     * Answers are applied in arrival order, whatever request they answer.
     */
    method DirectionsCallback(status: string, result: DirectionsResult)
      requires Valid()
      modifies this
      ensures Valid()
      ensures status != StatusOK ==> State() == old(State()) && shownRoute == old(shownRoute)
      ensures status == StatusOK && !(|result.routes| > 0 && |result.routes[0].legs| > 0) ==>
        State() == old(State()).(directions := Some(result)) && shownRoute == old(shownRoute)
      ensures status == StatusOK && |result.routes| > 0 && |result.routes[0].legs| > 0 ==>
        var route := result.routes[0];
        && State() == old(State()).(directions := Some(result),
                                    duration := route.legs[0].durationText,
                                    distance := route.legs[0].distanceText,
                                    steps := route.legs[0].steps,
                                    routePolyline := Some(Polyline(route.overviewPath)))
        && shownRoute == Some(route)
    {
      if status == StatusOK {
        directions := Some(result);
        if |result.routes| > 0 && |result.routes[0].legs| > 0 {
          var route := result.routes[0];
          var leg := route.legs[0];
          duration := leg.durationText;
          distance := leg.distanceText;
          steps := leg.steps;
          routePolyline := Some(Polyline(route.overviewPath));
          shownRoute := Some(route);
        }
      }
    }

    /**
     * The arrows drawn on the route polyline: none without a shown route,
     * otherwise the arrows of the polyline of its overview path, one per
     * point of that path but the last.
     */
    function RenderArrowSymbols(): (arrows: seq<ArrowSymbol>)
      requires Valid()
      reads this
      ensures shownRoute.None? ==> arrows == []
      ensures shownRoute.Some? ==>
        && arrows == ArrowSymbols(Some(Polyline(shownRoute.value.overviewPath)))
        && |arrows| == if |shownRoute.value.overviewPath| == 0 then 0 else |shownRoute.value.overviewPath| - 1
    {
      ArrowSymbols(routePolyline)
    }
  }
}
