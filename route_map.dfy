/*
 * A model of the waypoint-and-route controller of RouteMapApp.
 *
 * The user enters addresses; each address is geocoded and, when a location
 * comes back, pinned on the map. Once more than two pins exist the "route"
 * and "reset" buttons appear. "route" asks the directions service for a
 * walking route between every pair of consecutive pins and draws the
 * shortest alternative of each answer; "reset" clears pins, routes and
 * hides both buttons again.
 *
 * The geocoder and the directions service are not modelled: their answers
 * are inputs to the operations that handle them.
 */
module RouteMap {

  datatype Option<T> = None | Some(value: T)

  // ---------------------------------------------------------------------
  // Values handled by the controller
  // ---------------------------------------------------------------------

  /** A map coordinate. The controller only copies it, never inspects it. */
  datatype Coordinate = Coordinate(latitude: real, longitude: real)

  /** A pin on the map: the address text as typed, and where it was found. */
  datatype Annotation = Annotation(title: string, coordinate: Coordinate)

  /** A drawn path. */
  type Polyline = seq<Coordinate>

  /** One alternative offered by the directions service. */
  datatype Route = Route(distance: real, polyline: Polyline)

  /** One candidate returned by the geocoder; its location may be missing. */
  datatype Placemark = Placemark(location: Option<Coordinate>)

  /** What the geocoder hands to its completion: placemarks and/or an error. */
  datatype GeocodeReply = GeocodeReply(placemarks: Option<seq<Placemark>>, error: Option<string>)

  /** What the directions service hands to its completion: a response holding routes, and/or an error. */
  datatype DirectionsReply = DirectionsReply(routes: Option<seq<Route>>, error: Option<string>)

  datatype TransportType = Automobile | Walking | Transit

  /** A directions request as the controller configures it. */
  datatype DirectionsRequest = DirectionsRequest(
    source: Coordinate,
    destination: Coordinate,
    transportType: TransportType,
    requestsAlternateRoutes: bool)

  /** An informational dialog shown to the user. */
  datatype Alert = Alert(title: string, message: string)

  const ErrorTitle: string := "Ошибка"
  /** Shown when the geocoder reports an error. */
  const ServerUnavailable: Alert := Alert(ErrorTitle, "Сервер не доступен. Попробуйте добавить адрес еще раз")
  /** Shown when the directions service answers with neither routes nor an error. */
  const RouteUnavailable: Alert := Alert(ErrorTitle, "Маршрут не доступен")

  // ---------------------------------------------------------------------
  // Geocoding outcome
  // ---------------------------------------------------------------------

  /** The four ways a geocoder completion can end. */
  datatype GeocodeOutcome = Failed | NoPlacemarks | NoLocation | Found(coordinate: Coordinate)

  /**
   * The error is looked at first; then a missing placemark list; then the
   * location of the first placemark (an empty list has no first placemark).
   */
  function Classify(reply: GeocodeReply): (o: GeocodeOutcome)
    ensures o.Failed? <==> reply.error.Some?
    ensures o.NoPlacemarks? <==> reply.error.None? && reply.placemarks.None?
    ensures o.Found? <==>
      reply.error.None? && reply.placemarks.Some? && |reply.placemarks.value| > 0
      && reply.placemarks.value[0].location.Some?
    ensures o.Found? ==> o.coordinate == reply.placemarks.value[0].location.value
  {
    if reply.error.Some? then Failed
    else if reply.placemarks.None? then NoPlacemarks
    else
      var first := if |reply.placemarks.value| > 0 then Some(reply.placemarks.value[0]) else None;
      if first.None? || first.value.location.None? then NoLocation
      else Found(first.value.location.value)
  }

  // ---------------------------------------------------------------------
  // Choosing the route to draw
  // ---------------------------------------------------------------------

  /**
   * The index of the route the controller draws: the shortest one, and the
   * earliest among equally short ones.
   */
  ghost predicate IsFirstShortest(routes: seq<Route>, k: int)
  {
    0 <= k < |routes|
    && (forall j :: 0 <= j < |routes| ==> routes[k].distance <= routes[j].distance)
    && (forall j :: 0 <= j < k ==> routes[k].distance < routes[j].distance)
  }

  /**
   * A left-to-right scan in which only a strictly shorter route replaces the
   * current choice.
   */
  function FirstShortest(routes: seq<Route>): (k: nat)
    requires |routes| > 0
    ensures IsFirstShortest(routes, k)
    decreases |routes|
  {
    if |routes| == 1 then 0
    else
      var k := FirstShortest(routes[..|routes| - 1]);
      if routes[|routes| - 1].distance < routes[k].distance then |routes| - 1 else k
  }

  /** The selection rule leaves no choice: at most one index satisfies it. */
  lemma FirstShortestUnique(routes: seq<Route>, k1: int, k2: int)
    requires IsFirstShortest(routes, k1) && IsFirstShortest(routes, k2)
    ensures k1 == k2
  {
    // both are shortest, so equally short; neither can then lie after the other
    assert routes[k1].distance == routes[k2].distance;
  }

  /** Of the distances 5.2, 3.1 and 4.0, the route of 3.1 is the one drawn. */
  lemma ShortestOfThree(p: Polyline, q: Polyline, r: Polyline)
    ensures FirstShortest([Route(5.2, p), Route(3.1, q), Route(4.0, r)]) == 1
  {
  }

  /**
   * The loop of the directions completion: start from the first route and
   * keep a route only when it is strictly shorter than the current one.
   */
  method MinRoute(routes: seq<Route>) returns (minRoute: Route)
    requires |routes| > 0
    ensures minRoute == routes[FirstShortest(routes)]
    ensures minRoute in routes
    ensures forall j :: 0 <= j < |routes| ==> minRoute.distance <= routes[j].distance
  {
    minRoute := routes[0];
    ghost var k := 0;
    for i := 0 to |routes|
      invariant k < |routes| && minRoute == routes[k]
      invariant k == FirstShortest(routes[..if i == 0 then 1 else i])
    {
      if i > 0 {
        assert routes[..i + 1][..i] == routes[..i];
      }
      if routes[i].distance < minRoute.distance {
        minRoute, k := routes[i], i;
      }
    }
    assert routes[..|routes|] == routes;
  }

  // ---------------------------------------------------------------------
  // The controller's state and how each event changes it
  // ---------------------------------------------------------------------

  /** What the controller shows: pins, the two buttons' visibility, and drawn routes. */
  datatype ControllerState = ControllerState(
    annotations: seq<Annotation>,
    routeHidden: bool,
    resetHidden: bool,
    overlays: seq<Polyline>)

  /** Before anything happens: no pins, no routes, both buttons hidden. */
  function Initial(): (s: ControllerState)
  {
    ControllerState([], true, true, [])
  }

  /** The buttons are visible exactly when more than two pins exist. */
  ghost predicate ButtonsTrackCount(s: ControllerState)
  {
    s.routeHidden == (|s.annotations| <= 2) && s.resetHidden == s.routeHidden
  }

  /** After a geocoder completion for the address typed as `address`. */
  function Placed(s: ControllerState, address: string, reply: GeocodeReply): (t: ControllerState)
  {
    match Classify(reply)
    case Found(c) =>
      var pins := s.annotations + [Annotation(address, c)];
      if |pins| > 2 then s.(annotations := pins, routeHidden := false, resetHidden := false)
      else s.(annotations := pins)
    case _ => s
  }

  /** After the reset button is tapped. */
  function Cleared(s: ControllerState): (t: ControllerState)
  {
    s.(annotations := [], routeHidden := true, resetHidden := true, overlays := [])
  }

  /** The directions service's answer can be handled: a response carries at least one route. */
  predicate Answerable(reply: DirectionsReply)
  {
    reply.error.None? && reply.routes.Some? ==> |reply.routes.value| > 0
  }

  /** After a directions completion. */
  function Routed(s: ControllerState, reply: DirectionsReply): (t: ControllerState)
    requires Answerable(reply)
  {
    if reply.error.Some? || reply.routes.None? then s
    else
      var routes := reply.routes.value;
      s.(overlays := s.overlays + [routes[FirstShortest(routes)].polyline])
  }

  /** A geocode succeeds exactly when one pin, titled with the address, is added after the others. */
  lemma PlacedAppendsOne(s: ControllerState, address: string, reply: GeocodeReply)
    ensures Classify(reply).Found? ==>
      Placed(s, address, reply).annotations == s.annotations + [Annotation(address, Classify(reply).coordinate)]
      && Placed(s, address, reply).overlays == s.overlays
    ensures !Classify(reply).Found? <==> Placed(s, address, reply) == s
  {
  }

  /** A geocoder completion keeps the buttons in step with the pin count. */
  lemma PlacedKeepsButtons(s: ControllerState, address: string, reply: GeocodeReply)
    requires ButtonsTrackCount(s)
    ensures ButtonsTrackCount(Placed(s, address, reply))
  {
  }

  /** Reset yields the initial state whatever came before, so doing it twice is doing it once. */
  lemma ClearedIsInitial(s: ControllerState)
    ensures Cleared(s) == Initial()
    ensures Cleared(Cleared(s)) == Cleared(s)
    ensures ButtonsTrackCount(Cleared(s))
  {
  }

  /** A directions completion adds at most one overlay, and touches nothing else. */
  lemma RoutedAddsAtMostOne(s: ControllerState, reply: DirectionsReply)
    requires Answerable(reply)
    ensures Routed(s, reply).annotations == s.annotations
    ensures Routed(s, reply).routeHidden == s.routeHidden && Routed(s, reply).resetHidden == s.resetHidden
    ensures reply.error.Some? || reply.routes.None? ==> Routed(s, reply).overlays == s.overlays
    ensures reply.error.None? && reply.routes.Some? ==>
      exists k :: IsFirstShortest(reply.routes.value, k)
        && Routed(s, reply).overlays == s.overlays + [reply.routes.value[k].polyline]
  {
    if reply.error.None? && reply.routes.Some? {
      var k := FirstShortest(reply.routes.value);
      assert IsFirstShortest(reply.routes.value, k);
    }
  }

  // ---------------------------------------------------------------------
  // Runs of events
  // ---------------------------------------------------------------------

  /**
   * Everything that changes the controller's state. Directions completions
   * arrive one at a time, in any order, and are not cancelled by a reset.
   */
  datatype Event =
    | Geocoded(address: string, geocode: GeocodeReply)
    | DirectionsArrived(directions: DirectionsReply)
    | ResetTapped

  predicate Handleable(e: Event)
  {
    e.DirectionsArrived? ==> Answerable(e.directions)
  }

  function Step(s: ControllerState, e: Event): (t: ControllerState)
    requires Handleable(e)
  {
    match e
    case Geocoded(address, reply) => Placed(s, address, reply)
    case DirectionsArrived(reply) => Routed(s, reply)
    case ResetTapped => Cleared(s)
  }

  /** The state after the events, handled oldest first. */
  function Run(s: ControllerState, events: seq<Event>): (t: ControllerState)
    requires forall i :: 0 <= i < |events| ==> Handleable(events[i])
    decreases |events|
  {
    if events == [] then s
    else Step(Run(s, events[..|events| - 1]), events[|events| - 1])
  }

  /** Successful geocodes since the last reset. */
  function PinsSinceReset(events: seq<Event>): (n: nat)
    decreases |events|
  {
    if events == [] then 0
    else
      var e := events[|events| - 1];
      var before := PinsSinceReset(events[..|events| - 1]);
      if e.ResetTapped? then 0
      else if e.Geocoded? && Classify(e.geocode).Found? then before + 1
      else before
  }

  /**
   * The pins a run leaves behind: the located geocodes since the last reset,
   * in the order their completions arrived, each titled with its address.
   */
  function PinsSeq(events: seq<Event>): (pins: seq<Annotation>)
    ensures |pins| == PinsSinceReset(events)
    decreases |events|
  {
    if events == [] then []
    else
      var e := events[|events| - 1];
      var before := PinsSeq(events[..|events| - 1]);
      if e.ResetTapped? then []
      else if e.Geocoded? && Classify(e.geocode).Found? then
        before + [Annotation(e.address, Classify(e.geocode).coordinate)]
      else before
  }

  /** Every run keeps the buttons visible exactly when more than two pins exist. */
  lemma {:induction false} RunKeepsButtons(s: ControllerState, events: seq<Event>)
    requires forall i :: 0 <= i < |events| ==> Handleable(events[i])
    requires ButtonsTrackCount(s)
    ensures ButtonsTrackCount(Run(s, events))
    decreases |events|
  {
    if events != [] {
      var prefix, e := events[..|events| - 1], events[|events| - 1];
      RunKeepsButtons(s, prefix);
      match e
      case Geocoded(address, reply) => PlacedKeepsButtons(Run(s, prefix), address, reply);
      case DirectionsArrived(reply) => RoutedAddsAtMostOne(Run(s, prefix), reply);
      case ResetTapped => ClearedIsInitial(Run(s, prefix));
    }
  }

  /**
   * From the initial state, the pins are exactly the located geocodes since
   * the last reset, in completion order.
   */
  lemma {:induction false} RunPins(events: seq<Event>)
    requires forall i :: 0 <= i < |events| ==> Handleable(events[i])
    ensures Run(Initial(), events).annotations == PinsSeq(events)
    decreases |events|
  {
    if events != [] {
      var prefix, e := events[..|events| - 1], events[|events| - 1];
      RunPins(prefix);
      match e
      case Geocoded(address, reply) => PlacedAppendsOne(Run(Initial(), prefix), address, reply);
      case DirectionsArrived(reply) => RoutedAddsAtMostOne(Run(Initial(), prefix), reply);
      case ResetTapped =>
    }
  }

  /** From the initial state, the number of pins is the number of successful geocodes since the last reset. */
  lemma RunPinCount(events: seq<Event>)
    requires forall i :: 0 <= i < |events| ==> Handleable(events[i])
    ensures |Run(Initial(), events).annotations| == PinsSinceReset(events)
  {
    RunPins(events);
  }

  /** Whenever the route button is visible, there are enough pins for the route loop. */
  lemma VisibleRouteHasPairs(s: ControllerState)
    requires ButtonsTrackCount(s) && !s.routeHidden
    ensures |s.annotations| >= 3
  {
  }

  // ---------------------------------------------------------------------
  // The view controller
  // ---------------------------------------------------------------------

  class ViewController {
    var annotations: seq<Annotation>
    var routeHidden: bool
    var resetHidden: bool
    /** The polylines drawn on the map. */
    var overlays: seq<Polyline>

    function State(): (s: ControllerState)
      reads this
    {
      ControllerState(annotations, routeHidden, resetHidden, overlays)
    }

    ghost predicate Valid()
      reads this
    {
      ButtonsTrackCount(State())
    }

    /** Both buttons start hidden and there is nothing on the map. */
    constructor ()
      ensures Valid()
      ensures State() == Initial()
    {
      annotations := [];
      routeHidden := true;
      resetHidden := true;
      overlays := [];
    }

    /**
     * The geocoder's completion for `addressPlace`. A located first placemark
     * becomes a pin; the third pin reveals both buttons. An error is reported
     * in a dialog; a missing placemark or location is ignored silently.
     */
    method SetupPlacemark(addressPlace: string, reply: GeocodeReply) returns (alert: Option<Alert>)
      requires Valid()
      modifies this`annotations, this`routeHidden, this`resetHidden
      ensures Valid()
      ensures State() == Placed(old(State()), addressPlace, reply)
      ensures Classify(reply).Found? ==>
        annotations == old(annotations) + [Annotation(addressPlace, Classify(reply).coordinate)]
      ensures !Classify(reply).Found? ==>
        annotations == old(annotations) && routeHidden == old(routeHidden) && resetHidden == old(resetHidden)
      ensures alert == if reply.error.Some? then Some(ServerUnavailable) else None
    {
      if reply.error.Some? {
        alert := Some(ServerUnavailable);
        return;
      }
      alert := None;
      if reply.placemarks.None? {
        return;
      }
      var placemarks := reply.placemarks.value;
      var placemark := if |placemarks| > 0 then Some(placemarks[0]) else None;
      if placemark.None? || placemark.value.location.None? {
        return;
      }
      annotations := annotations + [Annotation(addressPlace, placemark.value.location.value)];
      if |annotations| > 2 {
        routeHidden := false;
        resetHidden := false;
      }
    }

    /**
     * The route button: one walking request, with alternatives, from each
     * pin to the next. The closed range 0...count-2 needs two pins.
     */
    method RouteButtonDidTapped() returns (requests: seq<DirectionsRequest>)
      requires |annotations| >= 2
      ensures |requests| == |annotations| - 1
      ensures forall i :: 0 <= i < |requests| ==>
        requests[i] == DirectionsRequest(annotations[i].coordinate, annotations[i + 1].coordinate, Walking, true)
    {
      requests := [];
      for i := 0 to |annotations| - 1
        invariant |requests| == i
        invariant forall j :: 0 <= j < i ==>
          requests[j] == DirectionsRequest(annotations[j].coordinate, annotations[j + 1].coordinate, Walking, true)
      {
        requests := requests + [DirectionsRequest(annotations[i].coordinate, annotations[i + 1].coordinate, Walking, true)];
      }
    }

    /**
     * The directions service's completion for one request. An error is only
     * logged; an empty answer is reported in a dialog; otherwise the
     * shortest route is drawn.
     */
    method DirectionsDidComplete(reply: DirectionsReply) returns (alert: Option<Alert>)
      requires Valid()
      requires Answerable(reply)
      modifies this`overlays
      ensures Valid()
      ensures State() == Routed(old(State()), reply)
      ensures |overlays| <= |old(overlays)| + 1
      ensures alert == if reply.error.None? && reply.routes.None? then Some(RouteUnavailable) else None
    {
      if reply.error.Some? {
        alert := None;
        return;
      }
      if reply.routes.None? {
        alert := Some(RouteUnavailable);
        return;
      }
      alert := None;
      var minRoute := MinRoute(reply.routes.value);
      overlays := overlays + [minRoute.polyline];
    }

    /** The reset button: no pins, no routes, both buttons hidden. */
    method ResetButtonDidTapped()
      modifies this
      ensures Valid()
      ensures State() == Cleared(old(State()))
      ensures annotations == [] && overlays == [] && routeHidden && resetHidden
    {
      overlays := [];
      annotations := [];
      routeHidden := true;
      resetHidden := true;
    }
  }
}
