# RouteMapApp waypoint and route controller in Dafny

This is a model of the one piece of logic in RouteMapApp that is not platform code: the view controller's waypoint and route state. The user types an address. The geocoder resolves it, and a pin (an annotation) is appended to the controller's list. When the list holds more than two pins, the "route" and "reset" buttons are shown. "Route" sends one walking-directions request, with alternatives, from each pin to the next. For each answer it draws the shortest route, and the earliest one when several are equally short. "Reset" removes every pin and every drawn route and hides both buttons.

Everything is in `route_map.dfy`, module `RouteMap`:

- **Values.** `Coordinate`, `Annotation`, `Route`, `Placemark`, `DirectionsRequest` and `Alert`. The services' completions appear as `GeocodeReply` and `DirectionsReply`. Each is an optional value paired with an optional error, in the same shape as the Swift completion handlers receive them.
- **Specification.** `ControllerState` is what the controller holds. `Placed`, `Routed` and `Cleared` describe the state after each completion or tap, and `Run` describes the state after a sequence of `Event`s. `ButtonsTrackCount` is the button invariant: both buttons are visible exactly when more than two pins exist. `FirstShortest` is the route-selection rule, and `IsFirstShortest` characterises it.
- **Imperative model.** The class `ViewController` has the fields `annotations`, `routeHidden`, `resetHidden` and `overlays`. Each method that changes state is proved against `Initial`, `Placed`, `Routed` or `Cleared`. `RouteButtonDidTapped` changes nothing, and its contract lists the requests it issues directly. `MinRoute` is a module-level method: the selection loop run by the directions completion.

The geocoder, the directions service and the map view are not modelled. Their answers are inputs to the methods that handle them. The map's overlays are modelled as the `overlays` field.

Three behaviours of the code are easy to miss:
- A geocode reply with no placemarks, or whose first placemark has no location, is ignored without any dialog. Only a geocoder error shows one.
- A directions error is only logged. The "route unavailable" dialog appears only when the reply has neither an error nor a response.
- Tapping "route" again does not remove routes already drawn. Overlays pile up until reset.

## Model

| member | source | states |
|---|---|---|
| RouteMap.Classify | RouteMapApp/View/ViewController.swift:69-86 | An error is checked first, then a missing placemark list. A pin is placed exactly when there is no error, the list is non-empty and its first placemark has a location, and that location is the one used. |
| RouteMap.FirstShortest | RouteMapApp/View/ViewController.swift:126-132 | The chosen index is a route no longer than any other, and strictly shorter than every route before it, so ties go to the earliest. |
| RouteMap.FirstShortestUnique | RouteMapApp/View/ViewController.swift:126-132 | Those two conditions determine the index uniquely. |
| RouteMap.ShortestOfThree | RouteMapApp/View/ViewController.swift:126-132 | For the distances 5.2, 3.1 and 4.0, the route of 3.1 is chosen. |
| RouteMap.MinRoute | RouteMapApp/View/ViewController.swift:127-132 | The loop that starts from routes[0] and replaces the current route only by a strictly shorter one returns the route at FirstShortest. That route is in the list and no longer than any other. Requires a non-empty list, because routes[0] traps otherwise. |
| RouteMap.PlacedAppendsOne | RouteMapApp/View/ViewController.swift:80-89 | On a successful geocode, exactly one pin is appended at the end, titled with the typed address, and drawn routes stay. Otherwise the state is unchanged, and it is unchanged only in that case. |
| RouteMap.PlacedKeepsButtons | RouteMapApp/View/ViewController.swift:89-93 | Appending a pin and showing the buttons once the count exceeds 2 preserves "buttons visible exactly when count > 2". |
| RouteMap.ClearedIsInitial | RouteMapApp/View/ViewController.swift:155-165 | Reset gives the initial state whatever the prior state was: no pins, no overlays, both buttons hidden. Resetting twice is the same as resetting once. |
| RouteMap.RoutedAddsAtMostOne | RouteMapApp/View/ViewController.swift:115-135 | A directions completion never changes the pins or buttons. An error or a missing response adds no overlay. A response adds exactly the polyline of the first shortest route. |
| RouteMap.RunKeepsButtons | RouteMapApp/View/ViewController.swift:34-164 | Over any sequence of geocode completions, directions completions and resets, the buttons stay visible exactly when more than two pins exist. |
| RouteMap.PinsSeq | RouteMapApp/View/ViewController.swift:80-89 | The pins of a run are listed in completion order: a reset empties the list, and each located geocode appends its address and coordinate. Their number is the number of successful geocodes since the last reset. |
| RouteMap.RunPins | RouteMapApp/View/ViewController.swift:47-164 | Starting from the initial state, the pins after any run are exactly the located geocodes since the last reset, in completion order, each titled with its address. |
| RouteMap.RunPinCount | RouteMapApp/View/ViewController.swift:47-93 | Starting from the initial state, the number of pins equals the number of successful geocodes since the last reset. |
| RouteMap.VisibleRouteHasPairs | RouteMapApp/View/ViewController.swift:90-93 | While the invariant holds and the route button is visible, there are at least 3 pins. That is enough for the range 0...count-2. |
| RouteMap.ViewController.constructor | RouteMapApp/View/ViewController.swift:29-47 | The controller starts with no pins and no overlays, with both buttons hidden, and satisfies the invariant. |
| RouteMap.ViewController.SetupPlacemark | RouteMapApp/View/ViewController.swift:65-96 | The geocoder completion produces the state `Placed` describes and keeps the invariant. On success it appends the one new pin. In every other case it leaves the pins and both flags unchanged. It returns the "server unavailable" alert exactly when the geocoder reported an error. |
| RouteMap.ViewController.RouteButtonDidTapped | RouteMapApp/View/ViewController.swift:146-153 | It issues count-1 requests. The i-th goes from pin i to pin i+1, on foot, with alternatives requested. It changes nothing. It requires 2 pins, because the closed range traps otherwise. |
| RouteMap.ViewController.DirectionsDidComplete | RouteMapApp/View/ViewController.swift:115-135 | The directions completion produces the state `Routed` describes and adds at most one overlay. It returns the "route unavailable" alert exactly when the reply has neither an error nor a response. |
| RouteMap.ViewController.ResetButtonDidTapped | RouteMapApp/View/ViewController.swift:155-165 | Afterwards there are no pins and no overlays, both buttons are hidden, and the invariant holds, whatever the prior state was. |

## Left out

- RouteMapApp/View/Alert.swift: presenting dialogs and reading the text field is UI code. A returned `Alert` value stands for a presented dialog.
- The geocoder and directions calls themselves, including building the `MKPlacemark`/`MKMapItem` endpoints. Their answers are inputs, and a request is the returned `DirectionsRequest` value.
- `showAnnotations` and `removeAnnotations` are left out. Which pins the map displays, and how it zooms to them, is map-view behaviour. The model keeps only the controller's own list.
- `print` of the error values is I/O and is not modelled.
- Asynchronous delivery is not modelled. Each completion is one atomic step, and completions can arrive in any order. Reset cancels nothing, so a completion that arrives after a reset still draws its route, as in the code.
- The overlay renderer delegate (stroke colour), layout constraints and button styling are UI only.
- Coordinates and distances are reals, not Double. NaN and rounding are not modelled.
- RouteMap.ViewController.DirectionsDidComplete: requires a response with routes to hold at least one route. The code indexes routes[0] without a check, so it would trap on an empty list.
