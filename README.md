# Route form state machine (StopByMap)

This project models the state kept by the `RouteForm` component of StopByMap,
a route planner. A user enters a start, an ordered list of waypoints and an
end. Each entry is resolved to a coordinate through a places-search box. The
form asks the directions provider for a driving route, optionally avoiding
tolls.

The model covers:

- the component's state variables;
- the event handlers that change them;
- the render-time rule that decides when a directions request is issued and
  what it contains;
- the callback that stores the provider's answer.

Modules:

- `Places`: coordinates and place candidates, both opaque. A search box is
  modelled by what `getPlaces()` returns at a selection event. `FirstPlace`
  picks the candidate a selection resolves to. `LastResolved` finds the last
  waypoint box that offered a candidate.
- `StopList`: removal of a waypoint by index, `filter((_, i) => i !== index)`,
  and its characterisation by slices.
- `Directions`: the request datatype and `Stops`, the request's waypoint list.
  `Stops` keeps the resolved positions in order and marks each one a stopover.
- `RouteForm`: the `State` snapshot, `PendingRequest` (the trigger and the
  request built from the state), `MapCenter`, and the class `Form` with one
  method per handler. Each method states the whole new state: most as a
  datatype update of `old(Model())`, `Form.HandleSearch` field by field, and
  `Form.SearchWaypoints` by the two lists it may modify. Every handler but
  `Form.SearchWaypoints`, a step of `Form.HandleSearch`, also states what the
  change means for the pending request. `Valid()` says that the waypoint texts, positions and
  search-box references are parallel lists, and every handler keeps it.
- `Scenarios`: client methods that run sequences of events on one form and
  assert what the contracts imply.

Modelling choices:

- The deferred `setTimeout(() => recalculateRoute(), 0)` runs synchronously
  right after the mutation that schedules it. Neither handler that schedules
  it changes the start or end position, so the positions it reads are the
  current ones.
- The state setters of one handler are applied in order, and the last write
  to a variable wins. Inside `handleSearch`, every waypoint box with
  candidates writes both waypoint lists as copies of the lists held before
  the search, with its own entry replaced. Only the last such box's update
  survives (`Form.SearchWaypoints`).
- A search box whose reference is not set is the input `None`. A
  `getPlaces()` that returns nothing or an empty array is `Some([])`.
- The waypoint loop of `handleSearch` (src/components/RouteForm.jsx:85-100)
  tests `ref.current`, but each slot of `waypointRefs.current` holds either a
  fresh reference whose `current` is null (line 63) or, once the box has
  loaded, the search box itself (line 131), on which `getPlaces()` is called
  directly (line 135) and which has no `current` property. As written, the
  loop therefore skips every row. `Form.HandleSearch` takes its waypoint boxes
  as arbitrary inputs, a superset of what the code can produce; its
  last-write-wins result describes the loop's logic, not an effect the search
  button can reach.
- The widget references in `waypointRefs` are tracked only by their number,
  `waypointRefCount`.

Behaviour the code does not have, which the model does not add:

- Adding a waypoint does not drop a stored route. A new request is issued
  only at the next event that drops it: a start or end selection, a
  selection in a waypoint's own box, or a removal. Resolving the waypoint
  through the search button does not drop it (`Form.HandleAddWaypoint`,
  `Scenarios.AddThenResolveWaypoint`,
  `Scenarios.SearchResolvedWaypointKeepsRoute`).
- Clearing the start or end text does not clear its position
  (`Form.SetStart`, `Form.SetEnd`, `Scenarios.ClearEndTextKeepsPosition`).
- The search button does not check for empty fields.
- There is no error state. A non-"OK" reply is ignored, and late replies are
  not discarded (`Form.OnDirections`).
- Stops are addressed by index, not by a stable identity.
- Toggling toll avoidance does not drop a stored route, so the new preference
  takes effect only at the next invalidation (`Form.SetAvoidTolls`).

## Model

| member | source | states |
|---|---|---|
| `Places.FirstPlace` | src/components/RouteForm.jsx:36-39 | a selection resolves to nothing exactly when there are no candidates, otherwise to the first candidate |
| `Places.LastResolved` | src/components/RouteForm.jsx:85-100 | the index returned is a waypoint box with candidates and no later box has any; no index means no box has candidates |
| `Places.LastResolvedSnoc` | src/components/RouteForm.jsx:85-100 | reading one more box moves the last resolved index to it exactly when it has candidates |
| `StopList.KeepOthers` | src/components/RouteForm.jsx:67-68 | filtering by index drops one element exactly when the index falls inside the list |
| `StopList.RemoveIndex` | src/components/RouteForm.jsx:67-68 | removal shortens the list by one for an index inside it and keeps its length otherwise |
| `StopList.KeepOthersSlices` | src/components/RouteForm.jsx:67-68 | the index filter, from any starting offset, is the list with the matching element cut out, or the list itself |
| `StopList.RemoveIndexSlices` | src/components/RouteForm.jsx:66-71 | removal deletes exactly the element at an in-range index and keeps the rest in order; an out-of-range index leaves the list unchanged |
| `StopList.RemoveIndexAt` | src/components/RouteForm.jsx:67-68 | after removal, elements before the index stay put and later ones move down by one |
| `Directions.Stops` | src/components/RouteForm.jsx:231-236 | the request's waypoint list is no longer than the positions and every entry is a stopover |
| `Directions.StopsAppend` | src/components/RouteForm.jsx:231-236 | the waypoint list of two consecutive runs of positions is the concatenation of their lists, so list order is kept |
| `Directions.StopsMember` | src/components/RouteForm.jsx:231-236 | a location is a stop of the request if and only if some waypoint position is resolved to it |
| `Directions.StopsAllResolved` | src/components/RouteForm.jsx:231-236 | when every waypoint is resolved, the stops are exactly the positions, index for index |
| `Directions.StopsSkipUnresolved` | src/components/RouteForm.jsx:232 | an unresolved waypoint contributes no stop wherever it sits |
| `RouteForm.MapCenter` | src/components/RouteForm.jsx:33 | the map centres on the start position, else the end position, else the fixed default centre |
| `RouteForm.PendingRequest` | src/components/RouteForm.jsx:225-240 | a request is issued exactly when both ends are resolved and no route is stored; origin, destination and toll preference come from the state, the travel mode is driving, waypoint optimisation and alternative routes are on, and the waypoints are the resolved positions |
| `RouteForm.RequestVisitsResolvedWaypoints` | src/components/RouteForm.jsx:225-236 | a pending request routes through a location if and only if a waypoint is resolved to it |
| `RouteForm.Form.constructor` | src/components/RouteForm.jsx:14-21 | all texts empty, no positions, no waypoints, no route, tolls allowed; no request pending |
| `RouteForm.Form.SetStart` | src/components/RouteForm.jsx:117 | typing in the start box changes only the start text and leaves the pending request as it was |
| `RouteForm.Form.SetEnd` | src/components/RouteForm.jsx:187 | typing in the end box changes only the end text and leaves the pending request as it was |
| `RouteForm.Form.SetAvoidTolls` | src/components/RouteForm.jsx:198 | only the toll flag changes; while a route is stored no request is issued |
| `RouteForm.Form.HandlePlaceChanged` | src/components/RouteForm.jsx:35-52 | no candidates: nothing changes; otherwise that end takes the first candidate's name and location, the stored route is dropped, and a request is pending when both ends are resolved |
| `RouteForm.Form.RecalculateRoute` | src/components/RouteForm.jsx:54-58 | drops the stored route, leaving a request pending, when both ends are resolved; otherwise changes nothing |
| `RouteForm.Form.HandleAddWaypoint` | src/components/RouteForm.jsx:60-64 | appends an empty text, an unresolved position and a reference; everything else, the stored route and the pending request are unchanged |
| `RouteForm.Form.HandleRemoveWaypoint` | src/components/RouteForm.jsx:66-74 | removes the indexed entry from every parallel list keeping order, or nothing for an out-of-range index; then drops the route if both ends are resolved, and the new request omits exactly that waypoint |
| `RouteForm.Form.HandleWaypointChange` | src/components/RouteForm.jsx:76-80 | only that waypoint's text changes; positions, route and pending request are unchanged |
| `RouteForm.Form.OnWaypointPlacesChanged` | src/components/RouteForm.jsx:132-148 | no reference held for that row, no box or no candidates: nothing changes; otherwise that waypoint takes the first candidate's name and location, the route is dropped when both ends are resolved, and the new request routes through that location |
| `RouteForm.Form.HandleSearch` | src/components/RouteForm.jsx:82-101 | each end with candidates is resolved and then the stored route is dropped; only the last waypoint box with candidates updates its waypoint, and waypoint updates alone keep the stored route, so no request is issued while one is stored; a resolved end with both ends set leaves a request pending |
| `RouteForm.Form.SearchWaypoints` | src/components/RouteForm.jsx:85-100 | after reading every waypoint box, both lists equal the lists held before the search with only the last box with candidates applied |
| `RouteForm.Form.OnDirections` | src/components/RouteForm.jsx:241-243 | a route is stored only for status "OK" with a result present, which ends the pending request; anything else changes nothing |

## Left out

- Rendering: the JSX markup, styling, markers, the map and the route renderer
  (`GoogleMap`, `Marker`, `DirectionsRenderer`) only display the state.
- The Google Maps widgets: the internals of `StandaloneSearchBox.getPlaces()`
  and of `DirectionsService`. They are inputs: a candidate sequence per box
  and a status and result pair per reply.
- Loading the search boxes (`onLoad`, lines 109, 131 and 179) and the
  reference objects made by `createWaypointRef`. A box's availability is the
  `None` input, and the reference list is tracked only by its length.
- Coordinates are opaque. No latitude or longitude arithmetic is modelled,
  and the default centre is kept as an exact decimal.
- Asynchronous scheduling: React's batching, stale closures and the timing of
  `setTimeout`, beyond the sequential reading above. Repeated renders that
  remount the directions service are not modelled; the model says when a
  request is due, not how many times the widget sends it.
- RouteForm.Form.HandleWaypointChange: requires an index inside the list.
  The form only calls it for rendered rows; a JavaScript write past the end
  would extend the array, which is not modelled.
- `backend/main.py` is not part of this model. It is an HTTP proxy to the
  directions web service with floating-point rounding of distance and
  duration.
