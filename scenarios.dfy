/**
 * Scenarios: sequences of events on one form, with what the handlers'
 * contracts let a caller conclude at each step.
 */
module Scenarios {
  import opened Places
  import opened Directions
  import opened RouteForm

  /**
   * Both ends resolved, a route stored, then a blank waypoint added and
   * resolved: the stored route survives the addition and is dropped only
   * by the waypoint's place selection.
   */
  method AddThenResolveWaypoint(tokyo: Place, osaka: Place, nagoya: Place, route: DirectionsResult)
  {
    var form := new Form();
    form.HandlePlaceChanged(Start, [tokyo]);
    assert PendingRequest(form.Model()).None?;
    form.HandlePlaceChanged(End, [osaka]);
    assert PendingRequest(form.Model())
        == Some(DirectionsRequest(tokyo.location, osaka.location, "DRIVING", [], true, false, true));
    form.OnDirections(Some(route), "OK");
    assert form.directions == Some(route);
    form.HandleAddWaypoint();
    assert form.directions == Some(route) && PendingRequest(form.Model()).None?;
    form.OnWaypointPlacesChanged(0, Some([nagoya]));
    assert form.waypointPositions == [Some(nagoya.location)];
    assert [Some(nagoya.location)][1..] == [];
    assert Stops(form.waypointPositions) == [Waypoint(nagoya.location, true)];
    assert form.directions.None?;
    assert form.startPosition == Some(tokyo.location) && form.endPosition == Some(osaka.location);
    assert !form.avoidTolls;
    assert PendingRequest(form.Model())
        == Some(DirectionsRequest(tokyo.location, osaka.location, "DRIVING",
                                  [Waypoint(nagoya.location, true)], true, false, true));
  }

  /** Clearing the end text keeps its position, and a failed provider call is ignored. */
  method ClearEndTextKeepsPosition(tokyo: Place, osaka: Place, route: DirectionsResult)
  {
    var form := new Form();
    form.HandlePlaceChanged(Start, [tokyo]);
    form.HandlePlaceChanged(End, [osaka]);
    form.OnDirections(Some(route), "ZERO_RESULTS");
    assert form.directions.None? && PendingRequest(form.Model()).Some?;
    form.OnDirections(Some(route), "OK");
    form.SetEnd("");
    assert form.endPosition == Some(osaka.location);
    assert form.directions == Some(route);
  }

  /** A search with two resolvable waypoint boxes updates only the second waypoint. */
  method SearchKeepsLastWaypointOnly(a: Place, b: Place)
  {
    var form := new Form();
    form.HandleAddWaypoint();
    form.HandleAddWaypoint();
    form.HandleSearch(None, None, [Some([a]), Some([b])]);
    assert form.waypoints == ["", b.name];
    assert form.waypointPositions == [None, Some(b.location)];
  }

  /**
   * A route stored, then a waypoint added and resolved through the search
   * button: the stored route is kept and no request is issued, until a start
   * selection drops it while the waypoint is still the one resolved.
   */
  method SearchResolvedWaypointKeepsRoute(tokyo: Place, osaka: Place, nagoya: Place,
                                          kyoto: Place, route: DirectionsResult)
  {
    var form := new Form();
    form.HandlePlaceChanged(Start, [tokyo]);
    form.HandlePlaceChanged(End, [osaka]);
    form.OnDirections(Some(route), "OK");
    form.HandleAddWaypoint();
    form.HandleSearch(None, None, [Some([nagoya])]);
    assert form.waypointPositions == [Some(nagoya.location)];
    assert PendingRequest(form.Model()).None?;
    form.HandlePlaceChanged(Start, [kyoto]);
    assert PendingRequest(form.Model()).Some?;
  }

  /** A selection reported for a row with no reference changes nothing. */
  method SelectionWithoutRowIgnored(nagoya: Place)
  {
    var form := new Form();
    form.OnWaypointPlacesChanged(0, Some([nagoya]));
    assert form.waypoints == [] && form.waypointPositions == [];
  }
}
