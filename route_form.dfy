/**
 * RouteForm: the state of the route form and its event handlers.
 *
 * The form keeps a start and an end entry, an ordered list of waypoint
 * entries held as two parallel lists (texts and positions), the last route
 * returned by the directions provider and the toll-avoidance flag. A
 * directions request is pending whenever both ends are resolved and no
 * route is stored; every handler below says how it changes the state and
 * what that means for the pending request.
 *
 * A deferred `recalculateRoute` is run synchronously right after the
 * mutation that schedules it, and the state setters of one handler are
 * applied in order, the last write to a variable winning.
 */
module RouteForm {
  import opened Places
  import opened StopList
  import opened Directions

  /** Which end of the route a search box belongs to. */
  datatype Endpoint = Start | End

  /** The component's state variables, as one value. */
  datatype State = State(
    start: string,
    end: string,
    startPosition: Option<Coord>,
    endPosition: Option<Coord>,
    waypoints: seq<string>,
    waypointPositions: seq<Option<Coord>>,
    directions: Option<DirectionsResult>,
    avoidTolls: bool,
    waypointRefCount: nat)

  /** The map centre used while neither end is resolved (Tokyo Station). */
  const DefaultCenter: Coord := Coord(35.681236, 139.767125)

  /** The map is centred on the start, else on the end, else on the default centre. */
  function MapCenter(s: State): (c: Coord)
    ensures s.startPosition.Some? ==> c == s.startPosition.value
    ensures s.startPosition.None? && s.endPosition.Some? ==> c == s.endPosition.value
    ensures s.startPosition.None? && s.endPosition.None? ==> c == DefaultCenter
  {
    match s.startPosition
    case Some(p) => p
    case None => if s.endPosition.Some? then s.endPosition.value else DefaultCenter
  }

  /**
   * The request the form issues in state `s`, if any: one is issued exactly
   * when both ends are resolved and no route is stored.
   */
  function PendingRequest(s: State): (r: Option<DirectionsRequest>)
    ensures r.Some? <==> s.startPosition.Some? && s.endPosition.Some? && s.directions.None?
    ensures r.Some? ==> r.value.origin == s.startPosition.value && r.value.destination == s.endPosition.value
    ensures r.Some? ==> r.value.waypoints == Stops(s.waypointPositions)
    ensures r.Some? ==> r.value.avoidTolls == s.avoidTolls && r.value.optimizeWaypoints
    ensures r.Some? ==> r.value.travelMode == "DRIVING" && r.value.provideRouteAlternatives
  {
    if s.startPosition.Some? && s.endPosition.Some? && s.directions.None? then
      Some(DirectionsRequest(
        origin := s.startPosition.value,
        destination := s.endPosition.value,
        travelMode := "DRIVING",
        waypoints := Stops(s.waypointPositions),
        optimizeWaypoints := true,
        avoidTolls := s.avoidTolls,
        provideRouteAlternatives := true))
    else None
  }

  /**
   * A pending request routes through a location exactly when some waypoint is
   * resolved to it. (Their order is the list order: see `StopsAppend`.)
   */
  lemma RequestVisitsResolvedWaypoints(s: State, c: Coord)
    requires PendingRequest(s).Some?
    ensures Waypoint(c, true) in PendingRequest(s).value.waypoints <==> Some(c) in s.waypointPositions
  {
    StopsMember(s.waypointPositions, c);
  }

  class Form {
    var start: string
    var end: string
    var startPosition: Option<Coord>
    var endPosition: Option<Coord>
    var waypoints: seq<string>
    var waypointPositions: seq<Option<Coord>>
    var directions: Option<DirectionsResult>
    var avoidTolls: bool
    /** How many waypoint search-box references are held; one per waypoint row. */
    var waypointRefCount: nat

    function Model(): State
      reads this
    {
      State(start, end, startPosition, endPosition, waypoints, waypointPositions,
            directions, avoidTolls, waypointRefCount)
    }

    /** The waypoint texts, positions and references are parallel lists. */
    predicate Valid()
      reads this
    {
      |waypointPositions| == |waypoints| && waypointRefCount == |waypoints|
    }

    /** Every state variable starts empty, unresolved or off. */
    constructor ()
      ensures Valid()
      ensures Model() == State("", "", None, None, [], [], None, false, 0)
      ensures PendingRequest(Model()).None?
    {
      start, end := "", "";
      startPosition, endPosition := None, None;
      waypoints, waypointPositions := [], [];
      directions := None;
      avoidTolls := false;
      waypointRefCount := 0;
    }

    /** Typing into the start box: only the text changes, so no request is issued or dropped. */
    method SetStart(value: string)
      requires Valid()
      modifies this
      ensures Valid()
      ensures Model() == old(Model()).(start := value)
      ensures PendingRequest(Model()) == old(PendingRequest(Model()))
    {
      start := value;
    }

    /** Typing into the end box: only the text changes, so no request is issued or dropped. */
    method SetEnd(value: string)
      requires Valid()
      modifies this
      ensures Valid()
      ensures Model() == old(Model()).(end := value)
      ensures PendingRequest(Model()) == old(PendingRequest(Model()))
    {
      end := value;
    }

    /**
     * Toggling toll avoidance does not drop a stored route, so no new request
     * is issued while one is stored.
     */
    method SetAvoidTolls(checked: bool)
      requires Valid()
      modifies this
      ensures Valid()
      ensures Model() == old(Model()).(avoidTolls := checked)
      ensures old(directions).Some? ==> PendingRequest(Model()).None?
    {
      avoidTolls := checked;
    }

    /**
     * A place selection in the start or end box. Without candidates nothing
     * changes; otherwise that end takes the first candidate's location and
     * name and the stored route is dropped, so a request is issued as soon as
     * the other end is resolved too.
     */
    method HandlePlaceChanged(endpoint: Endpoint, places: seq<Place>)
      requires Valid()
      modifies this
      ensures Valid()
      ensures places == [] ==> Model() == old(Model())
      ensures places != [] && endpoint == Start ==>
        Model() == old(Model()).(start := places[0].name,
                                 startPosition := Some(places[0].location),
                                 directions := None)
      ensures places != [] && endpoint == End ==>
        Model() == old(Model()).(end := places[0].name,
                                 endPosition := Some(places[0].location),
                                 directions := None)
      ensures places != [] && startPosition.Some? && endPosition.Some? ==>
        PendingRequest(Model()).Some?
    {
      var first := FirstPlace(places);
      if first.None? {
        return;
      }
      var place := first.value;
      match endpoint {
        case Start =>
          startPosition := Some(place.location);
          start := place.name;
        case End =>
          endPosition := Some(place.location);
          end := place.name;
      }
      directions := None;
    }

    /** Drops the stored route when both ends are resolved; otherwise changes nothing. */
    method RecalculateRoute()
      requires Valid()
      modifies this
      ensures Valid()
      ensures old(startPosition).Some? && old(endPosition).Some? ==>
        Model() == old(Model()).(directions := None)
      ensures old(startPosition).None? || old(endPosition).None? ==> Model() == old(Model())
      ensures old(startPosition).Some? && old(endPosition).Some? ==> PendingRequest(Model()).Some?
    {
      if startPosition.Some? && endPosition.Some? {
        directions := None;
      }
    }

    /**
     * Appends a blank, unresolved waypoint. The stored route is kept, and the
     * pending request, if any, is the same as before.
     */
    method HandleAddWaypoint()
      requires Valid()
      modifies this
      ensures Valid()
      ensures Model() == old(Model()).(waypoints := old(waypoints) + [""],
                                       waypointPositions := old(waypointPositions) + [None],
                                       waypointRefCount := old(waypointRefCount) + 1)
      ensures PendingRequest(Model()) == old(PendingRequest(Model()))
    {
      StopsSkipUnresolved(waypointPositions, []);
      assert waypointPositions + [None] + [] == waypointPositions + [None];
      assert waypointPositions + [] == waypointPositions;
      waypoints := waypoints + [""];
      waypointPositions := waypointPositions + [None];
      waypointRefCount := waypointRefCount + 1;
    }

    /**
     * Removes the waypoint at `index` from every parallel list, keeping the
     * others in order; an index outside the list removes nothing. Then drops
     * the stored route if both ends are resolved.
     */
    method HandleRemoveWaypoint(index: int)
      requires Valid()
      modifies this
      ensures Valid()
      ensures Model() == old(Model()).(
        waypoints := RemoveIndex(old(waypoints), index),
        waypointPositions := RemoveIndex(old(waypointPositions), index),
        waypointRefCount := |RemoveIndex(old(waypoints), index)|,
        directions := if old(startPosition).Some? && old(endPosition).Some? then None
                      else old(directions))
      ensures 0 <= index < old(|waypoints|) ==>
        waypoints == old(waypoints[..index] + waypoints[index + 1..]) &&
        waypointPositions == old(waypointPositions[..index] + waypointPositions[index + 1..])
      ensures !(0 <= index < old(|waypoints|)) ==>
        waypoints == old(waypoints) && waypointPositions == old(waypointPositions)
      ensures old(startPosition).Some? && old(endPosition).Some? ==>
        PendingRequest(Model()).Some? &&
        PendingRequest(Model()).value.waypoints
          == if 0 <= index < old(|waypointPositions|)
             then old(Stops(waypointPositions[..index]) + Stops(waypointPositions[index + 1..]))
             else old(Stops(waypointPositions))
    {
      RemoveIndexSlices(waypoints, index);
      RemoveIndexSlices(waypointPositions, index);
      if 0 <= index < |waypointPositions| {
        StopsAppend(waypointPositions[..index], waypointPositions[index + 1..]);
      }
      waypoints := RemoveIndex(waypoints, index);
      waypointPositions := RemoveIndex(waypointPositions, index);
      waypointRefCount := if 0 <= index < waypointRefCount then waypointRefCount - 1
                          else waypointRefCount;
      RecalculateRoute();
    }

    /** Typing into waypoint `index`: only that text changes. */
    method HandleWaypointChange(index: nat, value: string)
      requires Valid() && index < |waypoints|
      modifies this
      ensures Valid()
      ensures Model() == old(Model()).(waypoints := old(waypoints)[index := value])
      ensures PendingRequest(Model()) == old(PendingRequest(Model()))
    {
      waypoints := waypoints[index := value];
    }

    /**
     * A place selection in waypoint box `index`. When no reference is held
     * for that row, or the box offers no candidates, nothing changes; otherwise the waypoint takes the first candidate's name and
     * location, and the stored route is dropped when both ends are resolved,
     * so the next request routes through the new location.
     */
    method OnWaypointPlacesChanged(index: nat, box: SearchBox)
      requires Valid()
      modifies this
      ensures Valid()
      ensures index >= old(waypointRefCount) || !HasCandidates(box) ==> Model() == old(Model())
      ensures index < old(waypointRefCount) && HasCandidates(box) ==>
        Model() == old(Model()).(
          waypoints := old(waypoints)[index := box.value[0].name],
          waypointPositions := old(waypointPositions)[index := Some(box.value[0].location)],
          directions := if old(startPosition).Some? && old(endPosition).Some? then None
                        else old(directions))
      ensures index < old(waypointRefCount) && HasCandidates(box) &&
              old(startPosition).Some? && old(endPosition).Some? ==>
        PendingRequest(Model()).Some? &&
        Waypoint(box.value[0].location, true) in PendingRequest(Model()).value.waypoints
    {
      if index >= waypointRefCount || box.None? {
        return;
      }
      var first := FirstPlace(box.value);
      if first.None? {
        return;
      }
      HandleWaypointChange(index, first.value.name);
      waypointPositions := waypointPositions[index := Some(first.value.location)];
      RecalculateRoute();
      assert waypointPositions[index] == Some(first.value.location);
      StopsMember(waypointPositions, first.value.location);
    }

    /**
     * The search button. The start and end boxes are handled as place
     * selections. Every waypoint box is then read in order, and each one with
     * candidates writes both waypoint lists as copies of the lists held before
     * the search with its own entry replaced; the last such write wins, so only
     * the last waypoint with candidates is updated. Resolving waypoints here
     * does not drop the stored route.
     */
    method HandleSearch(startBox: SearchBox, endBox: SearchBox, waypointBoxes: seq<SearchBox>)
      requires Valid() && |waypointBoxes| == waypointRefCount
      modifies this
      ensures Valid()
      ensures HasCandidates(startBox) ==>
        start == startBox.value[0].name && startPosition == Some(startBox.value[0].location)
      ensures !HasCandidates(startBox) ==>
        start == old(start) && startPosition == old(startPosition)
      ensures HasCandidates(endBox) ==>
        end == endBox.value[0].name && endPosition == Some(endBox.value[0].location)
      ensures !HasCandidates(endBox) ==>
        end == old(end) && endPosition == old(endPosition)
      ensures directions == if HasCandidates(startBox) || HasCandidates(endBox) then None
                            else old(directions)
      ensures avoidTolls == old(avoidTolls) && waypointRefCount == old(waypointRefCount)
      ensures LastResolved(waypointBoxes).None? ==>
        waypoints == old(waypoints) && waypointPositions == old(waypointPositions)
      ensures LastResolved(waypointBoxes).Some? ==>
        var k := LastResolved(waypointBoxes).value;
        waypoints == old(waypoints)[k := waypointBoxes[k].value[0].name] &&
        waypointPositions == old(waypointPositions)[k := Some(waypointBoxes[k].value[0].location)]
      ensures (HasCandidates(startBox) || HasCandidates(endBox)) && startPosition.Some? && endPosition.Some? ==>
        PendingRequest(Model()).Some?
      ensures !HasCandidates(startBox) && !HasCandidates(endBox) && old(directions).Some? ==>
        PendingRequest(Model()).None?
    {
      if startBox.Some? {
        HandlePlaceChanged(Start, startBox.value);
      }
      if endBox.Some? {
        HandlePlaceChanged(End, endBox.value);
      }
      SearchWaypoints(waypointBoxes);
    }

    /**
     * The waypoint part of the search: each waypoint box with candidates in
     * turn replaces both lists by copies of the lists held before the loop,
     * with its own entry resolved.
     */
    method SearchWaypoints(waypointBoxes: seq<SearchBox>)
      requires Valid() && |waypointBoxes| == waypointRefCount
      modifies this`waypoints, this`waypointPositions
      ensures Valid()
      ensures LastResolved(waypointBoxes).None? ==>
        waypoints == old(waypoints) && waypointPositions == old(waypointPositions)
      ensures LastResolved(waypointBoxes).Some? ==>
        var k := LastResolved(waypointBoxes).value;
        waypoints == old(waypoints)[k := waypointBoxes[k].value[0].name] &&
        waypointPositions == old(waypointPositions)[k := Some(waypointBoxes[k].value[0].location)]
    {
      var texts, positions := waypoints, waypointPositions;
      var i := 0;
      while i < |waypointBoxes|
        invariant 0 <= i <= |waypointBoxes|
        invariant LastResolved(waypointBoxes[..i]).None? ==>
          waypoints == texts && waypointPositions == positions
        invariant LastResolved(waypointBoxes[..i]).Some? ==>
          var k := LastResolved(waypointBoxes[..i]).value;
          waypoints == texts[k := waypointBoxes[k].value[0].name] &&
          waypointPositions == positions[k := Some(waypointBoxes[k].value[0].location)]
      {
        var box := waypointBoxes[i];
        if box.Some? {
          var first := FirstPlace(box.value);
          if first.Some? {
            waypointPositions := positions[i := Some(first.value.location)];
            waypoints := texts[i := first.value.name];
          }
        }
        LastResolvedSnoc(waypointBoxes[..i], box);
        assert waypointBoxes[..i + 1] == waypointBoxes[..i] + [box];
        i := i + 1;
      }
      assert waypointBoxes[..i] == waypointBoxes;
    }

    /**
     * The directions callback: a route is stored only when the status is "OK"
     * and a result is present; anything else leaves the state as it is.
     */
    method OnDirections(result: Option<DirectionsResult>, status: string)
      requires Valid()
      modifies this
      ensures Valid()
      ensures status == "OK" && result.Some? ==> Model() == old(Model()).(directions := result)
      ensures !(status == "OK" && result.Some?) ==> Model() == old(Model())
      ensures status == "OK" && result.Some? ==> PendingRequest(Model()).None?
    {
      if status == "OK" && result.Some? {
        directions := result;
      }
    }
  }
}
