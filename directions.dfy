/**
 * Directions: the request the form hands to the directions provider.
 *
 * The provider's reply is opaque; only the waypoint list of the request is
 * computed by the form, from the waypoint positions that are resolved.
 */
module Directions {
  import opened Places

  /** A route returned by the provider; the form stores it without looking inside. */
  datatype DirectionsResult = DirectionsResult(payload: string)

  /** One intermediate stop of a request. */
  datatype Waypoint = Waypoint(location: Coord, stopover: bool)

  /** The options the form passes to the provider. */
  datatype DirectionsRequest = DirectionsRequest(
    origin: Coord,
    destination: Coord,
    travelMode: string,
    waypoints: seq<Waypoint>,
    optimizeWaypoints: bool,
    avoidTolls: bool,
    provideRouteAlternatives: bool)

  /**
   * The request's waypoints: the resolved positions, unresolved ones skipped,
   * each one a stopover.
   */
  function Stops(positions: seq<Option<Coord>>): (r: seq<Waypoint>)
    ensures |r| <= |positions|
    ensures forall w :: w in r ==> w.stopover
  {
    if positions == [] then []
    else (if positions[0].Some? then [Waypoint(positions[0].value, true)] else [])
         + Stops(positions[1..])
  }

  /** The waypoint list of a concatenation is the concatenation of the lists: order is kept. */
  lemma {:induction false} StopsAppend(a: seq<Option<Coord>>, b: seq<Option<Coord>>)
    ensures Stops(a + b) == Stops(a) + Stops(b)
    decreases |a|
  {
    if a != [] {
      assert (a + b)[1..] == a[1..] + b;
      StopsAppend(a[1..], b);
    } else {
      assert a + b == b;
    }
  }

  /** A location is a stop of the request exactly when some waypoint is resolved to it. */
  lemma {:induction false} StopsMember(positions: seq<Option<Coord>>, c: Coord)
    ensures Waypoint(c, true) in Stops(positions) <==> Some(c) in positions
    decreases |positions|
  {
    if positions != [] {
      StopsMember(positions[1..], c);
      assert positions == [positions[0]] + positions[1..];
    }
  }

  /** When every waypoint is resolved, the stops are exactly their positions, index for index. */
  lemma {:induction false} StopsAllResolved(positions: seq<Option<Coord>>)
    requires forall j :: 0 <= j < |positions| ==> positions[j].Some?
    ensures |Stops(positions)| == |positions|
    ensures forall j :: 0 <= j < |positions| ==> Stops(positions)[j] == Waypoint(positions[j].value, true)
    decreases |positions|
  {
    if positions != [] {
      StopsAllResolved(positions[1..]);
    }
  }

  /** An unresolved waypoint contributes no stop, wherever it sits. */
  lemma StopsSkipUnresolved(a: seq<Option<Coord>>, b: seq<Option<Coord>>)
    ensures Stops(a + [None] + b) == Stops(a + b)
  {
    StopsAppend(a + [None], b);
    StopsAppend(a, [None]);
    StopsAppend(a, b);
  }
}
