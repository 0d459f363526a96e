/**
 * Places: the values exchanged with the places-search widget.
 *
 * A coordinate and a place candidate are opaque to the route form: it only
 * copies them around. A search box is modelled by what `getPlaces()` hands
 * back when a selection event fires.
 */
module Places {

  datatype Option<+T> = None | Some(value: T)

  /** A resolved location, as `{ lat, lng }`. No arithmetic is done on it. */
  datatype Coord = Coord(lat: real, lng: real)

  /** One candidate returned by a search box: its display name and its location. */
  datatype Place = Place(name: string, location: Coord)

  /**
   * What one search box yields at a selection event: `None` when the box is not
   * available (its reference is not set), otherwise the candidate list, which
   * is empty when `getPlaces()` returned nothing or an empty array.
   */
  type SearchBox = Option<seq<Place>>

  /** The box is available and offered at least one candidate. */
  predicate HasCandidates(box: SearchBox) {
    box.Some? && |box.value| > 0
  }

  /**
   * The candidate a selection resolves to: the first one, ranked by the
   * provider; no candidate means the selection is ignored.
   */
  function FirstPlace(places: seq<Place>): (r: Option<Place>)
    ensures r.None? <==> places == []
    ensures r.Some? ==> r.value == places[0]
  {
    if places == [] then None else Some(places[0])
  }

  /**
   * The index of the last box in `boxes` that offered a candidate, if any.
   */
  function LastResolved(boxes: seq<SearchBox>): (k: Option<nat>)
    ensures k.Some? ==> k.value < |boxes| && HasCandidates(boxes[k.value])
    ensures k.Some? ==> forall j :: k.value < j < |boxes| ==> !HasCandidates(boxes[j])
    ensures k.None? ==> forall j :: 0 <= j < |boxes| ==> !HasCandidates(boxes[j])
  {
    if |boxes| == 0 then None
    else if HasCandidates(boxes[|boxes| - 1]) then Some(|boxes| - 1)
    else LastResolved(boxes[..|boxes| - 1])
  }

  /** Extending the boxes by one keeps the last hit unless the new box is a hit. */
  lemma LastResolvedSnoc(boxes: seq<SearchBox>, box: SearchBox)
    ensures LastResolved(boxes + [box])
         == if HasCandidates(box) then Some(|boxes|) else LastResolved(boxes)
  {
    assert (boxes + [box])[..|boxes|] == boxes;
  }
}
