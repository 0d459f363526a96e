/**
 * StopList: the index-keyed lists that hold the waypoints.
 *
 * Removing a waypoint filters every parallel list by index, keeping each
 * element whose index differs from the one removed.
 */
module StopList {

  /**
   * The elements of `s` whose index, counted from `from`, is not `index`,
   * in their original order.
   */
  function KeepOthers<T>(s: seq<T>, index: int, from: int): (r: seq<T>)
    ensures |r| == if from <= index < from + |s| then |s| - 1 else |s|
    decreases |s|
  {
    if s == [] then []
    else (if from == index then [] else [s[0]]) + KeepOthers(s[1..], index, from + 1)
  }

  /** `s.filter((_, i) => i !== index)`: drops the element at `index`, if there is one. */
  function RemoveIndex<T>(s: seq<T>, index: int): (r: seq<T>)
    ensures |r| == if 0 <= index < |s| then |s| - 1 else |s|
  {
    KeepOthers(s, index, 0)
  }

  lemma {:induction false} KeepOthersSlices<T>(s: seq<T>, index: int, from: int)
    ensures KeepOthers(s, index, from)
         == if from <= index < from + |s| then s[..index - from] + s[index - from + 1..] else s
    decreases |s|
  {
    if s != [] {
      KeepOthersSlices(s[1..], index, from + 1);
      if from == index {
        assert s[..0] + s[1..] == s[1..];
      } else if from < index < from + |s| {
        assert s[..index - from] == [s[0]] + s[1..][..index - from - 1];
        assert s[index - from + 1..] == s[1..][index - from..];
      } else {
        assert [s[0]] + s[1..] == s;
      }
    }
  }

  /**
   * Removal deletes exactly the element at an index inside the list and keeps
   * the others in order; an index outside the list matches nothing.
   */
  lemma RemoveIndexSlices<T>(s: seq<T>, index: int)
    ensures RemoveIndex(s, index) == if 0 <= index < |s| then s[..index] + s[index + 1..] else s
  {
    KeepOthersSlices(s, index, 0);
  }

  /** Element-wise: the survivors before `index` stay put, the ones after move down by one. */
  lemma RemoveIndexAt<T>(s: seq<T>, index: int, j: nat)
    requires 0 <= index < |s| && j < |s| - 1
    ensures RemoveIndex(s, index)[j] == if j < index then s[j] else s[j + 1]
  {
    RemoveIndexSlices(s, index);
  }
}
