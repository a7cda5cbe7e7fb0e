/** OsrmParser.getLocationIndexInList: the forward scan that finds a maneuver's
    location among the decoded route points. */
module OsrmLocator {
  import opened Wrappers
  import opened External

  /** The scan from start on, as a recursive function. */
  function LocationIndex(route: seq<LatLon>, start: nat, lat: real, lon: real,
                         same: (LatLon, real, real) -> bool): Option<nat>
    decreases |route| - start
  {
    if start >= |route| then None
    else if same(route[start], lat, lon) then Some(start)
    else LocationIndex(route, start + 1, lat, lon, same)
  }

  /** The scan finds the smallest index i with start <= i < |route| whose point
      equals (lat, lon), and finds nothing exactly when no index in that range does. */
  lemma {:induction false} LocationIndexSpec(route: seq<LatLon>, start: nat, lat: real, lon: real,
                                             same: (LatLon, real, real) -> bool)
    ensures var r := LocationIndex(route, start, lat, lon, same);
            (r.Some? ==> start <= r.value < |route| && same(route[r.value], lat, lon)) &&
            (r.Some? ==> forall k :: start <= k < r.value ==> !same(route[k], lat, lon)) &&
            (r.None? <==> forall k :: start <= k < |route| ==> !same(route[k], lat, lon))
    decreases |route| - start
  {
    if start < |route| && !same(route[start], lat, lon) {
      LocationIndexSpec(route, start + 1, lat, lon, same);
    }
  }

  /** getLocationIndexInList: the index loop with an early return. */
  method GetLocationIndexInList(locations: seq<LatLon>, startIndex: nat, lat: real, lon: real,
                                same: (LatLon, real, real) -> bool)
    returns (r: Option<nat>)
    ensures r == LocationIndex(locations, startIndex, lat, lon, same)
  {
    var i := startIndex;
    while i < |locations|
      invariant startIndex <= i
      invariant LocationIndex(locations, i, lat, lon, same) ==
                LocationIndex(locations, startIndex, lat, lon, same)
    {
      if same(locations[i], lat, lon) {
        return Some(i);
      }
      i := i + 1;
    }
    return None;
  }

  /** Chaining the scan: a search resumed from an earlier match finds the same
      index as a search from any point between that match and the answer. */
  lemma {:induction false} LocationIndexResumes(route: seq<LatLon>, start: nat, mid: nat, lat: real, lon: real,
                                                same: (LatLon, real, real) -> bool)
    requires start <= mid
    requires forall k :: start <= k < mid && k < |route| ==> !same(route[k], lat, lon)
    ensures LocationIndex(route, start, lat, lon, same) == LocationIndex(route, mid, lat, lon, same)
    decreases mid - start
  {
    if start < mid && start < |route| {
      LocationIndexResumes(route, start + 1, mid, lat, lon, same);
    }
  }
}
