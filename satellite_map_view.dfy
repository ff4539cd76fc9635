/** The computations of src/components/SatelliteMapView.tsx: the map
    centre, the styling of the A/B lines, and the split of the recorded
    path into a treated and an untreated polyline. */
module SatelliteMapView {
  import opened Wrappers
  import opened GpsTypes
  import opened CoverageStats

  /** A map coordinate: latitude, longitude. */
  datatype LatLng = LatLng(lat: real, lng: real)

  /** The centre used when no position is known. */
  const DefaultCenter: LatLng := LatLng(46.7629574, 6.5638699)

  /** The current position when there is one, otherwise the default. */
  function Center(currentPosition: Option<Position>): (c: LatLng)
    ensures currentPosition.Some? ==> c == LatLng(currentPosition.value.latitude, currentPosition.value.longitude)
    ensures currentPosition.None? ==> c == DefaultCenter
  {
    if currentPosition.Some? then LatLng(currentPosition.value.latitude, currentPosition.value.longitude)
    else DefaultCenter
  }

  /** The coordinates of the points, in order. */
  function Coordinates(points: seq<PathPoint>): (path: seq<LatLng>)
    ensures |path| == |points|
  {
    seq(|points|, k requires 0 <= k < |points| => LatLng(points[k].position.latitude, points[k].position.longitude))
  }

  /** The treated polyline. */
  function TreatedPath(points: seq<PathPoint>): seq<LatLng> {
    Coordinates(Treated(points))
  }

  /** The untreated polyline. */
  function UntreatedPath(points: seq<PathPoint>): seq<LatLng> {
    Coordinates(Untreated(points))
  }

  /** Every recorded point lands on exactly one of the two polylines. */
  lemma PathPartition(points: seq<PathPoint>)
    ensures |TreatedPath(points)| + |UntreatedPath(points)| == |points|
    ensures forall k :: 0 <= k < |points| && points[k].treated ==>
      LatLng(points[k].position.latitude, points[k].position.longitude) in TreatedPath(points)
    ensures forall k :: 0 <= k < |points| && !points[k].treated ==>
      LatLng(points[k].position.latitude, points[k].position.longitude) in UntreatedPath(points)
  {
    TreatedPartition(points);
    forall k | 0 <= k < |points| && points[k].treated
      ensures LatLng(points[k].position.latitude, points[k].position.longitude) in TreatedPath(points)
    {
      CoordinatesMember(Treated(points), points[k]);
    }
    forall k | 0 <= k < |points| && !points[k].treated
      ensures LatLng(points[k].position.latitude, points[k].position.longitude) in UntreatedPath(points)
    {
      CoordinatesMember(Untreated(points), points[k]);
    }
  }

  lemma CoordinatesMember(points: seq<PathPoint>, p: PathPoint)
    requires p in points
    ensures LatLng(p.position.latitude, p.position.longitude) in Coordinates(points)
  {
    var k :| 0 <= k < |points| && points[k] == p;
    assert Coordinates(points)[k] == LatLng(p.position.latitude, p.position.longitude);
  }

  /** A polyline is drawn only when it has a point. */
  function PolylineShown(path: seq<LatLng>): bool {
    |path| > 0
  }

  /** An empty path draws neither polyline; a path with a treated point
      draws the treated one. */
  lemma PolylinesShown(points: seq<PathPoint>)
    ensures points == [] ==> !PolylineShown(TreatedPath(points)) && !PolylineShown(UntreatedPath(points))
    ensures (exists k :: 0 <= k < |points| && points[k].treated) ==> PolylineShown(TreatedPath(points))
  {
    PathPartition(points);
  }

  /** The drawing style of an A/B line. */
  datatype LineStyle = LineStyle(color: string, weight: nat)

  /** Blue and 4 px for the active line, grey and 2 px for the others. */
  function StyleOf(line: ABLine, activeLineId: Option<string>): (s: LineStyle)
    ensures s == LineStyle("#3b82f6", 4) <==> activeLineId == Some(line.id)
    ensures s == LineStyle("#6b7280", 2) <==> activeLineId != Some(line.id)
  {
    if activeLineId == Some(line.id) then LineStyle("#3b82f6", 4) else LineStyle("#6b7280", 2)
  }
}
