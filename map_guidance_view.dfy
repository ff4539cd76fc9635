/** The computations of src/components/MapGuidanceView.tsx: the parallel
    passes drawn around the active line, the treated-area boxes drawn
    around the path, and the zoom buttons. */
module MapGuidanceView {
  import opened Wrappers
  import opened GpsTypes
  import opened GpsUtils
  import opened App
  import opened CoverageStats

  /** The offset of the `k`-th generated pass: -count..-1, then 1..count. */
  function PassOffset(count: int, k: nat): int {
    if k < count then k - count else k - count + 1
  }

  /** The lines `generateParallelLines(abLine, machineWidth, count)`
      returns: passes at offsets -count..count without 0, ascending. */
  function ParallelLines(host: Host, abLine: ABLine, machineWidth: real, count: int, now: int): (lines: seq<ABLine>)
    ensures |lines| == if count > 0 then 2 * count else 0
  {
    if count <= 0 then []
    else seq(2 * count, k requires 0 <= k < 2 * count => ParallelLine(host, abLine, machineWidth, PassOffset(count, k), now))
  }

  /** The offsets run from -count to count in ascending order and skip 0. */
  lemma PassOffsets(count: int, k: nat, l: nat)
    requires 0 <= k < l < 2 * count
    ensures -count <= PassOffset(count, k) < PassOffset(count, l) <= count
    ensures PassOffset(count, k) != 0 && PassOffset(count, l) != 0
  {
  }

  /** Every offset -count..count but 0 is generated. */
  lemma PassOffsetsCover(count: int, i: int)
    requires -count <= i <= count && i != 0
    ensures var k := if i < 0 then i + count else i + count - 1;
      0 <= k < 2 * count && PassOffset(count, k) == i
  {
  }

  /** The generated passes have distinct ids, the source line's creation
      time, and the source line's direction. */
  lemma ParallelLinesShape(host: Host, abLine: ABLine, machineWidth: real, count: int, now: int, k: nat, l: nat)
    requires 0 <= k < l < 2 * count
    ensures var lines := ParallelLines(host, abLine, machineWidth, count, now);
      && lines[k].id == ParallelId(abLine.id, PassOffset(count, k))
      && lines[k].id != lines[l].id
      && lines[k].created == abLine.created
      && lines[k].pointB.latitude - lines[k].pointA.latitude == abLine.pointB.latitude - abLine.pointA.latitude
      && lines[k].pointB.longitude - lines[k].pointA.longitude == abLine.pointB.longitude - abLine.pointA.longitude
  {
    PassOffsets(count, k, l);
    ParallelIdInjective(abLine.id, PassOffset(count, k), PassOffset(count, l));
    ParallelLineShift(host, abLine, machineWidth, PassOffset(count, k), now);
  }

  /** With the default count of 10 the map draws exactly the passes the
      guidance search compares against the line. */
  lemma DrawnPassesAreCandidates(host: Host, abLine: ABLine, machineWidth: real, now: int)
    ensures ParallelLines(host, abLine, machineWidth, 10, now) == Candidates(host, abLine, machineWidth, now)[1..]
  {
    var drawn := ParallelLines(host, abLine, machineWidth, 10, now);
    var compared := Candidates(host, abLine, machineWidth, now)[1..];
    forall k | 0 <= k < 20
      ensures drawn[k] == compared[k]
    {
      assert PassOffset(10, k) == OffsetAt(k);
    }
  }

  /** `generateParallelLines`: a loop over i = -count..count that skips 0
      and pushes each pass. */
  method GenerateParallelLines(host: Host, abLine: ABLine, machineWidth: real, count: int, now: int)
    returns (parallelLines: seq<ABLine>)
    ensures parallelLines == ParallelLines(host, abLine, machineWidth, count, now)
  {
    parallelLines := [];
    var i := -count;
    while i <= count
      invariant count < 0 ==> i == -count && parallelLines == []
      invariant count >= 0 ==> -count <= i <= count + 1
      invariant count >= 0 ==> |parallelLines| == Generated(count, i)
      invariant forall j :: 0 <= j < |parallelLines| ==>
        parallelLines[j] == ParallelLine(host, abLine, machineWidth, PassOffset(count, j), now)
      decreases count + 1 - i
    {
      if i != 0 {
        assert PassOffset(count, |parallelLines|) == i;
        parallelLines := parallelLines + [ParallelLine(host, abLine, machineWidth, i, now)];
      }
      i := i + 1;
    }
    ParallelLinesByIndex(host, abLine, machineWidth, count, now, parallelLines);
  }

  /** How many passes the loop has pushed before reaching `i`. */
  function Generated(count: nat, i: int): int {
    if i <= 0 then i + count else i + count - 1
  }

  /** A list holding pass `PassOffset(count, j)` at each index `j` and as
      many passes as there are offsets is the generated list. */
  lemma ParallelLinesByIndex(host: Host, abLine: ABLine, machineWidth: real, count: int, now: int, lines: seq<ABLine>)
    requires |lines| == if count > 0 then 2 * count else 0
    requires forall j :: 0 <= j < |lines| ==>
      lines[j] == ParallelLine(host, abLine, machineWidth, PassOffset(count, j), now)
    ensures lines == ParallelLines(host, abLine, machineWidth, count, now)
  {
  }

  /** A treated-area box: the south-west and north-east corners. */
  datatype Bounds = Bounds(south: real, west: real, north: real, east: real)

  /** The box around one point, half the machine width to each side. */
  function Box(host: Host, p: Position, machineWidth: real): Bounds {
    var halfWidth := machineWidth / 2.0;
    var latOffset := halfWidth / MetresPerDegree;
    var lonOffset := LonOffset(host, halfWidth, p.latitude);
    Bounds(p.latitude - latOffset, p.longitude - lonOffset, p.latitude + latOffset, p.longitude + lonOffset)
  }

  /** Each box is centred on its point, a machine width tall in degrees of
      latitude. */
  lemma BoxCentred(host: Host, p: Position, machineWidth: real)
    ensures var b := Box(host, p, machineWidth);
      (b.south + b.north) / 2.0 == p.latitude && (b.west + b.east) / 2.0 == p.longitude &&
      b.north - b.south == machineWidth / MetresPerDegree
  {
  }

  /** The boxes `generateTreatmentRectangles` returns: one per treated
      point, in path order. */
  function Rectangles(host: Host, points: seq<PathPoint>, machineWidth: real): (boxes: seq<Bounds>)
    ensures |boxes| == |Treated(points)|
  {
    var treated := Treated(points);
    seq(|treated|, k requires 0 <= k < |treated| => Box(host, treated[k].position, machineWidth))
  }

  /** `generateTreatmentRectangles`: a loop over the path pushing a box for
      each treated point. */
  method GenerateTreatmentRectangles(host: Host, pathPoints: seq<PathPoint>, machineWidth: real)
    returns (rectangles: seq<Bounds>)
    ensures rectangles == Rectangles(host, pathPoints, machineWidth)
  {
    rectangles := [];
    for i := 0 to |pathPoints|
      invariant rectangles == Rectangles(host, pathPoints[..i], machineWidth)
    {
      var point := pathPoints[i];
      assert pathPoints[..i + 1][..i] == pathPoints[..i];
      if point.treated {
        rectangles := rectangles + [Box(host, point.position, machineWidth)];
      }
    }
    assert pathPoints[..|pathPoints|] == pathPoints;
  }

  /** The passes drawn: those of the line named by the active id, none
      without one. */
  function PassesShown(host: Host, abLines: seq<ABLine>, activeLineId: Option<string>, machineWidth: real, now: int): seq<ABLine> {
    var activeLine := if activeLineId.Some? then FindLine(abLines, activeLineId.value) else None;
    if activeLine.Some? then ParallelLines(host, activeLine.value, machineWidth, 10, now) else []
  }

  /** Twenty passes are drawn exactly when the active id names a line. */
  lemma PassesShownCount(host: Host, abLines: seq<ABLine>, activeLineId: Option<string>, machineWidth: real, now: int)
    ensures |PassesShown(host, abLines, activeLineId, machineWidth, now)| ==
      if activeLineId.Some? && exists k :: 0 <= k < |abLines| && abLines[k].id == activeLineId.value then 20 else 0
  {
    if activeLineId.Some? {
      FindLineSpec(abLines, activeLineId.value);
    }
  }

  /** The boxes drawn: none while the treatment map is hidden. */
  function RectanglesShown(host: Host, points: seq<PathPoint>, machineWidth: real, showTreatmentMap: bool): (boxes: seq<Bounds>)
    ensures !showTreatmentMap ==> boxes == []
    ensures showTreatmentMap ==> |boxes| == |Treated(points)|
  {
    if showTreatmentMap then Rectangles(host, points, machineWidth) else []
  }

  const InitialZoom: int := 18
  const MaxZoom: int := 20
  const MinZoom: int := 10

  /** The "+" button. */
  function ZoomIn(zoom: int): (z: int)
    ensures z <= MaxZoom && z <= zoom + 1
    ensures zoom < MaxZoom ==> z == zoom + 1
    ensures zoom >= MaxZoom ==> z == MaxZoom
  {
    if zoom + 1 < MaxZoom then zoom + 1 else MaxZoom
  }

  /** The "-" button. */
  function ZoomOut(zoom: int): (z: int)
    ensures z >= MinZoom && z >= zoom - 1
    ensures zoom > MinZoom ==> z == zoom - 1
    ensures zoom <= MinZoom ==> z == MinZoom
  {
    if zoom - 1 > MinZoom then zoom - 1 else MinZoom
  }

  /** Starting at 18, any sequence of button presses keeps the zoom in
      [10, 20]. */
  lemma {:induction false} ZoomStaysInRange(zoom: int, presses: seq<bool>)
    requires MinZoom <= zoom <= MaxZoom
    ensures MinZoom <= ZoomAfter(zoom, presses) <= MaxZoom
    decreases |presses|
  {
    if presses != [] {
      var z := if presses[0] then ZoomIn(zoom) else ZoomOut(zoom);
      ZoomStaysInRange(z, presses[1..]);
    }
  }

  /** The zoom after pressing "+" (true) or "-" (false) in order. */
  function ZoomAfter(zoom: int, presses: seq<bool>): int
    decreases |presses|
  {
    if presses == [] then zoom
    else ZoomAfter(if presses[0] then ZoomIn(zoom) else ZoomOut(zoom), presses[1..])
  }
}
