/** The guidance engine (src/utils/gpsUtils.ts): bearings, cross-track
    error, the search for the closest parallel pass, and the text formats
    of coordinates and distances.

    The floating-point numerics (the haversine distance, the `atan2`
    azimuth, `sin`/`cos` in degrees, `toFixed` and the default number
    rendering) are not modelled: they come from a `Host` value, about which
    the model assumes nothing beyond what a lemma explicitly requires. */
module GpsUtils {
  import opened Wrappers
  import opened JsString
  import opened JsNumber
  import opened GpsTypes

  /** The numerics the engine takes from the JavaScript runtime. */
  datatype Host = Host(
    /** Great-circle distance in metres (`calculateDistance`). */
    distance: (Position, Position) -> real,
    /** `atan2(x, y)` of `calculateBearing`, converted to degrees. */
    azimuth: (Position, Position) -> real,
    /** `Math.sin(d * Math.PI / 180)`. */
    sinDeg: real -> real,
    /** `Math.cos(d * Math.PI / 180)`. */
    cosDeg: real -> real,
    /** `x.toFixed(digits)`. */
    toFixed: (real, nat) -> string,
    /** `${x}` for a number. */
    numberText: real -> string)

  /** Metres per degree of latitude used by the offsets. */
  const MetresPerDegree: real := 111320.0

  /** The on-track tolerance, 50 cm. */
  const OnTrackTolerance: real := 0.5

  function Abs(x: real): (r: real)
    ensures r >= 0.0 && (r == x || r == -x)
  {
    if x < 0.0 then -x else x
  }

  /** `Math.trunc`: rounding toward zero. */
  function Trunc(x: real): (t: int)
    ensures Abs(t as real) <= Abs(x) < Abs(t as real) + 1.0
    ensures (t > 0 ==> x > 0.0) && (t < 0 ==> x < 0.0)
  {
    if x >= 0.0 then x.Floor else -((-x).Floor)
  }

  /** JavaScript's `%` on numbers: the remainder of a division truncated
      toward zero, so it takes the sign of the dividend. */
  function JsMod(x: real, m: real): real
    requires m != 0.0
  {
    x - m * Trunc(x / m) as real
  }

  /** For a non-negative dividend and a positive modulus, `%` is the
      remainder in [0, m) of the largest multiple of `m` not above `x`. */
  lemma JsModNonNegative(x: real, m: real)
    requires x >= 0.0 && m > 0.0
    ensures 0.0 <= JsMod(x, m) < m
    ensures JsMod(x, m) == x - m * (x / m).Floor as real
  {
    var y := x / m;
    DivNonNegative(x, m);
    var q := y.Floor;
    assert x == y * m;
    assert x - m * q as real == (y - q as real) * m;
    DivNonNegative(y - q as real, 1.0 / m);
  }

  /** Multiplying before or after a division gives the same number. */
  lemma MulDiv(a: real, b: real, d: real)
    requires d != 0.0
    ensures (a * b) / d == a * (b / d)
  {
    var q := b / d;
    assert b == q * d;
    assert a * b == (a * q) * d;
  }

  /** A non-negative number over a positive one is non-negative. */
  lemma DivNonNegative(x: real, m: real)
    requires x >= 0.0 && m > 0.0
    ensures x / m >= 0.0
  {
    var y := x / m;
    assert x == y * m;
  }

  /** A part over a positive whole is a ratio in [0, 1], and 1 for the
      whole itself. */
  lemma RatioBounds(t: real, n: real)
    requires 0.0 <= t <= n && n > 0.0
    ensures 0.0 <= t / n <= 1.0
    ensures t == n ==> t / n == 1.0
  {
    DivNonNegative(t, n);
    DivNonNegative(n - t, n);
    MulDiv(1.0, n - t, n);
    var q := t / n;
    assert q * n == t;
  }

  /** `calculateBearing`: the azimuth shifted by a full turn and reduced
      with `%`. */
  function Bearing(host: Host, from: Position, to: Position): real {
    JsMod(host.azimuth(from, to) + 360.0, 360.0)
  }

  /** `atan2` yields angles in [-180, 180] degrees; the normalised bearing
      is the same direction in [0, 360). */
  lemma BearingRange(host: Host, from: Position, to: Position)
    requires -180.0 <= host.azimuth(from, to) <= 180.0
    ensures var b, a := Bearing(host, from, to), host.azimuth(from, to);
      0.0 <= b < 360.0 && (b == a || b == a + 360.0)
  {
    var a := host.azimuth(from, to);
    NormalizeTurn(a + 360.0);
  }

  /** Reducing a value of [0, 720) modulo 360 subtracts 0 or 360. */
  lemma NormalizeTurn(x: real)
    requires 0.0 <= x < 720.0
    ensures var r := JsMod(x, 360.0);
      0.0 <= r < 360.0 && (r == x || r == x - 360.0)
  {
    JsModNonNegative(x, 360.0);
    var q := (x / 360.0).Floor;
    assert 0 <= q <= 1;
  }

  /** `currentPos.heading || 0`: an absent heading counts as 0. */
  function HeadingOf(p: Position): real {
    if p.heading.Some? then p.heading.value else 0.0
  }

  /** The heading error against a line bearing, folded into one turn
      centred on zero. */
  function HeadingError(heading: real, lineBearing: real): real {
    var e := JsMod(heading - lineBearing + 360.0, 360.0);
    if e > 180.0 then e - 360.0 else e
  }

  /** For a heading and a bearing in [0, 360), the heading error lies in
      (-180, 180] and differs from `heading - lineBearing` by a whole turn
      at most. */
  lemma HeadingErrorRange(heading: real, lineBearing: real)
    requires 0.0 <= heading < 360.0 && 0.0 <= lineBearing < 360.0
    ensures var e := HeadingError(heading, lineBearing);
      -180.0 < e <= 180.0 &&
      (e == heading - lineBearing || e == heading - lineBearing + 360.0 || e == heading - lineBearing - 360.0)
  {
    NormalizeTurn(heading - lineBearing + 360.0);
  }

  /** A heading of 10 degrees against a line bearing of 350 is 20 degrees
      to the right, not 340 to the left. */
  lemma HeadingErrorExample()
    ensures HeadingError(10.0, 350.0) == 20.0
  {
    NormalizeTurn(20.0);
  }

  /** The signed distance of `p` from the line through A and B. */
  function CrossTrackDistance(host: Host, p: Position, line: ABLine): real {
    var lineBearing := Bearing(host, line.pointA, line.pointB);
    var bearingDiff := JsMod(Bearing(host, line.pointA, p) - lineBearing + 360.0, 360.0);
    host.distance(line.pointA, p) * host.sinDeg(bearingDiff)
  }

  /** `calculateCrossTrackError`. */
  function CrossTrack(host: Host, currentPos: Position, line: ABLine): (g: GuidanceData)
    ensures g.distanceToAB >= 0.0
    ensures g.onTrack <==> g.distanceToAB < OnTrackTolerance
  {
    var crossTrackError := CrossTrackDistance(host, currentPos, line);
    GuidanceData(
      crossTrackError,
      Abs(crossTrackError),
      HeadingError(HeadingOf(currentPos), Bearing(host, line.pointA, line.pointB)),
      Abs(crossTrackError) < OnTrackTolerance)
  }

  /** `calculateDistanceToLine`. */
  function DistanceToLine(host: Host, point: Position, line: ABLine): (d: real)
    ensures d >= 0.0
  {
    var lineBearing := Bearing(host, line.pointA, line.pointB);
    var bearingDiff := JsMod(Bearing(host, line.pointA, point) - lineBearing + 360.0, 360.0);
    Abs(host.distance(line.pointA, point) * host.sinDeg(bearingDiff))
  }

  /** The distance to a line is the size of the cross-track error, and the
      vehicle is on track exactly when it is within 50 cm of the line. */
  lemma DistanceIsCrossTrack(host: Host, p: Position, line: ABLine)
    ensures var g := CrossTrack(host, p, line);
      DistanceToLine(host, p, line) == g.distanceToAB == Abs(g.crossTrackError) &&
      (g.onTrack <==> DistanceToLine(host, p, line) < 0.5)
  {
  }

  /** With a heading and an azimuth in range, the guidance's heading error
      lies in (-180, 180]. */
  lemma CrossTrackHeading(host: Host, p: Position, line: ABLine)
    requires 0.0 <= HeadingOf(p) < 360.0
    requires -180.0 <= host.azimuth(line.pointA, line.pointB) <= 180.0
    ensures -180.0 < CrossTrack(host, p, line).headingError <= 180.0
  {
    BearingRange(host, line.pointA, line.pointB);
    HeadingErrorRange(HeadingOf(p), Bearing(host, line.pointA, line.pointB));
  }

  // ---------------------------------------------------------------------
  // Parallel passes

  /** `${id}_parallel_${i}`. */
  function ParallelId(id: string, i: int): string {
    id + "_parallel_" + IntToString(i)
  }

  /** Distinct offsets give distinct identifiers. */
  lemma ParallelIdInjective(id: string, i: int, j: int)
    requires i != j
    ensures ParallelId(id, i) != ParallelId(id, j)
  {
    IntToStringInjective(i, j);
    var prefix := id + "_parallel_";
    assert (prefix + IntToString(i))[|prefix|..] == IntToString(i);
    assert (prefix + IntToString(j))[|prefix|..] == IntToString(j);
  }

  /** Degrees of longitude for an eastward shift of `metres` at latitude
      `latitude`. */
  function LonOffset(host: Host, metres: real, latitude: real): real {
    var c := host.cosDeg(latitude);
    if c == 0.0 then 0.0 else metres / (MetresPerDegree * c)
  }

  /** The bearing perpendicular to the line, to its right. */
  function Perpendicular(host: Host, line: ABLine): real {
    JsMod(Bearing(host, line.pointA, line.pointB) + 90.0, 360.0)
  }

  /** A point moved by the given latitude and longitude deltas and stamped
      `now` (only coordinates and timestamp are set). */
  function Shift(p: Position, latOffset: real, lonOffset: real, now: int): Position {
    Position(p.latitude + latOffset, p.longitude + lonOffset, None, None, None, now)
  }

  /** The latitude and longitude deltas of a sideways shift by `offset`
      metres along the perpendicular bearing. */
  function ShiftDeltas(host: Host, line: ABLine, offset: real): (real, real) {
    var perpendicularBearing := Perpendicular(host, line);
    var latOffset := (offset * host.cosDeg(perpendicularBearing)) / MetresPerDegree;
    var lonOffset := LonOffset(host, offset * host.sinDeg(perpendicularBearing), line.pointA.latitude);
    (latOffset, lonOffset)
  }

  /** The pass `i` machine widths to the side of `line`. */
  function ParallelLine(host: Host, line: ABLine, machineWidth: real, i: int, now: int): ABLine {
    var offset := i as real * machineWidth;
    var deltas := ShiftDeltas(host, line, offset);
    ABLine(
      Shift(line.pointA, deltas.0, deltas.1, now),
      Shift(line.pointB, deltas.0, deltas.1, now),
      ParallelId(line.id, i),
      line.name + " +" + host.numberText(offset) + "m",
      line.created)
  }

  /** Degrees of latitude per metre of sideways offset. */
  function LatPerMetre(host: Host, line: ABLine): real {
    host.cosDeg(Perpendicular(host, line)) / MetresPerDegree
  }

  /** Degrees of longitude per metre of sideways offset. */
  function LonPerMetre(host: Host, line: ABLine): real {
    LonOffset(host, host.sinDeg(Perpendicular(host, line)), line.pointA.latitude)
  }

  /** The deltas grow linearly with the offset. */
  lemma ShiftDeltasLinear(host: Host, line: ABLine, offset: real)
    ensures ShiftDeltas(host, line, offset) == (offset * LatPerMetre(host, line), offset * LonPerMetre(host, line))
  {
    var perp := Perpendicular(host, line);
    var c := host.cosDeg(line.pointA.latitude);
    var s := host.sinDeg(perp);
    MulDiv(offset, host.cosDeg(perp), MetresPerDegree);
    assert ShiftDeltas(host, line, offset).0 == offset * LatPerMetre(host, line);
    if c != 0.0 {
      MulDiv(offset, s, MetresPerDegree * c);
    }
    assert ShiftDeltas(host, line, offset).1 == offset * LonPerMetre(host, line);
  }

  /** Both endpoints of a parallel pass move by the same deltas (which
      `ShiftDeltasLinear` shows proportional to `i * machineWidth`), so the
      direction B - A is kept; the creation time is the source line's. */
  lemma ParallelLineShift(host: Host, line: ABLine, machineWidth: real, i: int, now: int)
    ensures var p, d := ParallelLine(host, line, machineWidth, i, now), ShiftDeltas(host, line, i as real * machineWidth);
      && p.pointA == Shift(line.pointA, d.0, d.1, now)
      && p.pointB == Shift(line.pointB, d.0, d.1, now)
      && p.pointB.latitude - p.pointA.latitude == line.pointB.latitude - line.pointA.latitude
      && p.pointB.longitude - p.pointA.longitude == line.pointB.longitude - line.pointA.longitude
      && p.created == line.created
  {
  }

  /** The offsets tried, in the order tried: -10 up to 10 without 0. */
  function OffsetAt(k: nat): int {
    if k < 10 then k - 10 else k - 9
  }

  /** The position of offset `i` among the candidates (the line itself is
      candidate 0). */
  function CandidateIndex(i: int): nat
    requires -10 <= i <= 10 && i != 0
  {
    if i < 0 then i + 11 else i + 10
  }

  /** The lines compared, in the order compared: the line itself, then
      the passes at offsets -10, ..., -1, 1, ..., 10. */
  function Candidates(host: Host, line: ABLine, machineWidth: real, now: int): (all: seq<ABLine>)
    ensures |all| == 21 && all[0] == line
  {
    [line] + seq(20, k requires 0 <= k < 20 => ParallelLine(host, line, machineWidth, OffsetAt(k), now))
  }

  /** Candidate `CandidateIndex(i)` is the pass at offset `i`, and a smaller
      offset comes earlier. */
  lemma CandidateOrder(host: Host, line: ABLine, machineWidth: real, now: int, i: int, j: int)
    requires -10 <= i <= 10 && i != 0 && -10 <= j <= 10 && j != 0
    ensures 1 <= CandidateIndex(i) < 21
    ensures Candidates(host, line, machineWidth, now)[CandidateIndex(i)] == ParallelLine(host, line, machineWidth, i, now)
    ensures i < j <==> CandidateIndex(i) < CandidateIndex(j)
  {
    assert OffsetAt(CandidateIndex(i) - 1) == i;
  }

  /** The distances of `lines` from `p`. */
  function Distances(host: Host, p: Position, lines: seq<ABLine>): (ds: seq<real>)
    ensures |ds| == |lines|
  {
    seq(|lines|, k requires 0 <= k < |lines| => DistanceToLine(host, p, lines[k]))
  }

  /** The index kept by a left-to-right scan that replaces the best so far
      only on a strictly smaller value. */
  function FirstMinIndex(ds: seq<real>): (k: nat)
    requires |ds| >= 1
    ensures k < |ds|
  {
    if |ds| == 1 then 0
    else
      var k := FirstMinIndex(ds[..|ds| - 1]);
      if ds[|ds| - 1] < ds[k] then |ds| - 1 else k
  }

  /** The scan finds the first of the smallest values: nothing is smaller,
      and everything before it is strictly larger. */
  lemma {:induction false} FirstMinIndexSpec(ds: seq<real>)
    requires |ds| >= 1
    ensures var k := FirstMinIndex(ds);
      (forall j :: 0 <= j < |ds| ==> ds[k] <= ds[j]) &&
      (forall j :: 0 <= j < k ==> ds[k] < ds[j])
  {
    if |ds| > 1 {
      var init := ds[..|ds| - 1];
      FirstMinIndexSpec(init);
      assert forall j :: 0 <= j < |init| ==> init[j] == ds[j];
    }
  }

  /** One more step of the scan. */
  lemma FirstMinIndexStep(ds: seq<real>, n: nat)
    requires 1 <= n < |ds|
    ensures var k := FirstMinIndex(ds[..n]);
      FirstMinIndex(ds[..n + 1]) == if ds[n] < ds[k] then n else k
  {
    assert ds[..n + 1][..n] == ds[..n];
  }

  /** Ties go to the earlier candidate: a candidate is never chosen when an
      earlier one is at most as far. In particular the line itself wins
      all ties, offset -3 beats +3 and -10 beats -1. */
  lemma TieBreak(ds: seq<real>, j: nat, k: nat)
    requires j < k < |ds| && ds[j] <= ds[k]
    ensures FirstMinIndex(ds) != k
  {
    FirstMinIndexSpec(ds);
  }

  /** How many candidates the loop has compared before offset `i`. */
  function Seen(i: int): nat
    requires -10 <= i <= 11
  {
    if i <= 0 then i + 11 else i + 10
  }

  /** The first of the candidates closest to `p`. */
  function ClosestLine(host: Host, p: Position, abLine: ABLine, machineWidth: real, now: int): ABLine {
    var all := Candidates(host, abLine, machineWidth, now);
    all[FirstMinIndex(Distances(host, p, all))]
  }

  /** After comparing the first `n` candidates, the scan holds the `k`-th
      one and its distance, `k` being where the first of the closest so far
      lies. */
  ghost predicate Scanned(host: Host, p: Position, abLine: ABLine, machineWidth: real, now: int,
                          n: nat, k: nat, line: ABLine, distance: real)
  {
    var all := Candidates(host, abLine, machineWidth, now);
    var ds := Distances(host, p, all);
    1 <= n <= 21 && k < n && k == FirstMinIndex(ds[..n]) && line == all[k] && distance == ds[k]
  }

  /** `findClosestParallelLine`: the line itself and its twenty neighbouring
      passes are compared by distance from `currentPos`; the first of the
      closest is returned with its distance. */
  method FindClosestParallelLine(host: Host, currentPos: Position, abLine: ABLine, machineWidth: real, now: int)
    returns (line: ABLine, distance: real)
    ensures line == ClosestLine(host, currentPos, abLine, machineWidth, now)
    ensures distance == DistanceToLine(host, currentPos, line)
  {
    ghost var all := Candidates(host, abLine, machineWidth, now);
    ghost var ds := Distances(host, currentPos, all);
    ghost var k: nat := 0;
    line := abLine;
    distance := DistanceToLine(host, currentPos, abLine);
    assert ds[..1] == [ds[0]];
    for i := -10 to 11
      invariant Scanned(host, currentPos, abLine, machineWidth, now, Seen(i), k, line, distance)
    {
      if i != 0 {
        var parallelLine := ParallelLine(host, abLine, machineWidth, i, now);
        var d := DistanceToLine(host, currentPos, parallelLine);
        ScanStep(host, currentPos, abLine, machineWidth, now, i, k, line, distance);
        if d < distance {
          distance := d;
          line := parallelLine;
          k := Seen(i);
        }
      }
    }
    assert ds[..Seen(11)] == ds;
  }

  /** Comparing the pass at offset `i` extends the scan by one candidate. */
  lemma ScanStep(host: Host, p: Position, abLine: ABLine, machineWidth: real, now: int,
                 i: int, k: nat, line: ABLine, distance: real)
    requires -10 <= i <= 10 && i != 0
    requires Scanned(host, p, abLine, machineWidth, now, Seen(i), k, line, distance)
    ensures var pass := ParallelLine(host, abLine, machineWidth, i, now);
      var d := DistanceToLine(host, p, pass);
      if d < distance then Scanned(host, p, abLine, machineWidth, now, Seen(i) + 1, Seen(i), pass, d)
      else Scanned(host, p, abLine, machineWidth, now, Seen(i) + 1, k, line, distance)
  {
    var all := Candidates(host, abLine, machineWidth, now);
    var ds := Distances(host, p, all);
    CandidateOrder(host, abLine, machineWidth, now, i, i);
    FirstMinIndexStep(ds, Seen(i));
  }

  /** The chosen distance is at most the distance to the line itself and to
      every pass at offset -10..10. */
  lemma ClosestIsMinimal(host: Host, p: Position, abLine: ABLine, machineWidth: real, now: int, i: int)
    requires -10 <= i <= 10 && i != 0
    ensures var best := ClosestLine(host, p, abLine, machineWidth, now);
      DistanceToLine(host, p, best) <= DistanceToLine(host, p, abLine) &&
      DistanceToLine(host, p, best) <= DistanceToLine(host, p, ParallelLine(host, abLine, machineWidth, i, now))
  {
    var all := Candidates(host, abLine, machineWidth, now);
    var ds := Distances(host, p, all);
    FirstMinIndexSpec(ds);
    CandidateOrder(host, abLine, machineWidth, now, i, i);
    assert ds[0] == DistanceToLine(host, p, abLine);
    assert ds[CandidateIndex(i)] == DistanceToLine(host, p, ParallelLine(host, abLine, machineWidth, i, now));
  }

  // ---------------------------------------------------------------------
  // Formatting

  /** The whole degrees of a coordinate's magnitude. */
  function WholeDegrees(coord: real): (d: nat)
    ensures d as real <= Abs(coord) < d as real + 1.0
  {
    Abs(coord).Floor
  }

  /** The minutes past the whole degrees. */
  function Minutes(coord: real): (m: real)
    ensures 0.0 <= m < 60.0
  {
    (Abs(coord) - WholeDegrees(coord) as real) * 60.0
  }

  /** The hemisphere letter of a coordinate. */
  function Direction(coord: real, isLatitude: bool): (c: char)
    ensures isLatitude ==> (c == 'N' <==> coord >= 0.0) && (c == 'S' <==> coord < 0.0)
    ensures !isLatitude ==> (c == 'E' <==> coord >= 0.0) && (c == 'W' <==> coord < 0.0)
  {
    if coord >= 0.0 then (if isLatitude then 'N' else 'E') else (if isLatitude then 'S' else 'W')
  }

  /** `formatCoordinate`: degrees, the degree sign, minutes to four places,
      a prime and the hemisphere. */
  function FormatCoordinate(host: Host, coord: real, isLatitude: bool): string {
    NatToString(WholeDegrees(coord)) + "°" + host.toFixed(Minutes(coord), 4) + "'" + [Direction(coord, isLatitude)]
  }

  /** The text starts with the whole degrees of |coord| (read back by
      `parseInt`) and ends with the hemisphere letter. */
  lemma FormatCoordinateFields(host: Host, coord: real, isLatitude: bool)
    ensures var r := FormatCoordinate(host, coord, isLatitude);
      ParseInt(r) == Some(WholeDegrees(coord) as int) &&
      r[|r| - 1] == Direction(coord, isLatitude)
  {
    var ds := NatToString(WholeDegrees(coord));
    var tail := "°" + host.toFixed(Minutes(coord), 4) + "'" + [Direction(coord, isLatitude)];
    assert FormatCoordinate(host, coord, isLatitude) == ds + tail;
    NatToStringValue(WholeDegrees(coord));
    ParseIntDigits(ds, tail);
  }

  /** `formatDistance`: metres to one place below 1000 m, otherwise
      kilometres to two places. */
  function FormatDistance(host: Host, meters: real): string {
    if meters < 1000.0 then host.toFixed(meters, 1) + "m"
    else host.toFixed(meters / 1000.0, 2) + "km"
  }

  /** Every distance ends in the unit "m"; it reads "km" exactly from
      1000 m on (given that the rendered number has no letter 'k'). */
  lemma FormatDistanceUnit(host: Host, meters: real)
    requires 'k' !in host.toFixed(meters, 1)
    ensures var r := FormatDistance(host, meters);
      |r| >= 1 && r[|r| - 1] == 'm' &&
      (meters >= 1000.0 <==> |r| >= 2 && r[|r| - 2..] == "km")
  {
    var r := FormatDistance(host, meters);
    if meters >= 1000.0 {
      var t := host.toFixed(meters / 1000.0, 2);
      assert r == t + "km";
      assert r[|r| - 2..] == "km";
    } else {
      var t := host.toFixed(meters, 1);
      assert r == t + "m";
      if |t| >= 1 {
        assert r[|r| - 2] == t[|t| - 1];
        assert t[|t| - 1] in t;
        assert r[|r| - 2..][0] != 'k';
      }
    }
  }
}
