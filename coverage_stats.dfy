/** The figures of src/components/CoverageStats.tsx: the share of treated
    path points, the approximate distance driven, the session time and the
    average speed. `Date.now() - sessionStartTime` is the parameter
    `sessionDuration` (milliseconds). */
module CoverageStats {
  import opened GpsTypes
  import opened GpsUtils

  /** `pathPoints.filter(p => p.treated)`. */
  function Treated(points: seq<PathPoint>): (treated: seq<PathPoint>)
    ensures |treated| <= |points|
  {
    if points == [] then []
    else
      var init := Treated(points[..|points| - 1]);
      var last := points[|points| - 1];
      if last.treated then init + [last] else init
  }

  /** `pathPoints.filter(p => !p.treated)`. */
  function Untreated(points: seq<PathPoint>): (untreated: seq<PathPoint>)
    ensures |untreated| <= |points|
  {
    if points == [] then []
    else
      var init := Untreated(points[..|points| - 1]);
      var last := points[|points| - 1];
      if !last.treated then init + [last] else init
  }

  /** The treated points are exactly the points marked treated, in order,
      and together with the untreated ones they account for every point. */
  lemma {:induction false} TreatedPartition(points: seq<PathPoint>)
    ensures forall p :: p in Treated(points) <==> p in points && p.treated
    ensures forall p :: p in Untreated(points) <==> p in points && !p.treated
    ensures |Treated(points)| + |Untreated(points)| == |points|
  {
    if points != [] {
      var init := points[..|points| - 1];
      TreatedPartition(init);
      assert points == init + [points[|points| - 1]];
    }
  }

  /** Treated share of the points, in percent (0 for an empty path). */
  function CoveragePercentage(points: seq<PathPoint>): real {
    if |points| > 0 then (|Treated(points)| as real / |points| as real) * 100.0 else 0.0
  }

  /** The percentage lies in [0, 100]: all points treated gives 100. */
  lemma CoverageBounds(points: seq<PathPoint>)
    ensures 0.0 <= CoveragePercentage(points) <= 100.0
    ensures |points| > 0 && |Treated(points)| == |points| ==> CoveragePercentage(points) == 100.0
  {
    if |points| > 0 {
      RatioBounds(|Treated(points)| as real, |points| as real);
    }
  }

  /** Two metres per recorded point. */
  function ApproximateDistance(points: seq<PathPoint>): nat {
    |points| * 2
  }

  const MillisecondsPerHour: int := 1000 * 60 * 60
  const MillisecondsPerMinute: int := 1000 * 60

  /** JavaScript's `%` on integers: truncated, with the sign of `x`. */
  function JsRem(x: int, m: int): int
    requires m > 0
  {
    if x >= 0 then x % m else -((-x) % m)
  }

  /** `Math.floor(sessionDuration / 3600000)`. */
  function Hours(sessionDuration: int): int {
    sessionDuration / MillisecondsPerHour
  }

  /** `Math.floor((sessionDuration % 3600000) / 60000)`. */
  function MinutesPart(sessionDuration: int): int {
    JsRem(sessionDuration, MillisecondsPerHour) / MillisecondsPerMinute
  }

  /** For a non-negative duration the display is whole hours and the
      whole minutes (0..59) of the hour under way, never more than the
      duration itself. */
  lemma SessionTime(d: int)
    requires d >= 0
    ensures var h, m := Hours(d), MinutesPart(d);
      h >= 0 && 0 <= m <= 59 &&
      h * MillisecondsPerHour + m * MillisecondsPerMinute <= d < h * MillisecondsPerHour + (m + 1) * MillisecondsPerMinute
  {
    var r := d % MillisecondsPerHour;
    assert d == Hours(d) * MillisecondsPerHour + r;
    assert r == MinutesPart(d) * MillisecondsPerMinute + r % MillisecondsPerMinute;
  }

  /** The efficiency figure: "0.0" until time has passed, otherwise the
      distance over the elapsed seconds times 3.6 (km/h) to one place. */
  function AverageSpeedText(host: Host, points: seq<PathPoint>, sessionDuration: int): string {
    if sessionDuration > 0 then
      host.toFixed((ApproximateDistance(points) as real / (sessionDuration as real / 1000.0)) * 3.6, 1)
    else "0.0"
  }

  /** The speed rendered is 7.2 / (duration in seconds) per point. */
  lemma AverageSpeedValue(host: Host, points: seq<PathPoint>, sessionDuration: int)
    requires sessionDuration > 0
    ensures AverageSpeedText(host, points, sessionDuration) ==
      host.toFixed(|points| as real * 7200.0 / sessionDuration as real, 1)
  {
    var d, s := |points| as real * 2.0, sessionDuration as real;
    assert (d / (s / 1000.0)) * 3.6 == |points| as real * 7200.0 / s;
  }
}
