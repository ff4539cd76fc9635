/** The decisions of src/components/EnhancedGuidanceDisplay.tsx: when the
    placeholder shows, the colour bands of an error, the steering
    direction, the heading hint, and the position of the error marker. */
module EnhancedGuidanceDisplay {
  import opened Wrappers
  import opened GpsTypes
  import opened GpsUtils

  /** The three colour bands of an error. */
  datatype Band = Good | Warn | Bad

  /** `!guidance || !isActive`. */
  function ShowPlaceholder(guidance: Option<GuidanceData>, isActive: bool): bool {
    guidance.None? || !isActive
  }

  /** The band of `getErrorColor`: below 0.2, below 0.5, otherwise. */
  function ErrorBand(error: real): (b: Band)
    ensures b == Good <==> Abs(error) < 0.2
    ensures b == Warn <==> 0.2 <= Abs(error) < 0.5
    ensures b == Bad <==> Abs(error) >= 0.5
  {
    var absError := Abs(error);
    if absError < 0.2 then Good else if absError < 0.5 then Warn else Bad
  }

  /** `getErrorColor`. */
  function ErrorColor(error: real): string {
    var absError := Abs(error);
    if absError < 0.2 then "text-green-400"
    else if absError < 0.5 then "text-yellow-400"
    else "text-red-400"
  }

  /** `getBackgroundColor`. */
  function BackgroundColor(error: real): string {
    var absError := Abs(error);
    if absError < 0.2 then "bg-green-900/20 border-green-500/30"
    else if absError < 0.5 then "bg-yellow-900/20 border-yellow-500/30"
    else "bg-red-900/20 border-red-500/30"
  }

  /** The text and background colours follow the same bands and depend on
      the error's size only. */
  lemma ColoursAgree(e1: real, e2: real)
    ensures (ErrorColor(e1) == ErrorColor(e2)) <==> (ErrorBand(e1) == ErrorBand(e2))
    ensures (BackgroundColor(e1) == BackgroundColor(e2)) <==> (ErrorBand(e1) == ErrorBand(e2))
    ensures ErrorColor(e1) == ErrorColor(-e1) && BackgroundColor(e1) == BackgroundColor(-e1)
  {
  }

  datatype Steering = Straight | SteerLeft | SteerRight

  /** `getSteeringDirection`: straight within 10 cm, otherwise towards the
      line. */
  function SteeringDirection(crossTrackError: real): (s: Steering)
    ensures s == Straight <==> Abs(crossTrackError) < 0.1
    ensures s == SteerLeft <==> Abs(crossTrackError) >= 0.1 && crossTrackError > 0.0
    ensures s == SteerRight <==> crossTrackError <= -0.1
  {
    if Abs(crossTrackError) < 0.1 then Straight
    else if crossTrackError > 0.0 then SteerLeft else SteerRight
  }

  datatype HeadingHint = Aligned | TurnLeft | TurnRight

  /** The hint under the heading error. */
  function HeadingLabel(headingError: real): (h: HeadingHint)
    ensures h == Aligned <==> Abs(headingError) < 2.0
    ensures h == TurnLeft <==> headingError >= 2.0
    ensures h == TurnRight <==> headingError <= -2.0
  {
    if Abs(headingError) < 2.0 then Aligned
    else if headingError > 0.0 then TurnLeft else TurnRight
  }

  /** The marker's left edge in percent: 50 at zero error, 50 % of the
      bar per 3 m, clamped to [2, 94]. */
  function IndicatorPosition(crossTrackError: real): (pct: real)
    ensures 2.0 <= pct <= 94.0
  {
    var raw := 50.0 + (crossTrackError / 3.0) * 50.0;
    var capped := if raw < 94.0 then raw else 94.0;
    if capped > 2.0 then capped else 2.0
  }

  /** Inside the clamp the marker moves linearly, and it never moves the
      wrong way. */
  lemma IndicatorMonotone(e1: real, e2: real)
    requires e1 <= e2
    ensures IndicatorPosition(e1) <= IndicatorPosition(e2)
    ensures -2.88 <= e1 <= 2.64 ==> IndicatorPosition(e1) == 50.0 + e1 * 50.0 / 3.0
  {
  }

  /** The ON TRACK badge is shown exactly when the guidance says so. */
  function OnTrackBadge(guidance: GuidanceData): (shown: bool)
    ensures shown <==> guidance.onTrack
  {
    guidance.onTrack
  }

  /** For guidance computed by the engine, the badge and the colour band
      agree: ON TRACK exactly when the error is not in the red band. */
  lemma BadgeMatchesBand(host: Host, p: Position, line: ABLine)
    ensures var g := CrossTrack(host, p, line);
      OnTrackBadge(g) <==> ErrorBand(g.crossTrackError) != Bad
  {
  }
}
