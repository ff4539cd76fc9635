/** The classifiers of src/components/GPSStatus.tsx: the fix-quality table
    of the GGA sentence, and the colour bands of fix quality, satellite
    count and HDOP. */
module GpsStatus {
  import opened Wrappers
  import opened GpsTypes

  /** The display colours, from worst to best. */
  datatype Colour = Red | Orange | Yellow | Green

  function Rank(c: Colour): nat {
    match c
    case Red => 0
    case Orange => 1
    case Yellow => 2
    case Green => 3
  }

  /** `getFixQualityText`: the GGA fix-quality indicator of NMEA 0183. */
  function FixQualityText(quality: int): string {
    match quality
    case 0 => "No Fix"
    case 1 => "GPS Fix"
    case 2 => "DGPS Fix"
    case 3 => "PPS Fix"
    case 4 => "RTK Fix"
    case 5 => "RTK Float"
    case _ => "Unknown"
  }

  /** The six known codes have six distinct names, none of them "Unknown";
      every other code is "Unknown". */
  lemma FixQualityTable(q1: int, q2: int)
    ensures (0 <= q1 <= 5) <==> FixQualityText(q1) != "Unknown"
    ensures 0 <= q1 <= 5 && 0 <= q2 <= 5 && q1 != q2 ==> FixQualityText(q1) != FixQualityText(q2)
  {
  }

  /** `getFixQualityColor`: bands at 4, 2 and 1. */
  function FixQualityColour(quality: int): (c: Colour)
    ensures c == Green <==> quality >= 4
    ensures c == Yellow <==> 2 <= quality < 4
    ensures c == Orange <==> quality == 1
    ensures c == Red <==> quality < 1
  {
    if quality >= 4 then Green else if quality >= 2 then Yellow else if quality >= 1 then Orange else Red
  }

  /** `getSignalStrength`: bands at 8, 6 and 4 satellites. */
  function SignalColour(satellites: int): (c: Colour)
    ensures c == Green <==> satellites >= 8
    ensures c == Yellow <==> 6 <= satellites < 8
    ensures c == Orange <==> 4 <= satellites < 6
    ensures c == Red <==> satellites < 4
  {
    if satellites >= 8 then Green else if satellites >= 6 then Yellow else if satellites >= 4 then Orange else Red
  }

  /** A better fix or more satellites never shows a worse colour. */
  lemma ColoursMonotone(a: int, b: int)
    requires a <= b
    ensures Rank(FixQualityColour(a)) <= Rank(FixQualityColour(b))
    ensures Rank(SignalColour(a)) <= Rank(SignalColour(b))
  {
  }

  /** The HDOP colour: below 2, below 5, otherwise (a smaller HDOP is a
      better geometry). */
  function HdopColour(hdop: real): (c: Colour)
    ensures c == Green <==> hdop < 2.0
    ensures c == Yellow <==> 2.0 <= hdop < 5.0
    ensures c == Red <==> hdop >= 5.0
    ensures c != Orange
  {
    if hdop < 2.0 then Green else if hdop < 5.0 then Yellow else Red
  }

  /** A lower HDOP never shows a worse colour. */
  lemma HdopMonotone(a: real, b: real)
    requires a <= b
    ensures Rank(HdopColour(b)) <= Rank(HdopColour(a))
  {
  }

  /** The figures shown: the defaults 0 replace figures not supplied. */
  datatype StatusFigures = StatusFigures(satelliteCount: int, fixQuality: int, hdop: real)

  function Figures(satelliteCount: Option<int>, fixQuality: Option<int>, hdop: Option<real>): (f: StatusFigures)
    ensures f.satelliteCount == (if satelliteCount.Some? then satelliteCount.value else 0)
    ensures f.fixQuality == (if fixQuality.Some? then fixQuality.value else 0)
    ensures f.hdop == (if hdop.Some? then hdop.value else 0.0)
  {
    StatusFigures(satelliteCount.GetOr(0), fixQuality.GetOr(0), hdop.GetOr(0.0))
  }

  /** Without supplied figures the panel shows no fix, a red signal and a
      green HDOP. */
  lemma DefaultFigures()
    ensures var f := Figures(None, None, None);
      FixQualityText(f.fixQuality) == "No Fix" && FixQualityColour(f.fixQuality) == Red &&
      SignalColour(f.satelliteCount) == Red && HdopColour(f.hdop) == Green
  {
  }

  /** The coordinate panel is rendered only with a position. */
  function CoordinatePanelShown(position: Option<Position>): bool {
    position.Some?
  }
}
