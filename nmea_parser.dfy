/** The NMEA 0183 sentence decoder (src/utils/nmeaParser.ts): the `*HH`
    checksum, and the GGA (position fix), RMC (velocity) and GSV (satellites
    in view) sentences. Every numeric field is read with `parseInt` or
    `parseFloat`; a field that does not parse defaults to 0 wherever the
    source writes `|| 0`. */
module NmeaParser {
  import opened Wrappers
  import opened JsString
  import opened JsNumber

  /** The GGA result (`NMEAData`). A coordinate is `None` when its
      conversion yields `NaN`. */
  datatype NmeaData = NmeaData(
    latitude: Option<real>,
    longitude: Option<real>,
    altitude: real,
    fixQuality: int,
    satelliteCount: int,
    hdop: real,
    timestamp: Option<string>,
    isValid: bool)

  /** The RMC result: speed in m/s and course over ground in degrees. */
  datatype Velocity = Velocity(speed: real, heading: real)

  datatype SatelliteData = SatelliteData(id: int, elevation: int, azimuth: int, snr: int, used: bool)

  datatype GsvData = GsvData(
    totalMessages: int,
    messageNumber: int,
    totalSatellites: int,
    satellites: seq<SatelliteData>)

  /** Knots to metres per second. */
  const KnotsToMetresPerSecond: real := 0.514444

  /** The comma-separated fields of the trimmed sentence. */
  function Fields(sentence: string): (parts: seq<string>)
    ensures |parts| >= 1
  {
    Split(Trim(sentence), ',')
  }

  /** `parts[i]`, which is `undefined` past the end. */
  function Field(parts: seq<string>, i: nat): Option<string> {
    if i < |parts| then Some(parts[i]) else None
  }

  /** `parseInt(parts[i])`; `parseInt(undefined)` is `NaN`. */
  function IntField(parts: seq<string>, i: nat): Option<int> {
    if i < |parts| then ParseInt(parts[i]) else None
  }

  /** `parseFloat(parts[i])`. */
  function RealField(parts: seq<string>, i: nat): Option<real> {
    if i < |parts| then ParseFloat(parts[i]) else None
  }

  // ---------------------------------------------------------------------
  // GGA

  /** `convertToDecimal`: a `DDMM.MMMM` (latitude) or `DDDMM.MMMM`
      (longitude) field to signed decimal degrees. A missing field or one
      shorter than 4 characters gives 0; an unparsable degree or minute part
      gives `NaN` (None). */
  function ConvertToDecimal(degMin: Option<string>, direction: Option<string>, isLatitude: bool): (r: Option<real>)
    ensures (degMin.None? || |degMin.value| < 4) ==> r == Some(0.0)
  {
    if degMin.None? || |degMin.value| < 4 then Some(0.0)
    else
      var degreeDigits := if isLatitude then 2 else 3;
      var degrees := ParseInt(Substring(degMin.value, 0, degreeDigits));
      var minutes := ParseFloat(Substring(degMin.value, degreeDigits, |degMin.value|));
      DegreesMinutes(degrees, minutes, direction)
  }

  /** Whole degrees plus minutes over 60, signed by the hemisphere; `NaN`
      (None) when either part did not parse. */
  function DegreesMinutes(degrees: Option<int>, minutes: Option<real>, direction: Option<string>): Option<real> {
    if degrees.None? || minutes.None? then None
    else Some(Hemisphere(degrees.value as real + minutes.value / 60.0, direction))
  }

  /** South and west are negative. */
  function Hemisphere(decimal: real, direction: Option<string>): real {
    if direction == Some("S") || direction == Some("W") then -decimal else decimal
  }

  /** The source's validity test: `fixQuality > 0 && latitude !== 0 &&
      longitude !== 0`. `NaN !== 0` holds in JavaScript, so a `NaN`
      coordinate passes it. */
  predicate ValidAsWritten(fixQuality: int, latitude: Option<real>, longitude: Option<real>) {
    fixQuality > 0 && latitude != Some(0.0) && longitude != Some(0.0)
  }

  /** `parseGGA`. */
  function ParseGga(sentence: string): (r: Option<NmeaData>)
    ensures r.Some? <==> Includes(Fields(sentence)[0], "GGA")
  {
    var parts := Fields(sentence);
    if !Includes(parts[0], "GGA") then None
    else
      var fixQuality := OrZero(IntField(parts, 6));
      var latitude := ConvertToDecimal(Field(parts, 2), Field(parts, 3), true);
      var longitude := ConvertToDecimal(Field(parts, 4), Field(parts, 5), false);
      Some(NmeaData(
        latitude,
        longitude,
        OrZeroReal(RealField(parts, 9)),
        fixQuality,
        OrZero(IntField(parts, 7)),
        OrZeroReal(RealField(parts, 8)),
        Field(parts, 1),
        ValidAsWritten(fixQuality, latitude, longitude)))
  }

  /** The fix the receiver may use: the source's test, and both coordinates
      numbers. This is the corrected validity test (see `NaNLatitudePasses`). */
  predicate UsableFix(d: NmeaData) {
    d.isValid && d.latitude.Some? && d.longitude.Some?
  }

  /** A usable fix has a positive quality and two non-zero numeric
      coordinates, and every GGA with those properties is usable. */
  lemma UsableFixMeaning(sentence: string)
    requires ParseGga(sentence).Some?
    ensures var d := ParseGga(sentence).value;
      UsableFix(d) <==>
        d.fixQuality > 0 &&
        d.latitude.Some? && d.latitude.value != 0.0 &&
        d.longitude.Some? && d.longitude.value != 0.0
  {
  }

  /** The numeric GGA fields default to 0 exactly when they do not parse. */
  lemma GgaDefaults(sentence: string)
    requires ParseGga(sentence).Some?
    ensures var parts, d := Fields(sentence), ParseGga(sentence).value;
      && (IntField(parts, 6).None? ==> d.fixQuality == 0)
      && (IntField(parts, 7).None? ==> d.satelliteCount == 0)
      && (RealField(parts, 8).None? ==> d.hdop == 0.0)
      && (RealField(parts, 9).None? ==> d.altitude == 0.0)
      && (IntField(parts, 6).Some? ==> d.fixQuality == IntField(parts, 6).value)
      && (IntField(parts, 7).Some? ==> d.satelliteCount == IntField(parts, 7).value)
      && (RealField(parts, 8).Some? ==> d.hdop == RealField(parts, 8).value)
      && (RealField(parts, 9).Some? ==> d.altitude == RealField(parts, 9).value)
  {
  }

  /** `convertToDecimal` reads the degree digits with `parseInt` and the rest
      with `parseFloat`. */
  lemma ConvertToDecimalSplit(field: string, n: nat, direction: Option<string>, isLatitude: bool)
    requires n == (if isLatitude then 2 else 3) && |field| >= 4
    ensures ConvertToDecimal(Some(field), direction, isLatitude) ==
      DegreesMinutes(ParseInt(field[..n]), ParseFloat(field[n..]), direction)
  {
    SubstringInRange(field, 0, n);
    SubstringInRange(field, n, |field|);
    assert field[0..n] == field[..n];
    assert field[n..|field|] == field[n..];
  }

  /** The example from the NMEA 0183 GGA description: "4807.038",N is
      48 degrees 7.038 minutes north. */
  lemma ConvertToDecimalExample()
    ensures ConvertToDecimal(Some("4807.038"), Some("N"), true) == Some(48.0 + 7.038 / 60.0)
  {
    ConvertToDecimalSplit("4807.038", 2, Some("N"), true);
    ExampleFieldParts();
    DegreesExample();
    MinutesExample();
  }

  lemma ExampleFieldParts()
    ensures "4807.038"[..2] == "48" && "4807.038"[2..] == "07.038"
  {
    var field := "4807.038";
    assert field == "48" + "07.038";
  }

  lemma DegreesExample()
    ensures ParseInt("48") == Some(48)
  {
    assert TrimStart("48") == "48";
    assert Unsigned("48") == ("48", false);
    assert LeadingDigits("48") == "48";
    assert DigitsValue("48") == 48;
  }

  lemma MinutesExample()
    ensures ParseFloat("07.038") == Some(7.038)
  {
    ParseFloatDecimal("07", "038");
    assert "07.038" == "07" + "." + "038";
    DecimalExample();
  }

  lemma DecimalExample()
    ensures DecimalValue("07", "038") == 7.038
  {
    assert DigitsValue("07") == 7;
    assert FractionValue("038") == 0.038 by {
      assert "038"[1..] == "38";
      assert "38"[1..] == "8";
      assert "8"[1..] == "";
    }
  }

  /** Finding, as written: a degree prefix that is not a number makes the
      latitude `NaN`, and the source's validity test still accepts the fix. */
  lemma NaNLatitudePasses()
    ensures ConvertToDecimal(Some("ab07.038"), Some("N"), true).None?
    ensures ValidAsWritten(1, ConvertToDecimal(Some("ab07.038"), Some("N"), true), Some(11.5))
  {
    var t := Substring("ab07.038", 0, 2);
    assert t == "ab";
    assert !IsSpace(t[0]) && !IsDigit(t[0]);
    assert TrimStart(t) == t;
    assert LeadingDigits(t) == [];
  }

  // ---------------------------------------------------------------------
  // RMC

  /** `parseRMC`: field 7 (speed over ground, knots) in m/s and field 8
      (course over ground). */
  function ParseRmc(sentence: string): (r: Option<Velocity>)
    ensures r.Some? <==> Includes(Fields(sentence)[0], "RMC")
  {
    var parts := Fields(sentence);
    if !Includes(parts[0], "RMC") then None
    else Some(Velocity(OrZeroReal(RealField(parts, 7)) * KnotsToMetresPerSecond, OrZeroReal(RealField(parts, 8))))
  }

  /** RMC speed is the knots field times 0.514444 and the heading is the
      course field, each 0 when it does not parse. */
  lemma RmcFields(sentence: string)
    requires ParseRmc(sentence).Some?
    ensures var parts, v := Fields(sentence), ParseRmc(sentence).value;
      && (RealField(parts, 7).Some? ==> v.speed == RealField(parts, 7).value * 0.514444)
      && (RealField(parts, 7).None? ==> v.speed == 0.0)
      && (RealField(parts, 8).Some? ==> v.heading == RealField(parts, 8).value)
      && (RealField(parts, 8).None? ==> v.heading == 0.0)
  {
  }

  // ---------------------------------------------------------------------
  // GSV

  /** The satellite of group `i` (fields 4+4i to 7+4i): present only when
      the group's last field exists, and dropped when its id is 0 or does
      not parse. */
  function GroupEntry(parts: seq<string>, i: nat): Option<SatelliteData> {
    var baseIndex := 4 + i * 4;
    if baseIndex + 3 < |parts| then
      var id := ParseInt(parts[baseIndex]);
      var snr := OrZero(ParseInt(parts[baseIndex + 3]));
      if id.None? || id.value == 0 then None
      else Some(SatelliteData(id.value, OrZero(ParseInt(parts[baseIndex + 1])),
                              OrZero(ParseInt(parts[baseIndex + 2])), snr, snr > 0))
    else None
  }

  /** The four satellite groups a GSV sentence can carry. */
  function Groups(parts: seq<string>): (groups: seq<Option<SatelliteData>>)
    ensures |groups| == 4
  {
    seq(4, i requires 0 <= i < 4 => GroupEntry(parts, i))
  }

  /** The values present in `xs`, in order. */
  function Present<T>(xs: seq<Option<T>>): seq<T> {
    if xs == [] then []
    else
      var last := xs[|xs| - 1];
      Present(xs[..|xs| - 1]) + (if last.Some? then [last.value] else [])
  }

  /** The group's satellite as the loop body of `parseGSV` builds it. */
  lemma GroupEntryFields(parts: seq<string>, i: nat)
    requires 4 + i * 4 + 3 < |parts|
    ensures var b := 4 + i * 4;
      var id, snr := ParseInt(parts[b]), OrZero(ParseInt(parts[b + 3]));
      GroupEntry(parts, i) ==
        if id.None? || id.value == 0 then None
        else Some(SatelliteData(id.value, OrZero(ParseInt(parts[b + 1])), OrZero(ParseInt(parts[b + 2])), snr, snr > 0))
  {
  }

  /** A group yields a satellite exactly when its four fields are present
      and its id is a non-zero number; that satellite is `used` exactly when
      its signal-to-noise ratio is positive. */
  lemma GroupEntryPresent(parts: seq<string>, i: nat)
    ensures GroupEntry(parts, i).Some? <==>
      (4 + i * 4 + 3 < |parts| && ParseInt(parts[4 + i * 4]).Some? && ParseInt(parts[4 + i * 4]).value != 0)
    ensures GroupEntry(parts, i).Some? ==>
      var s := GroupEntry(parts, i).value;
      s.id == ParseInt(parts[4 + i * 4]).value && s.id != 0 && (s.used <==> s.snr > 0)
  {
    if 4 + i * 4 + 3 < |parts| {
      GroupEntryFields(parts, i);
    }
  }

  /** Present values are kept and nothing else is added: the result is no
      longer than `xs` and holds only values present in `xs`. */
  lemma {:induction false} PresentShape<T>(xs: seq<Option<T>>)
    ensures |Present(xs)| <= |xs|
    ensures forall y :: y in Present(xs) ==> Some(y) in xs
  {
    if xs != [] {
      var init := xs[..|xs| - 1];
      PresentShape(init);
      assert forall o :: o in init ==> o in xs;
    }
  }

  /** Every value present in `xs` is in the result. */
  lemma {:induction false} PresentMembership<T>(xs: seq<Option<T>>, i: nat)
    requires i < |xs| && xs[i].Some?
    ensures xs[i].value in Present(xs)
  {
    var init := xs[..|xs| - 1];
    if i < |init| {
      PresentMembership(init, i);
      assert init[i] == xs[i];
    }
  }

  lemma PresentStep<T>(xs: seq<Option<T>>, i: nat)
    requires i < |xs|
    ensures Present(xs[..i + 1]) == Present(xs[..i]) + (if xs[i].Some? then [xs[i].value] else [])
  {
    assert xs[..i + 1][..i] == xs[..i];
  }

  /** Every satellite a valid group yields is in the GSV result, and every
      satellite in it came from a valid group. */
  lemma GroupsMembership(parts: seq<string>, i: nat)
    requires i < 4
    ensures GroupEntry(parts, i).Some? ==> GroupEntry(parts, i).value in Present(Groups(parts))
  {
    if GroupEntry(parts, i).Some? {
      PresentMembership(Groups(parts), i);
    }
  }

  /** At most four satellites, each from a valid group: a non-zero id, and
      `used` exactly when the signal-to-noise ratio is positive. */
  lemma GroupsShape(parts: seq<string>)
    ensures |Present(Groups(parts))| <= 4
    ensures forall s :: s in Present(Groups(parts)) ==> s.id != 0 && (s.used <==> s.snr > 0)
  {
    var groups := Groups(parts);
    PresentShape(groups);
    forall s: SatelliteData | s in Present(groups)
      ensures s.id != 0 && (s.used <==> s.snr > 0)
    {
      var i :| 0 <= i < 4 && groups[i] == Some(s);
      GroupEntryPresent(parts, i);
    }
  }

  /** `parseGSV`: the three header counts and up to four satellites. */
  method ParseGsv(sentence: string) returns (r: Option<GsvData>)
    ensures r.Some? <==> Includes(Fields(sentence)[0], "GSV")
    ensures r.Some? ==> r.value.satellites == Present(Groups(Fields(sentence)))
    ensures r.Some? ==> |r.value.satellites| <= 4
    ensures r.Some? ==> forall s :: s in r.value.satellites ==> s.id != 0 && (s.used <==> s.snr > 0)
    ensures r.Some? ==>
      && r.value.totalMessages == OrZero(IntField(Fields(sentence), 1))
      && r.value.messageNumber == OrZero(IntField(Fields(sentence), 2))
      && r.value.totalSatellites == OrZero(IntField(Fields(sentence), 3))
  {
    var parts := Fields(sentence);
    if !Includes(parts[0], "GSV") {
      return None;
    }
    var totalMessages := OrZero(IntField(parts, 1));
    var messageNumber := OrZero(IntField(parts, 2));
    var totalSatellites := OrZero(IntField(parts, 3));
    var satellites := CollectSatellites(parts);
    GroupsShape(parts);
    r := Some(GsvData(totalMessages, messageNumber, totalSatellites, satellites));
  }

  /** The loop of `parseGSV` over the four satellite groups. */
  method CollectSatellites(parts: seq<string>) returns (satellites: seq<SatelliteData>)
    ensures satellites == Present(Groups(parts))
  {
    satellites := [];
    ghost var groups := Groups(parts);
    for i := 0 to 4
      invariant satellites == Present(groups[..i])
    {
      var baseIndex := 4 + i * 4;
      PresentStep(groups, i);
      assert groups[i] == GroupEntry(parts, i);
      if baseIndex + 3 < |parts| {
        var id := ParseInt(parts[baseIndex]);
        var elevation := OrZero(ParseInt(parts[baseIndex + 1]));
        var azimuth := OrZero(ParseInt(parts[baseIndex + 2]));
        var snr := OrZero(ParseInt(parts[baseIndex + 3]));
        GroupEntryFields(parts, i);
        if id.Some? && id.value != 0 {
          satellites := satellites + [SatelliteData(id.value, elevation, azimuth, snr, snr > 0)];
        }
      }
    }
    assert groups[..4] == groups;
  }

  // ---------------------------------------------------------------------
  // Checksum

  const HexDigits: string := "0123456789ABCDEF"

  /** `s.charCodeAt(i)` for the character `c`. */
  function CharCode(c: char): bv32 {
    (c as int) as bv32
  }

  /** The XOR of the character codes of `s`, accumulated left to right. */
  function XorCodes(s: string): bv32 {
    if s == [] then 0 else XorCodes(s[..|s| - 1]) ^ CharCode(s[|s| - 1])
  }

  /** `n.toString(16).toUpperCase()`. */
  function ToHex(n: nat): (s: string)
    ensures |s| >= 1
    ensures forall i :: 0 <= i < |s| ==> s[i] in HexDigits
    ensures n < 16 ==> |s| == 1
    ensures 16 <= n < 256 ==> |s| == 2
  {
    if n < 16 then [HexDigits[n]] else ToHex(n / 16) + [HexDigits[n % 16]]
  }

  /** `s.padStart(2, '0')`. */
  function PadStart2(s: string): string {
    if |s| >= 2 then s else seq(2 - |s|, _ => '0') + s
  }

  /** The hexadecimal rendering shared by both checksum calculators. */
  function ChecksumText(x: bv32): (hex: string)
    ensures |hex| >= 2
    ensures forall i :: 0 <= i < |hex| ==> hex[i] in HexDigits
    ensures x < 256 ==> |hex| == 2
  {
    PadStart2(ToHex(x as int))
  }

  /** The characters the checksum covers,
      `sentence.substring(1, sentence.indexOf('*'))`: those between index 0
      and the first '*', but the first character alone when there is no '*'
      or it comes first (`substring` swaps the bounds 1 and -1 or 0). */
  function ChecksumData(sentence: string): string {
    Substring(sentence, 1, IndexOf(sentence, '*'))
  }

  /** The value of `calculateChecksum(sentence)`. */
  function Checksum(sentence: string): string {
    ChecksumText(XorCodes(ChecksumData(sentence)))
  }

  /** `calculateChecksum`: XOR the covered character codes, render in
      upper-case hex padded to two digits. */
  method CalculateChecksum(sentence: string) returns (hex: string)
    ensures hex == Checksum(sentence)
    ensures forall i :: 0 <= i < |hex| ==> hex[i] in HexDigits
  {
    var checksum: bv32 := 0;
    var data := ChecksumData(sentence);
    for i := 0 to |data|
      invariant checksum == XorCodes(data[..i])
    {
      XorCodesStep(data, i);
      checksum := checksum ^ CharCode(data[i]);
    }
    assert data[..|data|] == data;
    hex := ChecksumText(checksum);
  }

  lemma XorCodesStep(s: string, i: nat)
    requires i < |s|
    ensures XorCodes(s[..i + 1]) == XorCodes(s[..i]) ^ CharCode(s[i])
  {
    assert s[..i + 1][..i] == s[..i];
  }

  /** Every code below 256 keeps the XOR below 256. */
  lemma {:induction false} XorCodesByte(s: string)
    requires forall i :: 0 <= i < |s| ==> (s[i] as int) < 256
    ensures XorCodes(s) < 256
  {
    if s != [] {
      XorCodesByte(s[..|s| - 1]);
      CharCodeByte(s[|s| - 1]);
      XorByte(XorCodes(s[..|s| - 1]), CharCode(s[|s| - 1]));
    }
  }

  lemma XorByte(a: bv32, b: bv32)
    requires a < 256 && b < 256
    ensures a ^ b < 256
  {
  }

  lemma CharCodeByte(c: char)
    requires (c as int) < 256
    ensures CharCode(c) < 256
  {
  }

  /** Over 8-bit characters the checksum is exactly two upper-case hex
      digits. */
  lemma ChecksumTwoDigits(sentence: string)
    requires forall i :: 0 <= i < |sentence| ==> (sentence[i] as int) < 256
    ensures |Checksum(sentence)| == 2
  {
    var data := ChecksumData(sentence);
    assert forall i :: 0 <= i < |data| ==> data[i] in sentence;
    XorCodesByte(data);
  }

  /** `validateChecksum`: false without '*'; otherwise the two characters
      after the first '*' must equal the computed checksum exactly. */
  function ValidateChecksum(sentence: string): (ok: bool)
    ensures '*' !in sentence ==> !ok
    ensures ok ==> IndexOf(sentence, '*') >= 0
    ensures ok ==> Substring(sentence, IndexOf(sentence, '*') + 1, IndexOf(sentence, '*') + 3) == Checksum(sentence)
    ensures ok ==> forall i :: IndexOf(sentence, '*') < i <= IndexOf(sentence, '*') + 2 ==>
                      0 <= i < |sentence| && sentence[i] in HexDigits
  {
    var checksumIndex := IndexOf(sentence, '*');
    if checksumIndex == -1 then false
    else
      var provided := Substring(sentence, checksumIndex + 1, checksumIndex + 3);
      var calculated := Checksum(sentence);
      if provided == calculated then
        assert |provided| >= 2;
        assert forall i :: checksumIndex < i <= checksumIndex + 2 ==>
          sentence[i] == provided[i - checksumIndex - 1];
        true
      else false
  }

  /** The comparison is case-sensitive: a lower-case hex digit after '*'
      never validates. */
  lemma ValidateChecksumCaseSensitive(sentence: string, i: int)
    requires IndexOf(sentence, '*') < i <= IndexOf(sentence, '*') + 2
    requires 0 <= i < |sentence| && 'a' <= sentence[i] <= 'f'
    ensures !ValidateChecksum(sentence)
  {
    LowerNotHex(sentence[i]);
  }

  lemma LowerNotHex(c: char)
    requires 'a' <= c <= 'f'
    ensures c !in HexDigits
  {
    forall j | 0 <= j < |HexDigits|
      ensures HexDigits[j] != c
    {
      assert HexDigits[j] <= 'F';
    }
  }
}
