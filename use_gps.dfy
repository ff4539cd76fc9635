/** The fix aggregator of the `useGPS` hook (src/hooks/useGPS.ts): it splits
    each received frame into NMEA sentences, drops sentences whose checksum
    fails, turns valid GGA fixes into positions and caches the velocity of
    the latest RMC sentence for the next position. */
module UseGps {
  import opened Wrappers
  import opened JsString
  import opened NmeaParser
  import opened GpsTypes

  /** The hook's state cells together with the velocity cache
      (`lastPositionRef.current`, `{}` being `None`). */
  datatype ReceiverState = ReceiverState(
    currentPosition: Option<Fix>,
    isConnected: bool,
    error: Option<string>,
    satelliteCount: int,
    fixQuality: int,
    hdop: real,
    lastVelocity: Option<Velocity>)

  /** The state before any data or status arrived. */
  const Initial: ReceiverState := ReceiverState(None, false, None, 0, 0, 0.0, None)

  /** `data.split('\n').filter(line => line.trim().length > 0)`. */
  function NonBlank(lines: seq<string>): (kept: seq<string>)
    ensures |kept| <= |lines|
  {
    if lines == [] then []
    else
      var init := NonBlank(lines[..|lines| - 1]);
      var last := lines[|lines| - 1];
      if |Trim(last)| > 0 then init + [last] else init
  }

  /** The sentences of a frame, in arrival order, before trimming. */
  function Sentences(data: string): seq<string> {
    NonBlank(Split(data, '\n'))
  }

  /** A position as the hook builds it from a GGA sentence (the `GPSPosition`
      of lines 58-65). A coordinate is `None` when its field decoded to NaN,
      which `isValid` does not exclude. */
  datatype Fix = Fix(
    latitude: Option<real>,
    longitude: Option<real>,
    altitude: Option<real>,
    speed: Option<real>,
    heading: Option<real>,
    timestamp: int)

  /** The fix as a position of the guidance engine, when both coordinates
      are numbers. */
  function AsPosition(f: Fix): (p: Option<Position>)
    ensures p.Some? <==> f.latitude.Some? && f.longitude.Some?
    ensures p.Some? ==> Some(p.value.latitude) == f.latitude && Some(p.value.longitude) == f.longitude
  {
    if f.latitude.Some? && f.longitude.Some? then
      Some(Position(f.latitude.value, f.longitude.value, f.altitude, f.speed, f.heading, f.timestamp))
    else None
  }

  /** A fix position: coordinates and altitude from the GGA sentence, speed
      and heading from the cached RMC velocity or 0. */
  function FixPosition(d: NmeaData, cache: Option<Velocity>, now: int): Fix {
    Fix(
      d.latitude,
      d.longitude,
      Some(d.altitude),
      Some(if cache.Some? then cache.value.speed else 0.0),
      Some(if cache.Some? then cache.value.heading else 0.0),
      now)
  }

  /** What a trimmed sentence means to the aggregator. */
  datatype Line =
    | BadChecksum
    | Gga(fix: Option<NmeaData>)
    | Rmc(velocity: Option<Velocity>)
    | Other

  /** The checksum gate, then the GGA test before the RMC test. */
  function Classify(trimmed: string): Line {
    if Includes(trimmed, "*") && !ValidateChecksum(trimmed) then BadChecksum
    else if Includes(trimmed, "GGA") then Gga(ParseGga(trimmed))
    else if Includes(trimmed, "RMC") then Rmc(ParseRmc(trimmed))
    else Other
  }

  /** The sentences of a frame, each trimmed and classified. */
  function Classified(sentences: seq<string>): (lines: seq<Line>)
    ensures |lines| == |sentences|
  {
    seq(|sentences|, i requires 0 <= i < |sentences| => Classify(Trim(sentences[i])))
  }

  /** The effect of one sentence received at `now`: a GGA sentence whose
      `isValid` holds is applied, whatever its coordinates decoded to. */
  function Step(st: ReceiverState, line: Line, now: int): ReceiverState {
    match line
    case Gga(nmeaData) =>
      if nmeaData.Some? && nmeaData.value.isValid then
        var d := nmeaData.value;
        st.(currentPosition := Some(FixPosition(d, st.lastVelocity, now)),
            satelliteCount := d.satelliteCount,
            fixQuality := d.fixQuality,
            hdop := d.hdop,
            error := None)
      else st
    case Rmc(rmcData) =>
      if rmcData.Some? then st.(lastVelocity := rmcData) else st
    case _ => st
  }

  /** The corrected step: a GGA fix is applied only when both coordinates
      are numbers as well (`UsableFix`); everything else as `Step`. */
  function StepCorrected(st: ReceiverState, line: Line, now: int): ReceiverState {
    if line.Gga? && line.fix.Some? && !UsableFix(line.fix.value) then st
    else Step(st, line, now)
  }

  /** The receiver holds no position, or one whose coordinates are numbers. */
  predicate Numeric(st: ReceiverState) {
    st.currentPosition.Some? ==> AsPosition(st.currentPosition.value).Some?
  }

  /** The sentences processed in order. */
  function Run(st: ReceiverState, lines: seq<Line>, now: int): ReceiverState {
    if lines == [] then st
    else Step(Run(st, lines[..|lines| - 1], now), lines[|lines| - 1], now)
  }

  class GpsReceiver {
    var currentPosition: Option<Fix>
    var isConnected: bool
    var error: Option<string>
    var satelliteCount: int
    var fixQuality: int
    var hdop: real
    /** `lastPositionRef.current`. */
    var lastVelocity: Option<Velocity>

    function State(): ReceiverState
      reads this
    {
      ReceiverState(currentPosition, isConnected, error, satelliteCount, fixQuality, hdop, lastVelocity)
    }

    constructor()
      ensures State() == Initial
    {
      currentPosition := None;
      isConnected := false;
      error := None;
      satelliteCount := 0;
      fixQuality := 0;
      hdop := 0.0;
      lastVelocity := None;
    }

    /** `processNMEAData(data)`; every position it emits is stamped `now`. */
    method ProcessNmeaData(data: string, now: int)
      modifies this
      ensures State() == Run(old(State()), Classified(Sentences(data)), now)
    {
      var sentences := NonBlank(Split(data, '\n'));
      ghost var lines := Classified(sentences);
      for i := 0 to |sentences|
        invariant State() == Run(old(State()), lines[..i], now)
      {
        RunStep(old(State()), lines, i, now);
        var trimmed := Trim(sentences[i]);
        assert lines[i] == Classify(trimmed);
        HandleSentence(trimmed, now);
      }
      assert lines[..|sentences|] == lines;
    }

    /** The body of the `forEach` over the sentences of a frame. */
    method HandleSentence(trimmed: string, now: int)
      modifies this
      ensures State() == Step(old(State()), Classify(trimmed), now)
    {
      ClassifyChecksum(trimmed);
      if Includes(trimmed, "*") && !ValidateChecksum(trimmed) {
        IncludesChar(trimmed, '*');
        return;
      }
      IncludesChar(trimmed, '*');
      ClassifyOrder(trimmed);
      if Includes(trimmed, "GGA") {
        var nmeaData := ParseGga(trimmed);
        HandleFix(nmeaData, now);
      } else if Includes(trimmed, "RMC") {
        var rmcData := ParseRmc(trimmed);
        HandleVelocity(rmcData, now);
      }
    }

    /** A decoded RMC sentence: a parsed velocity replaces the cache. */
    method HandleVelocity(rmcData: Option<Velocity>, now: int)
      modifies this
      ensures State() == Step(old(State()), Rmc(rmcData), now)
    {
      if rmcData.Some? {
        lastVelocity := rmcData;
      }
    }

    /** A decoded GGA sentence: a fix whose `isValid` holds updates the state. */
    method HandleFix(nmeaData: Option<NmeaData>, now: int)
      modifies this
      ensures State() == Step(old(State()), Gga(nmeaData), now)
    {
      if nmeaData.Some? && nmeaData.value.isValid {
        var d := nmeaData.value;
        currentPosition := Some(FixPosition(d, lastVelocity, now));
        satelliteCount := d.satelliteCount;
        fixQuality := d.fixQuality;
        hdop := d.hdop;
        error := None;
      }
    }

    /** The status handler: the connection flag as reported, and the error
        message when a non-empty one is given, otherwise none. */
    method OnStatus(connected: bool, errorMsg: Option<string>)
      modifies this
      ensures isConnected == connected
      ensures error == (if errorMsg.Some? && errorMsg.value != "" then errorMsg else None)
      ensures currentPosition == old(currentPosition) && lastVelocity == old(lastVelocity)
      ensures satelliteCount == old(satelliteCount) && fixQuality == old(fixQuality) && hdop == old(hdop)
    {
      isConnected := connected;
      if errorMsg.Some? && errorMsg.value != "" {
        error := errorMsg;
      } else {
        error := None;
      }
    }
  }

  // ---------------------------------------------------------------------
  // Properties of the aggregator

  /** The kept lines are exactly the non-blank ones. */
  lemma {:induction false} NonBlankMembers(lines: seq<string>)
    ensures forall l :: l in NonBlank(lines) <==> l in lines && |Trim(l)| > 0
  {
    if lines != [] {
      var init := lines[..|lines| - 1];
      NonBlankMembers(init);
      assert lines == init + [lines[|lines| - 1]];
    }
  }

  /** Processing two pieces one after the other is processing them joined. */
  lemma {:induction false} RunAppend(st: ReceiverState, a: seq<Line>, b: seq<Line>, now: int)
    ensures Run(st, a + b, now) == Run(Run(st, a, now), b, now)
    decreases |b|
  {
    if b != [] {
      var b' := b[..|b| - 1];
      assert (a + b)[..|a + b| - 1] == a + b';
      RunAppend(st, a, b', now);
    } else {
      assert a + b == a;
    }
  }

  lemma RunStep(st: ReceiverState, lines: seq<Line>, i: nat, now: int)
    requires i < |lines|
    ensures Run(st, lines[..i + 1], now) == Step(Run(st, lines[..i], now), lines[i], now)
  {
    assert lines[..i + 1][..i] == lines[..i];
  }

  /** A sentence with a '*' whose checksum fails is set aside, whatever
      else it contains; one without '*' is never checked. */
  lemma ClassifyChecksum(trimmed: string)
    ensures Classify(trimmed) == BadChecksum <==> '*' in trimmed && !ValidateChecksum(trimmed)
  {
    IncludesChar(trimmed, '*');
  }

  /** Past the checksum gate, "GGA" is tested before "RMC": a sentence
      holding both is a GGA sentence, one holding neither is ignored. */
  lemma ClassifyOrder(trimmed: string)
    requires '*' in trimmed ==> ValidateChecksum(trimmed)
    ensures Includes(trimmed, "GGA") ==> Classify(trimmed) == Gga(ParseGga(trimmed))
    ensures !Includes(trimmed, "GGA") && Includes(trimmed, "RMC") ==> Classify(trimmed) == Rmc(ParseRmc(trimmed))
    ensures !Includes(trimmed, "GGA") && !Includes(trimmed, "RMC") ==> Classify(trimmed) == Other
  {
    IncludesChar(trimmed, '*');
  }

  /** A GGA sentence: a fix whose `isValid` holds replaces the position
      (coordinates as decoded, NaN included), the three fix figures and
      clears the error; any other GGA leaves the whole state, fix quality
      included, as it was. The velocity cache and the connection flag are
      never touched. */
  lemma StepGga(st: ReceiverState, g: Option<NmeaData>, now: int)
    ensures var r := Step(st, Gga(g), now);
      if g.Some? && g.value.isValid then
        && r.currentPosition.Some?
        && r.currentPosition.value.latitude == g.value.latitude
        && r.currentPosition.value.longitude == g.value.longitude
        && r.currentPosition.value.altitude == Some(g.value.altitude)
        && r.currentPosition.value.timestamp == now
        && r.satelliteCount == g.value.satelliteCount
        && r.fixQuality == g.value.fixQuality
        && r.hdop == g.value.hdop
        && r.error.None?
        && r.lastVelocity == st.lastVelocity
        && r.isConnected == st.isConnected
      else r == st
  {
  }

  /** The position's speed and heading are the cached RMC values, or 0
      before any RMC sentence. */
  lemma FixPositionVelocity(d: NmeaData, cache: Option<Velocity>, now: int)
    ensures var p := FixPosition(d, cache, now);
      && (cache.Some? ==> p.speed == Some(cache.value.speed) && p.heading == Some(cache.value.heading))
      && (cache.None? ==> p.speed == Some(0.0) && p.heading == Some(0.0))
  {
  }

  /** As written, a valid-flagged fix with a NaN latitude becomes the
      current position, NaN and all; the corrected step leaves the state as
      it was. `NaNLatitudePasses` shows such a fix decodes from a sentence. */
  lemma NaNFixApplied(st: ReceiverState, d: NmeaData, now: int)
    requires d.isValid && d.latitude.None?
    ensures var r := Step(st, Gga(Some(d)), now);
      r.currentPosition.Some? && AsPosition(r.currentPosition.value).None? && !Numeric(r)
    ensures StepCorrected(st, Gga(Some(d)), now) == st
  {
  }

  /** The corrected step keeps every position numeric. */
  lemma CorrectedStepNumeric(st: ReceiverState, line: Line, now: int)
    requires Numeric(st)
    ensures Numeric(StepCorrected(st, line, now))
  {
  }

  /** On fixes whose coordinates are numbers the two steps agree. */
  lemma CorrectedStepAgrees(st: ReceiverState, line: Line, now: int)
    requires line.Gga? && line.fix.Some? ==> line.fix.value.latitude.Some? && line.fix.value.longitude.Some?
    ensures StepCorrected(st, line, now) == Step(st, line, now)
  {
  }

  /** An RMC sentence replaces the velocity cache and nothing else. */
  lemma StepRmc(st: ReceiverState, v: Option<Velocity>, now: int)
    ensures Step(st, Rmc(v), now) == if v.Some? then st.(lastVelocity := v) else st
  {
  }

  /** Set-aside and ignored sentences change nothing. */
  lemma StepIgnores(st: ReceiverState, now: int)
    ensures Step(st, BadChecksum, now) == st && Step(st, Other, now) == st
  {
  }

  /** Data never changes the connection flag, and the position only moves
      on a GGA sentence. */
  lemma {:induction false} RunKeepsConnection(st: ReceiverState, lines: seq<Line>, now: int)
    ensures Run(st, lines, now).isConnected == st.isConnected
    ensures Run(st, lines, now).currentPosition != st.currentPosition ==>
      exists k :: 0 <= k < |lines| && lines[k].Gga?
  {
    if lines != [] {
      var init := lines[..|lines| - 1];
      RunKeepsConnection(st, init, now);
      var mid := Run(st, init, now);
      var last := lines[|lines| - 1];
      if Run(st, lines, now).currentPosition != st.currentPosition {
        if Step(mid, last, now).currentPosition == mid.currentPosition {
          var k :| 0 <= k < |init| && init[k].Gga?;
          assert lines[k] == init[k];
        } else {
          assert last.Gga?;
        }
      }
    }
  }
}
