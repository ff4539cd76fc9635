# AgriNavPro guidance core in Dafny

AgriNavPro is a tractor-guidance web application. It receives NMEA 0183
sentences from a GNSS receiver, over a WebSocket bridge, and turns them into
positions. It lets the driver record A/B reference lines, and it computes
steering guidance against the closest parallel pass of the active line.
This project models the logic of that application and proves properties of
the model:

- `nmea_parser.dfy`: the sentence decoder, covering the `*HH` XOR checksum
  and its validation, and the GGA, RMC and GSV sentences.
- `use_gps.dfy`: the fix aggregator of the `useGPS` hook. It is a class whose
  `ProcessNmeaData` loop splits a frame, applies the checksum gate, and
  dispatches GGA or RMC lines. It also caches the RMC velocity.
- `gps_utils.dfy`: the guidance engine. It covers bearing and heading-error
  normalisation, the cross-track relationships, and the arg-min search over
  parallel passes. It also holds coordinate and distance formatting.
- `tcp_gps_client.dfy`: the transport session. It is a class with the
  socket, timer and callback fields, the envelope routing, the reconnect
  timer and `disconnect`. It also holds the client-side checksum generator
  and its round trip with the decoder.
- `app.dfy` and `ab_line_manager.dfy`: the application state. This covers the
  line list, the guidance and path-recording effects, and the two-step A/B
  capture.
- `coverage_stats.dfy`, `map_guidance_view.dfy`, `satellite_map_view.dfy`,
  `enhanced_guidance_display.dfy` and `gps_status.dfy`: the statistics, the
  pass and treated-area generators, and the display classifiers.
- `wrappers.dfy`, `js_string.dfy` and `js_number.dfy`: the JavaScript
  built-ins the code relies on. These are `includes`, `indexOf`, `substring`,
  `split`, `trim`, the decimal prefix parsers `parseInt`/`parseFloat` and
  number-to-string. `gps_types.dfy` holds the records of `src/types/gps.ts`.

Modelling conventions:

- JavaScript `NaN` from a failed `parseInt`/`parseFloat` is `None`. The
  idiom `x || 0` maps `None` to 0.
- An optional position (`GPSPosition | null`) is `Option<Position>`. The
  receiver's own position is a `UseGps.Fix`, whose coordinates are
  `Option<real>`, because the hook stores a GGA fix whose coordinate decoded to
  NaN; `UseGps.AsPosition` turns it into a `Position` when both are numbers.
- `Date.now()` is a parameter `now`.
- Trigonometry is not modelled. This covers haversine distance, the `atan2`
  azimuth, `sin`/`cos` of degrees, and number rendering (`toFixed`,
  template-literal numbers). It all enters through the function fields of a
  `Host` value. Facts about it, such as the azimuth lying in
  [-180, 180], appear only as preconditions of the lemmas that need them.
- Callbacks are handles (numbers), and each callback invocation is
  recorded in order. Sockets and timers are numbered handles too.

## Model

| member | source | states |
|---|---|---|
| NmeaParser.Fields | src/utils/nmeaParser.ts:30 | the comma fields of the trimmed sentence; there is always a first field |
| NmeaParser.ParseGga | src/utils/nmeaParser.ts:30-35 | a GGA record is returned exactly when the first field contains "GGA" |
| NmeaParser.GgaDefaults | src/utils/nmeaParser.ts:42-45 | fix quality, satellite count, HDOP and altitude are the parsed field when it parses and 0 when it does not |
| NmeaParser.ConvertToDecimal | src/utils/nmeaParser.ts:48-49 | a missing field or one shorter than 4 characters gives 0 |
| NmeaParser.ConvertToDecimalSplit | src/utils/nmeaParser.ts:51-61 | otherwise the degrees are `parseInt` of the first 2 (latitude) or 3 (longitude) characters and the minutes `parseFloat` of the rest; the value is degrees + minutes/60, negated for S or W, and NaN when either part fails |
| NmeaParser.ConvertToDecimalExample | src/utils/nmeaParser.ts:48-62 | "4807.038",N is 48 + 7.038/60 |
| NmeaParser.ValidAsWritten | src/utils/nmeaParser.ts:75 | the `isValid` test as written: quality > 0 and neither coordinate equal to 0, which a NaN coordinate passes; `NaNLatitudePasses` shows one |
| NmeaParser.UsableFix | src/utils/nmeaParser.ts:75 | the corrected test, `isValid` and both coordinates numbers; `UsableFixMeaning` states what it accepts |
| NmeaParser.UsableFixMeaning | src/utils/nmeaParser.ts:75 | the corrected test accepts a decoded GGA iff its quality is > 0 and both coordinates are numbers different from 0 |
| NmeaParser.NaNLatitudePasses | src/utils/nmeaParser.ts:75 | as written, a latitude whose degree digits do not parse is NaN, and the validity test still accepts it |
| NmeaParser.ParseRmc | src/utils/nmeaParser.ts:85-89 | an RMC record is returned exactly when the first field contains "RMC" |
| NmeaParser.RmcFields | src/utils/nmeaParser.ts:91-96 | speed is field 7 times 0.514444 (knots to m/s) and heading is field 8, each 0 when it does not parse |
| NmeaParser.Groups | src/utils/nmeaParser.ts:119-120 | a GSV sentence has four satellite groups, at indices 4, 8, 12 and 16 |
| NmeaParser.GroupEntryFields | src/utils/nmeaParser.ts:120-135 | a group read in full gives id, elevation, azimuth and SNR from its four fields (0 when unparsable), used iff SNR > 0, and nothing for a zero or NaN id |
| NmeaParser.GroupEntryPresent | src/utils/nmeaParser.ts:121-127 | a group yields a satellite iff index + 3 is inside the sentence and its id parses to a non-zero number |
| NmeaParser.GroupsMembership | src/utils/nmeaParser.ts:127-135 | every satellite a group yields is in the result |
| NmeaParser.GroupsShape | src/utils/nmeaParser.ts:119-137 | at most four satellites, none with id 0, each used iff its SNR > 0 |
| NmeaParser.ParseGsv | src/utils/nmeaParser.ts:104-149 | a GSV record exactly when the first field contains "GSV"; its header figures default to 0 and its satellites are the groups' entries in order |
| NmeaParser.CollectSatellites | src/utils/nmeaParser.ts:116-137 | the loop pushes exactly the present groups, in group order |
| NmeaParser.ToHex | src/utils/nmeaParser.ts:159 | `toString(16).toUpperCase()` gives upper-case hex digits, one digit below 16 and two below 256 |
| NmeaParser.ChecksumText | src/utils/nmeaParser.ts:159 | the rendering is padded to at least two hex digits, exactly two for a byte |
| NmeaParser.ChecksumData | src/utils/nmeaParser.ts:153 | the codes of `substring(1, indexOf('*'))`: those between index 0 and the first '*', or the first character alone when '*' is missing or first; `CalculateChecksum` and `ValidateChecksum` state what is computed from it |
| NmeaParser.Checksum | src/utils/nmeaParser.ts:151-160 | the value of `calculateChecksum`; `ChecksumText`, `ChecksumTwoDigits` and `CalculateChecksum` state its form and its loop |
| NmeaParser.CalculateChecksum | src/utils/nmeaParser.ts:151-160 | the XOR loop yields the hex XOR of the codes of `substring(1, indexOf('*'))`, which is the first character alone when '*' is missing or first |
| NmeaParser.XorCodesByte | src/utils/nmeaParser.ts:155-157 | the XOR of 8-bit character codes is below 256 |
| NmeaParser.ChecksumTwoDigits | src/utils/nmeaParser.ts:151-160 | a sentence of 8-bit characters has a checksum of exactly two digits |
| NmeaParser.ValidateChecksum | src/utils/nmeaParser.ts:162-169 | false without '*'; when true, the two characters after the first '*' equal the computed checksum, so they are upper-case hex digits; `TcpGpsClient.ValidateAt` states the converse |
| NmeaParser.ValidateChecksumCaseSensitive | src/utils/nmeaParser.ts:166-169 | a lower-case hex digit after '*' always fails the comparison |
| UseGps.NonBlank | src/hooks/useGPS.ts:44 | the filter keeps at most the lines it is given |
| UseGps.NonBlankMembers | src/hooks/useGPS.ts:44 | the kept lines are exactly those whose trimmed text is non-empty |
| UseGps.Classified | src/hooks/useGPS.ts:46-47 | one classification per kept sentence, after trimming |
| UseGps.GpsReceiver.constructor | src/hooks/useGPS.ts:7-15 | no position, disconnected, no error, zero figures, empty velocity cache |
| UseGps.GpsReceiver.ProcessNmeaData | src/hooks/useGPS.ts:43-83 | the new state is the old one with every kept sentence of the frame applied in arrival order |
| UseGps.GpsReceiver.HandleSentence | src/hooks/useGPS.ts:46-82 | one trimmed sentence changes the state as its classification says |
| UseGps.GpsReceiver.HandleFix | src/hooks/useGPS.ts:55-72 | a decoded GGA whose `isValid` holds updates the state, NaN coordinates included; any other leaves it |
| UseGps.GpsReceiver.HandleVelocity | src/hooks/useGPS.ts:73-80 | a decoded RMC replaces the velocity cache |
| UseGps.GpsReceiver.OnStatus | src/hooks/useGPS.ts:27-34 | the connection flag is the reported one, the error is the message when a non-empty one is given and none otherwise, and nothing else changes |
| UseGps.RunAppend | src/hooks/useGPS.ts:46 | processing two runs of sentences in turn equals processing them joined |
| UseGps.ClassifyChecksum | src/hooks/useGPS.ts:50-53 | a sentence is set aside iff it has a '*' and fails validation; without '*' it is never checked |
| UseGps.ClassifyOrder | src/hooks/useGPS.ts:55-81 | past the gate, "GGA" is tested first, then "RMC"; a sentence with neither is ignored |
| UseGps.StepGga | src/hooks/useGPS.ts:55-72 | a fix whose `isValid` holds sets the position (coordinates as decoded, NaN included), satellite count, fix quality and HDOP and clears the error, leaving the cache and the flag; any other GGA leaves the whole state, fix quality included |
| UseGps.NaNFixApplied | src/hooks/useGPS.ts:57-67 | as written, a valid-flagged fix with a NaN latitude becomes the current position, which is then not a number pair; the corrected step ignores it |
| UseGps.StepCorrected | src/hooks/useGPS.ts:55-72 | the corrected step, applying a GGA fix only when `UsableFix` holds; `CorrectedStepNumeric` and `CorrectedStepAgrees` state its properties |
| UseGps.CorrectedStepNumeric | src/hooks/useGPS.ts:57-67 | under the corrected step a receiver whose position is a number pair keeps one |
| UseGps.CorrectedStepAgrees | src/hooks/useGPS.ts:55-72 | on every sentence but a GGA fix with a NaN coordinate the corrected step is the step as written |
| UseGps.FixPositionVelocity | src/hooks/useGPS.ts:58-65 | the position takes speed and heading from the cached RMC values, or 0 before any RMC |
| UseGps.StepRmc | src/hooks/useGPS.ts:73-80 | an RMC sentence replaces the velocity cache and nothing else |
| UseGps.StepIgnores | src/hooks/useGPS.ts:50-53 | set-aside and ignored sentences change nothing |
| UseGps.RunKeepsConnection | src/hooks/useGPS.ts:43-83 | data never changes the connection flag, and the position moves only if the frame has a GGA sentence |
| UseGps.AsPosition | src/hooks/useGPS.ts:58-65 | the emitted fix is a position of the guidance engine iff both coordinates are numbers, with the same coordinates |
| UseGps.FixPosition | src/hooks/useGPS.ts:58-65 | the fix built from a GGA record and the velocity cache; `FixPositionVelocity` and `StepGga` state its fields |
| UseGps.Classify | src/hooks/useGPS.ts:50-81 | the checksum gate, then the GGA test before the RMC test; `ClassifyChecksum` and `ClassifyOrder` state both directions |
| UseGps.Step | src/hooks/useGPS.ts:55-81 | the effect of one classified sentence; `StepGga`, `StepRmc` and `StepIgnores` state it case by case |
| UseGps.Run | src/hooks/useGPS.ts:46-82 | the sentences of a frame applied in order; `RunAppend` and `RunKeepsConnection` state its properties, `ProcessNmeaData` that the loop computes it |
| GpsUtils.JsModNonNegative | src/utils/gpsUtils.ts:28 | JavaScript `%` of a non-negative number by a positive modulus is the floor remainder, in [0, m) |
| GpsUtils.BearingRange | src/utils/gpsUtils.ts:27-28 | an azimuth in [-180, 180] becomes the same direction in [0, 360) |
| GpsUtils.NormalizeTurn | src/utils/gpsUtils.ts:51 | `% 360` of a value in [0, 720) lands in [0, 360) by subtracting at most one turn |
| GpsUtils.HeadingErrorRange | src/utils/gpsUtils.ts:50-52 | for heading and bearing in [0, 360), the heading error lies in (-180, 180] and differs from heading - bearing by at most a whole turn |
| GpsUtils.HeadingErrorExample | src/utils/gpsUtils.ts:51-52 | heading 10 against bearing 350 gives +20 |
| GpsUtils.CrossTrack | src/utils/gpsUtils.ts:54-59 | the distance to the line is non-negative, and on-track holds iff it is strictly below 0.5 m |
| GpsUtils.DistanceToLine | src/utils/gpsUtils.ts:110-120 | the distance to a line is non-negative |
| GpsUtils.DistanceIsCrossTrack | src/utils/gpsUtils.ts:110-120 | the distance to a line equals `distanceToAB`, which is the absolute cross-track error, and on-track iff it is below 0.5 |
| GpsUtils.CrossTrackHeading | src/utils/gpsUtils.ts:50-57 | with a heading in [0, 360) (missing counts as 0) and an azimuth in [-180, 180], the reported heading error lies in (-180, 180] |
| GpsUtils.ParallelIdInjective | src/utils/gpsUtils.ts:85 | distinct offsets give distinct `${id}_parallel_${i}` identifiers |
| GpsUtils.ShiftDeltasLinear | src/utils/gpsUtils.ts:77-82 | the latitude and longitude deltas are the offset `i * machineWidth` times fixed per-metre factors of the line |
| GpsUtils.ParallelLineShift | src/utils/gpsUtils.ts:84-98 | both endpoints move by the same deltas, so B - A is kept, and the creation time is copied |
| GpsUtils.Candidates | src/utils/gpsUtils.ts:70-75 | 21 lines are compared, the line itself first |
| GpsUtils.CandidateOrder | src/utils/gpsUtils.ts:74-77 | the pass at offset i is compared at a fixed position after the line, and a smaller offset is compared earlier |
| GpsUtils.FirstMinIndexSpec | src/utils/gpsUtils.ts:100-104 | the strict-< scan ends on a smallest distance, and every earlier candidate is strictly farther |
| GpsUtils.TieBreak | src/utils/gpsUtils.ts:101-104 | a candidate is never chosen when an earlier one is at most as far, so the line itself wins ties and -3 beats +3 |
| GpsUtils.FindClosestParallelLine | src/utils/gpsUtils.ts:62-108 | the loop returns the first closest candidate and its distance |
| GpsUtils.ClosestIsMinimal | src/utils/gpsUtils.ts:70-107 | the distance returned is at most the distance to the line and to every pass at offsets -10..10 without 0 |
| GpsUtils.WholeDegrees | src/utils/gpsUtils.ts:122-123 | the degrees are floor(\|coord\|) |
| GpsUtils.Minutes | src/utils/gpsUtils.ts:124 | the minutes lie in [0, 60) |
| GpsUtils.Direction | src/utils/gpsUtils.ts:125 | N (or E) iff coord >= 0, S (or W) iff coord < 0 |
| GpsUtils.FormatCoordinateFields | src/utils/gpsUtils.ts:121-128 | the text starts with the whole degrees, which `parseInt` reads back, and ends with the hemisphere letter |
| GpsUtils.FormatDistanceUnit | src/utils/gpsUtils.ts:130-135 | every distance ends in "m", and it ends in "km" iff it is at least 1000 m |
| GpsUtils.Bearing | src/utils/gpsUtils.ts:18-29 | `calculateBearing`, the azimuth reduced by `(+ 360) % 360`; `BearingRange` states its range |
| GpsUtils.HeadingError | src/utils/gpsUtils.ts:50-52 | the folded heading error; `HeadingErrorRange` and `HeadingErrorExample` state its range and a value |
| GpsUtils.CrossTrackDistance | src/utils/gpsUtils.ts:35-44 | the signed cross-track error; `CrossTrack` and `DistanceIsCrossTrack` relate it to the reported figures |
| GpsUtils.ParallelLine | src/utils/gpsUtils.ts:77-98 | the pass at offset `i`; `ParallelLineShift`, `ShiftDeltasLinear` and `ParallelIdInjective` state its shape |
| GpsUtils.FormatCoordinate | src/utils/gpsUtils.ts:121-128 | `formatCoordinate`; `FormatCoordinateFields` states its first and last fields |
| GpsUtils.FormatDistance | src/utils/gpsUtils.ts:130-135 | `formatDistance`; `FormatDistanceUnit` states its unit in both cases |
| TcpGpsClient.Route | src/services/tcpGpsClient.ts:28-40 | a message reaches at most one callback |
| TcpGpsClient.RouteCases | src/services/tcpGpsClient.ts:32-36 | an `nmea` envelope with string data goes to the data callback and a `status` envelope to the status callback with its flag and error; an `nmea` envelope without string data, any other type and unparsable JSON reach nobody |
| TcpGpsClient.RouteSources | src/services/tcpGpsClient.ts:32-36 | a data notice only carries an `nmea` envelope's data, and a status notice only comes from a `status` envelope |
| TcpGpsClient.TcpGpsClient.constructor | src/services/tcpGpsClient.ts:1-10 | a socket is opened at once; no timers or callbacks |
| TcpGpsClient.TcpGpsClient.Connect | src/services/tcpGpsClient.ts:12-21 | a new socket replaces the field and nothing else changes |
| TcpGpsClient.TcpGpsClient.OnOpen | src/services/tcpGpsClient.ts:23-26 | reports connected with no error, if a status callback is registered |
| TcpGpsClient.TcpGpsClient.OnMessage | src/services/tcpGpsClient.ts:28-40 | delivers exactly what routing prescribes |
| TcpGpsClient.TcpGpsClient.OnError | src/services/tcpGpsClient.ts:42-45 | reports disconnected with "WebSocket error" and schedules nothing |
| TcpGpsClient.TcpGpsClient.OnClose | src/services/tcpGpsClient.ts:47-51 | reports disconnected with "WebSocket connection closed" and leaves exactly one reconnect pending |
| TcpGpsClient.TcpGpsClient.ScheduleReconnect | src/services/tcpGpsClient.ts:129-138 | the pending timer is cleared and a new one becomes the only pending reconnect |
| TcpGpsClient.TcpGpsClient.TimerFired | src/services/tcpGpsClient.ts:134-137 | the reconnect timer opens a new socket, and no timer is left pending |
| TcpGpsClient.TcpGpsClient.OnData | src/services/tcpGpsClient.ts:140-142 | registering replaces the previous data callback |
| TcpGpsClient.TcpGpsClient.OnStatus | src/services/tcpGpsClient.ts:144-146 | registering replaces the previous status callback |
| TcpGpsClient.TcpGpsClient.Disconnect | src/services/tcpGpsClient.ts:148-165 | socket, reconnect timer and data interval become null, no timer is pending, and disconnected is reported with no error |
| TcpGpsClient.AtMostOneReconnect | src/services/tcpGpsClient.ts:129-137 | the invariant of the client keeps at most one reconnect timer pending |
| TcpGpsClient.DisconnectThenClose | src/services/tcpGpsClient.ts:148-152 | the close event of the socket `disconnect` closed still schedules a reconnect |
| TcpGpsClient.CalculateClientChecksum | src/services/tcpGpsClient.ts:118-127 | the loop yields the hex XOR of every character after the first |
| TcpGpsClient.ClientChecksumTwoDigits | src/services/tcpGpsClient.ts:118-127 | for 8-bit text the generated checksum has exactly two digits |
| TcpGpsClient.ValidateAt | src/utils/nmeaParser.ts:162-169 | the two characters after the first '*' matching the computed checksum make the sentence valid |
| TcpGpsClient.ChecksumRoundTrip | src/services/tcpGpsClient.ts:118-127 | a '$' sentence without '*' and of 8-bit characters, tagged with its generated checksum, passes the decoder's validation |
| TcpGpsClient.ClientChecksum | src/services/tcpGpsClient.ts:118-127 | the client's checksum over `substring(1)`; `CalculateClientChecksum`, `ClientChecksumTwoDigits` and `ChecksumRoundTrip` state its loop, form and round trip |
| App.FindLineSpec | src/App.tsx:36 | `find` returns the first line with the id, and nothing iff no line has it |
| App.RemoveLine | src/App.tsx:73 | the filter never lengthens the list |
| App.RemoveLineMembers | src/App.tsx:73 | exactly the lines with another id are kept |
| App.RemoveLineAppend | src/App.tsx:73 | the filter keeps the order of the lines |
| App.RemoveLineAbsent | src/App.tsx:73 | a list without the id is left as it is |
| App.GuidanceNoWorseThanActiveLine | src/App.tsx:34-46 | with a position and an active id naming a line, guidance is computed, and its distance is at most the distance to the active line itself |
| App.AgriNavApp.constructor | src/App.tsx:23-30 | no lines, no active line, no path, no guidance, width 3 m |
| App.AgriNavApp.UpdateGuidance | src/App.tsx:34-46 | guidance is cross-track on the closest pass when a position exists and the active id names a line, null without a position or active id, unchanged otherwise |
| App.AgriNavApp.RecordPath | src/App.tsx:49-59 | one treated point is appended, the earlier ones untouched, exactly when a position exists, the link is up and fix quality > 0 |
| App.AgriNavApp.CreateLine | src/App.tsx:61-70 | exactly one line is appended, its id the creation instant in decimal |
| App.AgriNavApp.DeleteLine | src/App.tsx:72-77 | every line with the id is removed, and the active id is cleared iff it was that id |
| App.AgriNavApp.ActivateLine | src/App.tsx:79-81 | the active id becomes the given id, with no existence check |
| App.AgriNavApp.DeactivateLine | src/App.tsx:83-85 | the active id becomes null |
| App.AgriNavApp.ClearPathData | src/App.tsx:87-89 | the path becomes empty |
| App.CreatedIdsDistinct | src/App.tsx:63 | lines created at distinct instants get distinct ids |
| App.FindLine | src/App.tsx:36 | `abLines.find`; `FindLineSpec` states that it returns the first match and nothing iff none matches |
| App.NextGuidance | src/App.tsx:34-46 | the guidance effect; `UpdateGuidance` and `GuidanceNoWorseThanActiveLine` state its three cases and its bound |
| AbLineManager.PointButtonShown | src/components/ABLineManager.tsx:75-89 | "Set Point A" iff A is not captured yet, otherwise "Set Point B" |
| AbLineManager.RowToggleShown | src/components/ABLineManager.tsx:122-138 | a row offers Deactivate iff its line is the active one |
| AbLineManager.OneDeactivate | src/components/ABLineManager.tsx:106-138 | of two rows with distinct ids at least one offers Activate |
| AbLineManager.AbLineManager.constructor | src/components/ABLineManager.tsx:24-26 | not creating, no point A, empty name |
| AbLineManager.AbLineManager.StartCreation | src/components/ABLineManager.tsx:54-56 | the enabled Create button starts a capture |
| AbLineManager.AbLineManager.Rename | src/components/ABLineManager.tsx:67-70 | the name field holds the typed text |
| AbLineManager.AbLineManager.HandleSetPointA | src/components/ABLineManager.tsx:28-33 | without a position nothing changes; otherwise A is the position and the name is "Line n+1" |
| AbLineManager.AbLineManager.HandleSetPointB | src/components/ABLineManager.tsx:35-42 | with a position and A captured, exactly one line from A to the position is requested and the capture resets; otherwise nothing changes |
| AbLineManager.AbLineManager.CancelCreation | src/components/ABLineManager.tsx:44-48 | the capture resets and no line is requested |
| AbLineManager.CaptureLine | src/components/ABLineManager.tsx:28-42 | Create, Set Point A and Set Point B request exactly the line between the two positions under the default name |
| AbLineManager.DefaultNamesDistinct | src/components/ABLineManager.tsx:31 | different list lengths give different default names |
| AbLineManager.DefaultName | src/components/ABLineManager.tsx:31 | `Line ${n + 1}`; `DefaultNamesDistinct` states that it is injective |
| AbLineManager.CreateDisabled | src/components/ABLineManager.tsx:56 | the Create button is disabled without a position or during a capture; `StartCreation` requires it enabled |
| CoverageStats.Treated | src/components/CoverageStats.tsx:15-16 | the treated points never outnumber the points |
| CoverageStats.Untreated | src/components/SatelliteMapView.tsx:65-66 | the untreated points never outnumber the points |
| CoverageStats.TreatedPartition | src/components/CoverageStats.tsx:15-16 | the treated points are exactly the points marked treated, and with the untreated ones they account for every point |
| CoverageStats.CoverageBounds | src/components/CoverageStats.tsx:17 | the percentage lies in [0, 100], and is 100 when every point is treated |
| CoverageStats.SessionTime | src/components/CoverageStats.tsx:19-21 | for a non-negative duration, whole hours and minutes 0..59 such that h:m is the duration rounded down to the minute |
| CoverageStats.AverageSpeedValue | src/components/CoverageStats.tsx:76 | for a positive duration the speed shown is 7200 × points / duration in ms (2 m per point, km/h) |
| CoverageStats.CoveragePercentage | src/components/CoverageStats.tsx:17 | the treated share in percent; `CoverageBounds` states its range |
| CoverageStats.Hours | src/components/CoverageStats.tsx:20 | floor of the duration in hours; `SessionTime` states it with the minutes |
| CoverageStats.MinutesPart | src/components/CoverageStats.tsx:21 | the minutes past the hour; `SessionTime` states their range and meaning |
| CoverageStats.ApproximateDistance | src/components/CoverageStats.tsx:24 | two metres per point; `AverageSpeedValue` states the speed derived from it |
| CoverageStats.AverageSpeedText | src/components/CoverageStats.tsx:76 | "0.0" until time has passed, otherwise the rendered speed; `AverageSpeedValue` states the value rendered |
| MapGuidanceView.ParallelLines | src/components/MapGuidanceView.tsx:52-89 | 2·count passes for a positive count, none otherwise |
| MapGuidanceView.PassOffsets | src/components/MapGuidanceView.tsx:57-58 | offsets run from -count to count in ascending order without 0 |
| MapGuidanceView.PassOffsetsCover | src/components/MapGuidanceView.tsx:57-58 | every offset in -count..count but 0 is generated |
| MapGuidanceView.ParallelLinesShape | src/components/MapGuidanceView.tsx:60-85 | passes have distinct `${id}_parallel_${i}` ids, the line's creation time and its direction B - A |
| MapGuidanceView.DrawnPassesAreCandidates | src/components/MapGuidanceView.tsx:133 | the twenty passes drawn are the twenty passes the guidance search compares |
| MapGuidanceView.GenerateParallelLines | src/components/MapGuidanceView.tsx:52-89 | the loop pushes exactly those passes in order |
| MapGuidanceView.BoxCentred | src/components/MapGuidanceView.tsx:99-105 | each box is centred on its point and one machine width tall in degrees |
| MapGuidanceView.Rectangles | src/components/MapGuidanceView.tsx:96-111 | one box per treated point |
| MapGuidanceView.GenerateTreatmentRectangles | src/components/MapGuidanceView.tsx:92-112 | the loop pushes a box for each treated point, in path order, and none for the others |
| MapGuidanceView.PassesShownCount | src/components/MapGuidanceView.tsx:132-133 | twenty passes are drawn iff the active id names a line, none otherwise |
| MapGuidanceView.RectanglesShown | src/components/MapGuidanceView.tsx:136 | no boxes while the treatment map is hidden |
| MapGuidanceView.ZoomIn | src/components/MapGuidanceView.tsx:143 | "+" adds one level below 20 and gives exactly 20 from 20 or above (`Math.min(prev + 1, 20)`) |
| MapGuidanceView.ZoomOut | src/components/MapGuidanceView.tsx:149 | "-" removes one level above 10 and gives exactly 10 from 10 or below (`Math.max(prev - 1, 10)`) |
| MapGuidanceView.ZoomStaysInRange | src/components/MapGuidanceView.tsx:124-149 | from the initial 18, any presses keep the zoom in [10, 20] |
| MapGuidanceView.Box | src/components/MapGuidanceView.tsx:99-105 | the box around one point; `BoxCentred` states its centre and height |
| MapGuidanceView.PassesShown | src/components/MapGuidanceView.tsx:132-133 | the passes drawn for the active line; `PassesShownCount` and `DrawnPassesAreCandidates` state their number and identity |
| SatelliteMapView.Center | src/components/SatelliteMapView.tsx:56-58 | the current position when there is one, otherwise 46.7629574, 6.5638699 |
| SatelliteMapView.Coordinates | src/components/SatelliteMapView.tsx:63 | one coordinate pair per point |
| SatelliteMapView.PathPartition | src/components/SatelliteMapView.tsx:61-67 | every point lies on the polyline of its kind, and the two lengths add up to the path length |
| SatelliteMapView.PolylinesShown | src/components/SatelliteMapView.tsx:118-128 | an empty path draws neither polyline; a treated point makes the treated one drawn |
| SatelliteMapView.StyleOf | src/components/SatelliteMapView.tsx:111-112 | blue and 4 px iff the line is the active one, grey and 2 px otherwise |
| EnhancedGuidanceDisplay.ErrorBand | src/components/EnhancedGuidanceDisplay.tsx:24-29 | bands \|e\| < 0.2, < 0.5 and the rest |
| EnhancedGuidanceDisplay.ColoursAgree | src/components/EnhancedGuidanceDisplay.tsx:24-36 | both colour functions follow the same bands and depend only on \|e\| |
| EnhancedGuidanceDisplay.SteeringDirection | src/components/EnhancedGuidanceDisplay.tsx:38-41 | straight iff \|e\| < 0.1, otherwise left iff e > 0, right iff e <= -0.1 |
| EnhancedGuidanceDisplay.HeadingLabel | src/components/EnhancedGuidanceDisplay.tsx:128-129 | ALIGNED iff \|h\| < 2, otherwise TURN LEFT iff h > 0 |
| EnhancedGuidanceDisplay.IndicatorPosition | src/components/EnhancedGuidanceDisplay.tsx:99 | the indicator stays in [2, 94] percent |
| EnhancedGuidanceDisplay.IndicatorMonotone | src/components/EnhancedGuidanceDisplay.tsx:99 | it moves right as the error grows, and is 50 + e·50/3 where the clamp does not bite |
| EnhancedGuidanceDisplay.OnTrackBadge | src/components/EnhancedGuidanceDisplay.tsx:57-60 | ON TRACK iff the guidance is on track |
| EnhancedGuidanceDisplay.BadgeMatchesBand | src/components/EnhancedGuidanceDisplay.tsx:57-60 | for computed guidance the badge reads ON TRACK iff the error is not in the red band |
| EnhancedGuidanceDisplay.ShowPlaceholder | src/components/EnhancedGuidanceDisplay.tsx:14 | `!guidance \|\| !isActive`: the placeholder replaces the whole display |
| EnhancedGuidanceDisplay.ErrorColor | src/components/EnhancedGuidanceDisplay.tsx:24-29 | `getErrorColor`; `ErrorBand` and `ColoursAgree` state its bands |
| EnhancedGuidanceDisplay.BackgroundColor | src/components/EnhancedGuidanceDisplay.tsx:31-36 | `getBackgroundColor`; `ColoursAgree` states that it follows the same bands |
| GpsStatus.FixQualityTable | src/components/GPSStatus.tsx:23-33 | codes 0..5 have six distinct names, none "Unknown", and every other code is "Unknown" |
| GpsStatus.FixQualityColour | src/components/GPSStatus.tsx:35-40 | bands >= 4, >= 2, >= 1 and the rest |
| GpsStatus.SignalColour | src/components/GPSStatus.tsx:42-47 | bands >= 8, >= 6, >= 4 and the rest |
| GpsStatus.ColoursMonotone | src/components/GPSStatus.tsx:35-47 | more quality or more satellites never gives a worse colour |
| GpsStatus.HdopColour | src/components/GPSStatus.tsx:95 | bands < 2, < 5 and the rest |
| GpsStatus.HdopMonotone | src/components/GPSStatus.tsx:95 | a larger HDOP never gives a better colour |
| GpsStatus.Figures | src/components/GPSStatus.tsx:19-21 | satellite count, fix quality and HDOP default to 0 when not supplied |
| GpsStatus.DefaultFigures | src/components/GPSStatus.tsx:19-21 | the defaults read "No Fix" in red, a red signal and a green HDOP |
| GpsStatus.FixQualityText | src/components/GPSStatus.tsx:23-33 | `getFixQualityText`; `FixQualityTable` states the six names and the fallback |

## Left out

- Trigonometry and geodesy are not modelled: the haversine distance, the `atan2` bearing, and `sin`/`cos`
  (src/utils/gpsUtils.ts:3-29). They are functions of a `Host` value, and
  no accuracy is claimed.
- Floating point is not modelled. Coordinates and metres are exact reals,
  so rounding, `Infinity` and `-0` do not occur. `NaN` is represented only in
  the decoder's output and in the receiver's `UseGps.Fix`.
- App.AgriNavApp.UpdateGuidance and App.AgriNavApp.RecordPath: the App effects
  and the views take positions whose coordinates are numbers. In the program, a
  valid-flagged fix with a NaN coordinate (the Findings row) still reaches them
  as a truthy position: the guidance effect computes NaN guidance from it, and
  path recording appends a treated point with NaN coordinates, which the
  coverage figures count and the map draws. The model does not follow that
  fix past the receiver (`UseGps.AsPosition` gives `None` for it).
- GpsUtils.LonOffset: when the cosine of the latitude is 0 (a pole), JavaScript
  divides by zero and yields `Infinity` or `NaN`. The model returns 0 there.
- JavaScript number rendering is not modelled: `toFixed`, `toString` of a
  number, and number interpolation in templates. These are `Host` functions.
- GpsUtils.FormatDistanceUnit: it assumes the rendered metre figure contains
  no letter 'k', which `toFixed` output never does.
- `parseInt`/`parseFloat` are decimal prefix parsers only. They have no
  hexadecimal prefix, no exponent, no "Infinity", and no Unicode spaces
  beyond the ASCII ones.
- Character codes are Dafny `char` values. Text outside the Basic
  Multilingual Plane is not modelled.
- `Date.now()` is a parameter `now`. Every position and pass built while
  handling one frame, effect or handler is stamped with the same instant.
  App.AgriNavApp.CreateLine, for one, uses that instant for both the id and
  `created`, where the program reads the clock twice (src/App.tsx:63 and 67).
- `JSON.parse` is the `Message` datatype, with `Malformed` for text that does
  not parse. An envelope's `connected` is modelled as a boolean and its
  `error` as an optional string.
- The WebSocket constructor throwing, and the catch branch of `connect`
  (src/services/tcpGpsClient.ts:53-56), are not modelled.
- `startSimulation` and `generateSimulatedNMEA` (src/services/tcpGpsClient.ts:59-116)
  are not part of this model. `dataInterval` is only ever cleared.
- React scheduling is not modelled: effect ordering and state-update
  batching. Each effect and handler is one method call.
- `connectToGPS` and `disconnect` of useGPS.ts only re-create or close the
  client; they are not modelled.
- JSX rendering, Leaflet maps, icons and the settings form are not modelled.
- gps_bridge.cjs is not part of this model (a byte relay).
- AbLineManager.AbLineManager.StartCreation: it requires the Create button to be
  enabled, because a disabled button cannot be clicked.
- NmeaParser.ValidateChecksum: its own `ensures` state that a true result means
  the two characters after the first '*' equal the computed checksum. The
  converse, that a matching checksum validates, is the lemma
  `TcpGpsClient.ValidateAt` rather than a clause of this function.

## Findings

| source | as written | input that shows it | evidently intended | confidence | as-written member | corrected member |
|---|---|---|---|---|---|---|
| src/utils/nmeaParser.ts:75 | `isValid` is `fixQuality > 0 && latitude !== 0 && longitude !== 0`, and `NaN !== 0` is true | GGA latitude field "ab07.038" with fix quality 1: the latitude is NaN and the fix is reported valid | a fix is valid, and reaches the receiver's position, only when both coordinates are numbers | not executed | NmeaParser.NaNLatitudePasses | UseGps.CorrectedStepNumeric |

The receiver class keeps the test as written: `UseGps.NaNFixApplied` shows
such a fix becoming its position. `UseGps.StepCorrected` is the step with the
corrected test.
