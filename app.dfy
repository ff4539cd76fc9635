/** The application state of src/App.tsx: the list of A/B lines, the
    active line, the recorded path and the guidance shown, with the
    handlers and effects that update them. The receiver's outputs
    (position, connection flag, fix quality) are inputs of the effects;
    `Date.now()` is the parameter `now`. */
module App {
  import opened Wrappers
  import opened JsString
  import opened JsNumber
  import opened GpsTypes
  import opened GpsUtils

  /** `lines.find(line => line.id === id)`. */
  function FindLine(lines: seq<ABLine>, id: string): (found: Option<ABLine>)
  {
    if lines == [] then None
    else if lines[0].id == id then Some(lines[0])
    else FindLine(lines[1..], id)
  }

  /** `find` returns the first line with the id, and nothing exactly when
      no line has it. */
  lemma {:induction false} FindLineSpec(lines: seq<ABLine>, id: string)
    ensures FindLine(lines, id).None? <==> forall k :: 0 <= k < |lines| ==> lines[k].id != id
    ensures FindLine(lines, id).Some? ==>
      exists k :: 0 <= k < |lines| && lines[k] == FindLine(lines, id).value && lines[k].id == id &&
        forall j :: 0 <= j < k ==> lines[j].id != id
  {
    if lines != [] && lines[0].id != id {
      var rest := lines[1..];
      FindLineSpec(rest, id);
      if FindLine(rest, id).Some? {
        var k :| 0 <= k < |rest| && rest[k] == FindLine(rest, id).value && rest[k].id == id &&
          forall j :: 0 <= j < k ==> rest[j].id != id;
        assert lines[k + 1] == rest[k];
        assert forall j :: 1 <= j < k + 1 ==> lines[j] == rest[j - 1];
      }
      assert forall k :: 1 <= k < |lines| ==> lines[k] == rest[k - 1];
    } else if lines != [] {
      assert lines[0] == FindLine(lines, id).value;
    }
  }

  /** `lines.filter(line => line.id !== id)`. */
  function RemoveLine(lines: seq<ABLine>, id: string): (kept: seq<ABLine>)
    ensures |kept| <= |lines|
  {
    if lines == [] then []
    else
      var init := RemoveLine(lines[..|lines| - 1], id);
      var last := lines[|lines| - 1];
      if last.id != id then init + [last] else init
  }

  /** Exactly the lines with another id are kept. */
  lemma {:induction false} RemoveLineMembers(lines: seq<ABLine>, id: string)
    ensures forall l :: l in RemoveLine(lines, id) <==> l in lines && l.id != id
  {
    if lines != [] {
      var init := lines[..|lines| - 1];
      RemoveLineMembers(init, id);
      assert lines == init + [lines[|lines| - 1]];
    }
  }

  /** The filter keeps order: filtering two pieces one after the other is
      filtering them joined. */
  lemma {:induction false} RemoveLineAppend(a: seq<ABLine>, b: seq<ABLine>, id: string)
    ensures RemoveLine(a + b, id) == RemoveLine(a, id) + RemoveLine(b, id)
    decreases |b|
  {
    if b == [] {
      assert a + b == a;
    } else {
      var b' := b[..|b| - 1];
      assert (a + b)[..|a + b| - 1] == a + b';
      RemoveLineAppend(a, b', id);
    }
  }

  /** A list without the id is left as it is. */
  lemma {:induction false} RemoveLineAbsent(lines: seq<ABLine>, id: string)
    requires forall k :: 0 <= k < |lines| ==> lines[k].id != id
    ensures RemoveLine(lines, id) == lines
  {
    if lines != [] {
      RemoveLineAbsent(lines[..|lines| - 1], id);
    }
  }

  /** The guidance after the effect runs: computed on the closest pass of
      the active line when there is a position and the active id names a
      line; cleared without a position or an active id (the empty id is
      falsy and counts as none); otherwise left as it was. */
  function NextGuidance(host: Host, lines: seq<ABLine>, activeLineId: Option<string>, machineWidth: real,
                        currentPosition: Option<Position>, now: int, previous: Option<GuidanceData>): Option<GuidanceData>
  {
    if currentPosition.Some? && activeLineId.Some? && activeLineId.value != "" then
      match FindLine(lines, activeLineId.value)
      case Some(activeLine) =>
        Some(CrossTrack(host, currentPosition.value, ClosestLine(host, currentPosition.value, activeLine, machineWidth, now)))
      case None => previous
    else None
  }

  /** The guidance is never further from its pass than the vehicle is
      from the active line itself. */
  lemma GuidanceNoWorseThanActiveLine(host: Host, lines: seq<ABLine>, id: string, machineWidth: real,
                                      p: Position, now: int, previous: Option<GuidanceData>)
    requires id != "" && FindLine(lines, id).Some?
    ensures var g := NextGuidance(host, lines, Some(id), machineWidth, Some(p), now, previous);
      g.Some? && g.value.distanceToAB <= DistanceToLine(host, p, FindLine(lines, id).value)
  {
    var active := FindLine(lines, id).value;
    var best := ClosestLine(host, p, active, machineWidth, now);
    ClosestIsMinimal(host, p, active, machineWidth, now, 1);
    DistanceIsCrossTrack(host, p, best);
  }

  class AgriNavApp {
    var abLines: seq<ABLine>
    var activeLineId: Option<string>
    var pathPoints: seq<PathPoint>
    var guidanceData: Option<GuidanceData>
    /** Machine width in metres (3 m by default). */
    var machineWidth: real

    constructor()
      ensures abLines == [] && activeLineId == None && pathPoints == [] && guidanceData == None
      ensures machineWidth == 3.0
    {
      abLines := [];
      activeLineId := None;
      pathPoints := [];
      guidanceData := None;
      machineWidth := 3.0;
    }

    /** The guidance effect, run when the position, the active line, the
        lines or the width change. */
    method UpdateGuidance(host: Host, currentPosition: Option<Position>, now: int)
      modifies this`guidanceData
      ensures guidanceData ==
        NextGuidance(host, abLines, activeLineId, machineWidth, currentPosition, now, old(guidanceData))
    {
      if currentPosition.Some? && activeLineId.Some? && activeLineId.value != "" {
        var activeLine := FindLine(abLines, activeLineId.value);
        if activeLine.Some? {
          var closestLine, _ := FindClosestParallelLine(host, currentPosition.value, activeLine.value, machineWidth, now);
          guidanceData := Some(CrossTrack(host, currentPosition.value, closestLine));
        }
      } else {
        guidanceData := None;
      }
    }

    /** The path-recording effect: a treated point is appended while a
        position is known, the link is up and there is a fix. */
    method RecordPath(currentPosition: Option<Position>, isConnected: bool, fixQuality: int, now: int)
      modifies this`pathPoints
      ensures pathPoints == old(pathPoints) +
        (if currentPosition.Some? && isConnected && fixQuality > 0
         then [PathPoint(currentPosition.value, true, now)] else [])
    {
      if currentPosition.Some? && isConnected && fixQuality > 0 {
        pathPoints := pathPoints + [PathPoint(currentPosition.value, true, now)];
      }
    }

    /** `handleCreateLine`: one new line at the end, its id the creation
        instant in decimal. */
    method CreateLine(pointA: Position, pointB: Position, name: string, now: int)
      modifies this`abLines
      ensures abLines == old(abLines) + [ABLine(pointA, pointB, IntToString(now), name, now)]
    {
      var newLine := ABLine(pointA, pointB, IntToString(now), name, now);
      abLines := abLines + [newLine];
    }

    /** `handleDeleteLine`: every line with the id goes; the active line is
        cleared exactly when it was that id. */
    method DeleteLine(id: string)
      modifies this`abLines, this`activeLineId
      ensures abLines == RemoveLine(old(abLines), id)
      ensures activeLineId == if old(activeLineId) == Some(id) then None else old(activeLineId)
    {
      abLines := RemoveLine(abLines, id);
      if activeLineId == Some(id) {
        activeLineId := None;
      }
    }

    /** `handleActivateLine`: no check that a line has the id. */
    method ActivateLine(id: string)
      modifies this`activeLineId
      ensures activeLineId == Some(id)
    {
      activeLineId := Some(id);
    }

    method DeactivateLine()
      modifies this`activeLineId
      ensures activeLineId == None
    {
      activeLineId := None;
    }

    method ClearPathData()
      modifies this`pathPoints
      ensures pathPoints == []
    {
      pathPoints := [];
    }
  }

  /** Lines created at distinct instants get distinct ids. */
  lemma CreatedIdsDistinct(now1: int, now2: int)
    requires now1 != now2
    ensures IntToString(now1) != IntToString(now2)
  {
    IntToStringInjective(now1, now2);
  }
}
