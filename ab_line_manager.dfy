/** The two-step A/B line capture of src/components/ABLineManager.tsx:
    "Create Line" opens the form, "Set Point A" records the current
    position, "Set Point B" hands both points and the name to the
    application's create-line handler, and "Cancel" abandons the capture. */
module AbLineManager {
  import opened Wrappers
  import opened JsString
  import opened JsNumber
  import opened GpsTypes

  /** One call of `onCreateLine(pointA, pointB, name)`. */
  datatype CreateRequest = CreateRequest(pointA: Position, pointB: Position, name: string)

  /** The capture button shown in the form. */
  datatype PointButton = SetPointA | SetPointB

  /** The toggle button of a row in the line list. */
  datatype RowToggle = Activate | Deactivate

  /** The suggested name of the next line, `Line ${count + 1}`. */
  function DefaultName(lineCount: nat): string {
    "Line " + NatToString(lineCount + 1)
  }

  /** "Create Line" is disabled without a position or during a capture. */
  function CreateDisabled(currentPosition: Option<Position>, isCreating: bool): bool {
    currentPosition.None? || isCreating
  }

  /** "Set Point A" until A is captured, then "Set Point B". */
  function PointButtonShown(pointA: Option<Position>): (b: PointButton)
    ensures b == SetPointA <==> pointA.None?
  {
    if pointA.None? then SetPointA else SetPointB
  }

  /** The active line's row offers Deactivate, every other row Activate;
      each row also offers Delete. */
  function RowToggleShown(lineId: string, activeLineId: Option<string>): (t: RowToggle)
    ensures t == Deactivate <==> activeLineId == Some(lineId)
  {
    if activeLineId == Some(lineId) then Deactivate else Activate
  }

  /** At most one row of a list with distinct ids offers Deactivate. */
  lemma OneDeactivate(lines: seq<ABLine>, activeLineId: Option<string>, i: nat, j: nat)
    requires i < |lines| && j < |lines|
    requires lines[i].id != lines[j].id
    ensures RowToggleShown(lines[i].id, activeLineId) == Activate ||
            RowToggleShown(lines[j].id, activeLineId) == Activate
  {
  }

  class AbLineManager {
    var isCreating: bool
    var pointA: Option<Position>
    var newLineName: string
    /** The calls made to `onCreateLine`, in order. */
    var requests: seq<CreateRequest>

    constructor()
      ensures !isCreating && pointA == None && newLineName == "" && requests == []
    {
      isCreating := false;
      pointA := None;
      newLineName := "";
      requests := [];
    }

    /** The "Create Line" button (clickable only when enabled). */
    method StartCreation(currentPosition: Option<Position>)
      requires !CreateDisabled(currentPosition, isCreating)
      modifies this`isCreating
      ensures isCreating
    {
      isCreating := true;
    }

    /** Editing the name field. */
    method Rename(name: string)
      modifies this`newLineName
      ensures newLineName == name
    {
      newLineName := name;
    }

    /** `handleSetPointA`: without a position nothing happens; otherwise A
        is the position and the name is reset to the next default. */
    method HandleSetPointA(currentPosition: Option<Position>, lineCount: nat)
      modifies this`pointA, this`newLineName
      ensures currentPosition.None? ==> pointA == old(pointA) && newLineName == old(newLineName)
      ensures currentPosition.Some? ==> pointA == currentPosition && newLineName == DefaultName(lineCount)
    {
      if currentPosition.Some? {
        pointA := currentPosition;
        newLineName := DefaultName(lineCount);
      }
    }

    /** `handleSetPointB`: with a position and a captured A, exactly one
        line is requested from A to the position, and the capture resets;
        otherwise nothing happens. */
    method HandleSetPointB(currentPosition: Option<Position>)
      modifies this
      ensures currentPosition.Some? && old(pointA).Some? ==>
        && requests == old(requests) + [CreateRequest(old(pointA).value, currentPosition.value, old(newLineName))]
        && !isCreating && pointA == None && newLineName == ""
      ensures !(currentPosition.Some? && old(pointA).Some?) ==>
        requests == old(requests) && isCreating == old(isCreating) &&
        pointA == old(pointA) && newLineName == old(newLineName)
    {
      if currentPosition.Some? && pointA.Some? {
        requests := requests + [CreateRequest(pointA.value, currentPosition.value, newLineName)];
        isCreating := false;
        pointA := None;
        newLineName := "";
      }
    }

    /** `cancelCreation`: the capture resets and no line is requested. */
    method CancelCreation()
      modifies this`isCreating, this`pointA, this`newLineName
      ensures !isCreating && pointA == None && newLineName == ""
    {
      isCreating := false;
      pointA := None;
      newLineName := "";
    }
  }

  /** A full capture: starting at rest, A at one position and B at another
      request exactly the line between them under the default name. */
  method CaptureLine(m: AbLineManager, a: Position, b: Position, lineCount: nat)
    requires !m.isCreating && m.pointA == None
    modifies m
    ensures m.requests == old(m.requests) + [CreateRequest(a, b, DefaultName(lineCount))]
    ensures !m.isCreating && m.pointA == None && m.newLineName == ""
  {
    m.StartCreation(Some(a));
    m.HandleSetPointA(Some(a), lineCount);
    m.HandleSetPointB(Some(b));
  }

  /** Default names differ for different list lengths. */
  lemma DefaultNamesDistinct(n1: nat, n2: nat)
    requires n1 != n2
    ensures DefaultName(n1) != DefaultName(n2)
  {
    NatToStringValue(n1 + 1);
    NatToStringValue(n2 + 1);
    var prefix := "Line ";
    assert DefaultName(n1)[|prefix|..] == NatToString(n1 + 1);
    assert DefaultName(n2)[|prefix|..] == NatToString(n2 + 1);
  }
}
