/**
 * Unit lifecycle events (TM/TM.hpp:211-261): which callbacks are written to
 * the unit-event log, and the line `logUnitEvent` writes for one of them.
 */
module UnitEvents {
  import opened Wrappers
  import opened Text
  import opened Snapshot

  datatype UnitEvent =
    | UnitComplete
    | UnitCreate
    | UnitDestroy
    | UnitMorph
    | UnitRenegade
    | UnitShow
    | UnitHide

  /** The event-name literal each callback passes to `logUnitEvent`. */
  function EventName(e: UnitEvent): (name: string)
    ensures |name| > 0 && ',' !in name && '\n' !in name
  {
    match e
    case UnitComplete => "unitComplete"
    case UnitCreate => "unitCreate"
    case UnitDestroy => "unitDestroy"
    case UnitMorph => "unitMorph"
    case UnitRenegade => "unitRenegade"
    case UnitShow => "unitShow"
    case UnitHide => "unitHide"
  }

  /**
   * The early returns of the callbacks: completion and creation need an owner
   * of type Player, showing and hiding also need an owner other than the
   * observed player, and destruction, morphing and renegade are always kept.
   */
  predicate Logged(e: UnitEvent, u: UnitInfo) {
    match e
    case UnitComplete => u.ownerType == Player
    case UnitCreate => u.ownerType == Player
    case UnitShow => !u.ownedBySelf && u.ownerType == Player
    case UnitHide => !u.ownedBySelf && u.ownerType == Player
    case _ => true
  }

  /** Units of neutral, rescue, observer or other non-Player owners only appear when they end or change. */
  lemma NonPlayerOwnersOnlyOnChange(e: UnitEvent, u: UnitInfo)
    requires u.ownerType != Player
    ensures Logged(e, u) <==> e in {UnitDestroy, UnitMorph, UnitRenegade}
  {
  }

  /** The observed player's own units never appear as shown or hidden. */
  lemma OwnUnitsNeverShownOrHidden(u: UnitInfo)
    requires u.ownedBySelf
    ensures !Logged(UnitShow, u) && !Logged(UnitHide, u)
  {
  }

  /** One row of the unit-event log. */
  datatype EventRow = EventRow(
    frameNumber: int,
    eventType: string,
    playerOwned: bool,
    unitId: int,
    unitType: string,
    unitPosition: string)

  const UnitEventsHeader := "frame_number,event_type,player_owned,unit_id,unit_type,unit_position\n"

  /** The row `logUnitEvent` writes for `u` at frame `frame`. */
  function EventRowOf(e: UnitEvent, u: UnitInfo, frame: nat): EventRow {
    EventRow(frame + 1, EventName(e), u.ownedBySelf, u.id, u.typeName, u.positionText)
  }

  /** The closing field: the position text between double quotes, then a newline. */
  function QuotedLast(text: string): string {
    "\"" + text + "\"" + "\n"
  }

  function UnquoteLast(quoted: string): Option<string> {
    if |quoted| >= 3 && quoted[0] == '"' && quoted[|quoted| - 2..] == "\"\n" then
      Some(quoted[1..|quoted| - 2])
    else
      None
  }

  lemma UnquoteQuoted(text: string)
    ensures UnquoteLast(QuotedLast(text)) == Some(text)
  {
    var q := QuotedLast(text);
    assert q[|q| - 2..] == "\"\n";
    assert q[1..|q| - 2] == text;
  }

  /** The row as text: five comma-terminated fields, then the position in double quotes and a newline. */
  function EventLine(r: EventRow): string {
    CommaFields(
      [IntToString(r.frameNumber), r.eventType, BoolName(r.playerOwned), IntToString(r.unitId), r.unitType],
      QuotedLast(r.unitPosition))
  }

  /** Reads a line written by `EventLine` back into its row. */
  function ParseEventLine(line: string): Option<EventRow> {
    var split :- SplitFields(line, 5);
    var fields := split.0;
    if |fields| != 5 then None
    else
      var frame :- ParseInt(fields[0]);
      var owned :- ParseBool(fields[2]);
      var id :- ParseInt(fields[3]);
      var position :- UnquoteLast(split.1);
      Some(EventRow(frame, fields[1], owned, id, fields[4], position))
  }

  /**
   * A line written for a row whose event name and unit type hold no comma
   * reads back as that row: the row loses nothing, whatever the position text.
   */
  lemma EventLineRoundTrip(r: EventRow)
    requires ',' !in r.eventType && ',' !in r.unitType
    ensures ParseEventLine(EventLine(r)) == Some(r)
  {
    var fields := [IntToString(r.frameNumber), r.eventType, BoolName(r.playerOwned), IntToString(r.unitId), r.unitType];
    SplitCommaFields(fields, QuotedLast(r.unitPosition));
    UnquoteQuoted(r.unitPosition);
    IntRoundTrip(r.frameNumber);
    IntRoundTrip(r.unitId);
    BoolRoundTrip(r.playerOwned);
  }
}
