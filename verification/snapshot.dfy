/**
 * What the host shows the recorder: a per-frame snapshot of the observed
 * player (its units, cumulative resources, supply and scores) and the unit
 * handed to each lifecycle callback. The host's accessors become fields.
 */
module Snapshot {
  import opened Wrappers

  /** A map position as the host reports it. */
  datatype Position = Position(x: int, y: int)

  /** One friendly unit as `onFrame` reads it (TM/TM.hpp:172-183). */
  datatype UnitState = UnitState(
    id: int,
    order: int,                // getOrder().getID()
    targetPosition: Position,  // getTargetPosition()
    target: Option<int>)       // getTarget()->getID(), None when there is no target

  /** Gathered and spent minerals and gas: cumulative values or their differences. */
  datatype Resources = Resources(mineralsGathered: int, mineralsSpent: int, gasGathered: int, gasSpent: int)

  const NoResources := Resources(0, 0, 0, 0)

  function Plus(a: Resources, b: Resources): Resources {
    Resources(a.mineralsGathered + b.mineralsGathered, a.mineralsSpent + b.mineralsSpent,
              a.gasGathered + b.gasGathered, a.gasSpent + b.gasSpent)
  }

  function Minus(a: Resources, b: Resources): Resources {
    Resources(a.mineralsGathered - b.mineralsGathered, a.mineralsSpent - b.mineralsSpent,
              a.gasGathered - b.gasGathered, a.gasSpent - b.gasSpent)
  }

  /** Building, kill, razing and unit score. */
  datatype Scores = Scores(building: int, kill: int, razing: int, unit: int)

  /** The host state one `onFrame` call reads. */
  datatype FrameSnapshot = FrameSnapshot(
    frame: nat,              // getFrameCount()
    units: seq<UnitState>,   // self()->getUnits(), in iteration order
    resources: Resources,    // cumulative gathered and spent minerals and gas
    supplyUsed: int,
    supplyTotal: int,
    scores: Scores)

  /** The host never reports two units with one id in a frame. */
  predicate DistinctIds(units: seq<UnitState>) {
    forall i, j :: 0 <= i < j < |units| ==> units[i].id != units[j].id
  }

  predicate HasId(units: seq<UnitState>, id: int) {
    exists i :: 0 <= i < |units| && units[i].id == id
  }

  /** Owner kinds; the recorder only distinguishes `PlayerTypes::Player`. */
  datatype PlayerType = Player | OtherPlayerType(code: int)

  /** The unit handed to a lifecycle callback, with its host-rendered text. */
  datatype UnitInfo = UnitInfo(
    id: int,
    typeName: string,       // getType().getName()
    positionText: string,   // getPosition() as the host prints it
    ownedBySelf: bool,      // getPlayer() == self()
    ownerType: PlayerType)  // getPlayer()->getType()
}
