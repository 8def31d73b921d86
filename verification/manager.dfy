/**
 * `TournamentModuleManager` (TM/TM.hpp:78-282): the one recorder object the
 * host callbacks update in place. Its fields are the source's fields, its
 * methods the source's callbacks with the host's accessors turned into
 * parameters. `Abstract()` reads the fields as a `Session.State`, and every
 * method is proved to do what the matching step function of `Session` says.
 */
module Manager {
  import opened Wrappers
  import opened Text
  import opened Snapshot
  import opened ActionTracker
  import opened UnitEvents
  import opened Results
  import opened Session

  class TournamentModuleManager {
    const config: Config

    var winReason: WinReason
    var winner: Winner
    var timedOut: bool
    var buildingScore: int
    var killScore: int
    var razingScore: int
    var unitScore: int
    var numActions: int
    var mineralsGathered: int
    var mineralsSpent: int
    var gasGathered: int
    var gasSpent: int
    var lastCommandPosition: map<int, Position>
    var lastCommandTarget: map<int, int>
    var lastCommandType: map<int, int>
    var streamsOpen: bool
    var frametimes: seq<FrameRow>
    var unitEvents: seq<string>
    var leaveRequested: bool
    var resultsWritten: seq<string>

    ghost function Tables(): CommandTables
      reads this
    {
      CommandTables(lastCommandPosition, lastCommandTarget, lastCommandType)
    }

    /** The fields read as the recorder's state. */
    ghost function Abstract(): State
      reads this
    {
      State(winReason, winner, timedOut,
            Scores(buildingScore, killScore, razingScore, unitScore),
            numActions,
            Resources(mineralsGathered, mineralsSpent, gasGathered, gasSpent),
            Tables(), streamsOpen, frametimes, unitEvents, leaveRequested, resultsWritten)
    }

    constructor (config: Config)
      ensures this.config == config
      ensures Abstract() == Init
    {
      this.config := config;
      winReason, winner, timedOut := Crash, Enemy, false;
      buildingScore, killScore, razingScore, unitScore := 0, 0, 0, 0;
      numActions := 0;
      mineralsGathered, mineralsSpent, gasGathered, gasSpent := 0, 0, 0, 0;
      lastCommandPosition, lastCommandTarget, lastCommandType := map[], map[], map[];
      streamsOpen, frametimes, unitEvents, leaveRequested := false, [], [], false;
      resultsWritten := [];
    }

    /** The destructor (TM/TM.hpp:85-91): writes the results record of the current state. */
    method Destroy()
      modifies this`resultsWritten
      ensures Abstract() == TeardownStep(old(Abstract()))
    {
      var record := WriteResults();
      WriteRecord(record);
    }

    /** The results file is replaced by `record`. */
    method WriteRecord(record: string)
      modifies this`resultsWritten
      ensures Abstract() == RecordWritten(old(Abstract()), record)
    {
      resultsWritten := resultsWritten + [record];
    }

    /**
     * The record the temporary of `onReset` writes when it is destroyed: the
     * record of a fresh manager.
     */
    method TemporaryRecord() returns (record: string)
      ensures record == InitRecord
    {
      var temporary := new TournamentModuleManager(config);
      record := temporary.WriteResults();
    }

    /** Opens both logs and writes the unit-event header. */
    method OpenLogs()
      modifies this`streamsOpen, this`frametimes, this`unitEvents
      ensures Abstract() == LogsOpened(old(Abstract()))
    {
      streamsOpen := true;
      frametimes := [];
      unitEvents := [UnitEventsHeader];
    }

    /**
     * `onReset`: a temporary manager is built and destroyed, and its
     * destructor writes the constructor's record to the results file; no
     * field of this manager is reset. Then both logs are opened and the
     * unit-event header is written.
     */
    method OnReset()
      modifies this`resultsWritten, this`streamsOpen, this`frametimes, this`unitEvents
      ensures Abstract() == ResetStep(old(Abstract()))
    {
      var record := TemporaryRecord();
      WriteRecord(record);
      OpenLogs();
    }

    /** `onEnd`. */
    method OnEnd(didWin: bool)
      modifies this
      ensures Abstract() == EndStep(old(Abstract()), didWin)
    {
      winReason := Eliminated;
      winner := if didWin && !timedOut then Self else Enemy;
    }

    /** `onFrame`: timeout guard, scores, action detection, window row. */
    method OnFrame(snap: FrameSnapshot)
      modifies this
      ensures Abstract() == FrameStep(config, old(Abstract()), snap)
    {
      if config.timeOutAtFrame > 0 && snap.frame >= config.timeOutAtFrame {
        TimeOut();
        return;
      }
      RecordScores(snap.scores);
      DetectActions(snap.units);
      if snap.frame % 24 == 23 {
        CloseWindow(snap);
      }
    }

    /** The timeout branch of `onFrame` (TM/TM.hpp:149-153): flag the timeout and leave the game. */
    method TimeOut()
      modifies this`timedOut, this`leaveRequested
      ensures Abstract() == old(Abstract()).(timedOut := true, leaveRequested := true)
    {
      timedOut := true;
      leaveRequested := true;
    }

    /** The four scores read from the host (TM/TM.hpp:156-159). */
    method RecordScores(scores: Scores)
      modifies this`buildingScore, this`killScore, this`razingScore, this`unitScore
      ensures Abstract() == old(Abstract()).(scores := scores)
    {
      buildingScore, killScore := scores.building, scores.kill;
      razingScore, unitScore := scores.razing, scores.unit;
    }

    /** Action detection in `onFrame`: only the counter and the three tables change. */
    method DetectActions(units: seq<UnitState>)
      modifies this`lastCommandPosition, this`lastCommandTarget, this`lastCommandType, this`numActions
      ensures numActions == old(numActions) + Scan(old(Tables()), units).0
      ensures Tables() == Scan(old(Tables()), units).1
      ensures Abstract() == old(Abstract()).(numActions := numActions, tables := Tables())
    {
      ScanUnits(units);
    }

    /** The unit loop of `onFrame` (TM/TM.hpp:170-184). */
    method ScanUnits(units: seq<UnitState>)
      modifies this`lastCommandPosition, this`lastCommandTarget, this`lastCommandType, this`numActions
      ensures numActions == old(numActions) + Scan(old(Tables()), units).0
      ensures Tables() == Scan(old(Tables()), units).1
    {
      ghost var t0 := Tables();
      var i := 0;
      while i < |units|
        invariant 0 <= i <= |units|
        invariant Scan(t0, units[..i]).0 == numActions - old(numActions)
        invariant Scan(t0, units[..i]).1 == Tables()
      {
        var u := units[i];
        ghost var before, counted := Tables(), numActions;
        if u.id in lastCommandPosition {
          if || Lookup(lastCommandType, u.id) != u.order
             || u.targetPosition != lastCommandPosition[u.id]
             || (u.target.Some? && u.target.value != Lookup(lastCommandTarget, u.id))
          {
            numActions := numActions + 1;
          }
        }
        lastCommandPosition := lastCommandPosition[u.id := u.targetPosition];
        if u.target.Some? {
          lastCommandTarget := lastCommandTarget[u.id := u.target.value];
        }
        lastCommandType := lastCommandType[u.id := u.order];
        assert Tables() == Record(before, u);
        assert numActions == counted + if IssuedCommand(before, u) then 1 else 0;
        assert units[..i + 1][..i] == units[..i];
        i := i + 1;
      }
      assert units[..i] == units;
    }

    /** The end of a window: only the frame-time log, the counter and the baseline change. */
    method CloseWindow(snap: FrameSnapshot)
      modifies this`frametimes, this`numActions, this`mineralsGathered, this`mineralsSpent, this`gasGathered, this`gasSpent
      ensures Abstract() == old(Abstract()).(frameRows := frametimes, numActions := 0, baseline := snap.resources)
      ensures var row := FrameRow(snap.frame + 1, old(numActions), Minus(snap.resources, old(Abstract()).baseline),
                                  snap.supplyUsed, snap.supplyTotal);
              frametimes == if streamsOpen then old(frametimes) + [row] else old(frametimes)
    {
      WriteWindow(snap);
    }

    /** The window block of `onFrame` (TM/TM.hpp:186-208): write the row, reset the count, re-baseline. */
    method WriteWindow(snap: FrameSnapshot)
      modifies this`frametimes, this`numActions, this`mineralsGathered, this`mineralsSpent, this`gasGathered, this`gasSpent
      ensures var row := FrameRow(snap.frame + 1, old(numActions),
                                  Minus(snap.resources, Resources(old(mineralsGathered), old(mineralsSpent), old(gasGathered), old(gasSpent))),
                                  snap.supplyUsed, snap.supplyTotal);
              frametimes == if streamsOpen then old(frametimes) + [row] else old(frametimes)
      ensures numActions == 0
      ensures Resources(mineralsGathered, mineralsSpent, gasGathered, gasSpent) == snap.resources
    {
      var r := snap.resources;
      if streamsOpen {
        var delta := Resources(r.mineralsGathered - mineralsGathered, r.mineralsSpent - mineralsSpent,
                               r.gasGathered - gasGathered, r.gasSpent - gasSpent);
        frametimes := frametimes + [FrameRow(snap.frame + 1, numActions, delta, snap.supplyUsed, snap.supplyTotal)];
      }
      numActions := 0;
      mineralsGathered, mineralsSpent := r.mineralsGathered, r.mineralsSpent;
      gasGathered, gasSpent := r.gasGathered, r.gasSpent;
    }

    /** `logUnitEvent`: appends the event's line while the log is open. */
    method LogUnitEvent(u: UnitInfo, frame: nat, e: UnitEvent)
      modifies this
      ensures Abstract() == old(Abstract()).(eventLines :=
        if old(streamsOpen) then old(unitEvents) + [EventLine(EventRowOf(e, u, frame))] else old(unitEvents))
    {
      if streamsOpen {
        unitEvents := unitEvents + [EventLine(EventRow(frame + 1, EventName(e), u.ownedBySelf, u.id, u.typeName, u.positionText))];
      }
    }

    method OnUnitComplete(u: UnitInfo, frame: nat)
      modifies this
      ensures Abstract() == UnitEventStep(old(Abstract()), UnitComplete, u, frame)
    {
      if u.ownerType != Player {
        return;
      }
      LogUnitEvent(u, frame, UnitComplete);
    }

    method OnUnitCreate(u: UnitInfo, frame: nat)
      modifies this
      ensures Abstract() == UnitEventStep(old(Abstract()), UnitCreate, u, frame)
    {
      if u.ownerType != Player {
        return;
      }
      LogUnitEvent(u, frame, UnitCreate);
    }

    method OnUnitDestroy(u: UnitInfo, frame: nat)
      modifies this
      ensures Abstract() == UnitEventStep(old(Abstract()), UnitDestroy, u, frame)
    {
      LogUnitEvent(u, frame, UnitDestroy);
    }

    method OnUnitMorph(u: UnitInfo, frame: nat)
      modifies this
      ensures Abstract() == UnitEventStep(old(Abstract()), UnitMorph, u, frame)
    {
      LogUnitEvent(u, frame, UnitMorph);
    }

    method OnUnitRenegade(u: UnitInfo, frame: nat)
      modifies this
      ensures Abstract() == UnitEventStep(old(Abstract()), UnitRenegade, u, frame)
    {
      LogUnitEvent(u, frame, UnitRenegade);
    }

    method OnUnitShow(u: UnitInfo, frame: nat)
      modifies this
      ensures Abstract() == UnitEventStep(old(Abstract()), UnitShow, u, frame)
    {
      if u.ownedBySelf || u.ownerType != Player {
        return;
      }
      LogUnitEvent(u, frame, UnitShow);
    }

    method OnUnitHide(u: UnitInfo, frame: nat)
      modifies this
      ensures Abstract() == UnitEventStep(old(Abstract()), UnitHide, u, frame)
    {
      if u.ownedBySelf || u.ownerType != Player {
        return;
      }
      LogUnitEvent(u, frame, UnitHide);
    }

    /**
     * `writeResults`: the text of the results record, written line by line;
     * it is the record of the current state and reads back as its summary.
     */
    method WriteResults() returns (text: string)
      ensures text == ResultsText(SummaryOf(Abstract()))
      ensures ParseResults(text) == Some(SummaryOf(Abstract()))
    {
      text := "{\n";
      text := text + PrintVar("is_winner", BoolName(winner == Self), ",");
      text := text + PrintVar("is_crashed", BoolName(winReason == Crash), ",");
      text := text + PrintVar("timed_out", BoolName(timedOut), ",");
      text := text + PrintVar("building_score", IntToString(buildingScore), ",");
      text := text + PrintVar("kill_score", IntToString(killScore), ",");
      text := text + PrintVar("razing_score", IntToString(razingScore), ",");
      text := text + PrintVar("unit_score", IntToString(unitScore));
      text := text + "}";
      ResultsTextAsWritten(SummaryOf(Abstract()));
      ResultsRoundTrip(SummaryOf(Abstract()));
    }
  }
}
