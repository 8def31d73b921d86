/**
 * The recorder's state and what each host callback does to it, as functions
 * of the state before the callback and the host snapshot it reads. The class
 * in manager.dfy carries the same state in fields and is proved to follow
 * these functions; the lemmas here are the properties of the recorder.
 */
module Session {
  import opened Wrappers
  import opened Snapshot
  import opened ActionTracker
  import opened UnitEvents
  import opened Results

  datatype WinReason = Eliminated | Crash
  datatype Winner = Self | Enemy

  /** The time limit, read once from the environment (TM/TM.hpp:76); zero or less means none. */
  datatype Config = Config(timeOutAtFrame: int)

  /** Frames per reporting window. */
  const WindowLength: nat := 24

  /** One row of the frame-time log, without its two timing columns. */
  datatype FrameRow = FrameRow(
    frameCount: int,
    numActions: int,
    delta: Resources,     // gathered and spent minerals and gas during the window
    supplyUsed: int,
    supplyTotal: int)

  datatype State = State(
    winReason: WinReason,
    winner: Winner,
    timedOut: bool,
    scores: Scores,
    numActions: int,
    baseline: Resources,       // cumulative resources at the end of the previous window
    tables: CommandTables,
    streamsOpen: bool,         // both logs opened by onReset
    frameRows: seq<FrameRow>,  // rows written to the frame-time log
    eventLines: seq<string>,   // lines written to the unit-event log, header first
    leaveRequested: bool,      // leaveGame() was called
    resultsWritten: seq<string>) // records written to the results file; each replaces the file, so the last is its content

  /** The constructor's values (TM/TM.hpp:79-80); no log is open yet. */
  const Init := State(Crash, Enemy, false, Scores(0, 0, 0, 0), 0, NoResources, EmptyTables, false, [], [], false, [])

  /** The results record of a fresh manager. */
  const InitRecord: string := ResultsText(SummaryOf(Init))

  /** A record written to the results file. */
  function RecordWritten(s: State, record: string): State {
    s.(resultsWritten := s.resultsWritten + [record])
  }

  /** Both logs opened afresh and the unit-event header written. */
  function LogsOpened(s: State): State {
    s.(streamsOpen := true, frameRows := [], eventLines := [UnitEventsHeader])
  }

  /**
   * `onReset` (TM/TM.hpp:92-101). The statement `TournamentModuleManager();`
   * builds a temporary with the constructor's values and destroys it at once;
   * its destructor writes the temporary's results record, the record of
   * `Init`. No field of the recorder itself is reset. Then the two logs are
   * opened afresh and the unit-event header is written.
   */
  function ResetStep(s: State): State {
    LogsOpened(RecordWritten(s, InitRecord))
  }

  /** The destructor (TM/TM.hpp:85-91): the results record of the state is written. */
  function TeardownStep(s: State): State {
    RecordWritten(s, ResultsText(SummaryOf(s)))
  }

  predicate TimeoutReached(config: Config, frame: nat) {
    config.timeOutAtFrame > 0 && frame >= config.timeOutAtFrame
  }

  /** The last frame of a window, when the row is written. */
  predicate IsWindowEnd(frame: nat) {
    frame % WindowLength == WindowLength - 1
  }

  /** `onFrame` (TM/TM.hpp:148-209) without its wall-clock timing. */
  function FrameStep(config: Config, s: State, snap: FrameSnapshot): State {
    if TimeoutReached(config, snap.frame) then
      s.(timedOut := true, leaveRequested := true)
    else
      var scan := Scan(s.tables, snap.units);
      var counted := s.numActions + scan.0;
      if IsWindowEnd(snap.frame) then
        var row := FrameRow(snap.frame + 1, counted, Minus(snap.resources, s.baseline), snap.supplyUsed, snap.supplyTotal);
        s.(scores := snap.scores, tables := scan.1,
           frameRows := if s.streamsOpen then s.frameRows + [row] else s.frameRows,
           numActions := 0, baseline := snap.resources)
      else
        s.(scores := snap.scores, tables := scan.1, numActions := counted)
  }

  /** `onEnd` (TM/TM.hpp:143-146). */
  function EndStep(s: State, didWin: bool): State {
    s.(winReason := Eliminated, winner := if didWin && !s.timedOut then Self else Enemy)
  }

  /** The `onUnit*` callbacks and `logUnitEvent` (TM/TM.hpp:211-261). */
  function UnitEventStep(s: State, e: UnitEvent, u: UnitInfo, frame: nat): State {
    if Logged(e, u) && s.streamsOpen then
      s.(eventLines := s.eventLines + [EventLine(EventRowOf(e, u, frame))])
    else
      s
  }

  /** The frames of a session, one `onFrame` after another. */
  function Run(config: Config, s: State, snaps: seq<FrameSnapshot>): State
    decreases |snaps|
  {
    if snaps == [] then s else FrameStep(config, Run(config, s, snaps[..|snaps| - 1]), snaps[|snaps| - 1])
  }

  /** What `writeResults` reports about a state (TM/TM.hpp:132-138). */
  function SummaryOf(s: State): Summary {
    Summary(s.winner == Self, s.winReason == Crash, s.timedOut,
            s.scores.building, s.scores.kill, s.scores.razing, s.scores.unit)
  }

  /** The deltas of a run of rows, added up. */
  function SumDeltas(rows: seq<FrameRow>): Resources
    decreases |rows|
  {
    if rows == [] then NoResources else Plus(SumDeltas(rows[..|rows| - 1]), rows[|rows| - 1].delta)
  }

  // ---------------------------------------------------------------------
  // Session outcome

  /** The constructor's outcome: a crash and a loss, no timeout, zero scores. */
  lemma InitialOutcome()
    ensures SummaryOf(Init) == Summary(false, true, false, 0, 0, 0, 0)
  {
  }

  /** After `onEnd` the record is never a crash, and it is a win exactly when the game was won before any timeout. */
  lemma EndOutcome(s: State, didWin: bool)
    ensures !SummaryOf(EndStep(s, didWin)).isCrashed
    ensures SummaryOf(EndStep(s, didWin)).isWinner <==> didWin && !s.timedOut
    ensures SummaryOf(EndStep(s, didWin)).timedOut == s.timedOut
  {
  }

  /** Frames change neither the outcome fields nor the results file: only `onEnd` sets the outcome. */
  lemma {:induction false} RunKeepsOutcome(config: Config, s: State, snaps: seq<FrameSnapshot>)
    ensures var r := Run(config, s, snaps);
      r.winReason == s.winReason && r.winner == s.winner && r.resultsWritten == s.resultsWritten
    decreases |snaps|
  {
    if snaps != [] {
      RunKeepsOutcome(config, s, snaps[..|snaps| - 1]);
    }
  }

  /**
   * Every `onReset` writes the record of a crashed, lost, untimed session with
   * zero scores, whatever the session so far.
   */
  lemma ResetRecordsCrash(s: State)
    ensures var r := ResetStep(s);
      && |r.resultsWritten| == |s.resultsWritten| + 1
      && r.resultsWritten[..|s.resultsWritten|] == s.resultsWritten
      && ParseResults(r.resultsWritten[|s.resultsWritten|]) == Some(Summary(false, true, false, 0, 0, 0, 0))
  {
    ResultsRoundTrip(SummaryOf(Init));
    assert InitRecord == ResultsText(SummaryOf(Init));
  }

  /** The destructor writes a record that reads back as the session's outcome and scores. */
  lemma TeardownRecordsOutcome(s: State)
    ensures var r := TeardownStep(s);
      && |r.resultsWritten| == |s.resultsWritten| + 1
      && r.resultsWritten[..|s.resultsWritten|] == s.resultsWritten
      && ParseResults(r.resultsWritten[|s.resultsWritten|]) == Some(SummaryOf(s))
      && r == s.(resultsWritten := r.resultsWritten)
  {
    ResultsRoundTrip(SummaryOf(s));
  }

  /**
   * A session stopped after `onReset` and any frames, before the destructor
   * runs, leaves the results file reading as a crash and a loss, whether or
   * not `onEnd` was reached: `onEnd` writes nothing.
   */
  lemma UndestroyedSessionReadsAsCrash(config: Config, s: State, snaps: seq<FrameSnapshot>, didWin: bool)
    ensures var r := Run(config, ResetStep(s), snaps);
      && |r.resultsWritten| > 0
      && ParseResults(r.resultsWritten[|r.resultsWritten| - 1]) == Some(Summary(false, true, false, 0, 0, 0, 0))
    ensures var e := EndStep(Run(config, ResetStep(s), snaps), didWin);
      && |e.resultsWritten| > 0
      && ParseResults(e.resultsWritten[|e.resultsWritten| - 1]) == Some(Summary(false, true, false, 0, 0, 0, 0))
  {
    ResetRecordsCrash(s);
    RunKeepsOutcome(config, ResetStep(s), snaps);
  }

  /** Once timed out, a session stays timed out whatever frames follow. */
  lemma {:induction false} TimedOutPersists(config: Config, s: State, snaps: seq<FrameSnapshot>)
    requires s.timedOut
    ensures Run(config, s, snaps).timedOut
    decreases |snaps|
  {
    if snaps != [] {
      TimedOutPersists(config, s, snaps[..|snaps| - 1]);
    }
  }

  /**
   * A frame at or past the limit, followed by any frames and then a reported
   * victory, still records the enemy as winner and the session as timed out.
   */
  lemma TimeoutOverridesVictory(config: Config, s: State, snaps: seq<FrameSnapshot>, i: nat)
    requires i < |snaps| && TimeoutReached(config, snaps[i].frame)
    ensures SummaryOf(EndStep(Run(config, s, snaps), true)) ==
            SummaryOf(Run(config, s, snaps)).(isWinner := false, isCrashed := false, timedOut := true)
  {
    var before := Run(config, s, snaps[..i]);
    assert snaps[..i + 1][..i] == snaps[..i];
    assert Run(config, s, snaps[..i + 1]).timedOut;
    RunSplit(config, s, snaps[..i + 1], snaps[i + 1..]);
    assert snaps[..i + 1] + snaps[i + 1..] == snaps;
    TimedOutPersists(config, Run(config, s, snaps[..i + 1]), snaps[i + 1..]);
  }

  /** Running two stretches of frames is running them one after the other. */
  lemma {:induction false} RunSplit(config: Config, s: State, first: seq<FrameSnapshot>, second: seq<FrameSnapshot>)
    ensures Run(config, s, first + second) == Run(config, Run(config, s, first), second)
    decreases |second|
  {
    if second == [] {
      assert first + second == first;
    } else {
      var n := |second|;
      assert (first + second)[..|first + second| - 1] == first + second[..n - 1];
      RunSplit(config, s, first, second[..n - 1]);
    }
  }

  // ---------------------------------------------------------------------
  // One frame

  /**
   * A frame at or past a configured limit marks the session timed out and asks
   * the host to leave, and changes nothing else: no score, table, counter,
   * baseline or row.
   */
  lemma TimeoutFrame(config: Config, s: State, snap: FrameSnapshot)
    requires TimeoutReached(config, snap.frame)
    ensures FrameStep(config, s, snap) == s.(timedOut := true, leaveRequested := true)
  {
  }

  /** A frame before any limit: what it counts, stores and writes. */
  lemma FrameEffect(config: Config, s: State, snap: FrameSnapshot)
    requires !TimeoutReached(config, snap.frame)
    requires DistinctIds(snap.units)
    ensures var r := FrameStep(config, s, snap);
      && r.scores == snap.scores
      && r.winReason == s.winReason && r.winner == s.winner && r.timedOut == s.timedOut
      && r.eventLines == s.eventLines && r.streamsOpen == s.streamsOpen
      && r.leaveRequested == s.leaveRequested && r.resultsWritten == s.resultsWritten
      && (forall i :: 0 <= i < |snap.units| ==> Recorded(s.tables, r.tables, snap.units[i]))
      && (forall k :: !HasId(snap.units, k) ==> At(r.tables, k) == At(s.tables, k))
      && (IsWindowEnd(snap.frame) ==> r.numActions == 0 && r.baseline == snap.resources)
      && (!IsWindowEnd(snap.frame) ==>
            r.numActions == s.numActions + CountIssued(s.tables, snap.units) && r.baseline == s.baseline)
  {
    var r := FrameStep(config, s, snap);
    ScanCount(s.tables, snap.units);
    forall i | 0 <= i < |snap.units| ensures Recorded(s.tables, r.tables, snap.units[i]) {
      ScanRecords(s.tables, snap.units, i);
    }
    forall k | !HasId(snap.units, k) ensures At(r.tables, k) == At(s.tables, k) {
      ScanElsewhere(s.tables, snap.units, k);
    }
  }

  /**
   * A frame writes a row exactly when it ends a window (and the log is open).
   * The row's frame count is a multiple of the window length, its action
   * count is everything counted since the previous row, and its deltas are
   * the cumulative resources less the baseline.
   */
  lemma FrameRowWritten(config: Config, s: State, snap: FrameSnapshot)
    requires DistinctIds(snap.units)
    ensures var r := FrameStep(config, s, snap);
      var written := !TimeoutReached(config, snap.frame) && IsWindowEnd(snap.frame) && s.streamsOpen;
      && |r.frameRows| == |s.frameRows| + (if written then 1 else 0)
      && r.frameRows[..|s.frameRows|] == s.frameRows
      && (written ==>
            var row := r.frameRows[|s.frameRows|];
            && row.frameCount == snap.frame + 1
            && row.frameCount > 0 && row.frameCount % WindowLength == 0
            && row.numActions == s.numActions + CountIssued(s.tables, snap.units)
            && row.delta == Minus(snap.resources, s.baseline)
            && row.supplyUsed == snap.supplyUsed && row.supplyTotal == snap.supplyTotal)
  {
    if !TimeoutReached(config, snap.frame) {
      ScanCount(s.tables, snap.units);
    }
  }

  /** Seeing the same units twice in a row adds no actions on the second frame. */
  lemma RepeatedFrameCountsNothing(config: Config, s: State, snap: FrameSnapshot, next: FrameSnapshot)
    requires !TimeoutReached(config, snap.frame) && !TimeoutReached(config, next.frame)
    requires DistinctIds(snap.units) && next.units == snap.units
    requires !IsWindowEnd(next.frame)
    ensures var r := FrameStep(config, s, snap);
      FrameStep(config, r, next).numActions == r.numActions
  {
    RepeatedFrameAddsNothing(s.tables, snap.units);
  }

  /**
   * When the repeated frame ends a window instead, the row it writes counts
   * exactly the actions counted up to the first frame.
   */
  lemma RepeatedFrameClosesWindow(config: Config, s: State, snap: FrameSnapshot, next: FrameSnapshot)
    requires !TimeoutReached(config, snap.frame) && !TimeoutReached(config, next.frame)
    requires DistinctIds(snap.units) && next.units == snap.units
    requires !IsWindowEnd(snap.frame) && IsWindowEnd(next.frame) && s.streamsOpen
    ensures var r := FrameStep(config, s, snap);
      var t := FrameStep(config, r, next);
      && |t.frameRows| == |r.frameRows| + 1
      && t.frameRows[|r.frameRows|].numActions == r.numActions
  {
    RepeatedFrameAddsNothing(s.tables, snap.units);
  }

  // ---------------------------------------------------------------------
  // Whole sessions

  lemma WindowCountStep(n: nat)
    ensures (n + 1) / WindowLength == n / WindowLength + (if n % WindowLength == WindowLength - 1 then 1 else 0)
  {
    var q, r := n / 24, n % 24;
    assert n == 24 * q + r;
    if r == 23 {
      assert n + 1 == 24 * (q + 1);
    } else {
      assert n + 1 == 24 * q + (r + 1) && r + 1 < 24;
    }
  }

  /**
   * With no time limit and the logs open, frames 0 to n-1 write one row per
   * complete window: n / 24 rows, none for a trailing partial window.
   */
  lemma {:induction false} RowCount(config: Config, s: State, snaps: seq<FrameSnapshot>)
    requires config.timeOutAtFrame <= 0 && s.streamsOpen
    requires forall i :: 0 <= i < |snaps| ==> snaps[i].frame == i
    ensures Run(config, s, snaps).streamsOpen
    ensures |Run(config, s, snaps).frameRows| == |s.frameRows| + |snaps| / WindowLength
    decreases |snaps|
  {
    if snaps != [] {
      var n := |snaps| - 1;
      var p := snaps[..n];
      assert forall i :: 0 <= i < |p| ==> p[i].frame == i by {
        forall i | 0 <= i < |p| ensures p[i].frame == i {
          assert p[i] == snaps[i];
        }
      }
      RowCount(config, s, p);
      WindowCountStep(n);
    }
  }

  /**
   * Window deltas telescope: the deltas of all rows a run writes add up to the
   * change of the baseline over the run, so no gathered or spent resource is
   * lost or counted twice between windows.
   */
  lemma {:induction false} DeltasTelescope(config: Config, s: State, snaps: seq<FrameSnapshot>)
    requires s.streamsOpen
    ensures var r := Run(config, s, snaps);
      && r.streamsOpen
      && |r.frameRows| >= |s.frameRows| && r.frameRows[..|s.frameRows|] == s.frameRows
      && SumDeltas(r.frameRows[|s.frameRows|..]) == Minus(r.baseline, s.baseline)
    decreases |snaps|
  {
    var m := |s.frameRows|;
    if snaps == [] {
      assert s.frameRows[m..] == [];
    } else {
      var prev := Run(config, s, snaps[..|snaps| - 1]);
      var snap := snaps[|snaps| - 1];
      DeltasTelescope(config, s, snaps[..|snaps| - 1]);
      var r := FrameStep(config, prev, snap);
      if !TimeoutReached(config, snap.frame) && IsWindowEnd(snap.frame) {
        var row := r.frameRows[|r.frameRows| - 1];
        assert r.frameRows == prev.frameRows + [row];
        assert r.frameRows[m..] == prev.frameRows[m..] + [row];
        assert (prev.frameRows[m..] + [row])[..|prev.frameRows[m..]|] == prev.frameRows[m..];
      }
    }
  }

  /** Every row ever written starts at a window boundary. */
  predicate RowsAligned(s: State) {
    forall i :: 0 <= i < |s.frameRows| ==> s.frameRows[i].frameCount > 0 && s.frameRows[i].frameCount % WindowLength == 0
  }

  lemma {:induction false} RunKeepsRowsAligned(config: Config, s: State, snaps: seq<FrameSnapshot>)
    requires RowsAligned(s)
    ensures RowsAligned(Run(config, s, snaps))
    decreases |snaps|
  {
    if snaps != [] {
      RunKeepsRowsAligned(config, s, snaps[..|snaps| - 1]);
    }
  }

  // ---------------------------------------------------------------------
  // Unit events and reset

  /**
   * A lifecycle callback writes one line exactly when its filter passes and
   * the log is open, and that line reads back as the frame number, event
   * name, ownership, id, type and position of the unit.
   */
  lemma UnitEventLogged(s: State, e: UnitEvent, u: UnitInfo, frame: nat)
    requires ',' !in u.typeName
    ensures var r := UnitEventStep(s, e, u, frame);
      && (Logged(e, u) && s.streamsOpen ==>
            && |r.eventLines| == |s.eventLines| + 1
            && r.eventLines[..|s.eventLines|] == s.eventLines
            && ParseEventLine(r.eventLines[|s.eventLines|])
               == Some(EventRow(frame + 1, EventName(e), u.ownedBySelf, u.id, u.typeName, u.positionText))
            && r == s.(eventLines := r.eventLines))
      && (!(Logged(e, u) && s.streamsOpen) ==> r == s)
  {
    EventLineRoundTrip(EventRowOf(e, u, frame));
  }

  /**
   * `onReset` clears none of the counters, tables or outcome fields; it
   * reopens the logs and writes one record to the results file.
   */
  lemma ResetKeepsSession(s: State)
    ensures var r := ResetStep(s);
      && r.winReason == s.winReason && r.winner == s.winner && r.timedOut == s.timedOut
      && r.scores == s.scores && r.numActions == s.numActions && r.baseline == s.baseline
      && r.tables == s.tables && r.streamsOpen
      && r.frameRows == [] && r.eventLines == [UnitEventsHeader]
      && r.leaveRequested == s.leaveRequested
      && |r.resultsWritten| == |s.resultsWritten| + 1
  {
  }

  // ---------------------------------------------------------------------
  // A worked example

  lemma {:induction false} NoUnitsNoActions(config: Config, s: State, snaps: seq<FrameSnapshot>)
    requires s.numActions == 0
    requires forall i :: 0 <= i < |snaps| ==> snaps[i].units == []
    ensures Run(config, s, snaps).numActions == 0
    decreases |snaps|
  {
    if snaps != [] {
      var p := snaps[..|snaps| - 1];
      assert forall i :: 0 <= i < |p| ==> p[i].units == [] by {
        forall i | 0 <= i < |p| ensures p[i].units == [] {
          assert p[i] == snaps[i];
        }
      }
      NoUnitsNoActions(config, s, p);
    }
  }

  /**
   * Frames 0 to 23 of a fresh session without units, whose gathered minerals
   * reach 500 on frame 23, write exactly one row: frame count 24, no
   * actions, 500 minerals gathered.
   */
  lemma FirstWindowExample(config: Config, snaps: seq<FrameSnapshot>)
    requires config.timeOutAtFrame <= 0
    requires |snaps| == WindowLength
    requires forall i :: 0 <= i < |snaps| ==> snaps[i].frame == i && snaps[i].units == []
    requires snaps[23].resources.mineralsGathered == 500
    ensures var r := Run(config, ResetStep(Init), snaps);
      && |r.frameRows| == 1
      && r.frameRows[0].frameCount == 24
      && r.frameRows[0].numActions == 0
      && r.frameRows[0].delta.mineralsGathered == 500
  {
    var s := ResetStep(Init);
    var p := snaps[..23];
    assert forall i :: 0 <= i < |p| ==> p[i].frame == i && p[i].units == [] by {
      forall i | 0 <= i < |p| ensures p[i].frame == i && p[i].units == [] {
        assert p[i] == snaps[i];
      }
    }
    RowCount(config, s, p);
    DeltasTelescope(config, s, p);
    NoUnitsNoActions(config, s, p);
    var prev := Run(config, s, p);
    assert prev.frameRows == [];
    assert prev.frameRows[0..] == [];
    assert prev.baseline == NoResources;
  }
}
