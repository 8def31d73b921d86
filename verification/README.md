# Tournament module recorder, modelled in Dafny

This project models `TournamentModuleManager` from `TM/TM.hpp` in a tournament module for
a StarCraft: Brood War bot. The host calls the manager through BWAPI callbacks. The manager
then does four things:

- It answers the host's action-authorisation hook (`onAction`).
- It keeps the session outcome: the win reason, the winner, a timeout flag and four scores.
- On every frame (`onFrame`) it checks the friendly units for newly issued commands. Every
  24 frames it writes a row of resource deltas to the frame-time log.
- It writes unit lifecycle events to the unit-event log (`onUnit*`, `logUnitEvent`). At the
  end it writes a brace-delimited results record (`writeResults`).

The host's state becomes an explicit input. A `Snapshot.FrameSnapshot` holds:

- the frame count;
- the friendly units, each with an id, an order id, a target position and an optional target id;
- the cumulative gathered and spent minerals and gas;
- supply used and supply total;
- the four scores.

A `Snapshot.UnitInfo` is the unit a lifecycle callback receives.

Files and modules:

- `wrappers.dfy` (`Wrappers`): `Option`.
- `text.dfy` (`Text`): integers as `operator<<` prints them, `BoolName`, splitting on commas
  and newlines, and the parsers that give each rendering its round trip.
- `authorization.dfy` (`Authorization`): `onAction`.
- `snapshot.dfy` (`Snapshot`): the host inputs.
- `tracker.dfy` (`ActionTracker`): the three command tables (`lastCommandPosition`,
  `lastCommandTarget`, `lastCommandType`) and `Scan`, the unit loop of `onFrame`.
- `unit_events.dfy` (`UnitEvents`): the callback filters and the event line with its parser.
- `results.dfy` (`Results`): the results record and its parser.
- `session.dfy` (`Session`): the recorder's state, one step function per callback and the
  properties of the recorder.
- `manager.dfy` (`Manager`): the class `TournamentModuleManager`. It has the source's
  fields, and each method is proved to do what its step function in `Session` says.

Behaviours of the code that the model keeps as written:

- `onReset` runs `TournamentModuleManager();`. The statement builds a temporary manager
  with the constructor's values and destroys it at once. Its destructor writes the
  temporary's results record: a crash, no win, no timeout and zero scores. No field of the
  manager itself is reset. So every `onReset` leaves a crash record in the results file,
  and a session stopped before the manager's own destructor runs still reads as a crash.
  `Session.ResetKeepsSession`, `Session.ResetRecordsCrash` and
  `Session.UndestroyedSessionReadsAsCrash` state this.
- A unit's stored target id changes only while the unit has a target. A frame without a
  target keeps the old id.
- A missing stored target id or order reads as 0 (`std::map::operator[]`). The entry that
  `operator[]` inserts at line 175 is never observable. The read happens only when the unit
  has a target, and lines 181-182 overwrite that entry straight away. So the model reads
  with a default and does not insert.
- The first window's baselines are the constructor's zeros.
- Before `onReset` opens the logs, nothing written to them arrives. The model tracks this
  with `streamsOpen`.
- The outcome fields start at `Crash`/`Enemy` and only `onEnd` changes them.
- Each results record replaces the results file. The model keeps every record written, in
  order, in `resultsWritten`; the last one is the file's content.

## Model

| member | source | states |
|---|---|---|
| Authorization.OnAction | TM/TM.hpp:103-126 | Enabling complete map information is denied. Enabling user input returns exactly the allow-user-input setting. Enabling any other flag is approved. A non-flag action is approved iff it is one of LeaveGame, SetLatCom, SetTextSize, SendText, Printf, SetCommandOptimizationLevel |
| Authorization.MapRevealNeverGranted | TM/TM.hpp:106-109 | Complete map information is refused under either setting |
| Authorization.UserInputSettingScope | TM/TM.hpp:105-125 | The allow-user-input setting changes the answer only for enabling the user-input flag, and turning it on never withdraws an approval |
| Text.IntToString | TM/TM.hpp:135-138 | An int is printed as a non-empty string of digits, preceded by a minus sign exactly when it is negative, with no other minus sign and no comma or newline |
| Text.IntRoundTrip | TM/TM.hpp:135-138 | Every printed integer parses back to itself |
| Text.BoolName | TM/TM.hpp:56 | The result is "true" exactly when the argument is true, and "false" exactly when it is false |
| Text.BoolRoundTrip | TM/TM.hpp:56 | Both boolean names parse back to their value |
| ActionTracker.IssuedCommand | TM/TM.hpp:173-175 | No ensures of its own: the test for a new command. ActionTracker.ScanCount and ActionTracker.FirstSightingsAddNothing state what it counts |
| ActionTracker.Record | TM/TM.hpp:180-183 | No ensures of its own: the three stores. ActionTracker.ScanRecords and ActionTracker.ScanElsewhere state what they leave in the tables |
| ActionTracker.Scan | TM/TM.hpp:171-184 | No ensures of its own: the loop, unit after unit in the host's order. ActionTracker.ScanCount, ScanRecords, ScanElsewhere and RepeatedFrameAddsNothing state its count and tables |
| ActionTracker.CountIssued | TM/TM.hpp:171-178 | Each unit is counted at most once per frame, so the count never exceeds the number of units |
| ActionTracker.ScanCount | TM/TM.hpp:171-178 | With distinct unit ids, the loop counts exactly the units that were seen before and whose order, target position or (when present) target id differs from the tables as they stood before the frame |
| ActionTracker.ScanRecords | TM/TM.hpp:180-183 | After the loop, every unit's stored position and order equal its current values. Its stored target equals its current target id if it has one, and is unchanged otherwise |
| ActionTracker.ScanElsewhere | TM/TM.hpp:171-184 | The loop leaves table entries of ids not among the current units untouched |
| ActionTracker.RepeatedFrameAddsNothing | TM/TM.hpp:170-184 | Scanning the same units twice in a row counts nothing the second time |
| ActionTracker.FirstSightingsAddNothing | TM/TM.hpp:173-174 | Units with no stored position are never counted |
| UnitEvents.Logged | TM/TM.hpp:211-261 | No ensures of its own: the early returns at lines 212, 231, 250 and 257. UnitEvents.NonPlayerOwnersOnlyOnChange and OwnUnitsNeverShownOrHidden state which events pass |
| UnitEvents.EventLine | TM/TM.hpp:219-227 | No ensures of its own: the event line. UnitEvents.EventLineRoundTrip states that it reads back as its row |
| UnitEvents.EventName | TM/TM.hpp:215-260 | Event names are non-empty and contain no comma or newline |
| UnitEvents.NonPlayerOwnersOnlyOnChange | TM/TM.hpp:211-261 | For an owner whose type is not Player, exactly the destroy, morph and renegade events are logged |
| UnitEvents.OwnUnitsNeverShownOrHidden | TM/TM.hpp:249-261 | Show and hide events of the observed player's own units are never logged |
| UnitEvents.EventLineRoundTrip | TM/TM.hpp:218-228 | A written event line parses back to its row: five comma-terminated fields, then the quoted position and a newline |
| Results.PrintVar | TM/TM.hpp:66-69 | The text ends in a newline, and the line before it reads back as exactly the value written under the name and postfix |
| Results.ResultsText | TM/TM.hpp:131-139 | No ensures of its own: the record's text. Results.ResultsTextAsWritten states that it is what writeResults writes, and Results.ResultsRoundTrip that it reads back as its summary |
| Results.ParseFieldOf | TM/TM.hpp:66-69 | A line written by PrintVar (tab, quoted name, colon and space, value, postfix) gives back exactly the value it was written with |
| Results.ResultsTextAsWritten | TM/TM.hpp:128-141 | The text written is "{", then seven field lines with a comma after all but the last, then "}" with no newline after it |
| Results.ResultsRoundTrip | TM/TM.hpp:128-141 | The results text parses back to exactly the summary it was written from |
| Session.ResetStep | TM/TM.hpp:92-101 | No ensures of its own: the destroyed temporary's record, then both logs opened. Session.ResetKeepsSession and Session.ResetRecordsCrash state its effect |
| Session.TeardownStep | TM/TM.hpp:85-91 | No ensures of its own: the destructor's record. Session.TeardownRecordsOutcome states its effect |
| Session.FrameStep | TM/TM.hpp:148-209 | No ensures of its own: one onFrame. Session.TimeoutFrame, FrameEffect and FrameRowWritten state its effect |
| Session.EndStep | TM/TM.hpp:143-146 | No ensures of its own: one onEnd. Session.EndOutcome states its effect |
| Session.UnitEventStep | TM/TM.hpp:211-261 | No ensures of its own: one onUnit* callback. Session.UnitEventLogged states its effect |
| Session.InitialOutcome | TM/TM.hpp:79-80 | The initial state reports a crash, no win, no timeout and zero scores |
| Session.RunKeepsOutcome | TM/TM.hpp:148-209 | Frames change neither the win reason, nor the winner, nor the results file |
| Session.ResetRecordsCrash | TM/TM.hpp:85-93 | Every onReset appends one results record and keeps the earlier ones, and that record parses back as a crash, no win, no timeout and zero scores |
| Session.TeardownRecordsOutcome | TM/TM.hpp:85-91 | The destructor appends one results record that parses back to the session's summary, and changes nothing else |
| Session.UndestroyedSessionReadsAsCrash | TM/TM.hpp:85-93 | After onReset and any frames, with or without a following onEnd, and before the destructor, the results file parses as a crash and a loss with zero scores |
| Session.EndOutcome | TM/TM.hpp:143-146 | After onEnd the record is never a crash. It is a win iff the game was won and no timeout occurred |
| Session.TimedOutPersists | TM/TM.hpp:149-153 | Once timed out, any further frames keep the session timed out |
| Session.TimeoutOverridesVictory | TM/TM.hpp:143-153 | After any frame at or past the limit, a later onEnd(true) still records Enemy as winner and the session as timed out |
| Session.TimeoutFrame | TM/TM.hpp:149-153 | A frame at or past a positive limit sets timed_out and requests leave, and changes nothing else |
| Session.FrameEffect | TM/TM.hpp:154-208 | A frame before the limit does four things: it takes the scores from the snapshot, stores every unit's command, and leaves other ids alone. At a window end it zeroes the action count and re-baselines to the current cumulative resources. Otherwise it adds the number of units with new commands |
| Session.FrameRowWritten | TM/TM.hpp:186-199 | A row is written iff the frame ends a window (frame % 24 == 23) and the log is open. Its frame count is the frame number plus one, hence a positive multiple of 24, and its action count covers everything since the last row. Its deltas are the cumulative values minus the baseline, and its supply values are the snapshot's |
| Session.RepeatedFrameCountsNothing | TM/TM.hpp:170-184 | Two consecutive frames with the same units add nothing to the action count on the second |
| Session.RepeatedFrameClosesWindow | TM/TM.hpp:170-203 | When the repeated frame ends a window, it writes one row whose action count is the count after the first frame |
| Session.RowCount | TM/TM.hpp:186 | With no time limit, frames 0..n-1 write exactly n / 24 rows. No row is written for a trailing partial window |
| Session.DeltasTelescope | TM/TM.hpp:193-207 | The deltas of all rows of a run add up to the total change of the baseline over the run |
| Session.RunKeepsRowsAligned | TM/TM.hpp:186-189 | Every row ever written has a positive frame count that is a multiple of 24 |
| Session.FirstWindowExample | TM/TM.hpp:186-207 | Frames 0-23 of a fresh session with no units, where gathered minerals reach 500, write exactly one row: frame count 24, zero actions, 500 minerals gathered |
| Session.UnitEventLogged | TM/TM.hpp:211-261 | A callback appends exactly one line iff its filter passes and the log is open, and that line parses back to the unit's row. Otherwise the state is unchanged |
| Session.ResetKeepsSession | TM/TM.hpp:92-101 | onReset opens both logs and writes the event header, writes one results record, and clears no outcome field, score, counter, baseline, table or leave request |
| Manager.TournamentModuleManager.constructor | TM/TM.hpp:79-83 | The new recorder is in the initial state |
| Manager.TournamentModuleManager.Destroy | TM/TM.hpp:85-91 | The fields follow TeardownStep: the record of the current state is written to the results file |
| Manager.TournamentModuleManager.TemporaryRecord | TM/TM.hpp:93 | A freshly built manager writes the record of the initial state |
| Manager.TournamentModuleManager.OpenLogs | TM/TM.hpp:94-97 | Both logs are open, the frame-time log is empty and the unit-event log holds only its header |
| Manager.TournamentModuleManager.WriteRecord | TM/TM.hpp:129 | The fields follow RecordWritten: the record becomes the last of the results file's records, which is its content since the file is opened truncating |
| Manager.TournamentModuleManager.OnReset | TM/TM.hpp:92-101 | The fields follow ResetStep |
| Manager.TournamentModuleManager.OnEnd | TM/TM.hpp:143-146 | The fields follow EndStep |
| Manager.TournamentModuleManager.OnFrame | TM/TM.hpp:148-209 | The fields follow FrameStep |
| Manager.TournamentModuleManager.TimeOut | TM/TM.hpp:149-153 | Only timed_out and the leave request are set |
| Manager.TournamentModuleManager.RecordScores | TM/TM.hpp:156-159 | Only the four scores change, to the snapshot's |
| Manager.TournamentModuleManager.ScanUnits | TM/TM.hpp:170-184 | The in-place loop over the map fields adds Scan's count to num_actions and leaves the tables equal to Scan's tables |
| Manager.TournamentModuleManager.DetectActions | TM/TM.hpp:170-184 | The same, and no other field changes |
| Manager.TournamentModuleManager.WriteWindow | TM/TM.hpp:186-208 | The window-end block appends the row if the log is open, zeroes num_actions and sets the baselines to the cumulative values |
| Manager.TournamentModuleManager.CloseWindow | TM/TM.hpp:186-208 | The same, and no other field changes |
| Manager.TournamentModuleManager.LogUnitEvent | TM/TM.hpp:218-228 | The event line is appended when the log is open, and nothing else changes |
| Manager.TournamentModuleManager.OnUnitComplete | TM/TM.hpp:211-216 | The fields follow UnitEventStep for unitComplete |
| Manager.TournamentModuleManager.OnUnitCreate | TM/TM.hpp:230-235 | The fields follow UnitEventStep for unitCreate |
| Manager.TournamentModuleManager.OnUnitDestroy | TM/TM.hpp:237-239 | The fields follow UnitEventStep for unitDestroy |
| Manager.TournamentModuleManager.OnUnitMorph | TM/TM.hpp:241-243 | The fields follow UnitEventStep for unitMorph |
| Manager.TournamentModuleManager.OnUnitRenegade | TM/TM.hpp:245-247 | The fields follow UnitEventStep for unitRenegade |
| Manager.TournamentModuleManager.OnUnitShow | TM/TM.hpp:249-254 | The fields follow UnitEventStep for unitShow |
| Manager.TournamentModuleManager.OnUnitHide | TM/TM.hpp:256-261 | The fields follow UnitEventStep for unitHide |
| Manager.TournamentModuleManager.WriteResults | TM/TM.hpp:128-141 | The text written is the results record of the current fields and parses back to their summary |

## Left out

- TM/dllmain.cpp (the DLL entry point and factory exports) is host glue and is not part of this model.
- Environment reads (`Envvar`, TM/TM.hpp:48-53, 71-76): the time limit is the `Session.Config` parameter, and the allow-user-input setting is a parameter of `Authorization.OnAction`. The speed override is read only for `setLocalSpeed`, which is not modelled. The log file paths are not modelled.
- Wall-clock frame timing (TM/TM.hpp:161-168, 190-191, 202): it uses a clock and floating point. Frame rows omit `frame_time_max` and `frame_time_avg`. They are kept as structured rows rather than rendered text, and the frame-time header is not modelled.
- File handling (TM/TM.hpp:85-91, 94-97, 129-130): opening, flushing, failed opens and the destructor's try/catch are not modelled; the results file is assumed to open. The logs are appended sequences, `WriteResults` returns the record's text, and the records written to the results file are kept in `resultsWritten`. When the host destroys the manager is not modelled: `Destroy` is the destructor's effect, called by whoever ends the session.
- A second `onReset` is modelled as reopening both logs. With `std::ofstream`, opening a stream that is already open fails and later writes are dropped.
- `setLocalSpeed(speed_override)` is a host call and is not modelled. `leaveGame()` is recorded only as the `leaveRequested` flag.
- BWAPI accessors are replaced by the snapshot and unit inputs. A unit's type name and position text come from the host as text.
- The `TournamentModule`/`TournamentBot` forwarding adapters and the BWAPI3 variants (TM/TM.hpp:12-40, 284-307) are not modelled.
- The `std::string` specialisation of `PrintVar` (TM/TM.hpp:61-64) is not modelled, because `writeResults` never uses it.
- 32-bit `int` overflow of counters, deltas and `frame + 1` is not modelled. Integers are unbounded.
- ActionTracker.ScanCount, ActionTracker.ScanRecords: these assume the host never reports two units with one id in a frame (`Snapshot.DistinctIds`).
- Session.RowCount: this is stated for sessions that start at frame 0 with no time limit.
