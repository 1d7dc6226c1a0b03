# DataCapture core, modelled in Dafny

DataCapture is a polling collector for a Siemens PLC reached over OPC UA. Every few
seconds it reads cycle times, technical availability (TA) and quality counters from the
PLC and writes them to PostgreSQL. It also detects unplanned stops ("breaks") by
watching for frozen TA values, and matches them against a break schedule. A CSV
extractor and a weekly PDF report read the same tables back.

This project models the sequential logic underneath that plumbing:

- the OPC UA connection manager's lifecycle and backoff (`connection_manager.dfy`);
- the fault de-duplicating logger and console colouring (`logging_config.dfy`);
- the break detector, in both of its versions (`break_detector.dfy`);
- the shift and hour-slot rules of every collector (`shifts.dfy`, on `clock.dfy`);
- the guards and fallbacks applied to PLC reads (`plc_data.dfy`) and the rows written from them (`storage.dfy`);
- one collection cycle and the shutdown of the two OEE collectors (`collector_v2.dfy` for `data_collector_oee_bk.py`, `collector_v1.dfy` for `data_collector_oee.py`);
- the configuration-driven helpers of `data_collector_full.py` (`full_collector.dfy`);
- the CSV extractor's parsers, argument rules and LAG de-duplication (`extract_ct.dfy`);
- the report generator's classification, ordering and date rules (`report_generator.dfy`).

I/O is abstracted away:

- Every PLC read is an input: a `Reading` is a value, `None` or an exception.
- Every database call is an input success flag, and the tables are sequences or maps held by the classes.
- `datetime.now()` is an integer parameter: seconds from a local Monday midnight (day 0 is 0001-01-01, a Monday).

Objects that the source updates in place (`OPCUAConnectionManager`, `DataCollectionLogger`,
`BreakDetector`, `OEEDataCollector`, `CollectorFormatter`) are Dafny classes. Each of their
methods is proved against a pure specification function of the old state, or states its
whole new state outright. For the collector this includes what it writes to the log: every
read, store, `collect_once` and `shutdown` step ties the logger's lines and de-duplication
state to a log function (`SequenceReadLog`, `CycleStoreLog`, `CollectLog`, `CloseBreakLog`,
...). The properties are proved about those functions. The break detector shares the
collector's logger. Its lines (`Break started: <name> (HH:MM-HH:MM)`, the DEBUG line
`TA frozen but no scheduled break found at this time`, `Break ended: <name> <compliance>`)
are recorded as `BreakNote` events. The collector writes them through the logger right after
`process`, with `NoteLine`, so `CollectLog` places them between the stores' lines and the summary.

Where this model and the design description disagree, the model follows the code:

- A freeze starting two minutes before the scheduled start stores `early_start_minutes = 2`, not 0. The code forces the value to 0 only below the two-minute tolerance (`data_collector_oee_bk.py:218-223`). `BreakDetection.EarlyStartMinutes` states this.

## Model

| member | source | states |
|---|---|---|
| Clock.TimeOf | data_collector_oee_bk.py:342-343 | the time of day is the instant minus the midnight that starts its day |
| Clock.DayStart | data_collector_oee_bk.py:112-113 | `datetime.combine(now.date(), time(0,0))` is the last midnight at or before the instant, less than a day before it |
| Clock.Weekday | data_collector_oee_bk.py:66-70 | `weekday()` is in 0..6 |
| Clock.IsoWeekday | data_collector_oee_bk.py:355-357 | `isoweekday()` is in 1..7 |
| Clock.Hour | data_collector_oee_BK.py:135-146 | `now.hour` is in 0..23 |
| Clock.Minute | data_collector_oee_bk.py:367-385 | `now.minute` is in 0..59 |
| Clock.HourMinuteSplit | data_collector_oee_bk.py:367-385 | the hour and minute locate the time of day to within its minute |
| Text.ToLowerChar | data_collector_full.py:431-435 | `lower()` on ASCII: maps A-Z to a-z and leaves every other character alone |
| Text.ToLower | data_collector_full.py:431-435 | `lower()` on ASCII: keeps the length and lowers each character in place |
| Text.DigitChar | extract_ct.py:188 | a digit value is written as a decimal digit character |
| Text.DigitValue | extract_ct.py:66 | a digit character reads back as the value that writes it |
| Text.NatToDecimal | extract_ct.py:188 | `str(n)` is a non-empty digit string with no leading zero |
| Text.IntToDecimal | extract_ct.py:188 | `str(i)` is non-empty and never contains the `_` separator |
| Text.DecimalRoundTrip | extract_ct.py:66 | `int(str(n)) == n` |
| Text.TrimLeft | extract_ct.py:61 | `lstrip()` removes exactly the leading whitespace: the result is a suffix that does not start with whitespace |
| Text.TrimRight | extract_ct.py:61 | `rstrip()` removes exactly the trailing whitespace: the result is a prefix that does not end with whitespace |
| Text.StripPadded | extract_ct.py:61 | `strip()` of a core padded with whitespace gives the core back |
| Text.TrimLeftPadded | extract_ct.py:61 | `lstrip()` of whitespace followed by non-space text gives that text |
| Text.TrimRightPadded | extract_ct.py:61 | `rstrip()` of text followed by whitespace gives that text |
| Text.IndexOf | extract_ct.py:186-190 | the first position of a character that occurs |
| Text.Split | extract_ct.py:186-190 | splitting always yields at least one part |
| Text.SplitJoin | extract_ct.py:186-190 | splitting what `"_".join` produced gives the parts back when no part contains `_` |
| LoggingConfig.FaultEntries | logging_config.py:136-147 | one `fault` call writes at most one ERROR line, and writes it exactly for a new key or for every tenth repeat |
| LoggingConfig.RepeatedFaultLines | logging_config.py:139-147 | n identical faults after a different one leave `error_count == n` and write `1 + n/10` lines |
| LoggingConfig.NewKeyResets | logging_config.py:139-143 | a new key sets `last_error` to it and `error_count` to 1, and is always logged |
| LoggingConfig.ThreeFaultsLogAtMostOnce | logging_config.py:136-147 | the same fault raised three times in a row writes at most one ERROR line in all |
| LoggingConfig.Faulted | logging_config.py:136-147 | one `fault` on the whole log state: earlier lines are kept, at most one line is added and it is an ERROR, and the fault becomes the last error |
| LoggingConfig.WithLine | logging_config.py:149-169 | a `warning`, `debug` or `info` line is appended last and leaves the de-duplication state alone |
| LoggingConfig.ConnectionEventEntry | logging_config.py:116-125 | exactly the four event types write a line; only `disconnected` is a warning |
| LoggingConfig.BreakEventEntry | logging_config.py:127-134 | exactly started, ended and compliance write a line, at INFO |
| LoggingConfig.OptionToSeq | logging_config.py:116-134 | an event writes no line or one line |
| LoggingConfig.SummaryText | logging_config.py:157-165 | the quality segment is appended exactly when a quality dict is given |
| LoggingConfig.DataCollectionLogger.constructor | logging_config.py:103-106 | a new logger has no last error and has written nothing |
| LoggingConfig.DataCollectionLogger.Fault | logging_config.py:136-147 | appends the lines of `FaultEntries` and advances the de-duplication state |
| LoggingConfig.DataCollectionLogger.Warning | logging_config.py:149-151 | appends one tagged WARNING line and leaves `last_error`/`error_count` alone |
| LoggingConfig.DataCollectionLogger.Debug | logging_config.py:153-155 | appends one DEBUG line and leaves the de-duplication state alone |
| LoggingConfig.DataCollectionLogger.Info | logging_config.py:167-169 | appends one INFO line and leaves the de-duplication state alone |
| LoggingConfig.DataCollectionLogger.ConnectionEvent | logging_config.py:116-125 | appends the event's line, if any, and leaves the de-duplication state alone |
| LoggingConfig.DataCollectionLogger.BreakEvent | logging_config.py:127-134 | appends the event's line, if any, and leaves the de-duplication state alone |
| LoggingConfig.DataCollectionLogger.DataSummary | logging_config.py:157-165 | appends one DEBUG summary line and leaves the de-duplication state alone |
| LoggingConfig.ColoredChanges | logging_config.py:25-30 | `format` rewrites the level name exactly when colour is on and the name is a key of `COLORS`, and wraps it in that colour and the reset code |
| LoggingConfig.ColoredIdempotent | logging_config.py:25-30 | a name that was already coloured is not coloured again |
| LoggingConfig.LogRecord.constructor | logging_config.py:25-30 | a record carries its level name |
| LoggingConfig.CollectorFormatter.constructor | logging_config.py:25-27 | `use_color` is unset, hence false, after construction |
| LoggingConfig.CollectorFormatter.Format | logging_config.py:25-30 | the record's level name becomes its coloured form |
| ConnectionManager.BackoffFor | opcua_connection_manager.py:137-138 | the wait is `BACKOFF_INTERVALS[min(attempts, 5)]`, between 1 and 60 s; it is 60 s once 5 tries have already been counted, that is from the sixth try on |
| ConnectionManager.BackoffMonotone | opcua_connection_manager.py:26 | the backoff never shrinks as the attempt count grows |
| ConnectionManager.LogEvent | opcua_connection_manager.py:264-280 | `_log_connection_event` does nothing without a pool, inserts one row when the insert works, and never touches the connection state |
| ConnectionManager.ClientOf | opcua_connection_manager.py:327-331 | the client is returned iff connected and non-null |
| ConnectionManager.ConnectSpec | opcua_connection_manager.py:78-117 | `connect` succeeds iff the security settings apply, the session opens and `on_connected` does not raise; success means connected, counter 0 and `last_connect_time` set; any failure leaves it disconnected; the new client carries the security string, and with a policy and a mode the first new line is `Applying security: <policy>/<mode>`; a failed open logs exactly that line (when configured) and the OPC_UA fault |
| ConnectionManager.SecurityString | opcua_connection_manager.py:89-95 | a security string exists iff a policy and a mode are both given; it starts with the policy and a comma, and without paths it continues with the mode and the default `client_cert.der` and `client_key.pem` |
| ConnectionManager.ConnectStart | opcua_connection_manager.py:84-95 | the start of `connect`: a new client of the next generation with the security string, and the log gains the security line exactly when a policy and a mode are given; nothing else changes |
| ConnectionManager.OpenSession | opcua_connection_manager.py:97-117 | the rest of `connect`: success iff the session opens and `on_connected` does not raise; the client is kept; a failed open adds exactly the OPC_UA fault's lines |
| ConnectionManager.DisconnectSpec | opcua_connection_manager.py:119-129 | `disconnect` always ends disconnected without a client, even when closing raises, and changes nothing else |
| ConnectionManager.Downtime | opcua_connection_manager.py:178-181 | the reported downtime exists iff a disconnect time is set, and equals the whole seconds from it to the reconnect |
| ConnectionManager.AttemptSpec | opcua_connection_manager.py:131-206 | one `_attempt_reconnect` waits `BackoffFor(attempts)` read before the increment; on success the counter is 0 and it is connected, and a failed session leaves the counter incremented by one and it disconnected |
| ConnectionManager.BeginAttempt | opcua_connection_manager.py:136-170 | a try increments the counter by exactly one and makes a new client with the security string, writing no security line |
| ConnectionManager.Reconnected | opcua_connection_manager.py:172-192 | an opened session is marked connected with its connect time, the counter is reset, and the client and the stop flags are untouched |
| ConnectionManager.CompleteAttempt | opcua_connection_manager.py:172-197 | an opened session resets the counter, records the connect time, and is connected iff `on_connected` does not raise |
| ConnectionManager.ReconnectLoop | opcua_connection_manager.py:252-262 | the retry loop does nothing when stopped or already connected |
| ConnectionManager.ReconnectLoopFacts | opcua_connection_manager.py:252-262 | the loop makes at most one wait per try, reports exactly whether it ended connected, stops early only once connected, leaves `should_run`, the monitor and the disconnect time alone, resets the counter whenever it connects, only grows the logs, and keeps the invariant |
| ConnectionManager.HandleDisconnectSpec | opcua_connection_manager.py:238-262 | a no-op when already disconnected; otherwise it records the disconnect time first and retries only while `should_run` |
| ConnectionManager.StartSpec | opcua_connection_manager.py:282-308 | `start` sets `should_run`, and the monitor runs iff a connection was made |
| ConnectionManager.StartRetry | opcua_connection_manager.py:295-308 | after a failed first connect, the monitor starts iff the retries connect; a run that never connects uses the whole script |
| ConnectionManager.StopSpec | opcua_connection_manager.py:310-325 | `stop` ends stopped, without a monitor, disconnected and without a client, and keeps the attempt counter |
| ConnectionManager.MonitorTickSpec | opcua_connection_manager.py:208-236 | a health tick does nothing once stopped, while disconnected or when the read works; a failed read records the disconnect |
| ConnectionManager.ConnectKeepsValid | opcua_connection_manager.py:97-117 | `connect` keeps the invariant (connected means a client, counter 0 and a connect time) |
| ConnectionManager.AttemptKeepsValid | opcua_connection_manager.py:131-206 | `_attempt_reconnect` keeps the invariant |
| ConnectionManager.HandleDisconnectKeepsValid | opcua_connection_manager.py:238-262 | `_handle_disconnect` keeps the invariant |
| ConnectionManager.StartKeepsValid | opcua_connection_manager.py:282-308 | `start` keeps the invariant |
| ConnectionManager.StopKeepsValid | opcua_connection_manager.py:310-325 | `stop` keeps the invariant |
| ConnectionManager.MonitorTickKeepsValid | opcua_connection_manager.py:208-236 | a monitor tick keeps the invariant |
| ConnectionManager.FailedWaitsAt | opcua_connection_manager.py:137-138 | the k-th of n waits after a0 earlier tries is `BackoffFor(a0 + k)` |
| ConnectionManager.FailedRunWaits | opcua_connection_manager.py:137-140 | a run in which no session opens waits exactly `FailedWaits(a0, n)`, leaves the counter at `a0 + n` and stays disconnected |
| ConnectionManager.FailedRunBackoff | opcua_connection_manager.py:137-140 | n failed tries wait `BackoffFor(a0 + k)` before the k-th, leave the counter at `a0 + n` and stay disconnected |
| ConnectionManager.FailedRunReachesCap | opcua_connection_manager.py:137-138 | from the sixth failed try on, every wait is the 60 s cap |
| ConnectionManager.CallbackFailureRestartsBackoff | opcua_connection_manager.py:172-206 | when the session opens but `on_connected` raises, the try fails and the next one waits 1 s again |
| ConnectionManager.HandleDisconnectIdempotent | opcua_connection_manager.py:240-241 | a second `_handle_disconnect` after one that could not reconnect does nothing |
| ConnectionManager.StopIdempotent | opcua_connection_manager.py:310-325 | `stop` twice leaves the same connection state as `stop` once |
| ConnectionManager.StoppedStaysDown | opcua_connection_manager.py:213-247 | after `stop`, neither a health tick nor a lost connection starts a reconnect |
| ConnectionManager.OPCUAConnectionManager.constructor | opcua_connection_manager.py:31-76 | a new manager is disconnected, not running, has counter 0, and satisfies the invariant |
| ConnectionManager.OPCUAConnectionManager.GetClient | opcua_connection_manager.py:327-331 | returns the client iff connected and non-null, and changes nothing |
| ConnectionManager.OPCUAConnectionManager.LogConnectionEvent | opcua_connection_manager.py:264-280 | the new state is `LogEvent` of the old one |
| ConnectionManager.OPCUAConnectionManager.Connect | opcua_connection_manager.py:78-117 | the new state and the result are `ConnectSpec` of the old state |
| ConnectionManager.OPCUAConnectionManager.StartConnect | opcua_connection_manager.py:84-95 | the new state is `ConnectStart` of the old one: the client made and the security line logged through the shared logger |
| ConnectionManager.OPCUAConnectionManager.ConnectSession | opcua_connection_manager.py:97-117 | the new state and the result are `OpenSession` of the old state |
| ConnectionManager.OPCUAConnectionManager.Disconnect | opcua_connection_manager.py:119-129 | the new state is `DisconnectSpec` of the old one |
| ConnectionManager.OPCUAConnectionManager.BeginReconnect | opcua_connection_manager.py:136-170 | the new state is `BeginAttempt` of the old one and the wait is the backoff read before the increment |
| ConnectionManager.OPCUAConnectionManager.AttemptReconnect | opcua_connection_manager.py:131-206 | the new state, the result and the wait are `AttemptSpec` of the old state |
| ConnectionManager.OPCUAConnectionManager.RecordReconnect | opcua_connection_manager.py:172-192 | the new state is `Reconnected` of the old one |
| ConnectionManager.OPCUAConnectionManager.CompleteReconnect | opcua_connection_manager.py:172-197 | the new state and the result are `CompleteAttempt` of the old state |
| ConnectionManager.OPCUAConnectionManager.ReconnectUntilConnected | opcua_connection_manager.py:252-262 | the `while should_run and not is_connected` loop ends in `ReconnectLoop` of the old state |
| ConnectionManager.OPCUAConnectionManager.HandleDisconnect | opcua_connection_manager.py:238-262 | the new state and the waits are `HandleDisconnectSpec` of the old state |
| ConnectionManager.OPCUAConnectionManager.Start | opcua_connection_manager.py:282-308 | the new state, the result and the waits are `StartSpec` of the old state |
| ConnectionManager.OPCUAConnectionManager.RetryAfterFailedConnect | opcua_connection_manager.py:295-308 | the new state, the result and the waits are `StartRetry` of the old state |
| ConnectionManager.OPCUAConnectionManager.Stop | opcua_connection_manager.py:310-325 | the new state is `StopSpec` of the old one |
| ConnectionManager.OPCUAConnectionManager.MonitorTick | opcua_connection_manager.py:208-236 | the new state and the waits are `MonitorTickSpec` of the old state |
| BreakDetection.TomorrowDow | data_collector_oee.py:72-75 | `((weekday + 1) % 7) + 1` is in 1..7 and is the cyclic successor of `weekday + 1` (Sunday 7 goes to Monday 1) |
| BreakDetection.InsertByStart | data_collector_oee_bk.py:84 | inserting adds one entry |
| BreakDetection.InsertByStartPermutes | data_collector_oee_bk.py:84 | inserting adds exactly that entry and loses none |
| BreakDetection.InsertByStartSorted | data_collector_oee_bk.py:84 | inserting into a schedule sorted by start time keeps it sorted |
| BreakDetection.SortByStart | data_collector_oee_bk.py:84 | `ORDER BY start_time` is sorted and a permutation |
| BreakDetection.DistinctOnDays | data_collector_oee_bk.py:73-85 | `SELECT DISTINCT ... WHERE day_of_week IN` keeps exactly the rows of the two days, each once |
| BreakDetection.SelectSchedule | data_collector_oee_bk.py:62-89 | the loaded schedule is today's and tomorrow's breaks, each once, sorted by start |
| BreakDetection.FirstMatch | data_collector_oee_bk.py:108-118 | the position of the first entry matching, with no earlier match |
| BreakDetection.FirstIn | data_collector_oee_bk.py:108-118 | none iff no entry matches; otherwise the first matching entry |
| BreakDetection.FindScheduledBreak | data_collector_oee_bk.py:91-118 | corrected lookup: none iff no entry of the current shift has its window, widened by 5 minutes on each side, around the time; otherwise such an entry |
| BreakDetection.FindScheduledBreakAsWritten | data_collector_oee_bk.py:111-115 | the lookup `process` uses: none iff no entry matches the widened window taken modulo a day; otherwise an entry of the current shift inside that wrapped window |
| BreakDetection.IsInScheduledBreakTime | data_collector_oee_bk.py:120-144 | true iff some entry of the current shift has its exact window around the time |
| BreakDetection.ScheduledTimeIsMatched | data_collector_oee_bk.py:91-144 | inside an exact scheduled window the corrected lookup always finds a break; the lookup as written does too when no entry lies within five minutes of midnight |
| BreakDetection.MidnightBreakMissed | data_collector_oee_bk.py:111-115 | a 00:00-00:15 break is not found at 00:05 as written, and is found by the corrected rule |
| BreakDetection.AsWrittenAgreesAwayFromMidnight | data_collector_oee_bk.py:111-115 | away from midnight the written and the corrected lookups agree |
| BreakDetection.FirstMatchAgrees | data_collector_oee_bk.py:111-115 | the first-match positions agree when no widened window crosses midnight |
| BreakDetection.CheckFrozenStep | data_collector_oee_bk.py:146-169 | an empty batch changes nothing and is not frozen; only `ta_data[0]` counts; an equal key increments, a different one resets to 0, a first sighting leaves the count; the key is always stored; frozen iff count >= 3 |
| BreakDetection.FrozenAfterFourIdentical | data_collector_oee_bk.py:160-169 | after a change it takes four identical readings in a row to report a freeze |
| BreakDetection.OnlyFirstReadingCounts | data_collector_oee_bk.py:155-158 | the rest of the batch never matters |
| BreakDetection.EarlyStartMinutes | data_collector_oee_bk.py:216-223 | the whole minutes started early, 0 under two minutes, so either 0 or at least 2 |
| BreakDetection.LateEndMinutes | data_collector_oee_bk.py:245-250 | the whole minutes ended late; 0 iff under two minutes with the clamp of `data_collector_oee.py:206-212`, iff under one minute without it |
| BreakDetection.DurationMinutes | data_collector_oee_bk.py:261 | `(end - start) // 60` whole minutes, non-negative when the end is not before the start |
| BreakDetection.ComplianceOf | data_collector_oee_bk.py:271-275 | the compliance reads late iff the late minutes are at least 2, and carries them |
| BreakDetection.VersionsDifferOnlyAtOneMinute | data_collector_oee.py:206-212 | both versions report the same compliance; their stored late minutes differ only at exactly one minute late |
| BreakDetection.OpenRecord | data_collector_oee_bk.py:210-233 | the new row is open, starts now, is scheduled, and carries the early-start minutes |
| BreakDetection.CloseRecord | data_collector_oee_bk.py:235-269 | closing sets the end, the duration and the late minutes, and nothing else |
| BreakDetection.CloseBreak | data_collector_oee_bk.py:235-276 | `_update_break_end` works iff the database works, the row exists and a scheduled break is given; it closes only that row |
| BreakDetection.ProcessSpec | data_collector_oee_bk.py:171-208 | RUNNING to IN_BREAK when frozen and the lookup as written (window wrapped at midnight) finds a break, adding the row and the started line when the insert works and no row when it raises; IN_BREAK to RUNNING when not frozen: it succeeds iff `CloseBreak` does, the table is then `CloseBreak`'s and the ended line is logged, and a failed close changes nothing but the freeze tracking; the other combinations leave the break fields alone |
| BreakDetection.ProcessKeepsValid | data_collector_oee.py:158-181 | `process` keeps the invariant: the break id is set only in a break, and at most the current row is open |
| BreakDetection.AtMostOneOpen | data_collector_oee.py:158-181 | in a valid state at most one row is open |
| BreakDetection.ShutdownCloseSpec | data_collector_oee_bk.py:698-710 | the open row is closed exactly when in a break with a row id; the detector's own fields are kept |
| BreakDetection.ShutdownClosesEverything | data_collector_oee.py:604-614 | shutting down mid-break with a working database leaves no row open |
| BreakDetection.BreakDetector.constructor | data_collector_oee_bk.py:45-60 | a new detector is running, has no keys, count 0 and no rows, and is valid |
| BreakDetection.BreakDetector.LoadScheduledBreaks | data_collector_oee_bk.py:62-89 | the schedule becomes `SelectSchedule` of the table for today |
| BreakDetection.BreakDetector.IsInScheduledBreakTimeAt | data_collector_oee_bk.py:120-144 | the result is `IsInScheduledBreakTime` at the current time of day |
| BreakDetection.BreakDetector.CheckFrozen | data_collector_oee_bk.py:146-169 | the new freeze state and the result are `CheckFrozenStep` of the old state |
| BreakDetection.BreakDetector.UpdateBreakEnd | data_collector_oee_bk.py:235-276 | the table becomes `CloseBreak` of the old one, or is kept when that raises |
| BreakDetection.BreakDetector.Process | data_collector_oee_bk.py:171-208 | the new state and the result are `ProcessSpec` of the old state |
| BreakDetection.BreakDetector.CloseOnShutdown | data_collector_oee_bk.py:698-710 | the new state and the outcome are `ShutdownCloseSpec` of the old state |
| Shifts.FixedShift | data_collector_oee_BK.py:123-134 | shift 1 for [06:00,14:00), 2 for [14:00,22:00), 3 otherwise |
| Shifts.ShiftAt | data_collector_oee_bk.py:356-366 | the shift against the day's boundaries: Friday 13:30/21:00, other days 14:00/22:00 |
| Shifts.ShiftAndHourFixed | data_collector_oee_BK.py:110-148 | the shift is `FixedShift`, the hour is in 0..7, shift 3 gives 0-1 from 22:00 and 2-7 before 06:00 |
| Shifts.ShiftAndHourAsWritten | data_collector_oee_bk.py:337-387 | the shift follows the day's boundaries and the hour is in -1..7 |
| Shifts.RunningShiftStart | data_collector_oee_bk.py:345-363 | the running shift started at most nine hours before; a shift 3 seen before 06:00 started the evening before, at that day's shift-3 start |
| Shifts.ShiftAndHour | data_collector_oee_bk.py:337-387 | corrected rule: the hour counts whole hours from the start of the running shift, capped at 7 |
| Shifts.AsWrittenAgreesOutsideFridayShifts | data_collector_oee_bk.py:367-385 | outside Friday from 13:30 and Saturday before 06:00 the written rule and the corrected one agree; off Fridays the fixed rule agrees too |
| Shifts.SaturdayMorningMiscounted | data_collector_oee_bk.py:376-382 | at Saturday 01:00 the written rule counts 3 hours from 22:00, the corrected one 4 from Friday's 21:00; at Friday 01:00 both count 3 |
| Shifts.FridayHourIndexNegative | data_collector_oee_bk.py:367-385 | on Friday 13:45 and 21:30 the written rule gives hour -1; the corrected one gives 0 |
| Shifts.AsWrittenNegativeExactly | data_collector_oee_bk.py:367-385 | the written hour is negative exactly in the first half hour of Friday's shifts 2 and 3 |
| Shifts.FirstWindow | data_collector_full.py:418-425 | the first configured window containing the time, with none before it |
| Shifts.CurrentShift | data_collector_full.py:403-427 | `is_friday` iff weekday 4; the first matching window of the day's table, treating end < start as overnight, else 1 |
| Shifts.HourIndexFull | data_collector_full.py:574 | `now.hour % 8` is in 0..7 and differs from the hour by a multiple of 8 |
| PlcData.OrZero | data_collector_oee_BK.py:231-237 | a falsy value becomes 0 |
| PlcData.DesiredOrFallback | data_collector_oee_BK.py:164-171 | the PLC's desired time unless it is zero, `None` or unreadable, then `target x 1000` |
| PlcData.CycleOutcome | data_collector_oee_BK.py:160-181 | a failed read is reported; a cycle is recorded iff the last time is non-null and > 0 |
| PlcData.CycleTimesFrom | data_collector_oee_BK.py:150-183 | every recorded cycle time is positive, at most one row or warning per sequence |
| PlcData.CycleTimesSplit | data_collector_oee_BK.py:159-181 | reading is per sequence: the result over a concatenation is the concatenation |
| PlcData.FailedCycleReadOmitsOnlyIt | data_collector_oee_BK.py:180-181 | a failed sequence is omitted and only it: the others come out as without it |
| PlcData.ReadCycleTimes | data_collector_oee_BK.py:150-183 | the loop returns `CycleTimesFrom` of the samples |
| PlcData.TaOutcome | data_collector_oee_BK.py:185-214 | a sequence fails iff any of its four reads raises; otherwise its row holds the four values, falsy ones as 0 |
| PlcData.TaDataFrom | data_collector_oee_BK.py:185-214 | each sequence yields a row or a warning |
| PlcData.TaRowsFollowSequences | data_collector_oee_BK.py:185-214 | readable sequences yield one row each, in order |
| PlcData.ReadTaData | data_collector_oee_BK.py:185-214 | the loop returns `TaDataFrom` of the samples |
| PlcData.QualityFrom | data_collector_oee_BK.py:216-241 | nothing iff a read raises; otherwise the three counters, falsy ones as 0 |
| Storage.DeviationPercent | data_collector_oee_bk.py:532-533 | 0 when the desired time is not positive; otherwise the deviation as a percentage of it |
| Storage.CycleRowsAt | data_collector_oee_bk.py:521-538 | one row per cycle, in order |
| Storage.TaRowsAt | data_collector_oee_bk.py:542-566 | one row per TA reading, in order |
| Storage.UpsertQuality | data_collector_oee_bk.py:568-587 | no counters leave the table; counters put their row under (time, shift, hour), replacing one there and keeping every other |
| Storage.UpsertIdempotent | data_collector_oee_bk.py:579-580 | storing the same counters twice at one time is storing them once |
| CollectorV2.TwinSyncFilter | data_collector_oee_bk.py:505-512 | keeps exactly the cycles that are not pass-throughs (stations 47/48 under 10 s), never more, and all of them when there is none |
| CollectorV2.TwinSyncFilterAppend | data_collector_oee_bk.py:510-512 | the filter works cycle by cycle, preserving order |
| CollectorV2.TwinSyncFilterIdempotent | data_collector_oee_bk.py:510-512 | filtering twice is filtering once, and no pass-through survives |
| CollectorV2.PassThroughCount | data_collector_oee_bk.py:514-516 | the number of pass-through cycles; 0 iff there are none |
| CollectorV2.TwinSyncFilterDropsPassThroughs | data_collector_oee_bk.py:514-516 | the filter drops exactly the pass-through count |
| CollectorV2.QualityRead | data_collector_oee_bk.py:464-494 | nothing iff there is no client or a read raises; otherwise the slot of the written rule (shift by the day's boundaries, hour in -1..7) and the counters with falsy values as 0 |
| CollectorV2.QualitySlotOutsideFridayShifts | data_collector_oee_bk.py:464-477 | outside Friday from 13:30 and Saturday before 06:00 the slot read is the corrected one, hour 0..7; hour -1 is read exactly in the two Friday half hours |
| CollectorV2.StoredCyclesAreRealCycles | data_collector_oee_bk.py:600-603 | nothing is stored inside the exact break window; every stored row is that of a read cycle that is not a pass-through |
| CollectorV2.TaStoredRegardlessOfBreak | data_collector_oee_bk.py:604-606 | every TA reading is stored when the database works, whatever the break state |
| CollectorV2.IsPassThrough | data_collector_oee_bk.py:504-511 | a cycle is a pass-through exactly when its station is 47 or 48 and it is shorter than 10 s (10000 ms) |
| CollectorV2.CyclesRead | data_collector_oee_bk.py:389-424 | no client reads no cycle; otherwise at most one cycle per sample, each positive |
| CollectorV2.TaRead | data_collector_oee_bk.py:426-462 | no client reads nothing; otherwise one reading per sequence whose read did not raise |
| CollectorV2.CycleInsert | data_collector_oee_bk.py:496-540 | no row inside the scheduled-break window or when the insert fails; otherwise one row per cycle less the pass-through count |
| CollectorV2.TaInsert | data_collector_oee_bk.py:542-566 | one row per reading, the k-th for the k-th reading at `now`, when the insert works; none when it fails |
| CollectorV2.ReadFailureLines | data_collector_oee_bk.py:421-422 | one WARNING `[component] Seq <id> read failed: <error>` per failed sequence, in order |
| CollectorV2.CollectLogEnds | data_collector_oee_bk.py:589-617 | a cycle's log ends with the summary line of the counts and counters when the detector's work succeeds; otherwise its last error is the COLLECTOR fault |
| CollectorV2.NoClientReadsLogOnce | data_collector_oee_bk.py:389-494 | without a client the three reads raise the same OPC_UA fault three times and write at most one ERROR line between them |
| CollectorV2.ClientReadsRaiseNoFault | data_collector_oee_bk.py:389-494 | with a client and no counter read raising, the reads write only warnings and leave the de-duplication state alone |
| CollectorV2.WorkingStoresRaiseNoFault | data_collector_oee_bk.py:496-608 | stores whose inserts all work write no ERROR line and leave the de-duplication state alone |
| CollectorV2.HealthyCycleRaisesNoFault | data_collector_oee_bk.py:589-617 | a cycle with a client, readable counters, working inserts and working detector writes no ERROR line and leaves the de-duplication state alone, the detector's break lines included |
| CollectorV2.ClockText | data_collector_oee_bk.py:188-189 | `strftime('%H:%M')`: five characters, two digits, `:`, two digits, naming the hour and minute that contain the time of day |
| CollectorV2.NoteLine | data_collector_oee_bk.py:188-202 | a start is the INFO `break_event` line `Break started: <name> (HH:MM-HH:MM)`, an end the INFO line `Break ended: <name> <compliance>`, a freeze without a schedule the DEBUG line; never an ERROR |
| CollectorV2.NoteLines | data_collector_oee_bk.py:188-202 | one line per event, in order, the k-th being `NoteLine` of the k-th event, none an ERROR |
| CollectorV2.BreakLinesRaiseNoFault | data_collector_oee_bk.py:188-202 | the detector's lines add no ERROR line and leave the de-duplication state alone |
| CollectorV2.NoFaultBetweenTrans | data_collector_oee_bk.py:589-617 | "no ERROR line and the de-duplication state kept" composes across consecutive steps of a cycle |
| CollectorV2.WarningsRaiseNoFault | data_collector_oee_bk.py:421-422 | appending the read-failure warnings adds no ERROR line and leaves the de-duplication state alone |
| CollectorV2.OEEDataCollector.constructor | data_collector_oee_bk.py:281-291 | a new collector has empty tables, is not running, and has a valid detector without the late clamp |
| CollectorV2.OEEDataCollector.WarnFailures | data_collector_oee_bk.py:421-422 | one CYCLE_READ/TA_READ warning per failed sequence, in order, and nothing else |
| CollectorV2.OEEDataCollector.ReadCycleTimes | data_collector_oee_bk.py:389-424 | no client gives nothing and the OPC_UA fault `No active client connection`; otherwise the recorded cycles and one CYCLE_READ warning per failed sequence (`SequenceReadLog`) |
| CollectorV2.OEEDataCollector.ReadTaData | data_collector_oee_bk.py:426-462 | no client gives nothing and the OPC_UA fault; otherwise the readable sequences' rows and one TA_READ warning per failed sequence (`SequenceReadLog`) |
| CollectorV2.OEEDataCollector.ReadQualityCounters | data_collector_oee_bk.py:464-494 | the result is `QualityRead`: the slot of the written rule and the counters read; the log gains the OPC_UA fault without a client, the QUALITY_READ fault `Read failed: ...` when a read raises, nothing otherwise (`QualityReadLog`) |
| CollectorV2.OEEDataCollector.StoreCycleTimes | data_collector_oee_bk.py:496-540 | appends the filtered cycles' rows when the insert works; the log gains `Filtered N passthrough cycles ...` when N > 0, and the DATABASE fault when cycles are left and the insert fails (`CycleStoreLog`) |
| CollectorV2.OEEDataCollector.StoreTaData | data_collector_oee_bk.py:542-566 | appends the TA rows when the insert works; the DATABASE fault `TA insert failed` when a non-empty insert fails (`TaStoreLog`) |
| CollectorV2.OEEDataCollector.StoreQualityCounters | data_collector_oee_bk.py:568-587 | upserts the counters when the insert works; the DATABASE fault `Quality counter insert failed` when an upsert of read counters fails (`QualityStoreLog`) |
| CollectorV2.OEEDataCollector.ReadAll | data_collector_oee_bk.py:593-597 | the three reads of one cycle, each equal to its read function (`CyclesRead`, `TaRead`, `QualityRead` with the written slot), and their log lines in read order (`ReadAllLog`) |
| CollectorV2.OEEDataCollector.StoreAll | data_collector_oee_bk.py:599-608 | cycle rows only outside the exact break window, with the debug line `Cycle times skipped (scheduled break)` inside it; TA and quality always; their log lines in order (`StoreAllLog`) |
| CollectorV2.OEEDataCollector.ReadAndStore | data_collector_oee_bk.py:589-608 | the scheduled-break check, the three reads (quality with the written slot) and the three stores, with the reads' log lines before the stores'; returns exactly what was read |
| CollectorV2.OEEDataCollector.ReportTick | data_collector_oee_bk.py:613-617 | on success exactly one DEBUG summary line of the counts and counters, the fault state kept; on failure the COLLECTOR fault's lines and fault state |
| CollectorV2.OEEDataCollector.CollectOnce | data_collector_oee_bk.py:589-617 | the three tables as `StoreAll` gives them, the detector fed the unfiltered TA data through `ProcessSpec`, and the whole log of the cycle (`CollectLog`): the reads' lines, the stores' lines, the detector's line for the event `process` recorded (started, ended, or frozen without a schedule), then the summary line of what was read, or the COLLECTOR fault when the detector's database work failed |
| CollectorV2.OEEDataCollector.LogBreakNote | data_collector_oee_bk.py:188-202 | appends exactly the detector's line for one event (`NoteLine`), through `break_event` for a start or an end and `debug` for a freeze without a schedule, the fault state kept |
| CollectorV2.OEEDataCollector.DetectBreaks | data_collector_oee_bk.py:171-208 | the detector ends as `ProcessSpec` gives, and the log gains exactly the lines of the events that call recorded (`BreakLog`) |
| CollectorV2.OEEDataCollector.AnnounceShutdown | data_collector_oee_bk.py:692-694 | appends the empty line, the banner of 70 `=` and `Shutting down...` at INFO, the fault state kept |
| CollectorV2.OEEDataCollector.AnnounceShutdownComplete | data_collector_oee_bk.py:715-723 | appends `Database disconnected` only when the pool closes, then `Shutdown complete` and the banner, at INFO |
| CollectorV2.OEEDataCollector.CloseOpenBreak | data_collector_oee_bk.py:698-708 | the detector ends as `ShutdownCloseSpec` gives; the log gains `Closing open break record on shutdown` when a row is open, and the BREAK_DETECTOR fault when closing it fails (`CloseBreakLog`) |
| CollectorV2.OEEDataCollector.Shutdown | data_collector_oee_bk.py:690-723 | not running, the open break closed as `ShutdownCloseSpec` gives, the manager stopped and disconnected; the log is the opening lines, the break-closing lines, the manager's stop lines, then `Database disconnected` when the pool closes, `Shutdown complete` and the banner |
| CollectorV1.QualityReadV1 | data_collector_oee.py:412-437 | nothing iff a read raises; otherwise the fixed-boundary shift and an hour in 0..7 |
| CollectorV1.LaterVersionStoresSubset | data_collector_oee.py:539-544 | the later collector stores a subset of the earlier one's cycle rows, and the same rows outside the break window without pass-throughs |
| CollectorV1.OEEDataCollector.constructor | data_collector_oee.py:234-240 | a new collector has empty tables and a valid detector with the late clamp |
| CollectorV1.OEEDataCollector.StoreCycleTimes | data_collector_oee.py:439-463 | appends every cycle's row when the insert works, with no filter |
| CollectorV1.OEEDataCollector.StoreTaData | data_collector_oee.py:465-489 | appends the TA rows when the insert works |
| CollectorV1.OEEDataCollector.StoreQualityCounters | data_collector_oee.py:491-510 | upserts the counters when the insert works |
| CollectorV1.OEEDataCollector.CollectOnce | data_collector_oee.py:512-553 | stores all cycles without break gating, the TA rows and the counters, then runs `ProcessSpec` with the clamp |
| CollectorV1.OEEDataCollector.Shutdown | data_collector_oee.py:596-631 | not running, and the open break closed exactly when in a break with a row id |
| FullCollector.BuildNodeId | data_collector_full.py:320-332 | the id starts with `ns=` and ends with the path |
| FullCollector.NodeIdParts | data_collector_full.py:320-332 | the id is `ns={ns};s={plc}.{path}` with a PLC name, `ns={ns};s={path}` without, and the namespace reads back |
| FullCollector.ToLowerIdempotent | data_collector_full.py:431-435 | lowering twice is lowering once |
| FullCollector.FirstCategory | data_collector_full.py:433-437 | the first category in mapping order listing the state, case-insensitively, with none before it |
| FullCollector.CategorizeState | data_collector_full.py:429-438 | the name of the first category that lists the state (compared in lower case); `unknown` when no category lists it |
| FullCollector.CategorizeIgnoresCase | data_collector_full.py:431-435 | the category does not depend on the state's letter case |
| FullCollector.SafetyAreaOf | data_collector_full.py:461-466 | none iff no area lists the sequence; otherwise the first area that does |
| FullCollector.SequenceStatesFrom | data_collector_full.py:440-472 | at most one row per sequence read, each categorised `unknown` or by a mapping name |
| FullCollector.StatesRead | data_collector_full.py:445-472 | the samples whose state read returned a value, in order |
| FullCollector.SequenceStatesFollowSamples | data_collector_full.py:445-472 | the k-th row is `StateRow` (state, category, safety area) of the k-th sample whose read succeeded: exactly those samples, each once, in order |
| FullCollector.ReadSequenceStates | data_collector_full.py:440-472 | the loop returns `SequenceStatesFrom` |
| FullCollector.FullCyclesFrom | data_collector_full.py:486-512 | every cycle has a positive last time, `deviation = last - desired`, and percent 0 when desired <= 0 |
| FullCollector.FullCyclesFollowSamples | data_collector_full.py:502-509 | a cycle is recorded exactly for the samples with a readable, positive last time and a readable desired time, in order, the k-th row carrying the k-th such sample's sequence, last cycle time as `cycle_time` and desired time |
| FullCollector.Accepted | data_collector_full.py:502 | the samples that pass the `last > 0` guard |
| FullCollector.ReadCycleTimesFull | data_collector_full.py:486-512 | the loop returns `FullCyclesFrom` |
| ExtractCt.UnitOf | extract_ct.py:67-74 | m, h and d in either case are the units, and nothing else |
| ExtractCt.LeadingDigits | extract_ct.py:56 | the longest run of leading digits |
| ExtractCt.MatchLookback | extract_ct.py:56-61 | matches iff the text is digits, optional whitespace and one unit letter |
| ExtractCt.ParseLookback | extract_ct.py:59-74 | succeeds iff the pattern matches the stripped text, with a whole number of minutes; otherwise the error message |
| ExtractCt.MatchLookbackOf | extract_ct.py:56-66 | digits, optional whitespace and a unit letter match, reading the digits (leading zeros included) as the amount |
| ExtractCt.MatchLookbackShape | extract_ct.py:56-66 | whatever the pattern matches is digits, whitespace and a unit letter, read as that amount |
| ExtractCt.LookbackRoundTrip | extract_ct.py:59-74 | any digit run with padding, whitespace and a unit parses to its decimal value in that unit |
| ExtractCt.DaysInMonth | extract_ct.py:77-92 | month lengths, with February 29 days in leap years |
| ExtractCt.Field | extract_ct.py:79-82 | a fixed-width digit field's value |
| ExtractCt.ParseWith | extract_ct.py:86-88 | `strptime` with one format: the text has that width and its fields form a valid date |
| ExtractCt.ParseDatetime | extract_ct.py:77-92 | the first of the three formats that parses, and an error iff none does |
| ExtractCt.FormatsExclusive | extract_ct.py:79-83 | at most one format fits a given text |
| ExtractCt.Padded | extract_ct.py:79-83 | a zero-padded field has the width asked for |
| ExtractCt.Pow10 | extract_ct.py:79-83 | powers of ten are positive |
| ExtractCt.PaddedRoundTrip | extract_ct.py:79-83 | a zero-padded field reads back as its value |
| ExtractCt.FieldOfPadded | extract_ct.py:79-83 | a padded field inside a formatted text reads back |
| ExtractCt.DateFields | extract_ct.py:82 | the date part of a formatted text reads back |
| ExtractCt.ClockFields | extract_ct.py:80-81 | the clock part of a formatted text reads back |
| ExtractCt.MinuteClockFields | extract_ct.py:80-81 | the clock part of a text formatted to the minute reads back |
| ExtractCt.ParseDatetimeRoundTrip | extract_ct.py:77-92 | a valid date and time formatted with seconds parses back to itself, and formatted to the minute parses back with the seconds 0 |
| ExtractCt.ParseDateRoundTrip | extract_ct.py:77-92 | formatting a valid date parses back to its midnight |
| ExtractCt.DaysBeforeMonth | extract_ct.py:77-92 | the days of the year before a month |
| ExtractCt.ResolveTimeRange | extract_ct.py:243-261 | `--time` excludes `--from`/`--to`; those two go together; one form is required; each error is its own message; a lookback beyond the largest `timedelta` or reaching before 0001-01-01 raises `OverflowError`, and every other valid lookback gives the range from `now - delta` to `now` |
| ExtractCt.LookbackRangeEndsNow | extract_ct.py:252-254 | a lookback range ends now and starts that many seconds before, never before the earliest `datetime` |
| ExtractCt.Decimals | extract_ct.py:188 | the ids written as decimals, one per id |
| ExtractCt.CompactStamp | extract_ct.py:189 | `strftime("%Y%m%d_%H%M%S")` is 15 characters with `_` at position 8 |
| ExtractCt.CompactStampFields | extract_ct.py:189 | every field of the stamp reads back as the instant's own |
| ExtractCt.BuildOutputFilename | extract_ct.py:186-190 | the name is the prefix `cycle_times_seq` with the joined ids and `_`, then the label, then `_`, the stamp of now and `.csv` |
| ExtractCt.OutputFilenameIds | extract_ct.py:186-190 | the name's id segment splits at `_` back into the requested ids, in order, each all digits |
| ExtractCt.IdsAfterPrefix | extract_ct.py:188-190 | any name starting with `cycle_times_seq` and the joined ids gives those ids back |
| ExtractCt.OutputFilenameStamp | extract_ct.py:189-190 | the stamp before `.csv` reads back as the year, month, day, hour, minute and second of now |
| ExtractCt.SequencePartRecoversIds | extract_ct.py:188 | the ids joined with `_` split back into the ids, in the given order |
| ExtractCt.PathJoin | extract_ct.py:268-271 | `os.path.join`: an absolute name is kept as is; a relative name is the end of the result, preceded by the directory or the directory and one `/`, so that a non-empty directory is always followed by `/` |
| ExtractCt.ResolveOutputPath | extract_ct.py:264-271 | a bare name goes under the reports directory, a path with a directory is kept as is, and no name means the generated one |
| ExtractCt.BareNameUnderReports | extract_ct.py:266-268 | a name without a slash ends up under the reports directory |
| ExtractCt.LagFilter | extract_ct.py:119-139 | the rows the LAG rule keeps, in order |
| ExtractCt.LagKeeps | extract_ct.py:131-136 | the first row is kept; a row right after one of its own sequence is kept iff its cycle time differs from that row's |
| ExtractCt.Deduplicate | extract_ct.py:119-139 | the one pass returns no more rows than it reads and always keeps the first row |
| ExtractCt.LastSeenIsLag | extract_ct.py:123-130 | the map the single pass keeps holds each sequence's previous row |
| ExtractCt.KeepIsLag | extract_ct.py:131-136 | the pass keeps a row iff it is its sequence's first or its cycle time differs from the previous one |
| ExtractCt.Nearest | extract_ct.py:123-130 | the previous row of the same sequence, if any |
| ExtractCt.DeduplicateIsLagFilter | extract_ct.py:119-139 | the one-pass de-duplication equals the LAG filter |
| ExtractCt.LastSeenOfDeduplicate | extract_ct.py:119-139 | after de-duplication each sequence's last kept row has its last row's cycle time |
| ExtractCt.DeduplicateIdempotent | extract_ct.py:119-139 | de-duplicating twice is de-duplicating once |
| ExtractCt.FirstOfSequenceKept | extract_ct.py:134-135 | each sequence's first row is kept |
| ExtractCt.LagFilterKeeps | extract_ct.py:131-136 | a row that is its sequence's first or differs from the previous one is in the output |
| ExtractCt.LagKeepsPrefix | extract_ct.py:131-136 | whether a row is kept depends only on the rows before it |
| ExtractCt.LagFilterExactly | extract_ct.py:131-136 | the output is the rows at increasing positions, and a position is among them iff its row is its sequence's first or differs from the previous one |
| ExtractCt.Selected | extract_ct.py:109-118 | the rows of the requested sequences within the time range, and only those |
| ExtractCt.QueryRowsRequested | extract_ct.py:109-139 | every row the query returns belongs to a requested sequence and lies in the range |
| ExtractCt.CycleTimeQuery | extract_ct.py:109-139 | the query returns no more rows than the table holds, and the first selected row is always returned because `LAG` runs over the selected rows only |
| ExtractCt.DeduplicateSubset | extract_ct.py:119-139 | every row de-duplication returns is an input row (the order is kept by `LagFilterExactly` with `DeduplicateIsLagFilter`) |
| ReportGenerator.ColorByOee | report_generator.py:373-380 | good for >= 85, warning for 60 to 85, bad below 60 |
| ReportGenerator.ColorMonotone | report_generator.py:373-380 | a higher OEE never gets a worse colour |
| ReportGenerator.InsertBar | report_generator.py:395-398 | inserting adds one bar |
| ReportGenerator.InsertBarPermutes | report_generator.py:395-398 | inserting adds exactly that bar and loses none |
| ReportGenerator.InsertBarSorted | report_generator.py:395-398 | inserting into bars sorted by OEE keeps them sorted |
| ReportGenerator.SortByOee | report_generator.py:395-398 | the chart order is ascending by OEE and a permutation of the input |
| ReportGenerator.InsertBarStable | report_generator.py:395-398 | inserting puts a bar ahead of those with equal OEE and keeps their order |
| ReportGenerator.SortByOeeStable | report_generator.py:395-398 | the sort is stable: bars with equal OEE keep their input order |
| ReportGenerator.ChartRows | report_generator.py:395-400 | worst first, each name still paired with its own value, coloured by that value |
| ReportGenerator.ShiftDefFor | report_generator.py:110-121 | the Friday table iff ISO day 5, with the same boundaries the collector uses for shifts 1 and 2 |
| ReportGenerator.OnlyThirdShiftOvernight | report_generator.py:110-121 | a shift is overnight (end < start) iff it is shift 3, on either table |
| ReportGenerator.OvernightWindowAdmitsAll | report_generator.py:186-195 | the overnight window as written (`OR`) admits every instant |
| ReportGenerator.IsNormal | report_generator.py:187 | `WHEN end >= start`: a shift with equal bounds is normal, and one that is not ends before it starts |
| ReportGenerator.InShiftWindowAsWritten | report_generator.py:186-195 | the written `CASE` admits every instant of the intended window, and on a normal shift exactly those |
| ReportGenerator.InShiftWindow | report_generator.py:186-195 | the intended window starts at the shift start on the shift date and lasts less than a day |
| ReportGenerator.MorningRowInNightShift | report_generator.py:186-195 | a row at 10:00 on a Monday counts for that Monday's night shift as written, and not under the corrected window |
| ReportGenerator.ShiftWindowsDisjoint | report_generator.py:186-195 | under the corrected window, two shifts of one day never share an instant |
| ReportGenerator.WindowMatchesCollectorShift | report_generator.py:186-195 | a row the report counts for shift 1 or 2 of a day is one the collector files under that shift |
| ReportGenerator.WindowsAgreeOnNormalShifts | report_generator.py:186-195 | the written and the corrected windows agree on normal shifts |
| ReportGenerator.IsoDay | report_generator.py:771 | `isoweekday()` of a date is in 1..7 |
| ReportGenerator.WorkingDays | report_generator.py:767-775 | exactly the dates in [from, to] with ISO weekday <= 5, each with its weekday, in increasing order |
| ReportGenerator.ListNextDay | report_generator.py:767-775 | examining one more day keeps the list exactly the working days so far, in increasing order |
| ReportGenerator.WeekHasFiveWorkingDays | report_generator.py:767-775 | a Monday-to-Sunday week has exactly Monday to Friday as working days |
| ReportGenerator.ResolvePeriod | report_generator.py:893-905 | given dates are used as they are; `--week-of` gives the Monday of that week to Sunday, containing the date; the default ends before today, within the last week |
| ReportGenerator.DefaultIsPreviousWeek | report_generator.py:901-905 | the default period ends the day before this week's Monday |
| ReportGenerator.BreakStatus | report_generator.py:305-310 | 'Early + Late' iff both minutes > 0, 'Early' iff only early, 'Late' iff only late, else 'On time' |
| ReportGenerator.StatusMatchesLoggedCompliance | report_generator.py:305-310 | with the clamping collector the report flags late iff the log said late; without the clamp they disagree exactly at one minute late |
| ReportGenerator.TotalParts | report_generator.py:536-541 | for counts, the total is at least each part and 0 only when every part is 0 or missing |
| ReportGenerator.TotalPartsIsQualityDenominator | report_generator.py:536-544 | the table's total is the quality figure's denominator: 100 % with no parts, otherwise good parts times 100 over the total |
| ReportGenerator.QualityPercent | report_generator.py:340-345 | 100 when there are no parts; otherwise good parts as a percentage of all, in 0..100, and 100 iff no reject or rework |

## Left out

- Concurrency: `asyncio` tasks, `sleep`, `cancel` and the 30 s monitor loop. One health check is the step `MonitorTick`, and retry loops are fed a finite script of attempt outcomes.
- All OPC UA, asyncpg and psycopg2 calls. Reads are `Reading` inputs, and database calls are success flags.
- Exception texts are not modelled: a fault's message is the fixed prefix plus the error text passed in.
- ExtractCt.ResolveTimeRange: the `OverflowError` of `timedelta(...)` and of `now - delta` are one error, `LookbackOverflow`; Python's messages differ between the two.
- Floating point: ms-to-s division, `round()`, and chart scaling. Cycle times stay in integer milliseconds, and the rounded TA freeze key is an integer pair.
- `deviation_percent` is modelled as an exact real.
- ExtractCt.ParseWith: `strptime` also accepts fields without zero padding. The model accepts only the zero-padded, fixed-width form.
- ExtractCt.ParseLookback: `\d` and `\s` are restricted to ASCII digits and ASCII whitespace.
- Text.ToLowerChar: lowers only A-Z. Python's `lower()` also lowers non-ASCII letters.
- Text.ToLower: lowers character by character on ASCII. Python's `lower()` also lowers non-ASCII letters and can change the length (`'İ'.lower()` has two characters).
- BreakDetection.ScheduledTimeIsMatched: the lookup as written is proved to find the break only when no schedule entry lies within five minutes of midnight; near midnight it can miss it (`MidnightBreakMissed`).
- CollectorV2.QualityRead: the counter node names are built from the slot, including hour -1 on Friday; whether the PLC has such a node is not modelled, its read is an input like any other.
- The SQL query behind the CSV extractor is modelled as a filter and the LAG rule over rows already in `(time, sequence_id)` order. The CSV writing is not modelled.
- The weekly report's per-shift aggregates are not modelled: OEE ratios, `PERCENTILE_CONT`, and the quality summary's MAX per (shift, hour) slot. Neither are the matplotlib and reportlab rendering, the PDF story or SMTP email.
- `OPCUATroubleshooter` in data_collector_full.py is not modelled, because it is network and socket diagnostics. Neither are the full collector's database stores or its configuration loading.
- The `str.format` node-id templates of data_collector_full.py are not modelled. `BuildNodeId` takes the resolved path.
- The collectors' `run` loops, startup banners, signal handling, and the creation of the connection manager are not modelled.
- The logging of data_collector_oee.py goes to the standard library logger, which is not modelled. Neither are the emoji prefixes of log lines.
- `setup_logging` and its handlers are not modelled.
- data_collector.py, migration_connection_events.py and generate_certs.py are not part of this model.
- The model does not fix a date format for the report's `date.fromisoformat`, so `ReportGenerator.ResolvePeriod` takes already-parsed dates.

## Findings

| source | as written | input that shows it | evidently intended | confidence | as-written member | corrected member |
|---|---|---|---|---|---|---|
| data_collector_oee_bk.py:367-385 | on Friday the hour index is still counted from 14:00 and 22:00, although shifts 2 and 3 start at 13:30 and 21:00 | Friday 13:45 gives (2, -1) | count from the running shift's start, giving (2, 0) | high, not executed | Shifts.FridayHourIndexNegative | Shifts.ShiftAndHour |
| data_collector_oee_bk.py:376-382 | after midnight the hour index of shift 3 is counted from 22:00, also when the night shift began on Friday at 21:00 | Saturday 01:00 gives (3, 3) after four hours of the shift | count from Friday's 21:00, giving (3, 4) | medium, not executed | Shifts.SaturdayMorningMiscounted | Shifts.ShiftAndHour |
| data_collector_oee_bk.py:111-115 | the 5-minute buffer is applied with `.time()`, so the widened window of a break near midnight wraps around and matches nothing | a shift-3 break 00:00-00:15, looked up at 00:05 | the widened window on the real time line | medium, not executed | BreakDetection.MidnightBreakMissed | BreakDetection.FindScheduledBreak |
| report_generator.py:186-195 | for an overnight shift the window is `time >= D + start OR time < D + 1 day + end`, which every row satisfies | a row at 10:00 on a Monday counts for that Monday's 22:00-06:00 shift | `AND`: from the start on D to the end on D + 1 | high, not executed | ReportGenerator.OvernightWindowAdmitsAll | ReportGenerator.ShiftWindowsDisjoint |
