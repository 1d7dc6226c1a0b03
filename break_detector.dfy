/** `BreakDetector`: recognises a production break from TA values that stop
    changing, matches it against the break schedule and keeps one row of
    the `actual_breaks` table open for its duration.

    Two versions exist. `data_collector_oee.py` clamps the late-end minutes
    under the 2-minute tolerance to 0, `data_collector_oee_bk.py` does not;
    the constant `clampLate` of a detector says which one it is. The table
    rows are kept in the detector (`breaks`, row `k` has id `k + 1`), and a
    database failure is an input of the operation that meets it. */
module BreakDetection {
  import opened Wrappers
  import opened Clock
  import opened Shifts
  import opened PlcData
  import Text

  /** `FREEZE_THRESHOLD` */
  const FreezeThreshold: nat := 3

  /** `EARLY_LATE_TOLERANCE_MIN` */
  const ToleranceMinutes: nat := 2

  /** The 5-minute buffer around a scheduled break, in seconds. */
  const BufferSeconds: int := 300

  /** A row of `break_definitions`. */
  datatype ScheduledBreak = ScheduledBreak(
    id: int, dayOfWeek: int, shiftNumber: int, breakName: string,
    startTime: TimeOfDay, endTime: TimeOfDay, durationMinutes: int)

  /** The rounded `(ta_percent, fault_time_sec)` pair compared between
      cycles. */
  datatype FreezeKey = FreezeKey(taPercent: int, faultTime: int)

  function KeyOf(r: TaReading): FreezeKey
  {
    FreezeKey(r.taPercent, r.faultTime)
  }

  // ---------------------------------------------------------------------------
  // Loading the schedule

  /** `now.weekday() + 1`: the table's day numbering, 1 = Monday. */
  function DayOfWeek(weekday: int): int { weekday + 1 }

  /** `((now.weekday() + 1) % 7) + 1`: the day after today, in the same
      numbering, so that Sunday (7) is followed by Monday (1). */
  function TomorrowDow(weekday: int): (d: int)
    requires 0 <= weekday < 7
    ensures 1 <= d <= 7
    ensures d == if DayOfWeek(weekday) == 7 then 1 else DayOfWeek(weekday) + 1
  {
    ((weekday + 1) % 7) + 1
  }

  predicate SortedByStart(s: seq<ScheduledBreak>)
  {
    forall i, j :: 0 <= i < j < |s| ==> s[i].startTime <= s[j].startTime
  }

  function InsertByStart(b: ScheduledBreak, s: seq<ScheduledBreak>): (r: seq<ScheduledBreak>)
    ensures |r| == |s| + 1
  {
    if s == [] || b.startTime < s[0].startTime then [b] + s
    else [s[0]] + InsertByStart(b, s[1..])
  }

  lemma {:induction false} InsertByStartPermutes(b: ScheduledBreak, s: seq<ScheduledBreak>)
    ensures multiset(InsertByStart(b, s)) == multiset(s) + multiset{b}
  {
    if s != [] && b.startTime >= s[0].startTime {
      InsertByStartPermutes(b, s[1..]);
      assert s == [s[0]] + s[1..];
    }
  }

  lemma {:induction false} InsertByStartSorted(b: ScheduledBreak, s: seq<ScheduledBreak>)
    requires SortedByStart(s)
    ensures SortedByStart(InsertByStart(b, s))
  {
    if s != [] && b.startTime >= s[0].startTime {
      var tail := s[1..];
      var rest := InsertByStart(b, tail);
      InsertByStartSorted(b, tail);
      // the new head of the tail is `b` or the old one, both after `s[0]`
      assert rest[0] == b || rest[0] == s[1];
      var r := [s[0]] + rest;
      forall i, j | 0 <= i < j < |r|
        ensures r[i].startTime <= r[j].startTime
      {
        if i > 0 {
          assert r[i] == rest[i - 1] && r[j] == rest[j - 1];
        } else {
          assert r[j] == rest[j - 1];
          assert rest[0].startTime <= rest[j - 1].startTime;
        }
      }
    }
  }

  /** `ORDER BY start_time`. */
  function SortByStart(s: seq<ScheduledBreak>): (r: seq<ScheduledBreak>)
    ensures SortedByStart(r)
    ensures multiset(r) == multiset(s)
  {
    if s == [] then []
    else
      var rest := SortByStart(s[1..]);
      InsertByStartSorted(s[0], rest);
      InsertByStartPermutes(s[0], rest);
      assert multiset(s) == multiset(s[1..]) + multiset{s[0]} by {
        assert s == [s[0]] + s[1..];
      }
      InsertByStart(s[0], rest)
  }

  /** `SELECT DISTINCT ... WHERE day_of_week IN ($1, $2)`. */
  function DistinctOnDays(table: seq<ScheduledBreak>, today: int, tomorrow: int): (r: seq<ScheduledBreak>)
    ensures forall b :: b in multiset(r) <==> b in table && (b.dayOfWeek == today || b.dayOfWeek == tomorrow)
    ensures forall b :: multiset(r)[b] <= 1
  {
    if table == [] then []
    else
      var rest := DistinctOnDays(table[1..], today, tomorrow);
      var b := table[0];
      assert table == [b] + table[1..];
      if (b.dayOfWeek == today || b.dayOfWeek == tomorrow) && b !in multiset(rest) then [b] + rest else rest
  }

  /** The schedule `load_scheduled_breaks` keeps: today's and tomorrow's
      breaks, each once, in order of start time. */
  function SelectSchedule(table: seq<ScheduledBreak>, weekday: int): (r: seq<ScheduledBreak>)
    requires 0 <= weekday < 7
    ensures SortedByStart(r)
    ensures forall b :: b in r <==>
      b in table && (b.dayOfWeek == DayOfWeek(weekday) || b.dayOfWeek == TomorrowDow(weekday))
    ensures forall b :: multiset(r)[b] <= 1
  {
    var rows := DistinctOnDays(table, DayOfWeek(weekday), TomorrowDow(weekday));
    var r := SortByStart(rows);
    assert forall b :: b in r <==> b in multiset(r);
    r
  }

  // ---------------------------------------------------------------------------
  // Matching the schedule

  /** The three windows the detector matches a time against: the buffered
      window (`_find_scheduled_break`, as intended), the buffered window as
      that code computes it, wrapped at midnight by `.time()`, and the exact
      window (`is_in_scheduled_break_time`). */
  datatype Window = Buffered | BufferedWrapped | Exact

  predicate Matches(w: Window, b: ScheduledBreak, tod: TimeOfDay)
  {
    b.shiftNumber == FixedShift(tod) &&
    match w
    case Buffered => b.startTime - BufferSeconds <= tod <= b.endTime + BufferSeconds
    case BufferedWrapped =>
      (b.startTime - BufferSeconds) % SecondsPerDay <= tod <= (b.endTime + BufferSeconds) % SecondsPerDay
    case Exact => b.startTime <= tod <= b.endTime
  }

  /** Position of the first entry matching in window `w`. */
  function FirstMatch(schedule: seq<ScheduledBreak>, tod: TimeOfDay, w: Window): (i: nat)
    ensures i <= |schedule|
    ensures i < |schedule| ==> Matches(w, schedule[i], tod)
    ensures forall j :: 0 <= j < i ==> !Matches(w, schedule[j], tod)
  {
    if schedule == [] then 0
    else if Matches(w, schedule[0], tod) then 0
    else 1 + FirstMatch(schedule[1..], tod, w)
  }

  function FirstIn(schedule: seq<ScheduledBreak>, tod: TimeOfDay, w: Window): (r: Option<ScheduledBreak>)
    ensures r.None? <==> forall k :: 0 <= k < |schedule| ==> !Matches(w, schedule[k], tod)
    ensures r.Some? ==>
      exists k :: 0 <= k < |schedule| && r.value == schedule[k] && Matches(w, r.value, tod)
        && forall j :: 0 <= j < k ==> !Matches(w, schedule[j], tod)
  {
    var i := FirstMatch(schedule, tod, w);
    if i < |schedule| then Some(schedule[i]) else None
  }

  /** What `_find_scheduled_break` is meant to compute: the first entry of
      the current shift (fixed 06:00/14:00/22:00 boundaries) whose window,
      widened by five minutes on each side, contains the time. */
  function FindScheduledBreak(schedule: seq<ScheduledBreak>, tod: TimeOfDay): (r: Option<ScheduledBreak>)
    ensures r.None? <==> forall k :: 0 <= k < |schedule| ==> !Matches(Buffered, schedule[k], tod)
    ensures r.Some? ==>
      r.value in schedule && r.value.shiftNumber == FixedShift(tod)
        && r.value.startTime - 300 <= tod <= r.value.endTime + 300
  {
    FirstIn(schedule, tod, Buffered)
  }

  /** `_find_scheduled_break` as written: the widened bounds are taken modulo
      a day, so a break within five minutes of midnight gets a window that
      wraps. */
  function FindScheduledBreakAsWritten(schedule: seq<ScheduledBreak>, tod: TimeOfDay): (r: Option<ScheduledBreak>)
    ensures r.None? <==> forall k :: 0 <= k < |schedule| ==> !Matches(BufferedWrapped, schedule[k], tod)
    ensures r.Some? ==>
      r.value in schedule && r.value.shiftNumber == FixedShift(tod)
        && (r.value.startTime - 300) % SecondsPerDay <= tod <= (r.value.endTime + 300) % SecondsPerDay
  {
    FirstIn(schedule, tod, BufferedWrapped)
  }

  /** `is_in_scheduled_break_time`: some entry of the current shift
      contains the time, without a buffer. */
  function IsInScheduledBreakTime(schedule: seq<ScheduledBreak>, tod: TimeOfDay): (r: bool)
    ensures r <==>
      exists k :: 0 <= k < |schedule| && schedule[k].shiftNumber == FixedShift(tod)
        && schedule[k].startTime <= tod <= schedule[k].endTime
  {
    var found := FirstIn(schedule, tod, Exact);
    assert found.None? ==> forall k :: 0 <= k < |schedule| ==> !Matches(Exact, schedule[k], tod);
    found.Some?
  }

  /** Inside an exact scheduled window a freeze always finds its break with
      the corrected lookup; the code's lookup finds it too when no entry
      lies within five minutes of midnight. */
  lemma ScheduledTimeIsMatched(schedule: seq<ScheduledBreak>, tod: TimeOfDay)
    requires IsInScheduledBreakTime(schedule, tod)
    ensures FindScheduledBreak(schedule, tod).Some?
    ensures (forall k :: 0 <= k < |schedule| ==>
               schedule[k].startTime >= BufferSeconds && schedule[k].endTime + BufferSeconds < SecondsPerDay)
      ==> FindScheduledBreakAsWritten(schedule, tod).Some?
  {
    var k :| 0 <= k < |schedule| && schedule[k].shiftNumber == FixedShift(tod)
      && schedule[k].startTime <= tod <= schedule[k].endTime;
    assert Matches(Buffered, schedule[k], tod);
    if forall k :: 0 <= k < |schedule| ==>
         schedule[k].startTime >= BufferSeconds && schedule[k].endTime + BufferSeconds < SecondsPerDay {
      AsWrittenAgreesAwayFromMidnight(schedule, tod);
    }
  }

  /** A shift-3 break from 00:00 to 00:15, looked up at 00:05: the code as
      written misses it (its window runs from 23:55 back to 00:20), although
      the time is inside the scheduled break itself. */
  lemma MidnightBreakMissed()
    ensures var b := ScheduledBreak(1, 1, 3, "Night break", 0, 900, 15);
      FindScheduledBreakAsWritten([b], 300).None?
      && FindScheduledBreak([b], 300) == Some(b)
      && IsInScheduledBreakTime([b], 300)
  {
    var b := ScheduledBreak(1, 1, 3, "Night break", 0, 900, 15);
    assert Matches(Buffered, b, 300);
    assert !Matches(BufferedWrapped, b, 300);
  }

  /** Away from midnight the two readings of the buffered window agree. */
  lemma {:induction false} AsWrittenAgreesAwayFromMidnight(schedule: seq<ScheduledBreak>, tod: TimeOfDay)
    requires forall k :: 0 <= k < |schedule| ==>
      schedule[k].startTime >= BufferSeconds && schedule[k].endTime + BufferSeconds < SecondsPerDay
    ensures FindScheduledBreakAsWritten(schedule, tod) == FindScheduledBreak(schedule, tod)
  {
    assert FirstMatch(schedule, tod, BufferedWrapped) == FirstMatch(schedule, tod, Buffered) by {
      FirstMatchAgrees(schedule, tod);
    }
  }

  lemma {:induction false} FirstMatchAgrees(schedule: seq<ScheduledBreak>, tod: TimeOfDay)
    requires forall k :: 0 <= k < |schedule| ==>
      schedule[k].startTime >= BufferSeconds && schedule[k].endTime + BufferSeconds < SecondsPerDay
    ensures FirstMatch(schedule, tod, BufferedWrapped) == FirstMatch(schedule, tod, Buffered)
  {
    if schedule != [] {
      var b := schedule[0];
      assert (b.startTime - BufferSeconds) % SecondsPerDay == b.startTime - BufferSeconds;
      assert (b.endTime + BufferSeconds) % SecondsPerDay == b.endTime + BufferSeconds;
      assert Matches(BufferedWrapped, b, tod) == Matches(Buffered, b, tod);
      FirstMatchAgrees(schedule[1..], tod);
    }
  }

  // ---------------------------------------------------------------------------
  // Freeze detection

  /** `prev_ta` and `frozen_count`. */
  datatype FreezeState = FreezeState(prevTa: map<int, FreezeKey>, frozenCount: nat)

  datatype FreezeCheck = FreezeCheck(state: FreezeState, frozen: bool)

  /** `check_frozen`: only the first reading of the batch is looked at. A
      known sequence with the same key counts one more frozen cycle, with a
      different key restarts the count; a sequence seen for the first time
      leaves the count alone. The key is always remembered. */
  function CheckFrozenStep(st: FreezeState, batch: seq<TaReading>): (r: FreezeCheck)
    ensures batch == [] ==> r == FreezeCheck(st, false)
    ensures r.frozen <==> batch != [] && r.state.frozenCount >= FreezeThreshold
    ensures batch != [] ==> r.state.prevTa == st.prevTa[batch[0].sequenceId := KeyOf(batch[0])]
    ensures batch != [] && batch[0].sequenceId in st.prevTa && st.prevTa[batch[0].sequenceId] == KeyOf(batch[0])
      ==> r.state.frozenCount == st.frozenCount + 1
    ensures batch != [] && batch[0].sequenceId in st.prevTa && st.prevTa[batch[0].sequenceId] != KeyOf(batch[0])
      ==> r.state.frozenCount == 0
    ensures batch != [] && batch[0].sequenceId !in st.prevTa ==> r.state.frozenCount == st.frozenCount
  {
    if batch == [] then FreezeCheck(st, false)
    else
      var id, key := batch[0].sequenceId, KeyOf(batch[0]);
      var count :=
        if id in st.prevTa then (if st.prevTa[id] == key then st.frozenCount + 1 else 0)
        else st.frozenCount;
      FreezeCheck(FreezeState(st.prevTa[id := key], count), count >= FreezeThreshold)
  }

  /** Feeding `n` batches that start with the same reading. */
  function FeedSame(st: FreezeState, r: TaReading, n: nat): FreezeCheck
  {
    if n == 0 then FreezeCheck(st, false)
    else CheckFrozenStep(FeedSame(st, r, n - 1).state, [r])
  }

  /** After a change (or from a fresh detector) it takes four identical
      readings in a row to report a freeze: the first only records the new
      value, the next three raise the count to the threshold. */
  lemma {:induction false} FrozenAfterFourIdentical(st: FreezeState, r: TaReading, n: nat)
    requires n >= 1
    requires (r.sequenceId in st.prevTa && st.prevTa[r.sequenceId] != KeyOf(r))
      || (r.sequenceId !in st.prevTa && st.frozenCount == 0)
    ensures FeedSame(st, r, n).state.frozenCount == n - 1
    ensures FeedSame(st, r, n).state.prevTa[r.sequenceId] == KeyOf(r)
    ensures FeedSame(st, r, n).frozen <==> n >= 4
  {
    if n > 1 {
      FrozenAfterFourIdentical(st, r, n - 1);
    }
  }

  /** Only the first reading of a batch matters. */
  lemma OnlyFirstReadingCounts(st: FreezeState, batch: seq<TaReading>)
    requires batch != []
    ensures CheckFrozenStep(st, batch) == CheckFrozenStep(st, batch[..1])
  {
  }

  // ---------------------------------------------------------------------------
  // Break record arithmetic

  function Max0(x: int): nat { if x < 0 then 0 else x }

  /** `max(0, int(diff_seconds // 60))`, forced to 0 under the tolerance:
      the whole minutes by which the break started before its scheduled
      start, 0 or at least 2. */
  function EarlyStartMinutes(scheduledStart: TimeOfDay, actual: TimeOfDay): (m: nat)
    ensures m == 0 || m >= ToleranceMinutes
    ensures m == 0 <==> scheduledStart - actual < 120
    ensures m > 0 ==> m * 60 <= scheduledStart - actual < m * 60 + 60
  {
    var early := Max0((scheduledStart - actual) / 60);
    if early < ToleranceMinutes then 0 else early
  }

  /** The whole minutes by which the break ended after its scheduled end;
      clamped to 0 under the tolerance when `clamp` holds
      (`data_collector_oee.py`), not otherwise (`data_collector_oee_bk.py`). */
  function LateEndMinutes(clamp: bool, scheduledEnd: TimeOfDay, actual: TimeOfDay): (m: nat)
    ensures m > 0 ==> m * 60 <= actual - scheduledEnd < m * 60 + 60
    ensures clamp ==> (m == 0 <==> actual - scheduledEnd < 120)
    ensures !clamp ==> (m == 0 <==> actual - scheduledEnd < 60)
  {
    var late := Max0((actual - scheduledEnd) / 60);
    if clamp && late < ToleranceMinutes then 0 else late
  }

  /** `int((actual_end - start_time).total_seconds() // 60)`. */
  function DurationMinutes(start: int, end: int): (m: int)
    ensures m * 60 <= end - start < m * 60 + 60
    ensures start <= end ==> m >= 0
  {
    (end - start) / 60
  }

  datatype Compliance = OnTime | LateBy(minutes: nat)

  /** The compliance `_update_break_end` reports: late exactly when the late
      minutes reach the tolerance. */
  function ComplianceOf(late: nat): (c: Compliance)
    ensures c.LateBy? <==> late >= ToleranceMinutes
    ensures c.LateBy? ==> c.minutes == late
  {
    if late >= ToleranceMinutes then LateBy(late) else OnTime
  }

  function ComplianceText(c: Compliance): string
  {
    match c
    case OnTime => "on time"
    case LateBy(m) => "late by " + Text.NatToDecimal(m) + " min"
  }

  /** The two versions report the same compliance; the stored late minutes
      differ only when the break ended one minute late, which one version
      stores as 1 and the other as 0. */
  lemma VersionsDifferOnlyAtOneMinute(scheduledEnd: TimeOfDay, actual: TimeOfDay)
    ensures ComplianceOf(LateEndMinutes(false, scheduledEnd, actual)) == ComplianceOf(LateEndMinutes(true, scheduledEnd, actual))
    ensures LateEndMinutes(false, scheduledEnd, actual) != LateEndMinutes(true, scheduledEnd, actual)
      <==> LateEndMinutes(false, scheduledEnd, actual) == 1
  {
  }

  /** The end of a break: when, how long, how late. */
  datatype Closing = Closing(endTime: int, durationMinutes: int, lateEndMinutes: nat)

  /** A row of `actual_breaks`. */
  datatype BreakRecord = BreakRecord(
    id: nat, startTime: int, shiftNumber: int, isScheduled: bool,
    scheduledBreakId: int, earlyStartMinutes: nat, closing: Option<Closing>)

  /** `_insert_break_start`: the row opened at `now`. */
  function OpenRecord(id: nat, b: ScheduledBreak, now: int): (r: BreakRecord)
    ensures r.closing.None? && r.startTime == now && r.isScheduled && r.scheduledBreakId == b.id
    ensures r.earlyStartMinutes == EarlyStartMinutes(b.startTime, TimeOf(now))
  {
    BreakRecord(id, now, b.shiftNumber, true, b.id, EarlyStartMinutes(b.startTime, TimeOf(now)), None)
  }

  /** `_update_break_end`: the row closed at `now`. */
  function CloseRecord(clamp: bool, rec: BreakRecord, b: ScheduledBreak, now: int): (r: BreakRecord)
    ensures r.(closing := rec.closing) == rec
    ensures r.closing.Some? && r.closing.value.endTime == now
    ensures r.closing.value.durationMinutes == DurationMinutes(rec.startTime, now)
    ensures r.closing.value.lateEndMinutes == LateEndMinutes(clamp, b.endTime, TimeOf(now))
  {
    rec.(closing := Some(Closing(now, DurationMinutes(rec.startTime, now), LateEndMinutes(clamp, b.endTime, TimeOf(now)))))
  }

  /** `_update_break_end` on the table: it raises (`None`) when the database
      fails, when no row has the id, or when there is no scheduled break to
      compare with; otherwise only that row changes. */
  function CloseBreak(clamp: bool, breaks: seq<BreakRecord>, id: nat, scheduled: Option<ScheduledBreak>,
                      now: int, dbOk: bool): (r: Option<seq<BreakRecord>>)
    ensures r.Some? <==> dbOk && 1 <= id <= |breaks| && scheduled.Some?
    ensures r.Some? ==>
      |r.value| == |breaks|
        && r.value[id - 1] == CloseRecord(clamp, breaks[id - 1], scheduled.value, now)
        && forall k :: 0 <= k < |breaks| && k != id - 1 ==> r.value[k] == breaks[k]
  {
    if dbOk && 1 <= id <= |breaks| && scheduled.Some? then
      Some(breaks[id - 1 := CloseRecord(clamp, breaks[id - 1], scheduled.value, now)])
    else None
  }

  // ---------------------------------------------------------------------------
  // The state machine

  /** What the detector logs, without the wording of each version. */
  datatype BreakNote =
    | ScheduleLoaded(count: nat)
    | Started(breakName: string, scheduledStart: TimeOfDay, scheduledEnd: TimeOfDay)
    | Ended(breakName: string, compliance: Compliance, at: int)
    | FrozenWithoutSchedule

  datatype DetectorState = DetectorState(
    freeze: FreezeState,
    inBreak: bool,
    breakDetectedAt: Option<int>,
    currentScheduledBreak: Option<ScheduledBreak>,
    currentBreakId: Option<nat>,
    scheduledBreaks: seq<ScheduledBreak>,
    breaks: seq<BreakRecord>,
    notes: seq<BreakNote>)

  /** Rows are numbered from 1; at most one row is open, and an open row is
      the current break's; the break fields are set together. */
  predicate Valid(s: DetectorState)
  {
    (forall k :: 0 <= k < |s.breaks| ==> s.breaks[k].id == k + 1)
    && (s.currentBreakId.Some? ==>
          s.inBreak && 1 <= s.currentBreakId.value <= |s.breaks|
          && s.breaks[s.currentBreakId.value - 1].closing.None?)
    && (forall k :: 0 <= k < |s.breaks| && s.breaks[k].closing.None? ==> s.currentBreakId == Some(k + 1))
    && (s.inBreak <==> s.currentScheduledBreak.Some?)
    && (s.inBreak <==> s.breakDetectedAt.Some?)
  }

  /** The four break fields back at rest. */
  function Reset(s: DetectorState): DetectorState
  {
    s.(inBreak := false, breakDetectedAt := None, currentScheduledBreak := None, currentBreakId := None)
  }

  datatype ProcessResult = ProcessResult(state: DetectorState, ok: bool)

  /** `process`: RUNNING to IN_BREAK when frozen and a scheduled break
      matches, looked up as the code does with the window wrapped at
      midnight (a failed insert leaves the break marked but without a row,
      and raises); IN_BREAK to RUNNING when no longer frozen (the open row is
      closed first; if that raises nothing is reset). Everything else only
      updates the freeze tracking. */
  function ProcessSpec(clamp: bool, s: DetectorState, batch: seq<TaReading>, now: int, dbOk: bool): (r: ProcessResult)
    ensures r.state.freeze == CheckFrozenStep(s.freeze, batch).state
    ensures r.state.scheduledBreaks == s.scheduledBreaks
    ensures Valid(s) && !r.ok ==> !dbOk
    ensures |s.notes| <= |r.state.notes| <= |s.notes| + 1 && r.state.notes[..|s.notes|] == s.notes
    ensures !r.ok ==> r.state.notes == s.notes
    ensures var frozen := CheckFrozenStep(s.freeze, batch).frozen;
      var found := FindScheduledBreakAsWritten(s.scheduledBreaks, TimeOf(now));
      (!s.inBreak && frozen && found.Some? ==>
         r.state.inBreak && r.state.currentScheduledBreak == found && r.state.breakDetectedAt == Some(now)
         && (dbOk ==> r.ok && r.state.currentBreakId == Some(|s.breaks| + 1)
                      && r.state.breaks == s.breaks + [OpenRecord(|s.breaks| + 1, found.value, now)]
                      && r.state.notes == s.notes + [Started(found.value.breakName, found.value.startTime, found.value.endTime)])
         && (!dbOk ==> !r.ok && r.state.currentBreakId == s.currentBreakId && r.state.breaks == s.breaks
                       && r.state.notes == s.notes))
      && (!s.inBreak && frozen && found.None? ==>
         r.state == s.(freeze := r.state.freeze, notes := s.notes + [FrozenWithoutSchedule]) && r.ok)
      && (s.inBreak && !frozen && r.ok ==>
         !r.state.inBreak && r.state.breakDetectedAt.None? && r.state.currentScheduledBreak.None?
         && r.state.currentBreakId.None?)
      && (s.inBreak == frozen ==> r.state == s.(freeze := r.state.freeze) && r.ok)
    ensures var frozen := CheckFrozenStep(s.freeze, batch).frozen;
      s.inBreak && !frozen ==>
        if s.currentBreakId.Some? then
          var closed := CloseBreak(clamp, s.breaks, s.currentBreakId.value, s.currentScheduledBreak, now, dbOk);
          (r.ok <==> closed.Some?)
          && (r.ok ==> r.state.breaks == closed.value
                       && r.state.notes == s.notes + [Ended(s.currentScheduledBreak.value.breakName,
                            ComplianceOf(LateEndMinutes(clamp, s.currentScheduledBreak.value.endTime, TimeOf(now))), now)])
          && (!r.ok ==> r.state == s.(freeze := r.state.freeze))
        else r.ok && r.state == Reset(s).(freeze := r.state.freeze)
  {
    var check := CheckFrozenStep(s.freeze, batch);
    var s1 := s.(freeze := check.state);
    if !s.inBreak && check.frozen then
      var found := FindScheduledBreakAsWritten(s.scheduledBreaks, TimeOf(now));
      if found.None? then ProcessResult(s1.(notes := s.notes + [FrozenWithoutSchedule]), true)
      else
        var b := found.value;
        var s2 := s1.(inBreak := true, breakDetectedAt := Some(now), currentScheduledBreak := Some(b));
        if !dbOk then ProcessResult(s2, false)
        else
          var id := |s.breaks| + 1;
          ProcessResult(s2.(currentBreakId := Some(id), breaks := s.breaks + [OpenRecord(id, b, now)],
                            notes := s.notes + [Started(b.breakName, b.startTime, b.endTime)]), true)
    else if s.inBreak && !check.frozen then
      if s.currentBreakId.Some? then
        var closed := CloseBreak(clamp, s.breaks, s.currentBreakId.value, s.currentScheduledBreak, now, dbOk);
        if closed.None? then ProcessResult(s1, false)
        else
          var b := s.currentScheduledBreak.value;
          var late := LateEndMinutes(clamp, b.endTime, TimeOf(now));
          ProcessResult(Reset(s1.(breaks := closed.value, notes := s.notes + [Ended(b.breakName, ComplianceOf(late), now)])), true)
      else ProcessResult(Reset(s1), true)
    else ProcessResult(s1, true)
  }

  /** `process` keeps the invariant, whichever way the database behaves. */
  lemma ProcessKeepsValid(clamp: bool, s: DetectorState, batch: seq<TaReading>, now: int, dbOk: bool)
    requires Valid(s)
    ensures Valid(ProcessSpec(clamp, s, batch, now, dbOk).state)
  {
    var r := ProcessSpec(clamp, s, batch, now, dbOk).state;
    var check := CheckFrozenStep(s.freeze, batch);
    if s.inBreak && !check.frozen && s.currentBreakId.Some? {
      var closed := CloseBreak(clamp, s.breaks, s.currentBreakId.value, s.currentScheduledBreak, now, dbOk);
      if closed.Some? {
        var id := s.currentBreakId.value;
        assert forall k :: 0 <= k < |r.breaks| ==> r.breaks[k].closing.Some? by {
          forall k | 0 <= k < |r.breaks|
            ensures r.breaks[k].closing.Some?
          {
            if k != id - 1 {
              assert r.breaks[k] == s.breaks[k];
            }
          }
        }
      }
    }
  }

  /** At most one row is open at any time a valid state can reach. */
  lemma AtMostOneOpen(s: DetectorState, i: nat, j: nat)
    requires Valid(s)
    requires i < |s.breaks| && j < |s.breaks|
    requires s.breaks[i].closing.None? && s.breaks[j].closing.None?
    ensures i == j
  {
  }

  /** The break closed when the collector shuts down mid-break. */
  datatype ShutdownClose = NothingOpen | Closed | CloseFailed

  /** The break-closing step of `shutdown`: the open row is closed exactly
      when the detector is in a break and holds a row id; the detector's
      fields are left as they are. */
  function ShutdownCloseSpec(clamp: bool, s: DetectorState, now: int, dbOk: bool): (r: (DetectorState, ShutdownClose))
    ensures r.1 != NothingOpen <==> s.inBreak && s.currentBreakId.Some?
    ensures r.0 == s.(breaks := r.0.breaks)
    ensures r.1 != Closed ==> r.0 == s
    ensures r.1 == Closed ==>
      s.currentBreakId.Some? && 1 <= s.currentBreakId.value <= |s.breaks| && s.currentScheduledBreak.Some?
      && r.0.breaks == s.breaks[s.currentBreakId.value - 1 :=
        CloseRecord(clamp, s.breaks[s.currentBreakId.value - 1], s.currentScheduledBreak.value, now)]
  {
    if s.inBreak && s.currentBreakId.Some? then
      var closed := CloseBreak(clamp, s.breaks, s.currentBreakId.value, s.currentScheduledBreak, now, dbOk);
      if closed.Some? then (s.(breaks := closed.value), Closed) else (s, CloseFailed)
    else (s, NothingOpen)
  }

  /** On a valid state, shutting down mid-break with a working database
      leaves no row open. */
  lemma ShutdownClosesEverything(clamp: bool, s: DetectorState, now: int)
    requires Valid(s) && s.inBreak && s.currentBreakId.Some?
    ensures ShutdownCloseSpec(clamp, s, now, true).1 == Closed
    ensures forall k :: 0 <= k < |s.breaks| ==> ShutdownCloseSpec(clamp, s, now, true).0.breaks[k].closing.Some?
  {
    var r := ShutdownCloseSpec(clamp, s, now, true).0;
    var id := s.currentBreakId.value;
    forall k | 0 <= k < |s.breaks|
      ensures r.breaks[k].closing.Some?
    {
      if k != id - 1 {
        assert r.breaks[k] == s.breaks[k];
      }
    }
  }

  // ---------------------------------------------------------------------------
  // The detector object

  class BreakDetector {
    /** True for the `data_collector_oee.py` version. */
    const clampLate: bool

    var prevTa: map<int, FreezeKey>
    var frozenCount: nat
    var inBreak: bool
    var breakDetectedAt: Option<int>
    var currentScheduledBreak: Option<ScheduledBreak>
    var currentBreakId: Option<nat>
    var scheduledBreaks: seq<ScheduledBreak>
    /** The `actual_breaks` rows this detector wrote. */
    var breaks: seq<BreakRecord>
    var notes: seq<BreakNote>

    function State(): DetectorState
      reads this
    {
      DetectorState(FreezeState(prevTa, frozenCount), inBreak, breakDetectedAt, currentScheduledBreak,
        currentBreakId, scheduledBreaks, breaks, notes)
    }

    constructor (clampLate: bool)
      ensures this.clampLate == clampLate
      ensures State() == DetectorState(FreezeState(map[], 0), false, None, None, None, [], [], [])
      ensures Valid(State())
    {
      this.clampLate := clampLate;
      prevTa := map[];
      frozenCount := 0;
      inBreak := false;
      breakDetectedAt := None;
      currentScheduledBreak := None;
      currentBreakId := None;
      scheduledBreaks := [];
      breaks := [];
      notes := [];
    }

    /** `load_scheduled_breaks`, with the table's rows given and `now` the
        time of the call. */
    method LoadScheduledBreaks(table: seq<ScheduledBreak>, now: int)
      modifies this
      ensures State() == old(State()).(scheduledBreaks := SelectSchedule(table, Weekday(now)),
        notes := old(notes) + [ScheduleLoaded(|SelectSchedule(table, Weekday(now))|)])
    {
      scheduledBreaks := SelectSchedule(table, Weekday(now));
      notes := notes + [ScheduleLoaded(|scheduledBreaks|)];
    }

    method IsInScheduledBreakTimeAt(now: int) returns (r: bool)
      ensures r == IsInScheduledBreakTime(scheduledBreaks, TimeOf(now))
    {
      r := IsInScheduledBreakTime(scheduledBreaks, TimeOf(now));
    }

    method CheckFrozen(batch: seq<TaReading>) returns (frozen: bool)
      modifies this
      ensures State() == old(State()).(freeze := CheckFrozenStep(old(State()).freeze, batch).state)
      ensures frozen == CheckFrozenStep(old(State()).freeze, batch).frozen
    {
      if batch == [] {
        return false;
      }
      var reference := batch[0];
      var id := reference.sequenceId;
      var currentKey := KeyOf(reference);
      if id in prevTa {
        if prevTa[id] == currentKey {
          frozenCount := frozenCount + 1;
        } else {
          frozenCount := 0;
        }
      }
      prevTa := prevTa[id := currentKey];
      return frozenCount >= FreezeThreshold;
    }

    /** `_update_break_end` against the table; `ok` is false when it raised. */
    method UpdateBreakEnd(id: nat, scheduled: Option<ScheduledBreak>, now: int, dbOk: bool) returns (ok: bool)
      modifies this`breaks
      ensures ok == CloseBreak(clampLate, old(breaks), id, scheduled, now, dbOk).Some?
      ensures ok ==> breaks == CloseBreak(clampLate, old(breaks), id, scheduled, now, dbOk).value
      ensures !ok ==> breaks == old(breaks)
    {
      if !dbOk || !(1 <= id <= |breaks|) || scheduled.None? {
        return false;
      }
      breaks := breaks[id - 1 := CloseRecord(clampLate, breaks[id - 1], scheduled.value, now)];
      return true;
    }

    method Process(batch: seq<TaReading>, now: int, dbOk: bool) returns (ok: bool)
      modifies this
      ensures State() == ProcessSpec(clampLate, old(State()), batch, now, dbOk).state
      ensures ok == ProcessSpec(clampLate, old(State()), batch, now, dbOk).ok
    {
      var isFrozen := CheckFrozen(batch);
      if !inBreak && isFrozen {
        var scheduled := FindScheduledBreakAsWritten(scheduledBreaks, TimeOf(now));
        if scheduled.Some? {
          inBreak := true;
          breakDetectedAt := Some(now);
          currentScheduledBreak := scheduled;
          if !dbOk {
            return false;
          }
          var id := |breaks| + 1;
          breaks := breaks + [OpenRecord(id, scheduled.value, now)];
          currentBreakId := Some(id);
          notes := notes + [Started(scheduled.value.breakName, scheduled.value.startTime, scheduled.value.endTime)];
        } else {
          notes := notes + [FrozenWithoutSchedule];
        }
      } else if inBreak && !isFrozen {
        if currentBreakId.Some? {
          var closed := UpdateBreakEnd(currentBreakId.value, currentScheduledBreak, now, dbOk);
          if !closed {
            return false;
          }
          var b := currentScheduledBreak.value;
          notes := notes + [Ended(b.breakName, ComplianceOf(LateEndMinutes(clampLate, b.endTime, TimeOf(now))), now)];
        }
        inBreak := false;
        breakDetectedAt := None;
        currentScheduledBreak := None;
        currentBreakId := None;
      }
      return true;
    }

    /** The break-closing step of the collectors' `shutdown`. */
    method CloseOnShutdown(now: int, dbOk: bool) returns (outcome: ShutdownClose)
      modifies this`breaks
      ensures (State(), outcome) == ShutdownCloseSpec(clampLate, old(State()), now, dbOk)
    {
      if !(inBreak && currentBreakId.Some?) {
        return NothingOpen;
      }
      var ok := UpdateBreakEnd(currentBreakId.value, currentScheduledBreak, now, dbOk);
      return if ok then Closed else CloseFailed;
    }
  }
}
