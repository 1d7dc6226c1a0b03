/** Which production shift, and which hour of it, a time of day falls in.

    The collectors number shifts 1 to 3 and index the hours of a shift 0 to
    7, the slot of the PLC's quality counters. `data_collector_oee.py` and
    `data_collector_oee_BK.py` use fixed boundaries (06:00, 14:00, 22:00);
    `data_collector_oee_bk.py` moves the Friday boundaries to 13:30 and 21:00;
    `data_collector_full.py` reads the boundaries from its configuration. */
module Shifts {
  import opened Clock

  datatype ShiftHour = ShiftHour(shift: int, hourIndex: int)

  function Min(a: int, b: int): int { if a <= b then a else b }

  /** The shift of the fixed 06:00/14:00/22:00 boundaries; also the rule the
      break detector uses. */
  function FixedShift(tod: TimeOfDay): (s: int)
    ensures 1 <= s <= 3
    ensures s == 1 <==> HM(6, 0) <= tod < HM(14, 0)
    ensures s == 2 <==> HM(14, 0) <= tod < HM(22, 0)
    ensures s == 3 <==> tod < HM(6, 0) || HM(22, 0) <= tod
  {
    if HM(6, 0) <= tod < HM(14, 0) then 1
    else if HM(14, 0) <= tod < HM(22, 0) then 2
    else 3
  }

  /** The starts of shifts 2 and 3 on a given ISO weekday: Friday (5) ends
      its first two shifts half an hour early and starts shift 3 an hour
      early. Shift 1 always starts at 06:00. */
  function Shift2Start(isoWeekday: int): int { if isoWeekday == 5 then HM(13, 30) else HM(14, 0) }

  function Shift3Start(isoWeekday: int): int { if isoWeekday == 5 then HM(21, 0) else HM(22, 0) }

  /** The shift chosen against the given boundaries. */
  function ShiftAt(tod: TimeOfDay, isoWeekday: int): (s: int)
    ensures 1 <= s <= 3
    ensures s == 1 <==> HM(6, 0) <= tod < Shift2Start(isoWeekday)
    ensures s == 2 <==> Shift2Start(isoWeekday) <= tod < Shift3Start(isoWeekday)
  {
    if HM(6, 0) <= tod < Shift2Start(isoWeekday) then 1
    else if Shift2Start(isoWeekday) <= tod < Shift3Start(isoWeekday) then 2
    else 3
  }

  /** `_get_current_shift_and_hour` as `data_collector_oee_bk.py` writes it:
      the boundaries follow the weekday, but the minutes into the shift are
      still counted from the hard-coded hours 6, 14 and 22 (and +2 for the
      hours after midnight), then floored to hours and capped at 7. */
  function ShiftAndHourAsWritten(tod: TimeOfDay, isoWeekday: int): (r: ShiftHour)
    ensures r.shift == ShiftAt(tod, isoWeekday)
    ensures -1 <= r.hourIndex <= 7
  {
    var h, m := Hour(tod), Minute(tod);
    var shift := ShiftAt(tod, isoWeekday);
    var minutes :=
      if shift == 1 then (h - 6) * 60 + m
      else if shift == 2 then (h - 14) * 60 + m
      else if tod >= Shift3Start(isoWeekday) then (h - 22) * 60 + m
      else (h + 2) * 60 + m;
    assert minutes >= -60 by { HourMinuteSplit(tod); }
    ShiftHour(shift, Min(minutes / 60, 7))
  }

  /** `_get_current_shift_and_hour` of `data_collector_oee.py` and
      `data_collector_oee_BK.py`: the same code with the Monday-to-Thursday
      boundaries on every day. */
  function ShiftAndHourFixed(tod: TimeOfDay): (r: ShiftHour)
    ensures r.shift == FixedShift(tod)
    ensures 0 <= r.hourIndex <= 7
    ensures r.shift == 3 && tod >= HM(22, 0) ==> r.hourIndex <= 1
    ensures r.shift == 3 && tod < HM(6, 0) ==> r.hourIndex >= 2
    ensures r.shift != 3 ==> r.hourIndex == Hour(tod) - (if r.shift == 1 then 6 else 14)
  {
    ShiftAndHourAsWritten(tod, 1)
  }

  /** The ISO weekday before `isoWeekday`. */
  function PrevIsoWeekday(isoWeekday: int): int { if isoWeekday == 1 then 7 else isoWeekday - 1 }

  /** The start of the shift running at `tod`, in seconds from today's
      midnight: a shift 3 seen before 06:00 started the evening before, at
      that day's shift-3 start. */
  function RunningShiftStart(tod: TimeOfDay, isoWeekday: int): (start: int)
    ensures start <= tod < start + HM(9, 0)
    ensures ShiftAt(tod, isoWeekday) == 1 ==> start == HM(6, 0)
    ensures ShiftAt(tod, isoWeekday) == 2 ==> start == Shift2Start(isoWeekday)
    ensures ShiftAt(tod, isoWeekday) == 3 && tod >= HM(6, 0) ==> start == Shift3Start(isoWeekday)
    ensures ShiftAt(tod, isoWeekday) == 3 && tod < HM(6, 0) ==>
      start == Shift3Start(PrevIsoWeekday(isoWeekday)) - SecondsPerDay
  {
    var shift := ShiftAt(tod, isoWeekday);
    if shift == 1 then HM(6, 0)
    else if shift == 2 then Shift2Start(isoWeekday)
    else if tod >= HM(6, 0) then Shift3Start(isoWeekday)
    else Shift3Start(PrevIsoWeekday(isoWeekday)) - SecondsPerDay
  }

  /** The shift and hour with the hour counted from the start of the shift
      actually running, so that Friday's shifts, and the Friday night shift
      after midnight, also index hours 0 to 7. */
  function ShiftAndHour(tod: TimeOfDay, isoWeekday: int): (r: ShiftHour)
    ensures r.shift == ShiftAt(tod, isoWeekday)
    ensures 0 <= r.hourIndex <= 7
    ensures r.hourIndex == Min((tod - RunningShiftStart(tod, isoWeekday)) / 3600, 7)
  {
    ShiftHour(ShiftAt(tod, isoWeekday), Min((tod - RunningShiftStart(tod, isoWeekday)) / 3600, 7))
  }

  /** Outside Friday's afternoon and night shifts the corrected rule is the
      code as written; off Fridays it is also the fixed-boundary rule. */
  lemma AsWrittenAgreesOutsideFridayShifts(tod: TimeOfDay, isoWeekday: int)
    requires !(isoWeekday == 5 && tod >= HM(13, 30))
    requires !(isoWeekday == 6 && tod < HM(6, 0))
    ensures ShiftAndHourAsWritten(tod, isoWeekday) == ShiftAndHour(tod, isoWeekday)
    ensures isoWeekday != 5 ==> ShiftAndHourFixed(tod) == ShiftAndHour(tod, isoWeekday)
  {
    var h, m := Hour(tod), Minute(tod);
    HourMinuteSplit(tod);
    var secs := tod - HM(h, m);
    var offset := if tod >= HM(6, 0) && tod < HM(14, 0) then 6
      else if tod >= HM(14, 0) && tod < HM(22, 0) then 14
      else if tod >= HM(22, 0) then 22
      else -2;
    assert tod - RunningShiftStart(tod, isoWeekday) == (h - offset) * 3600 + m * 60 + secs;
    assert ((h - offset) * 3600 + m * 60 + secs) / 3600 == h - offset;
    assert ((h - offset) * 60 + m) / 60 == h - offset;
  }

  /** On a Friday at 13:45 (shift 2 under the Friday boundaries) and at
      21:30 (shift 3), the code as written computes hour index -1. */
  lemma FridayHourIndexNegative()
    ensures ShiftAndHourAsWritten(HM(13, 45), 5) == ShiftHour(2, -1)
    ensures ShiftAndHourAsWritten(HM(21, 30), 5) == ShiftHour(3, -1)
    ensures ShiftAndHour(HM(13, 45), 5) == ShiftHour(2, 0)
    ensures ShiftAndHour(HM(21, 30), 5) == ShiftHour(3, 0)
  {
  }

  /** At 01:00 on a Saturday the night shift has run for four hours since
      Friday's 21:00 start, but the code as written counts three, from 22:00.
      On a Friday at 01:00 both count three, from Thursday's 22:00. */
  lemma SaturdayMorningMiscounted()
    ensures ShiftAndHourAsWritten(HM(1, 0), 6) == ShiftHour(3, 3)
    ensures ShiftAndHour(HM(1, 0), 6) == ShiftHour(3, 4)
    ensures ShiftAndHourAsWritten(HM(1, 0), 5) == ShiftAndHour(HM(1, 0), 5) == ShiftHour(3, 3)
  {
  }

  /** The negative index happens exactly in the first half hour of Friday's
      shift 2 and the first hour of Friday's shift 3. */
  lemma AsWrittenNegativeExactly(tod: TimeOfDay, isoWeekday: int)
    ensures ShiftAndHourAsWritten(tod, isoWeekday).hourIndex < 0 <==>
      isoWeekday == 5 && (HM(13, 30) <= tod < HM(14, 0) || HM(21, 0) <= tod < HM(22, 0))
  {
    HourMinuteSplit(tod);
  }

  // ---------------------------------------------------------------------------
  // Configured shifts (data_collector_full.py)

  /** One entry of a configured shift table, in the table's order. */
  datatype ShiftWindow = ShiftWindow(number: int, start: TimeOfDay, end: TimeOfDay)

  /** The `shifts` section of the configuration. */
  datatype ShiftTables = ShiftTables(mondayToThursday: seq<ShiftWindow>, friday: seq<ShiftWindow>)

  /** A window whose end is before its start runs over midnight. */
  predicate InWindow(w: ShiftWindow, tod: TimeOfDay)
  {
    if w.end < w.start then tod >= w.start || tod < w.end else w.start <= tod < w.end
  }

  /** Position of the first window containing `tod`. */
  function FirstWindow(windows: seq<ShiftWindow>, tod: TimeOfDay): (i: nat)
    ensures i <= |windows|
    ensures i < |windows| ==> InWindow(windows[i], tod)
    ensures forall j :: 0 <= j < i ==> !InWindow(windows[j], tod)
  {
    if windows == [] then 0
    else if InWindow(windows[0], tod) then 0
    else 1 + FirstWindow(windows[1..], tod)
  }

  /** `_get_current_shift`: the number of the first configured window that
      contains the time, or 1 when none does; and whether it is Friday
      (`weekday() == 4`), which also selects the table. */
  function CurrentShift(tables: ShiftTables, tod: TimeOfDay, weekday: int): (r: (int, bool))
    ensures r.1 <==> weekday == 4
    ensures var windows := if r.1 then tables.friday else tables.mondayToThursday;
      (exists i :: 0 <= i < |windows| && InWindow(windows[i], tod) &&
         (forall j :: 0 <= j < i ==> !InWindow(windows[j], tod)) && r.0 == windows[i].number)
      || ((forall i :: 0 <= i < |windows| ==> !InWindow(windows[i], tod)) && r.0 == 1)
  {
    var isFriday := weekday == 4;
    var windows := if isFriday then tables.friday else tables.mondayToThursday;
    var i := FirstWindow(windows, tod);
    (if i < |windows| then windows[i].number else 1, isFriday)
  }

  /** `hour_index = now.hour % 8`: always a valid counter slot, and the
      same slot every eight hours. */
  function HourIndexFull(tod: TimeOfDay): (i: int)
    ensures 0 <= i <= 7
    ensures exists k :: 0 <= k <= 2 && Hour(tod) == 8 * k + i
  {
    var i := Hour(tod) % 8;
    assert Hour(tod) == 8 * (Hour(tod) / 8) + i;
    i
  }
}
