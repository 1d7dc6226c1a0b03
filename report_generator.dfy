/** The rules of `report_generator.py`, the weekly OEE report: bar colours
    and ordering of the OEE chart, the shift table and shift window its
    queries use, the working days of the report period, the period itself,
    break status and the quality figures.

    Dates are day numbers counted from 0001-01-01, a Monday, so
    `d % 7` is Python's `weekday()`; instants are seconds on the same
    origin, as in `Clock`. */
module ReportGenerator {
  import opened Wrappers
  import opened Clock
  import opened Shifts
  import BreakDetection

  // ---------------------------------------------------------------------
  // OEE chart
  // ---------------------------------------------------------------------

  datatype OeeColor = OeeGood | OeeWarning | OeeBad

  /** `_color_by_oee` */
  function ColorByOee(value: real): (c: OeeColor)
    ensures c == OeeGood <==> value >= 85.0
    ensures c == OeeWarning <==> 60.0 <= value < 85.0
    ensures c == OeeBad <==> value < 60.0
  {
    if value >= 85.0 then OeeGood else if value >= 60.0 then OeeWarning else OeeBad
  }

  function ColorRank(c: OeeColor): nat
  {
    match c
    case OeeBad => 0
    case OeeWarning => 1
    case OeeGood => 2
  }

  /** A higher OEE never gets a worse colour. */
  lemma ColorMonotone(v: real, w: real)
    requires v <= w
    ensures ColorRank(ColorByOee(v)) <= ColorRank(ColorByOee(w))
  {
  }

  /** One station of the chart: its name and its OEE (`oee or 0`). */
  datatype Bar = Bar(name: string, oee: real)

  predicate SortedByOee(bars: seq<Bar>)
  {
    forall i, j :: 0 <= i < j < |bars| ==> bars[i].oee <= bars[j].oee
  }

  /** The bars with a given OEE, in order. */
  function WithOee(bars: seq<Bar>, v: real): seq<Bar>
  {
    if bars == [] then []
    else (if bars[0].oee == v then [bars[0]] else []) + WithOee(bars[1..], v)
  }

  /** Place `b` before the first bar whose OEE is not lower than its own. */
  function InsertBar(b: Bar, sorted: seq<Bar>): (r: seq<Bar>)
    ensures |r| == |sorted| + 1
  {
    if sorted == [] || b.oee <= sorted[0].oee then [b] + sorted
    else [sorted[0]] + InsertBar(b, sorted[1..])
  }

  /** Inserting adds exactly the one bar. */
  lemma {:induction false} InsertBarPermutes(b: Bar, sorted: seq<Bar>)
    ensures multiset(InsertBar(b, sorted)) == multiset(sorted) + multiset{b}
  {
    if sorted != [] && b.oee > sorted[0].oee {
      InsertBarPermutes(b, sorted[1..]);
      assert sorted == [sorted[0]] + sorted[1..];
    }
  }

  /** Inserting into a sorted list keeps it sorted. */
  lemma {:induction false} InsertBarSorted(b: Bar, sorted: seq<Bar>)
    requires SortedByOee(sorted)
    ensures SortedByOee(InsertBar(b, sorted))
  {
    if sorted != [] && b.oee > sorted[0].oee {
      var tail := sorted[1..];
      var rest := InsertBar(b, tail);
      InsertBarSorted(b, tail);
      // the new head of the tail is `b` or the old one, both above `sorted[0]`
      assert rest[0] == b || rest[0] == sorted[1];
      var r := [sorted[0]] + rest;
      forall i, j | 0 <= i < j < |r|
        ensures r[i].oee <= r[j].oee
      {
        if i > 0 {
          assert r[i] == rest[i - 1] && r[j] == rest[j - 1];
        } else {
          assert r[j] == rest[j - 1];
          assert rest[0].oee <= rest[j - 1].oee;
        }
      }
    }
  }

  /** `sorted(zip(names, oee_values), key=lambda x: x[1])`: Python's sort
      is stable, which an insertion sort that inserts each bar ahead of
      equal ones, working from the back, reproduces. */
  function SortByOee(bars: seq<Bar>): (r: seq<Bar>)
    ensures |r| == |bars|
    ensures SortedByOee(r)
    ensures multiset(r) == multiset(bars)
  {
    if bars == [] then []
    else
      var rest := SortByOee(bars[1..]);
      InsertBarSorted(bars[0], rest);
      InsertBarPermutes(bars[0], rest);
      assert multiset(bars) == multiset(bars[1..]) + multiset{bars[0]} by {
        assert bars == [bars[0]] + bars[1..];
      }
      InsertBar(bars[0], rest)
  }

  lemma WithOeeCons(b: Bar, rest: seq<Bar>, v: real)
    ensures WithOee([b] + rest, v) == (if b.oee == v then [b] else []) + WithOee(rest, v)
  {
    assert ([b] + rest)[1..] == rest;
  }

  /** Inserting puts a bar ahead of the bars of equal OEE and keeps their
      order. */
  lemma {:induction false} InsertBarStable(b: Bar, sorted: seq<Bar>, v: real)
    ensures WithOee(InsertBar(b, sorted), v) == (if b.oee == v then [b] else []) + WithOee(sorted, v)
  {
    if sorted == [] || b.oee <= sorted[0].oee {
      WithOeeCons(b, sorted, v);
    } else {
      var rest := InsertBar(b, sorted[1..]);
      InsertBarStable(b, sorted[1..], v);
      WithOeeCons(sorted[0], rest, v);
      WithOeeCons(sorted[0], sorted[1..], v);
      assert [sorted[0]] + sorted[1..] == sorted;
      assert !(b.oee == v && sorted[0].oee == v);
    }
  }

  /** The sort is stable: stations with equal OEE keep their input order. */
  lemma {:induction false} SortByOeeStable(bars: seq<Bar>, v: real)
    ensures WithOee(SortByOee(bars), v) == WithOee(bars, v)
  {
    if bars != [] {
      SortByOeeStable(bars[1..], v);
      InsertBarStable(bars[0], SortByOee(bars[1..]), v);
      WithOeeCons(bars[0], bars[1..], v);
      assert [bars[0]] + bars[1..] == bars;
    }
  }

  /** The chart rows: worst OEE first, each name with its own value and the
      colour of that value. */
  function ChartRows(bars: seq<Bar>): (rows: seq<(Bar, OeeColor)>)
    ensures |rows| == |bars|
    ensures forall i, j :: 0 <= i < j < |rows| ==> rows[i].0.oee <= rows[j].0.oee
    ensures forall i :: 0 <= i < |rows| ==> rows[i].1 == ColorByOee(rows[i].0.oee)
    ensures multiset(seq(|rows|, i requires 0 <= i < |rows| => rows[i].0)) == multiset(bars)
  {
    var sorted := SortByOee(bars);
    var rows := seq(|sorted|, i requires 0 <= i < |sorted| => (sorted[i], ColorByOee(sorted[i].oee)));
    assert seq(|rows|, i requires 0 <= i < |rows| => rows[i].0) == sorted;
    rows
  }

  // ---------------------------------------------------------------------
  // Shift tables and the shift window of the OEE and downtime queries
  // ---------------------------------------------------------------------

  datatype ShiftDef = ShiftDef(start: TimeOfDay, end: TimeOfDay)

  /** `SHIFTS`: the Friday table for ISO day 5, the other table otherwise. */
  function ShiftDefFor(isoDay: int, shift: int): (d: ShiftDef)
    requires 1 <= shift <= 3
    ensures d.start == (if shift == 1 then HM(6, 0) else if shift == 2 then Shift2Start(isoDay) else Shift3Start(isoDay))
    ensures shift < 3 ==> d.end == (if shift == 1 then Shift2Start(isoDay) else Shift3Start(isoDay))
    ensures shift == 3 ==> d.end == (if isoDay == 5 then HM(4, 30) else HM(6, 0))
  {
    if isoDay == 5 then
      (if shift == 1 then ShiftDef(HM(6, 0), HM(13, 30))
       else if shift == 2 then ShiftDef(HM(13, 30), HM(21, 0))
       else ShiftDef(HM(21, 0), HM(4, 30)))
    else
      (if shift == 1 then ShiftDef(HM(6, 0), HM(14, 0))
       else if shift == 2 then ShiftDef(HM(14, 0), HM(22, 0))
       else ShiftDef(HM(22, 0), HM(6, 0)))
  }

  /** `WHEN end >= start`: a normal (same-day) shift. */
  predicate IsNormal(d: ShiftDef)
    ensures d.start == d.end ==> IsNormal(d)
    ensures !IsNormal(d) ==> d.end < d.start
  {
    d.end >= d.start
  }

  /** Only the third shift runs over midnight, on either table. */
  lemma OnlyThirdShiftOvernight(isoDay: int, shift: int)
    requires 1 <= shift <= 3
    ensures !IsNormal(ShiftDefFor(isoDay, shift)) <==> shift == 3
  {
  }

  /** The `CASE` of the shift window as written: for an overnight shift
      the two bounds are joined with `OR`. */
  predicate InShiftWindowAsWritten(d: ShiftDef, shiftDate: int, t: int)
    ensures InShiftWindow(d, shiftDate, t) ==> InShiftWindowAsWritten(d, shiftDate, t)
    ensures IsNormal(d) ==> (InShiftWindowAsWritten(d, shiftDate, t) <==> InShiftWindow(d, shiftDate, t))
  {
    var dayStart := shiftDate * SecondsPerDay;
    if IsNormal(d) then dayStart + d.start <= t < dayStart + d.end
    else t >= dayStart + d.start || t < dayStart + SecondsPerDay + d.end
  }

  /** The `OR` admits every instant: an overnight shift's statistics take
      in every row of the queried table, whatever its time. */
  lemma OvernightWindowAdmitsAll(d: ShiftDef, shiftDate: int, t: int)
    requires !IsNormal(d)
    ensures InShiftWindowAsWritten(d, shiftDate, t)
  {
  }

  /** For instance, a row at 10:00 on a Monday falls in that Monday's
      22:00-06:00 window as written. */
  lemma MorningRowInNightShift()
    ensures InShiftWindowAsWritten(ShiftDefFor(1, 3), 0, HM(10, 0))
    ensures !InShiftWindow(ShiftDefFor(1, 3), 0, HM(10, 0))
  {
  }

  /** The window evidently meant: from the start on the shift date to the
      end on the following day. */
  predicate InShiftWindow(d: ShiftDef, shiftDate: int, t: int)
    ensures InShiftWindow(d, shiftDate, t) ==>
      shiftDate * SecondsPerDay + d.start <= t < shiftDate * SecondsPerDay + d.start + SecondsPerDay
  {
    var dayStart := shiftDate * SecondsPerDay;
    if IsNormal(d) then dayStart + d.start <= t < dayStart + d.end
    else dayStart + d.start <= t < dayStart + SecondsPerDay + d.end
  }

  /** The corrected window of every shift is shorter than a day and the
      shifts of one table do not overlap; and it agrees with the written
      one on normal shifts. */
  lemma ShiftWindowsDisjoint(isoDay: int, shiftDate: int, t: int, a: int, b: int)
    requires 1 <= a <= 3 && 1 <= b <= 3 && a != b
    ensures !(InShiftWindow(ShiftDefFor(isoDay, a), shiftDate, t) && InShiftWindow(ShiftDefFor(isoDay, b), shiftDate, t))
  {
  }

  /** A row the report counts for the first or second shift of a day is
      one the collector files under that same shift. */
  lemma WindowMatchesCollectorShift(shiftDate: int, shift: int, t: int)
    requires 1 <= shift <= 2
    requires InShiftWindow(ShiftDefFor(IsoDay(shiftDate), shift), shiftDate, t)
    ensures ShiftAt(TimeOf(t), IsoDay(shiftDate)) == shift
  {
    var dayStart := shiftDate * SecondsPerDay;
    assert 0 <= t - dayStart < SecondsPerDay;
    assert TimeOf(t) == t - dayStart by {
      assert DayStart(t) + TimeOf(t) == t;
      assert DayStart(t) % SecondsPerDay == 0;
    }
  }

  lemma WindowsAgreeOnNormalShifts(d: ShiftDef, shiftDate: int, t: int)
    requires IsNormal(d)
    ensures InShiftWindowAsWritten(d, shiftDate, t) == InShiftWindow(d, shiftDate, t)
  {
  }

  // ---------------------------------------------------------------------
  // Working days and the report period
  // ---------------------------------------------------------------------

  /** `date.isoweekday()` */
  function IsoDay(d: int): (i: int)
    ensures 1 <= i <= 7
  {
    d % 7 + 1
  }

  /** Every working day in `[first, upto)` is listed in `days`. */
  predicate CoversWorkingDays(days: seq<(int, int)>, first: int, upto: int)
  {
    forall d :: first <= d < upto && IsoDay(d) <= 5 ==> exists k :: 0 <= k < |days| && days[k].0 == d
  }

  /** Every entry of `days` is a working day of `[first, upto)` with its ISO
      weekday, and the dates increase. */
  predicate OrderedWorkingDays(days: seq<(int, int)>, first: int, upto: int)
  {
    && (forall k :: 0 <= k < |days| ==> first <= days[k].0 < upto && days[k].1 == IsoDay(days[k].0) && days[k].1 <= 5)
    && (forall k, l :: 0 <= k < l < |days| ==> days[k].0 < days[l].0)
  }

  /** What the loop has built after examining `[first, upto)`: the working
      days of that range, in increasing order, each with its ISO weekday. */
  predicate ListsWorkingDays(days: seq<(int, int)>, first: int, upto: int)
  {
    OrderedWorkingDays(days, first, upto) && CoversWorkingDays(days, first, upto)
  }

  /** The list after examining `current`: appended if it is a working day. */
  function ExamineDay(days: seq<(int, int)>, current: int): seq<(int, int)>
  {
    if IsoDay(current) <= 5 then days + [(current, IsoDay(current))] else days
  }

  lemma CoverNextDay(days: seq<(int, int)>, first: int, current: int)
    requires CoversWorkingDays(days, first, current)
    ensures CoversWorkingDays(ExamineDay(days, current), first, current + 1)
  {
    var next := ExamineDay(days, current);
    forall d | first <= d < current + 1 && IsoDay(d) <= 5
      ensures exists k :: 0 <= k < |next| && next[k].0 == d
    {
      if d == current {
        assert next[|next| - 1].0 == d;
      } else {
        var k :| 0 <= k < |days| && days[k].0 == d;
        assert next[k].0 == d;
      }
    }
  }

  lemma OrderNextDay(days: seq<(int, int)>, first: int, current: int)
    requires first <= current
    requires OrderedWorkingDays(days, first, current)
    ensures OrderedWorkingDays(ExamineDay(days, current), first, current + 1)
  {
  }

  /** One more day examined: a working day is appended, any other day is
      skipped, and the listing moves one day on. */
  lemma ListNextDay(days: seq<(int, int)>, first: int, current: int)
    requires first <= current
    requires ListsWorkingDays(days, first, current)
    ensures ListsWorkingDays(ExamineDay(days, current), first, current + 1)
  {
    CoverNextDay(days, first, current);
    OrderNextDay(days, first, current);
  }

  /** The report's days loop: every date from `first` to `last`, paired with
      its ISO weekday, Monday to Friday only. */
  method WorkingDays(first: int, last: int) returns (days: seq<(int, int)>)
    ensures forall k :: 0 <= k < |days| ==> first <= days[k].0 <= last && days[k].1 == IsoDay(days[k].0) && days[k].1 <= 5
    ensures forall k, l :: 0 <= k < l < |days| ==> days[k].0 < days[l].0
    ensures forall d :: first <= d <= last && IsoDay(d) <= 5 ==>
              (exists k :: 0 <= k < |days| && days[k].0 == d)
  {
    days := [];
    var current := first;
    while current <= last
      invariant first <= current <= (if first <= last then last + 1 else first)
      invariant ListsWorkingDays(days, first, current)
      decreases last - current
    {
      ListNextDay(days, first, current);
      var isoDow := IsoDay(current);
      if isoDow <= 5 {
        days := days + [(current, isoDow)];
      }
      current := current + 1;
    }
    assert ListsWorkingDays(days, first, last + 1) || (first > last && days == []);
  }

  /** A full Monday-to-Sunday week holds exactly its five working days. */
  lemma WeekHasFiveWorkingDays(monday: int)
    requires monday % 7 == 0
    ensures forall d :: monday <= d <= monday + 6 ==> (IsoDay(d) <= 5 <==> d <= monday + 4)
  {
  }

  /** The period options: `--from`/`--to` and `--week-of` as parsed dates,
      `None` when not given. */
  datatype PeriodArgs = PeriodArgs(dateFrom: Option<int>, dateTo: Option<int>, weekOf: Option<int>)

  /** The date-range resolution of `main`. */
  function ResolvePeriod(a: PeriodArgs, today: int): (r: (int, int))
    ensures a.dateFrom.Some? && a.dateTo.Some? ==> r == (a.dateFrom.value, a.dateTo.value)
    ensures !(a.dateFrom.Some? && a.dateTo.Some?) ==> r.0 % 7 == 0 && r.1 == r.0 + 6
    ensures !(a.dateFrom.Some? && a.dateTo.Some?) && a.weekOf.Some? ==> r.0 <= a.weekOf.value <= r.1
    ensures !(a.dateFrom.Some? && a.dateTo.Some?) && a.weekOf.None? ==> r.1 < today && today - 7 <= r.1
  {
    if a.dateFrom.Some? && a.dateTo.Some? then (a.dateFrom.value, a.dateTo.value)
    else if a.weekOf.Some? then
      var monday := a.weekOf.value - a.weekOf.value % 7;
      (monday, monday + 6)
    else
      var lastMonday := today - (today % 7 + 7);
      (lastMonday, lastMonday + 6)
  }

  /** The default period is the week before the one holding `today`: it
      ends the day before this week's Monday. */
  lemma DefaultIsPreviousWeek(today: int)
    ensures ResolvePeriod(PeriodArgs(None, None, None), today).1 + 1 == ResolvePeriod(PeriodArgs(None, None, Some(today)), today).0
  {
  }

  // ---------------------------------------------------------------------
  // Break status and quality
  // ---------------------------------------------------------------------

  /** The `CASE` of the break-compliance query. */
  function BreakStatus(early: int, late: int): (s: string)
    ensures s == "Early + Late" <==> early > 0 && late > 0
    ensures s == "Early" <==> early > 0 && late <= 0
    ensures s == "Late" <==> early <= 0 && late > 0
    ensures s == "On time" <==> early <= 0 && late <= 0
  {
    if early > 0 && late > 0 then "Early + Late"
    else if early > 0 then "Early"
    else if late > 0 then "Late"
    else "On time"
  }

  /** The report flags a late end exactly when the collector logged the
      break as late, for the detector that clamps late minutes; the one
      that does not clamp makes the report say late for one minute over,
      which its own log calls on time. */
  lemma StatusMatchesLoggedCompliance(early: nat, scheduledEnd: TimeOfDay, actual: TimeOfDay)
    ensures var late := BreakDetection.LateEndMinutes(true, scheduledEnd, actual);
      (BreakStatus(early, late) in {"Late", "Early + Late"}) <==> BreakDetection.ComplianceOf(late).LateBy?
    ensures var late := BreakDetection.LateEndMinutes(false, scheduledEnd, actual);
      (BreakStatus(early, late) in {"Late", "Early + Late"}) && !BreakDetection.ComplianceOf(late).LateBy?
      <==> late == 1
  {
  }

  /** A quality figure as fetched: `None` stands for SQL `NULL`. */
  function NullAsZero(v: Option<int>): int
  {
    if v.Some? then v.value else 0
  }

  /** The counters the database sums are never negative. */
  predicate CountsNonNegative(good: Option<int>, reject: Option<int>, rework: Option<int>)
  {
    NullAsZero(good) >= 0 && NullAsZero(reject) >= 0 && NullAsZero(rework) >= 0
  }

  /** The "Total Parts" cell: good + reject + rework, missing ones as 0. For
      counts it is at least each of its parts, and 0 only when all are. */
  function TotalParts(good: Option<int>, reject: Option<int>, rework: Option<int>): (t: int)
    ensures good.None? && reject.None? && rework.None? ==> t == 0
    ensures CountsNonNegative(good, reject, rework) ==>
      NullAsZero(good) <= t && NullAsZero(reject) <= t && NullAsZero(rework) <= t
      && (t == 0 <==> NullAsZero(good) == 0 && NullAsZero(reject) == 0 && NullAsZero(rework) == 0)
  {
    NullAsZero(good) + NullAsZero(reject) + NullAsZero(rework)
  }

  /** `quality_pct` before rounding: good parts as a share of all parts,
      100 when there were none. */
  function QualityPercent(good: nat, reject: nat, rework: nat): (p: real)
    ensures good + reject + rework == 0 ==> p == 100.0
    ensures good + reject + rework > 0 ==> 0.0 <= p <= 100.0
    ensures good + reject + rework > 0 ==> p * (good + reject + rework) as real == good as real * 100.0
    ensures p == 100.0 <==> reject + rework == 0
  {
    var total := good + reject + rework;
    if total > 0 then good as real / total as real * 100.0 else 100.0
  }

  /** The table's total is the denominator of its quality figure: with no
      parts the figure is 100, otherwise it is the good parts' share of the
      total. */
  lemma TotalPartsIsQualityDenominator(good: Option<int>, reject: Option<int>, rework: Option<int>)
    requires CountsNonNegative(good, reject, rework)
    ensures var t := TotalParts(good, reject, rework);
      var q := QualityPercent(NullAsZero(good), NullAsZero(reject), NullAsZero(rework));
      (t == 0 ==> q == 100.0) && (t > 0 ==> q * t as real == NullAsZero(good) as real * 100.0)
  {
  }
}
