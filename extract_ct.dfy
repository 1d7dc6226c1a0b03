/** `extract_ct.py`, the cycle-time CSV extractor: its lookback and
    date-time parsers, the default file name, the command-line rules that
    choose the time range and the output path, and the per-sequence
    de-duplication its query applies.

    Instants are integer seconds from 0001-01-01 00:00, a Monday, so they
    agree with `Clock`. */
module ExtractCt {
  import opened Wrappers
  import opened Text

  // ---------------------------------------------------------------------
  // Lookback periods: ^(\d+)\s*(m|h|d)$, case-insensitive, after strip()
  // ---------------------------------------------------------------------

  datatype Unit = Minutes | Hours | Days

  function UnitOf(c: char): (u: Option<Unit>)
    ensures u == Some(Minutes) <==> c == 'm' || c == 'M'
    ensures u == Some(Hours) <==> c == 'h' || c == 'H'
    ensures u == Some(Days) <==> c == 'd' || c == 'D'
  {
    if c == 'm' || c == 'M' then Some(Minutes)
    else if c == 'h' || c == 'H' then Some(Hours)
    else if c == 'd' || c == 'D' then Some(Days)
    else None
  }

  function UnitSeconds(u: Unit): nat
  {
    match u
    case Minutes => 60
    case Hours => 3600
    case Days => 86400
  }

  /** The length of the run of digits that starts `s`. */
  function LeadingDigits(s: string): (n: nat)
    ensures n <= |s|
    ensures forall i :: 0 <= i < n ==> IsDigit(s[i])
    ensures n < |s| ==> !IsDigit(s[n])
  {
    if s != [] && IsDigit(s[0]) then 1 + LeadingDigits(s[1..]) else 0
  }

  datatype Lookback = Lookback(amount: nat, unit: Unit)

  /** The regular expression on an already stripped string: digits, then
      optional whitespace, then the unit as the last character. */
  function MatchLookback(t: string): (r: Option<Lookback>)
    ensures r.Some? ==> |t| >= 2 && IsDigit(t[0]) && UnitOf(t[|t| - 1]) == Some(r.value.unit)
    ensures r.Some? ==> forall i :: LeadingDigits(t[..|t| - 1]) <= i < |t| - 1 ==> IsSpace(t[i])
  {
    if |t| < 2 then None
    else
      var body := t[..|t| - 1];
      var n := LeadingDigits(body);
      var u := UnitOf(t[|t| - 1]);
      if u.None? || n == 0 || exists i :: n <= i < |body| && !IsSpace(body[i]) then None
      else Some(Lookback(DecimalValue(body[..n]), u.value))
  }

  /** `parse_lookback`, as a number of seconds; anything the pattern does
      not match is an error (the script exits with this message). */
  function ParseLookback(value: string): (r: Result<int, string>)
    ensures r.Ok? <==> MatchLookback(Strip(value)).Some?
    ensures r.Ok? ==> r.value >= 0 && r.value % 60 == 0
    ensures r.Ok? ==> |Strip(value)| >= 2 && IsDigit(Strip(value)[0]) && UnitOf(Strip(value)[|Strip(value)| - 1]).Some?
    ensures r.Err? ==> r.error == "Invalid time format '" + value + "'. Use e.g. 30m, 8h, 2d"
  {
    var m := MatchLookback(Strip(value));
    if m.None? then Err("Invalid time format '" + value + "'. Use e.g. 30m, 8h, 2d")
    else
      WholeMinutes(m.value.amount, m.value.unit);
      Ok(m.value.amount * UnitSeconds(m.value.unit))
  }

  /** Any number of units is a whole number of minutes. */
  lemma WholeMinutes(amount: nat, u: Unit)
    ensures amount * UnitSeconds(u) >= 0 && (amount * UnitSeconds(u)) % 60 == 0
  {
    var minutes := match u
      case Minutes => amount
      case Hours => amount * 60
      case Days => amount * 1440;
    assert amount * UnitSeconds(u) == minutes * 60;
    MinutesInSeconds(minutes);
  }

  lemma MinutesInSeconds(minutes: nat)
    ensures (minutes * 60) % 60 == 0
  {
  }

  /** The pattern matches a run of digits, optional whitespace and a unit
      letter, and reads the digits as a decimal number (leading zeros
      included). */
  lemma MatchLookbackOf(digits: string, gap: string, u: char)
    requires digits != [] && AllDigits(digits)
    requires forall i :: 0 <= i < |gap| ==> IsSpace(gap[i])
    requires UnitOf(u).Some?
    ensures MatchLookback(digits + gap + [u]) == Some(Lookback(DecimalValue(digits), UnitOf(u).value))
  {
    var t := digits + gap + [u];
    var body := t[..|t| - 1];
    assert body == digits + gap;
    var k := LeadingDigits(body);
    assert forall i :: 0 <= i < |digits| ==> body[i] == digits[i];
    if gap != [] {
      assert body[|digits|] == gap[0];
    }
    assert k == |digits|;
    assert body[..k] == digits;
    assert forall i :: k <= i < |body| ==> body[i] == gap[i - k];
  }

  /** ... and it matches nothing else: whatever it accepts is such a run,
      whitespace and unit, read as that run's value. */
  lemma MatchLookbackShape(t: string)
    requires MatchLookback(t).Some?
    ensures exists digits, gap, u ::
      (t == digits + gap + [u]
       && digits != [] && AllDigits(digits) && (forall i :: 0 <= i < |gap| ==> IsSpace(gap[i])) && UnitOf(u).Some?
       && MatchLookback(t).value == Lookback(DecimalValue(digits), UnitOf(u).value))
  {
    var body := t[..|t| - 1];
    var n := LeadingDigits(body);
    var digits, gap, u := body[..n], body[n..], t[|t| - 1];
    assert t == digits + gap + [u];
    assert forall i :: 0 <= i < |gap| ==> IsSpace(gap[i]) by {
      forall i | 0 <= i < |gap|
        ensures IsSpace(gap[i])
      {
        assert gap[i] == body[n + i];
      }
    }
  }

  /** Every spelling the pattern accepts, with any padding around it and any
      whitespace between number and unit, parses back to that many units. */
  lemma LookbackRoundTrip(lead: string, digits: string, gap: string, u: char, trail: string)
    requires forall i :: 0 <= i < |lead| ==> IsSpace(lead[i])
    requires digits != [] && AllDigits(digits)
    requires forall i :: 0 <= i < |gap| ==> IsSpace(gap[i])
    requires forall i :: 0 <= i < |trail| ==> IsSpace(trail[i])
    requires UnitOf(u).Some?
    ensures ParseLookback(lead + digits + gap + [u] + trail) == Ok(DecimalValue(digits) * UnitSeconds(UnitOf(u).value))
  {
    var core := digits + gap + [u];
    assert core[0] == digits[0];
    assert lead + digits + gap + [u] + trail == lead + core + trail;
    StripPadded(lead, core, trail);
    MatchLookbackOf(digits, gap, u);
  }

  // ---------------------------------------------------------------------
  // Date-times: "%Y-%m-%d %H:%M:%S", "%Y-%m-%d %H:%M", "%Y-%m-%d"
  // ---------------------------------------------------------------------

  datatype DateTime = DateTime(year: int, month: int, day: int, hour: int, minute: int, second: int)

  predicate IsLeap(y: int) { y % 4 == 0 && (y % 100 != 0 || y % 400 == 0) }

  function DaysInMonth(y: int, m: int): (d: int)
    requires 1 <= m <= 12
    ensures 28 <= d <= 31
  {
    if m == 2 then (if IsLeap(y) then 29 else 28)
    else if m == 4 || m == 6 || m == 9 || m == 11 then 30
    else 31
  }

  /** What `datetime` accepts. */
  predicate ValidDateTime(dt: DateTime)
  {
    1 <= dt.year <= 9999 && 1 <= dt.month <= 12 && 1 <= dt.day <= DaysInMonth(dt.year, dt.month)
    && 0 <= dt.hour < 24 && 0 <= dt.minute < 60 && 0 <= dt.second < 60
  }

  /** The three accepted formats, in the order they are tried. */
  datatype Format = WithSeconds | WithMinutes | DateOnly

  const Formats: seq<Format> := [WithSeconds, WithMinutes, DateOnly]

  function Width(f: Format): nat
  {
    match f
    case WithSeconds => 19
    case WithMinutes => 16
    case DateOnly => 10
  }

  /** The number written in `s[i..i + n]`, when those are all digits. */
  function Field(s: string, i: nat, n: nat): (r: Option<nat>)
    requires i + n <= |s|
    ensures r.Some? <==> AllDigits(s[i..i + n])
    ensures r.Some? ==> r.value == DecimalValue(s[i..i + n])
  {
    if AllDigits(s[i..i + n]) then Some(DecimalValue(s[i..i + n])) else None
  }

  /** `datetime.strptime(s, fmt)` for zero-padded fields. */
  function ParseWith(f: Format, s: string): (r: Option<DateTime>)
    ensures r.Some? ==> |s| == Width(f) && ValidDateTime(r.value)
    ensures r.Some? && f != WithSeconds ==> r.value.second == 0
    ensures r.Some? && f == DateOnly ==> r.value.hour == 0 && r.value.minute == 0
  {
    if |s| != Width(f) || s[4] != '-' || s[7] != '-' then None
    else if f != DateOnly && (s[10] != ' ' || s[13] != ':') then None
    else if f == WithSeconds && s[16] != ':' then None
    else
      var y, mo, d := Field(s, 0, 4), Field(s, 5, 2), Field(s, 8, 2);
      var h := if f == DateOnly then Some(0) else Field(s, 11, 2);
      var mi := if f == DateOnly then Some(0) else Field(s, 14, 2);
      var sec := if f == WithSeconds then Field(s, 17, 2) else Some(0);
      if y.None? || mo.None? || d.None? || h.None? || mi.None? || sec.None? then None
      else
        var dt := DateTime(y.value, mo.value, d.value, h.value, mi.value, sec.value);
        if ValidDateTime(dt) then Some(dt) else None
  }

  /** `parse_datetime`: the first format that parses, else an error. */
  function ParseDatetime(value: string): (r: Result<DateTime, string>)
    ensures r.Ok? ==> ValidDateTime(r.value)
    ensures r.Ok? <==> exists f :: ParseWith(f, value).Some?
    ensures r.Ok? ==> exists f :: ParseWith(f, value) == Some(r.value)
  {
    if ParseWith(WithSeconds, value).Some? then Ok(ParseWith(WithSeconds, value).value)
    else if ParseWith(WithMinutes, value).Some? then Ok(ParseWith(WithMinutes, value).value)
    else if ParseWith(DateOnly, value).Some? then Ok(ParseWith(DateOnly, value).value)
    else Err("Cannot parse datetime '" + value + "'.")
  }

  /** The formats have different widths, so at most one of them parses a
      given string and the order they are tried in does not matter. */
  lemma FormatsExclusive(value: string, f: Format, g: Format)
    requires ParseWith(f, value).Some? && ParseWith(g, value).Some?
    ensures f == g
  {
  }

  /** `n` written with exactly `w` digits, zero-padded. */
  function Padded(n: nat, w: nat): (s: string)
    ensures |s| == w && AllDigits(s)
  {
    if w == 0 then "" else Padded(n / 10, w - 1) + [DigitChar(n % 10)]
  }

  function Pow10(w: nat): (p: nat)
    ensures p >= 1
  {
    if w == 0 then 1 else 10 * Pow10(w - 1)
  }

  lemma {:induction false} PaddedRoundTrip(n: nat, w: nat)
    requires n < Pow10(w)
    ensures DecimalValue(Padded(n, w)) == n
  {
    if w > 0 {
      var s := Padded(n, w);
      assert s[..|s| - 1] == Padded(n / 10, w - 1);
      PaddedRoundTrip(n / 10, w - 1);
    }
  }

  function FormatDate(dt: DateTime): string
    requires ValidDateTime(dt)
  {
    Padded(dt.year, 4) + "-" + Padded(dt.month, 2) + "-" + Padded(dt.day, 2)
  }

  function FormatWithMinutes(dt: DateTime): string
    requires ValidDateTime(dt)
  {
    FormatDate(dt) + " " + Padded(dt.hour, 2) + ":" + Padded(dt.minute, 2)
  }

  function FormatWithSeconds(dt: DateTime): string
    requires ValidDateTime(dt)
  {
    FormatWithMinutes(dt) + ":" + Padded(dt.second, 2)
  }

  /** A field written with `Padded` reads back as its number. */
  lemma FieldOfPadded(s: string, i: nat, n: nat, w: nat)
    requires n < Pow10(w) && i + w <= |s| && s[i..i + w] == Padded(n, w)
    ensures Field(s, i, w) == Some(n)
  {
    PaddedRoundTrip(n, w);
  }

  /** The date fields of a string that starts with a written date. */
  lemma DateFields(s: string, dt: DateTime)
    requires ValidDateTime(dt) && |s| >= 10 && s[..10] == FormatDate(dt)
    ensures s[4] == '-' && s[7] == '-'
    ensures Field(s, 0, 4) == Some(dt.year) && Field(s, 5, 2) == Some(dt.month) && Field(s, 8, 2) == Some(dt.day)
  {
    assert Pow10(4) == 10000 && Pow10(2) == 100;
    var d := FormatDate(dt);
    assert d[0..4] == Padded(dt.year, 4) && d[5..7] == Padded(dt.month, 2) && d[8..10] == Padded(dt.day, 2);
    assert s[0..4] == d[0..4] && s[5..7] == d[5..7] && s[8..10] == d[8..10];
    FieldOfPadded(s, 0, dt.year, 4);
    FieldOfPadded(s, 5, dt.month, 2);
    FieldOfPadded(s, 8, dt.day, 2);
  }

  /** The clock fields of a string written with seconds. */
  lemma ClockFields(dt: DateTime)
    requires ValidDateTime(dt)
    ensures var s := FormatWithSeconds(dt);
      |s| == 19 && s[..10] == FormatDate(dt) && s[10] == ' ' && s[13] == ':' && s[16] == ':'
      && Field(s, 11, 2) == Some(dt.hour) && Field(s, 14, 2) == Some(dt.minute) && Field(s, 17, 2) == Some(dt.second)
  {
    assert Pow10(2) == 100;
    var s := FormatWithSeconds(dt);
    assert s[11..13] == Padded(dt.hour, 2) && s[14..16] == Padded(dt.minute, 2) && s[17..19] == Padded(dt.second, 2);
    FieldOfPadded(s, 11, dt.hour, 2);
    FieldOfPadded(s, 14, dt.minute, 2);
    FieldOfPadded(s, 17, dt.second, 2);
  }

  /** The clock fields of a string written to the minute. */
  lemma MinuteClockFields(dt: DateTime)
    requires ValidDateTime(dt)
    ensures var s := FormatWithMinutes(dt);
      |s| == 16 && s[..10] == FormatDate(dt) && s[10] == ' ' && s[13] == ':'
      && Field(s, 11, 2) == Some(dt.hour) && Field(s, 14, 2) == Some(dt.minute)
  {
    assert Pow10(2) == 100;
    var s := FormatWithMinutes(dt);
    assert s[11..13] == Padded(dt.hour, 2) && s[14..16] == Padded(dt.minute, 2);
    FieldOfPadded(s, 11, dt.hour, 2);
    FieldOfPadded(s, 14, dt.minute, 2);
  }

  /** A date-time written in the first accepted format parses back to
      itself; written in the second, it parses back to itself with the
      seconds dropped. */
  lemma ParseDatetimeRoundTrip(dt: DateTime)
    requires ValidDateTime(dt)
    ensures ParseDatetime(FormatWithSeconds(dt)) == Ok(dt)
    ensures ParseDatetime(FormatWithMinutes(dt)) == Ok(dt.(second := 0))
  {
    var s := FormatWithSeconds(dt);
    assert ParseWith(WithSeconds, s) == Some(dt) by {
      ClockFields(dt);
      DateFields(s, dt);
    }
    var t := FormatWithMinutes(dt);
    assert ParseWith(WithMinutes, t) == Some(dt.(second := 0)) by {
      MinuteClockFields(dt);
      DateFields(t, dt);
    }
  }

  /** A date written alone parses to its midnight. */
  lemma ParseDateRoundTrip(dt: DateTime)
    requires ValidDateTime(dt)
    ensures ParseDatetime(FormatDate(dt)) == Ok(dt.(hour := 0, minute := 0, second := 0))
  {
    var s := FormatDate(dt);
    DateFields(s, dt);
    assert ParseWith(DateOnly, s) == Some(dt.(hour := 0, minute := 0, second := 0));
  }

  /** Days before 1 January of `y` since 0001-01-01 (proleptic Gregorian). */
  function DaysBeforeYear(y: int): int
  {
    var p := y - 1;
    p * 365 + p / 4 - p / 100 + p / 400
  }

  function DaysBeforeMonth(y: int, m: int): (d: int)
    requires 1 <= m <= 12
    ensures 0 <= d <= 31 * (m - 1)
    decreases m
  {
    if m == 1 then 0 else DaysBeforeMonth(y, m - 1) + DaysInMonth(y, m - 1)
  }

  /** The instant a valid date-time names. */
  function Instant(dt: DateTime): int
    requires ValidDateTime(dt)
  {
    (DaysBeforeYear(dt.year) + DaysBeforeMonth(dt.year, dt.month) + dt.day - 1) * 86400
    + dt.hour * 3600 + dt.minute * 60 + dt.second
  }

  // ---------------------------------------------------------------------
  // Command line: time range and output path
  // ---------------------------------------------------------------------

  /** The parsed arguments; `None` for an option not given. */
  datatype CliArgs = CliArgs(
    sequences: seq<int>,
    time: Option<string>,
    timeFrom: Option<string>,
    timeTo: Option<string>,
    output: Option<string>)

  /** Python truthiness of an optional string: given and not empty. */
  predicate Given(o: Option<string>) { o.Some? && o.value != "" }

  datatype TimeRange = TimeRange(from: int, to: int, timeLabel: string)

  /** The largest `timedelta`, 999999999 days and 23:59:59, in whole seconds. */
  const MaxTimedeltaSeconds := 999999999 * 86400 + 86399

  /** The `OverflowError` that `timedelta(...)` or `now - delta` raises when the
      lookback is beyond the largest `timedelta` or starts before 0001-01-01 00:00. */
  const LookbackOverflow := "OverflowError: date value out of range"

  /** The time-range resolution of `main`. Instants count seconds from
      0001-01-01 00:00, the earliest `datetime`, as `Instant` does. */
  function ResolveTimeRange(a: CliArgs, now: int): (r: Result<TimeRange, string>)
    ensures r.Ok? ==>
      (Given(a.time) && !Given(a.timeFrom) && !Given(a.timeTo))
      || (!Given(a.time) && Given(a.timeFrom) && Given(a.timeTo))
    ensures Given(a.time) && !Given(a.timeFrom) && !Given(a.timeTo) ==>
      var delta := ParseLookback(a.time.value);
      (r.Ok? <==> delta.Ok? && delta.value <= MaxTimedeltaSeconds && delta.value <= now)
      && (delta.Ok? && (delta.value > MaxTimedeltaSeconds || delta.value > now) ==> r == Err(LookbackOverflow))
      && (r.Ok? ==> r.value == TimeRange(now - delta.value, now, Strip(a.time.value)))
    ensures !Given(a.time) && Given(a.timeFrom) && Given(a.timeTo) ==>
      (r.Ok? <==> ParseDatetime(a.timeFrom.value).Ok? && ParseDatetime(a.timeTo.value).Ok?)
      && (r.Ok? ==>
            r.value.timeLabel == "custom"
            && r.value.from == Instant(ParseDatetime(a.timeFrom.value).value)
            && r.value.to == Instant(ParseDatetime(a.timeTo.value).value))
    ensures Given(a.time) && (Given(a.timeFrom) || Given(a.timeTo)) ==>
      r == Err("Use either --time OR --from/--to, not both.")
    ensures !Given(a.time) && Given(a.timeFrom) != Given(a.timeTo) ==>
      r == Err("--from and --to must be used together.")
    ensures !Given(a.time) && !Given(a.timeFrom) && !Given(a.timeTo) ==>
      r == Err("Provide either --time or --from/--to.")
  {
    if Given(a.time) && (Given(a.timeFrom) || Given(a.timeTo)) then
      Err("Use either --time OR --from/--to, not both.")
    else if Given(a.time) then
      var delta := ParseLookback(a.time.value);
      if delta.Err? then Err(delta.error)
      else if delta.value > MaxTimedeltaSeconds || now - delta.value < 0 then Err(LookbackOverflow)
      else Ok(TimeRange(now - delta.value, now, Strip(a.time.value)))
    else if Given(a.timeFrom) && Given(a.timeTo) then
      var from := ParseDatetime(a.timeFrom.value);
      var to := ParseDatetime(a.timeTo.value);
      if from.Err? then Err(from.error)
      else if to.Err? then Err(to.error)
      else Ok(TimeRange(Instant(from.value), Instant(to.value), "custom"))
    else if Given(a.timeFrom) || Given(a.timeTo) then
      Err("--from and --to must be used together.")
    else
      Err("Provide either --time or --from/--to.")
  }

  /** A lookback range ends now and starts that many seconds before. */
  lemma LookbackRangeEndsNow(a: CliArgs, now: int)
    requires ResolveTimeRange(a, now).Ok? && Given(a.time)
    ensures ResolveTimeRange(a, now).value.to == now
    ensures 0 <= ResolveTimeRange(a, now).value.from <= now
  {
  }

  /** `"_".join(str(s) for s in sequences)` */
  function SequencePart(sequences: seq<int>): string
  {
    Join(Decimals(sequences), '_')
  }

  function Decimals(sequences: seq<int>): (r: seq<string>)
    ensures |r| == |sequences|
    ensures forall k :: 0 <= k < |sequences| ==> r[k] == IntToDecimal(sequences[k])
  {
    if sequences == [] then [] else [IntToDecimal(sequences[0])] + Decimals(sequences[1..])
  }

  /** `now.strftime("%Y%m%d_%H%M%S")`. */
  function CompactStamp(dt: DateTime): (s: string)
    requires ValidDateTime(dt)
    ensures |s| == 15 && s[8] == '_'
  {
    Padded(dt.year, 4) + Padded(dt.month, 2) + Padded(dt.day, 2) + "_"
    + Padded(dt.hour, 2) + Padded(dt.minute, 2) + Padded(dt.second, 2)
  }

  /** Every field of the compact stamp reads back as the date-time's own. */
  lemma CompactStampFields(dt: DateTime)
    requires ValidDateTime(dt)
    ensures var s := CompactStamp(dt);
      Field(s, 0, 4) == Some(dt.year) && Field(s, 4, 2) == Some(dt.month) && Field(s, 6, 2) == Some(dt.day)
      && Field(s, 9, 2) == Some(dt.hour) && Field(s, 11, 2) == Some(dt.minute) && Field(s, 13, 2) == Some(dt.second)
  {
    assert Pow10(4) == 10000 && Pow10(2) == 100;
    var s := CompactStamp(dt);
    assert s[0..4] == Padded(dt.year, 4) && s[4..6] == Padded(dt.month, 2) && s[6..8] == Padded(dt.day, 2);
    assert s[9..11] == Padded(dt.hour, 2) && s[11..13] == Padded(dt.minute, 2) && s[13..15] == Padded(dt.second, 2);
    FieldOfPadded(s, 0, dt.year, 4);
    FieldOfPadded(s, 4, dt.month, 2);
    FieldOfPadded(s, 6, dt.day, 2);
    FieldOfPadded(s, 9, dt.hour, 2);
    FieldOfPadded(s, 11, dt.minute, 2);
    FieldOfPadded(s, 13, dt.second, 2);
  }

  /** `build_output_filename`, at the instant `now`: the name splits into the
      fixed prefix with the joined ids, the time label, and the stamp of
      `now` before the `.csv` extension. */
  function BuildOutputFilename(sequences: seq<int>, timeLabel: string, now: DateTime): (r: string)
    requires ValidDateTime(now)
    ensures var ids := SequencePart(sequences);
      |r| == |ids| + |timeLabel| + 36
      && r[..|ids| + 16] == "cycle_times_seq" + ids + "_"
      && r[|ids| + 16..|r| - 20] == timeLabel
      && r[|r| - 20..] == "_" + CompactStamp(now) + ".csv"
  {
    var ids := SequencePart(sequences);
    var r := "cycle_times_seq" + ids + "_" + timeLabel + "_" + CompactStamp(now) + ".csv";
    assert r == ("cycle_times_seq" + ids + "_") + timeLabel + ("_" + CompactStamp(now) + ".csv");
    r
  }

  /** The id segment of a generated name splits at `_` into the requested
      ids, in order. */
  lemma OutputFilenameIds(sequences: seq<int>, timeLabel: string, now: DateTime)
    requires ValidDateTime(now)
    requires |sequences| >= 1
    requires forall k :: 0 <= k < |sequences| ==> sequences[k] >= 0
    ensures var r := BuildOutputFilename(sequences, timeLabel, now);
      var parts := Split(r[15..|SequencePart(sequences)| + 15], '_');
      |parts| == |sequences|
      && forall k :: 0 <= k < |sequences| ==> AllDigits(parts[k]) && DecimalValue(parts[k]) == sequences[k]
  {
    IdsAfterPrefix(BuildOutputFilename(sequences, timeLabel, now), sequences);
  }

  /** Any name that starts with the prefix and the joined ids gives the ids
      back from the characters after `cycle_times_seq`. */
  lemma IdsAfterPrefix(name: string, sequences: seq<int>)
    requires |sequences| >= 1
    requires forall k :: 0 <= k < |sequences| ==> sequences[k] >= 0
    requires |name| >= |SequencePart(sequences)| + 16
    requires name[..|SequencePart(sequences)| + 16] == "cycle_times_seq" + SequencePart(sequences) + "_"
    ensures var parts := Split(name[15..|SequencePart(sequences)| + 15], '_');
      |parts| == |sequences|
      && forall k :: 0 <= k < |sequences| ==> AllDigits(parts[k]) && DecimalValue(parts[k]) == sequences[k]
  {
    var ids := SequencePart(sequences);
    assert name[15..|ids| + 15] == ids by {
      assert name[..|ids| + 16][15..|ids| + 15] == ("cycle_times_seq" + ids + "_")[15..|ids| + 15];
    }
    SequencePartRecoversIds(sequences);
  }

  /** The stamp of a generated name reads back as the fields of the instant. */
  lemma OutputFilenameStamp(sequences: seq<int>, timeLabel: string, now: DateTime)
    requires ValidDateTime(now)
    ensures var r := BuildOutputFilename(sequences, timeLabel, now);
      var stamp := r[|r| - 19..|r| - 4];
      Field(stamp, 0, 4) == Some(now.year) && Field(stamp, 4, 2) == Some(now.month)
      && Field(stamp, 6, 2) == Some(now.day) && Field(stamp, 9, 2) == Some(now.hour)
      && Field(stamp, 11, 2) == Some(now.minute) && Field(stamp, 13, 2) == Some(now.second)
  {
    var r := BuildOutputFilename(sequences, timeLabel, now);
    assert r[|r| - 19..|r| - 4] == CompactStamp(now) by {
      assert r[|r| - 20..][1..16] == ("_" + CompactStamp(now) + ".csv")[1..16];
    }
    CompactStampFields(now);
  }

  /** The sequence part of the file name lists the ids in the order given:
      splitting it at `_` gives each id back. */
  lemma SequencePartRecoversIds(sequences: seq<int>)
    requires |sequences| >= 1
    requires forall k :: 0 <= k < |sequences| ==> sequences[k] >= 0
    ensures |Split(SequencePart(sequences), '_')| == |sequences|
    ensures forall k :: 0 <= k < |sequences| ==>
      AllDigits(Split(SequencePart(sequences), '_')[k])
      && DecimalValue(Split(SequencePart(sequences), '_')[k]) == sequences[k]
  {
    var parts := Decimals(sequences);
    SplitJoin(parts, '_');
    forall k | 0 <= k < |sequences|
      ensures AllDigits(parts[k]) && DecimalValue(parts[k]) == sequences[k]
    {
      DecimalRoundTrip(sequences[k]);
    }
  }

  /** `os.path.join(a, b)` */
  function PathJoin(a: string, b: string): (r: string)
    ensures b != [] && b[0] == '/' ==> r == b
    ensures !(b != [] && b[0] == '/') ==>
      |r| >= |b| && r[|r| - |b|..] == b
      && (r[..|r| - |b|] == a || r[..|r| - |b|] == a + "/")
      && (a != [] ==> r[|r| - |b| - 1] == '/')
  {
    if b != [] && b[0] == '/' then b
    else if a == [] || a[|a| - 1] == '/' then a + b
    else a + "/" + b
  }

  /** The output-path resolution of `main`: a given name without a
      directory goes under the reports directory, a given path with one is
      kept, and without `--output` the generated name goes under the reports
      directory. (`os.path.dirname(p)` is empty exactly when `p` holds no
      `/`.) */
  function ResolveOutputPath(a: CliArgs, timeLabel: string, now: DateTime, reportsDir: string): (r: string)
    requires ValidDateTime(now)
    ensures Given(a.output) && '/' in a.output.value ==> r == a.output.value
    ensures Given(a.output) && '/' !in a.output.value ==> r == PathJoin(reportsDir, a.output.value)
    ensures !Given(a.output) ==> r == PathJoin(reportsDir, BuildOutputFilename(a.sequences, timeLabel, now))
  {
    if Given(a.output) then
      (if '/' in a.output.value then a.output.value else PathJoin(reportsDir, a.output.value))
    else PathJoin(reportsDir, BuildOutputFilename(a.sequences, timeLabel, now))
  }

  /** A bare file name ends up as the last path component under the reports
      directory. */
  lemma BareNameUnderReports(a: CliArgs, timeLabel: string, now: DateTime, reportsDir: string)
    requires ValidDateTime(now)
    requires reportsDir != [] && Given(a.output) && '/' !in a.output.value
    ensures var r := ResolveOutputPath(a, timeLabel, now, reportsDir);
      var name := a.output.value;
      |r| > |name| && r[|r| - |name|..] == name && r[|r| - |name| - 1] == '/'
      && r[..|r| - |name|] in {reportsDir, reportsDir + "/"}
  {
    var name := a.output.value;
    assert name[0] in name;
  }

  // ---------------------------------------------------------------------
  // The query: WHERE, then LAG per sequence, keep first or changed
  // ---------------------------------------------------------------------

  /** A `cycle_times` row joined with its sequence name. */
  datatype CtRow = CtRow(
    time: int, sequenceId: int, sequenceName: Option<string>,
    cycleTime: real, desired: real, deviation: real, deviationPercent: real)

  /** `LAG(cycle_time_seconds) OVER (PARTITION BY sequence_id ORDER BY
      time)` is null or differs: the row is the first of its sequence, or
      the nearest earlier row of its sequence has another cycle time. */
  predicate LagKeeps(rows: seq<CtRow>, i: nat)
    requires i < |rows|
    ensures i == 0 ==> LagKeeps(rows, i)
    ensures 0 < i && rows[i - 1].sequenceId == rows[i].sequenceId ==>
      (LagKeeps(rows, i) <==> rows[i - 1].cycleTime != rows[i].cycleTime)
  {
    (forall j :: 0 <= j < i ==> rows[j].sequenceId != rows[i].sequenceId)
    || exists j :: 0 <= j < i && rows[j].sequenceId == rows[i].sequenceId
         && (forall k :: j < k < i ==> rows[k].sequenceId != rows[i].sequenceId)
         && rows[j].cycleTime != rows[i].cycleTime
  }

  /** The rows the LAG condition keeps, in order. */
  function LagFilter(rows: seq<CtRow>): (r: seq<CtRow>)
    ensures |r| <= |rows|
  {
    if rows == [] then []
    else LagFilter(rows[..|rows| - 1]) + (if LagKeeps(rows, |rows| - 1) then [rows[|rows| - 1]] else [])
  }

  /** The last cycle time seen per sequence: the dictionary a single pass
      over the rows would keep. */
  function LastSeen(rows: seq<CtRow>): map<int, real>
  {
    if rows == [] then map[]
    else
      var x := rows[|rows| - 1];
      LastSeen(rows[..|rows| - 1])[x.sequenceId := x.cycleTime]
  }

  /** The same rule as one pass with that dictionary: keep a row when its
      sequence is new or its cycle time differs from the last one seen. */
  function Deduplicate(rows: seq<CtRow>): (r: seq<CtRow>)
    ensures |r| <= |rows|
    ensures rows != [] ==> r != [] && r[0] == rows[0]
  {
    if rows == [] then []
    else
      var prefix := rows[..|rows| - 1];
      var x := rows[|rows| - 1];
      Deduplicate(prefix)
      + (if x.sequenceId !in LastSeen(prefix) || LastSeen(prefix)[x.sequenceId] != x.cycleTime then [x] else [])
  }

  /** The dictionary holds exactly the sequences seen, each with the cycle
      time of its nearest earlier row. */
  lemma {:induction false} LastSeenIsLag(rows: seq<CtRow>, id: int)
    ensures id in LastSeen(rows) <==> exists j :: 0 <= j < |rows| && rows[j].sequenceId == id
    ensures forall j ::
      (0 <= j < |rows| && rows[j].sequenceId == id
       && (forall k :: j < k < |rows| ==> rows[k].sequenceId != id))
      ==> LastSeen(rows)[id] == rows[j].cycleTime
  {
    if rows != [] {
      var prefix := rows[..|rows| - 1];
      LastSeenIsLag(prefix, id);
      forall j | 0 <= j < |rows| && rows[j].sequenceId == id
        && (forall k :: j < k < |rows| ==> rows[k].sequenceId != id)
        ensures LastSeen(rows)[id] == rows[j].cycleTime
      {
        if j < |rows| - 1 {
          assert prefix[j] == rows[j];
        }
      }
      if id in LastSeen(rows) && id != rows[|rows| - 1].sequenceId {
        var j :| 0 <= j < |prefix| && prefix[j].sequenceId == id;
        assert rows[j] == prefix[j];
      }
    }
  }

  /** The keep decision of the one-pass rule is the LAG condition. */
  lemma KeepIsLag(rows: seq<CtRow>)
    requires rows != []
    ensures var prefix := rows[..|rows| - 1];
      var x := rows[|rows| - 1];
      (x.sequenceId !in LastSeen(prefix) || LastSeen(prefix)[x.sequenceId] != x.cycleTime)
      <==> LagKeeps(rows, |rows| - 1)
  {
    var i := |rows| - 1;
    var prefix := rows[..i];
    var id := rows[i].sequenceId;
    LastSeenIsLag(prefix, id);
    if id in LastSeen(prefix) {
      var j :| 0 <= j < |prefix| && prefix[j].sequenceId == id;
      assert rows[j] == prefix[j];
      // the nearest earlier row of the same sequence
      var last := Nearest(rows, i, j);
      forall k | last < k < |prefix|
        ensures prefix[k].sequenceId != id
      {
        assert prefix[k] == rows[k];
      }
      assert prefix[last] == rows[last];
      assert LastSeen(prefix)[id] == rows[last].cycleTime;
      if LagKeeps(rows, i) {
        assert !(forall j' :: 0 <= j' < i ==> rows[j'].sequenceId != id);
        var j2 :| 0 <= j2 < i && rows[j2].sequenceId == id
          && (forall k :: j2 < k < i ==> rows[k].sequenceId != id)
          && rows[j2].cycleTime != rows[i].cycleTime;
        assert !(j2 < last) && !(last < j2);
      }
    } else {
      forall j' | 0 <= j' < i
        ensures rows[j'].sequenceId != id
      {
        assert prefix[j'] == rows[j'];
      }
    }
  }

  /** The last position before `i` with the sequence of `rows[i]`, given
      one such position `j`. */
  function Nearest(rows: seq<CtRow>, i: nat, j: nat): (n: nat)
    requires j < i < |rows| && rows[j].sequenceId == rows[i].sequenceId
    ensures j <= n < i && rows[n].sequenceId == rows[i].sequenceId
    ensures forall k :: n < k < i ==> rows[k].sequenceId != rows[i].sequenceId
    decreases i - j
  {
    if exists k :: j < k < i && rows[k].sequenceId == rows[i].sequenceId then
      var k :| j < k < i && rows[k].sequenceId == rows[i].sequenceId;
      Nearest(rows, i, k)
    else j
  }

  /** The one-pass rule and the LAG condition keep the same rows. */
  lemma {:induction false} DeduplicateIsLagFilter(rows: seq<CtRow>)
    ensures Deduplicate(rows) == LagFilter(rows)
  {
    if rows != [] {
      DeduplicateIsLagFilter(rows[..|rows| - 1]);
      KeepIsLag(rows);
    }
  }

  /** Dropping a repeat does not change what was last seen. */
  lemma {:induction false} LastSeenOfDeduplicate(rows: seq<CtRow>)
    ensures LastSeen(Deduplicate(rows)) == LastSeen(rows)
  {
    if rows != [] {
      var prefix := rows[..|rows| - 1];
      var x := rows[|rows| - 1];
      LastSeenOfDeduplicate(prefix);
      var d := Deduplicate(prefix);
      if x.sequenceId !in LastSeen(prefix) || LastSeen(prefix)[x.sequenceId] != x.cycleTime {
        assert Deduplicate(rows) == d + [x];
        assert (d + [x])[..|d + [x]| - 1] == d;
      } else {
        assert Deduplicate(rows) == d;
        assert LastSeen(prefix)[x.sequenceId := x.cycleTime] == LastSeen(prefix);
      }
    }
  }

  /** The result has no repeat left: de-duplicating it again changes
      nothing. */
  lemma {:induction false} DeduplicateIdempotent(rows: seq<CtRow>)
    ensures Deduplicate(Deduplicate(rows)) == Deduplicate(rows)
  {
    if rows != [] {
      var prefix := rows[..|rows| - 1];
      var x := rows[|rows| - 1];
      var d := Deduplicate(prefix);
      DeduplicateIdempotent(prefix);
      LastSeenOfDeduplicate(prefix);
      if x.sequenceId !in LastSeen(prefix) || LastSeen(prefix)[x.sequenceId] != x.cycleTime {
        assert (d + [x])[..|d + [x]| - 1] == d;
        assert Deduplicate(rows) == d + [x];
        assert Deduplicate(d + [x]) == Deduplicate(d) + [x];
      } else {
        assert Deduplicate(rows) == d;
      }
    }
  }

  /** The first row of every sequence is kept. */
  lemma FirstOfSequenceKept(rows: seq<CtRow>, i: nat)
    requires i < |rows|
    requires forall j :: 0 <= j < i ==> rows[j].sequenceId != rows[i].sequenceId
    ensures rows[i] in Deduplicate(rows)
  {
    DeduplicateIsLagFilter(rows);
    LagFilterKeeps(rows, i);
  }

  lemma {:induction false} LagFilterKeeps(rows: seq<CtRow>, i: nat)
    requires i < |rows| && LagKeeps(rows, i)
    ensures rows[i] in LagFilter(rows)
  {
    if i < |rows| - 1 {
      var prefix := rows[..|rows| - 1];
      assert prefix[i] == rows[i];
      assert forall j :: 0 <= j < i ==> prefix[j] == rows[j];
      LagFilterKeeps(prefix, i);
    }
  }

  /** The positions of the rows the LAG rule keeps, in order. */
  function KeptPositions(rows: seq<CtRow>): seq<nat>
  {
    if rows == [] then []
    else KeptPositions(rows[..|rows| - 1]) + (if LagKeeps(rows, |rows| - 1) then [|rows| - 1] else [])
  }

  /** Whether a row is kept depends only on the rows before it. */
  lemma LagKeepsPrefix(rows: seq<CtRow>, i: nat)
    requires i < |rows| - 1
    ensures LagKeeps(rows[..|rows| - 1], i) <==> LagKeeps(rows, i)
  {
    var prefix := rows[..|rows| - 1];
    assert forall j :: 0 <= j <= i ==> prefix[j] == rows[j];
  }

  /** The kept positions are increasing positions of `rows`, and the
      filter's output is the rows at those positions. */
  lemma {:induction false} LagFilterAtPositions(rows: seq<CtRow>)
    ensures var ps := KeptPositions(rows);
      |ps| == |LagFilter(rows)|
      && (forall k :: 0 <= k < |ps| ==> ps[k] < |rows| && LagFilter(rows)[k] == rows[ps[k]])
      && (forall a, b :: 0 <= a < b < |ps| ==> ps[a] < ps[b])
  {
    if rows != [] {
      var prefix := rows[..|rows| - 1];
      LagFilterAtPositions(prefix);
      var pp := KeptPositions(prefix);
      var ps := KeptPositions(rows);
      assert ps[..|pp|] == pp;
      assert LagFilter(rows)[..|pp|] == LagFilter(prefix);
      forall k | 0 <= k < |pp|
        ensures ps[k] < |rows| - 1 && LagFilter(rows)[k] == rows[ps[k]]
      {
        assert ps[k] == pp[k] && LagFilter(rows)[k] == LagFilter(prefix)[k];
        assert prefix[pp[k]] == rows[pp[k]];
      }
    }
  }

  /** A position is kept iff the LAG rule keeps its row. */
  lemma {:induction false} KeptPositionsExactly(rows: seq<CtRow>)
    ensures forall k :: 0 <= k < |KeptPositions(rows)| ==> KeptPositions(rows)[k] < |rows|
    ensures forall i :: 0 <= i < |rows| ==> (i in KeptPositions(rows) <==> LagKeeps(rows, i))
  {
    if rows != [] {
      var prefix := rows[..|rows| - 1];
      var last := |rows| - 1;
      KeptPositionsExactly(prefix);
      var pp := KeptPositions(prefix);
      var ps := KeptPositions(rows);
      assert ps == pp + (if LagKeeps(rows, last) then [last] else []);
      assert last !in pp;
      forall i | 0 <= i < last
        ensures i in ps <==> LagKeeps(rows, i)
      {
        LagKeepsPrefix(rows, i);
      }
    }
  }

  /** The filter's output is exactly the rows at the kept positions, in
      increasing order: a position is among them iff the LAG rule keeps
      its row. */
  lemma LagFilterExactly(rows: seq<CtRow>)
    ensures var ps := KeptPositions(rows);
      |ps| == |LagFilter(rows)|
      && (forall k :: 0 <= k < |ps| ==> ps[k] < |rows| && LagFilter(rows)[k] == rows[ps[k]])
      && (forall a, b :: 0 <= a < b < |ps| ==> ps[a] < ps[b])
      && (forall i :: 0 <= i < |rows| ==> (i in ps <==> LagKeeps(rows, i)))
  {
    LagFilterAtPositions(rows);
    KeptPositionsExactly(rows);
  }

  /** The `WHERE` clause: the requested sequences, inside the time range
      (both ends included). */
  function Selected(rows: seq<CtRow>, sequences: seq<int>, range: TimeRange): (r: seq<CtRow>)
    ensures |r| <= |rows|
    ensures forall x :: x in r <==> x in rows && x.sequenceId in sequences && range.from <= x.time <= range.to
  {
    if rows == [] then []
    else
      var x := rows[0];
      (if x.sequenceId in sequences && range.from <= x.time <= range.to then [x] else [])
      + Selected(rows[1..], sequences, range)
  }

  /** The extractor's query over the table in (time, sequence_id) order:
      the window function runs on the selected rows only, so the first row
      inside the range is always kept. */
  function CycleTimeQuery(rows: seq<CtRow>, sequences: seq<int>, range: TimeRange): (r: seq<CtRow>)
    ensures |r| <= |rows|
    ensures Selected(rows, sequences, range) != [] ==> r != [] && r[0] == Selected(rows, sequences, range)[0]
  {
    Deduplicate(Selected(rows, sequences, range))
  }

  lemma QueryRowsRequested(rows: seq<CtRow>, sequences: seq<int>, range: TimeRange)
    ensures forall x :: x in CycleTimeQuery(rows, sequences, range) ==>
      x in rows && x.sequenceId in sequences && range.from <= x.time <= range.to
  {
    DeduplicateSubset(Selected(rows, sequences, range));
  }

  lemma {:induction false} DeduplicateSubset(rows: seq<CtRow>)
    ensures forall x :: x in Deduplicate(rows) ==> x in rows
  {
    if rows != [] {
      DeduplicateSubset(rows[..|rows| - 1]);
      assert forall x :: x in rows[..|rows| - 1] ==> x in rows;
    }
  }
}
