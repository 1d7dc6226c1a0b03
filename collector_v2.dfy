/** The collection cycle of `data_collector_oee_bk.py` (the "V2" collector):
    read cycle times, TA data and quality counters from the PLC, store them,
    feed the TA data to the break detector and log a summary; and the
    break-closing `shutdown`.

    Every PLC read is a `Reading`, every database statement a success flag,
    and the text of any exception one `error` string, all gathered in a
    `TickInput`. Instants are integer seconds as in `Clock`. */
module CollectorV2 {
  import opened Wrappers
  import opened Text
  import opened Clock
  import opened Shifts
  import opened PlcData
  import opened Storage
  import opened LoggingConfig
  import opened ConnectionManager
  import opened BreakDetection

  /** The twin-sync stations alternate work, so every other cycle there is a
      short pass-through cycle that is not a real cycle time. */
  const TwinSyncStations: set<int> := {47, 48}
  /** 10.0 seconds, in the PLC's milliseconds. */
  const SkipCycleThresholdMs := 10000

  predicate IsPassThrough(c: CycleTime)
    ensures c.sequenceId != 47 && c.sequenceId != 48 ==> !IsPassThrough(c)
    ensures c.cycleMs >= 10000 ==> !IsPassThrough(c)
    ensures (c.sequenceId == 47 || c.sequenceId == 48) && c.cycleMs < 10000 ==> IsPassThrough(c)
  {
    c.sequenceId in TwinSyncStations && c.cycleMs < SkipCycleThresholdMs
  }

  /** The list comprehension of `store_cycle_times`. */
  function TwinSyncFilter(cycles: seq<CycleTime>): (r: seq<CycleTime>)
    ensures |r| <= |cycles|
    ensures forall c :: c in r <==> c in cycles && !IsPassThrough(c)
    ensures (forall k :: 0 <= k < |cycles| ==> !IsPassThrough(cycles[k])) ==> r == cycles
  {
    if cycles == [] then []
    else if IsPassThrough(cycles[0]) then TwinSyncFilter(cycles[1..])
    else [cycles[0]] + TwinSyncFilter(cycles[1..])
  }

  /** The filter keeps the order of what it keeps: it distributes over
      concatenation. */
  lemma {:induction false} TwinSyncFilterAppend(a: seq<CycleTime>, b: seq<CycleTime>)
    ensures TwinSyncFilter(a + b) == TwinSyncFilter(a) + TwinSyncFilter(b)
  {
    if a == [] {
      assert a + b == b;
    } else {
      assert (a + b)[1..] == a[1..] + b;
      TwinSyncFilterAppend(a[1..], b);
    }
  }

  /** Filtering twice is filtering once. */
  lemma {:induction false} TwinSyncFilterIdempotent(cycles: seq<CycleTime>)
    ensures TwinSyncFilter(TwinSyncFilter(cycles)) == TwinSyncFilter(cycles)
  {
    var r := TwinSyncFilter(cycles);
    forall k | 0 <= k < |r|
      ensures !IsPassThrough(r[k])
    {
      assert r[k] in r;
    }
  }

  /** The number of cycles the filter drops is the number of pass-through
      cycles in the batch, the count the debug line reports. */
  function PassThroughCount(cycles: seq<CycleTime>): (n: nat)
    ensures n <= |cycles|
    ensures n == 0 <==> forall k :: 0 <= k < |cycles| ==> !IsPassThrough(cycles[k])
  {
    if cycles == [] then 0
    else (if IsPassThrough(cycles[0]) then 1 else 0) + PassThroughCount(cycles[1..])
  }

  lemma {:induction false} TwinSyncFilterDropsPassThroughs(cycles: seq<CycleTime>)
    ensures |TwinSyncFilter(cycles)| == |cycles| - PassThroughCount(cycles)
  {
    if cycles != [] {
      TwinSyncFilterDropsPassThroughs(cycles[1..]);
    }
  }

  /** What `get_client()` hands to the reads: a client exactly when the
      manager is connected. */
  function CyclesRead(clientOk: bool, samples: seq<CycleSample>, targetSeconds: int): (r: seq<CycleTime>)
    ensures !clientOk ==> r == []
    ensures |r| <= |samples|
    ensures forall c :: c in r ==> c.cycleMs > 0
  {
    if clientOk then CycleTimesFrom(samples, targetSeconds).items else []
  }

  function TaRead(clientOk: bool, samples: seq<TaSample>): (r: seq<TaReading>)
    ensures !clientOk ==> r == []
    ensures clientOk ==> |r| == |samples| - |TaDataFrom(samples).failed|
  {
    if clientOk then TaDataFrom(samples).items else []
  }

  /** `read_quality_counters`: the slot is the shift and hour of `now` as
      `_get_current_shift_and_hour` computes them, so hour -1 in the first
      half hour of a Friday's shift 2 and the first hour of its shift 3;
      nothing without a client or when a counter read fails. */
  function QualityRead(clientOk: bool, now: int, good: Reading, reject: Reading, rework: Reading): (r: Option<QualityCounts>)
    ensures r.None? <==> !clientOk || good.ReadError? || reject.ReadError? || rework.ReadError?
    ensures r.Some? ==>
      r.value.shift == ShiftAt(TimeOf(now), IsoWeekday(now))
      && r.value.hour == ShiftAndHourAsWritten(TimeOf(now), IsoWeekday(now)).hourIndex
      && -1 <= r.value.hour <= 7
      && r.value.good == OrZero(good) && r.value.reject == OrZero(reject) && r.value.rework == OrZero(rework)
  {
    if !clientOk then None
    else
      var sh := ShiftAndHourAsWritten(TimeOf(now), IsoWeekday(now));
      QualityFrom(sh.shift, sh.hourIndex, good, reject, rework)
  }

  /** Outside Friday's afternoon and night shifts the slot read is the
      corrected one, a valid counter slot 0..7 counted from the start of the
      running shift; hour -1 is read exactly in the two Friday half hours
      where the written rule goes negative. */
  lemma QualitySlotOutsideFridayShifts(clientOk: bool, now: int, good: Reading, reject: Reading, rework: Reading)
    requires QualityRead(clientOk, now, good, reject, rework).Some?
    ensures var r := QualityRead(clientOk, now, good, reject, rework).value;
      var tod, day := TimeOf(now), IsoWeekday(now);
      (!(day == 5 && tod >= HM(13, 30)) && !(day == 6 && tod < HM(6, 0)) ==>
         r.shift == ShiftAndHour(tod, day).shift && r.hour == ShiftAndHour(tod, day).hourIndex && 0 <= r.hour <= 7)
      && (r.hour < 0 <==> day == 5 && (HM(13, 30) <= tod < HM(14, 0) || HM(21, 0) <= tod < HM(22, 0)))
  {
    var tod, day := TimeOf(now), IsoWeekday(now);
    AsWrittenNegativeExactly(tod, day);
    if !(day == 5 && tod >= HM(13, 30)) && !(day == 6 && tod < HM(6, 0)) {
      AsWrittenAgreesOutsideFridayShifts(tod, day);
    }
  }

  /** The `cycle_times` rows one `collect_once` adds. */
  function CycleInsert(inScheduledBreak: bool, cycles: seq<CycleTime>, now: int, dbOk: bool): (r: seq<CycleRow>)
    ensures inScheduledBreak || !dbOk ==> r == []
    ensures !inScheduledBreak && dbOk ==> |r| == |cycles| - PassThroughCount(cycles)
  {
    TwinSyncFilterDropsPassThroughs(cycles);
    if inScheduledBreak || !dbOk then [] else CycleRowsAt(now, TwinSyncFilter(cycles))
  }

  function TaInsert(readings: seq<TaReading>, now: int, dbOk: bool): (r: seq<TaRow>)
    ensures |r| == if dbOk then |readings| else 0
    ensures forall k :: 0 <= k < |r| ==> r[k] == TaRow(now, readings[k])
  {
    if dbOk then TaRowsAt(now, readings) else []
  }

  /** Storage gating: inside the exact window of a scheduled break no cycle
      time is stored; outside it every stored row is a cycle that was read,
      and none is a twin-sync pass-through. */
  lemma StoredCyclesAreRealCycles(inScheduledBreak: bool, cycles: seq<CycleTime>, now: int, dbOk: bool)
    ensures inScheduledBreak ==> CycleInsert(inScheduledBreak, cycles, now, dbOk) == []
    ensures forall r :: r in CycleInsert(inScheduledBreak, cycles, now, dbOk) ==>
      exists c :: c in cycles && !IsPassThrough(c) && r == CycleRowOf(now, c)
  {
    var f := TwinSyncFilter(cycles);
    forall r | r in CycleInsert(inScheduledBreak, cycles, now, dbOk)
      ensures exists c :: c in cycles && !IsPassThrough(c) && r == CycleRowOf(now, c)
    {
      var k :| 0 <= k < |f| && CycleRowsAt(now, f)[k] == r;
      assert f[k] in f;
    }
  }

  /** TA data and quality counters do not depend on the break window: the
      rows stored for them are the same inside and outside it. */
  lemma TaStoredRegardlessOfBreak(readings: seq<TaReading>, now: int)
    ensures TaInsert(readings, now, true) == TaRowsAt(now, readings)
    ensures |TaInsert(readings, now, true)| == |readings|
  {
  }

  /** The outcomes of one collection cycle's I/O. */
  datatype TickInput = TickInput(
    cycleSamples: seq<CycleSample>,
    taSamples: seq<TaSample>,
    good: Reading, reject: Reading, rework: Reading,
    cycleDbOk: bool, taDbOk: bool, qualityDbOk: bool, breakDbOk: bool,
    error: string)

  function SummaryQuality(counters: Option<QualityCounts>): Option<QualityDict>
  {
    if counters.None? then None
    else Some(QualityDict(counters.value.good, counters.value.reject, counters.value.rework))
  }

  function Banner(): string { seq(70, _ => '=') }

  // ---------------------------------------------------------------------------
  // What each step writes to the log

  const NoClientMessage := "No active client connection"

  /** One WARNING per sequence whose read raised, in sequence order. */
  function ReadFailureLines(component: string, failed: seq<int>, error: string): (r: seq<Entry>)
    ensures |r| == |failed|
    ensures forall k :: 0 <= k < |r| ==>
      r[k] == Entry(WARNING, Tagged(component, "Seq " + IntToDecimal(failed[k]) + " read failed: " + error))
  {
    seq(|failed|, k requires 0 <= k < |failed| =>
      Entry(WARNING, Tagged(component, "Seq " + IntToDecimal(failed[k]) + " read failed: " + error)))
  }

  /** `read_cycle_times` and `read_ta_data`: the OPC_UA fault without a
      client, otherwise the warnings of the sequences that failed. */
  function SequenceReadLog(l: LogState, clientOk: bool, component: string, failed: seq<int>, error: string): LogState
  {
    if !clientOk then Faulted(l, "OPC_UA", NoClientMessage)
    else l.(entries := l.entries + ReadFailureLines(component, failed, error))
  }

  /** `read_quality_counters`: the OPC_UA fault without a client, the
      QUALITY_READ fault when a counter read raises, nothing otherwise. */
  function QualityReadLog(l: LogState, clientOk: bool, good: Reading, reject: Reading, rework: Reading, error: string): LogState
  {
    if !clientOk then Faulted(l, "OPC_UA", NoClientMessage)
    else if good.ReadError? || reject.ReadError? || rework.ReadError? then Faulted(l, "QUALITY_READ", "Read failed: " + error)
    else l
  }

  /** The three reads of one cycle, in order. */
  function ReadAllLog(l: LogState, clientOk: bool, io: TickInput, targetSeconds: int): LogState
  {
    var l1 := SequenceReadLog(l, clientOk, "CYCLE_READ", CycleTimesFrom(io.cycleSamples, targetSeconds).failed, io.error);
    var l2 := SequenceReadLog(l1, clientOk, "TA_READ", TaDataFrom(io.taSamples).failed, io.error);
    QualityReadLog(l2, clientOk, io.good, io.reject, io.rework, io.error)
  }

  function FilteredText(n: nat): string
  {
    "Filtered " + NatToDecimal(n) + " passthrough cycles from twin sync stations"
  }

  /** `store_cycle_times`: nothing for an empty batch; a debug line counting
      the pass-through cycles when there are any; a DATABASE fault when some
      cycle is left to insert and the insert fails. */
  function CycleStoreLog(l: LogState, cycles: seq<CycleTime>, dbOk: bool, error: string): LogState
  {
    if cycles == [] then l
    else
      var dropped := PassThroughCount(cycles);
      var l1 := if dropped > 0 then WithLine(l, Entry(DEBUG, FilteredText(dropped))) else l;
      if dropped == |cycles| || dbOk then l1 else Faulted(l1, "DATABASE", "Cycle time insert failed: " + error)
  }

  /** `store_ta_data`: a DATABASE fault when a non-empty insert fails. */
  function TaStoreLog(l: LogState, readings: seq<TaReading>, dbOk: bool, error: string): LogState
  {
    if readings == [] || dbOk then l else Faulted(l, "DATABASE", "TA insert failed: " + error)
  }

  /** `store_quality_counters`: a DATABASE fault when the upsert of counters
      that were read fails. */
  function QualityStoreLog(l: LogState, counters: Option<QualityCounts>, dbOk: bool, error: string): LogState
  {
    if counters.None? || dbOk then l else Faulted(l, "DATABASE", "Quality counter insert failed: " + error)
  }

  /** The three stores of one cycle: inside a scheduled break the cycle
      times are skipped with a debug line. */
  function StoreAllLog(l: LogState, inScheduledBreak: bool, cycles: seq<CycleTime>, readings: seq<TaReading>,
                       counters: Option<QualityCounts>, io: TickInput): LogState
  {
    var l1 := if inScheduledBreak then WithLine(l, Entry(DEBUG, "Cycle times skipped (scheduled break)"))
              else CycleStoreLog(l, cycles, io.cycleDbOk, io.error);
    QualityStoreLog(TaStoreLog(l1, readings, io.taDbOk, io.error), counters, io.qualityDbOk, io.error)
  }

  /** The end of `collect_once`: the summary line, or the COLLECTOR fault. */
  function ReportLog(l: LogState, ok: bool, cycleCount: nat, taCount: nat, counters: Option<QualityCounts>, error: string): LogState
  {
    if ok then WithLine(l, Entry(DEBUG, SummaryText(cycleCount, taCount, SummaryQuality(counters))))
    else Faulted(l, "COLLECTOR", "Collection cycle error: " + error)
  }

  /** `strftime('%H:%M')` of a time of day: two digits of hour, a colon and
      two digits of minute, which read back as the minute holding it. */
  function ClockText(t: TimeOfDay): (r: string)
    ensures |r| == 5 && r[2] == ':'
    ensures IsDigit(r[0]) && IsDigit(r[1]) && IsDigit(r[3]) && IsDigit(r[4])
    ensures var hm := (DigitValue(r[0]) * 10 + DigitValue(r[1])) * 3600 + (DigitValue(r[3]) * 10 + DigitValue(r[4])) * 60;
      hm <= t < hm + 60
  {
    var h, m := t / 3600, t % 3600 / 60;
    var r := [DigitChar(h / 10), DigitChar(h % 10), ':', DigitChar(m / 10), DigitChar(m % 10)];
    assert DigitValue(r[0]) == h / 10 && DigitValue(r[1]) == h % 10;
    assert DigitValue(r[3]) == m / 10 && DigitValue(r[4]) == m % 10;
    r
  }

  const FrozenWithoutScheduleText := "TA frozen but no scheduled break found at this time"

  /** The line the detector writes for each of its events: `break_event`
      for a started or ended break, a debug line for a freeze outside the
      schedule, an info line for a loaded schedule. None is an error. */
  function NoteLine(n: BreakNote): (r: Entry)
    ensures r.level == (if n.FrozenWithoutSchedule? then DEBUG else INFO)
    ensures n.Started? ==>
      Some(r) == BreakEventEntry("started", n.breakName, "(" + ClockText(n.scheduledStart) + "-" + ClockText(n.scheduledEnd) + ")")
    ensures n.Ended? ==> Some(r) == BreakEventEntry("ended", n.breakName, ComplianceText(n.compliance))
  {
    match n
    case ScheduleLoaded(count) => Entry(INFO, "Break schedule loaded: " + NatToDecimal(count) + " breaks")
    case Started(name, start, end) =>
      var window := "(" + ClockText(start) + "-" + ClockText(end) + ")";
      Entry(INFO, "Break started: " + name + " " + window)
    case Ended(name, compliance, _) => Entry(INFO, "Break ended: " + name + " " + ComplianceText(compliance))
    case FrozenWithoutSchedule => Entry(DEBUG, FrozenWithoutScheduleText)
  }

  /** One line per event, in event order. */
  function NoteLines(notes: seq<BreakNote>): (r: seq<Entry>)
    ensures |r| == |notes|
    ensures forall k :: 0 <= k < |r| ==> r[k] == NoteLine(notes[k]) && r[k].level != ERROR
  {
    seq(|notes|, k requires 0 <= k < |notes| => NoteLine(notes[k]))
  }

  /** The detector's part of `collect_once`: the lines of the events
      `process` recorded, on the shared logger. */
  function BreakLog(l: LogState, newNotes: seq<BreakNote>): LogState
  {
    l.(entries := l.entries + NoteLines(newNotes))
  }

  /** Everything one `collect_once` writes, given whether the client was
      available, whether `now` fell in a scheduled break, the events the
      detector recorded and whether its database work succeeded. */
  function CollectLog(l: LogState, clientOk: bool, inScheduledBreak: bool, newNotes: seq<BreakNote>, detectorOk: bool,
                      now: int, io: TickInput, targetSeconds: int): LogState
  {
    var cycles := CyclesRead(clientOk, io.cycleSamples, targetSeconds);
    var readings := TaRead(clientOk, io.taSamples);
    var counters := QualityRead(clientOk, now, io.good, io.reject, io.rework);
    var afterStores := StoreAllLog(ReadAllLog(l, clientOk, io, targetSeconds), inScheduledBreak, cycles, readings, counters, io);
    ReportLog(BreakLog(afterStores, newNotes), detectorOk, |cycles|, |readings|, counters, io.error)
  }

  /** `CollectLog` taken apart at the point where the stores have written
      their lines, as the collector's methods reach it step by step. */
  lemma CollectLogSteps(l: LogState, clientOk: bool, inScheduledBreak: bool, newNotes: seq<BreakNote>, detectorOk: bool,
                        now: int, io: TickInput, targetSeconds: int, afterStores: LogState)
    requires afterStores == StoreAllLog(ReadAllLog(l, clientOk, io, targetSeconds), inScheduledBreak,
      CyclesRead(clientOk, io.cycleSamples, targetSeconds), TaRead(clientOk, io.taSamples),
      QualityRead(clientOk, now, io.good, io.reject, io.rework), io)
    ensures CollectLog(l, clientOk, inScheduledBreak, newNotes, detectorOk, now, io, targetSeconds)
      == ReportLog(BreakLog(afterStores, newNotes), detectorOk, |CyclesRead(clientOk, io.cycleSamples, targetSeconds)|,
                   |TaRead(clientOk, io.taSamples)|, QualityRead(clientOk, now, io.good, io.reject, io.rework), io.error)
  {
  }

  /** A cycle ends with its summary line when the detector's work succeeded,
      and with the COLLECTOR fault as the last error otherwise. */
  lemma CollectLogEnds(l: LogState, clientOk: bool, inScheduledBreak: bool, newNotes: seq<BreakNote>, detectorOk: bool,
                       now: int, io: TickInput, targetSeconds: int)
    ensures var r := CollectLog(l, clientOk, inScheduledBreak, newNotes, detectorOk, now, io, targetSeconds);
      (detectorOk ==> |r.entries| > 0 && r.entries[|r.entries| - 1] == Entry(DEBUG, SummaryText(
         |CyclesRead(clientOk, io.cycleSamples, targetSeconds)|, |TaRead(clientOk, io.taSamples)|,
         SummaryQuality(QualityRead(clientOk, now, io.good, io.reject, io.rework)))))
      && (!detectorOk ==> r.dedup.lastError == Some(FaultKey("COLLECTOR", "Collection cycle error: " + io.error)))
  {
  }

  /** Without a client each of the three reads raises the same OPC_UA fault,
      and the de-duplication lets at most one ERROR line of the three through. */
  lemma {:induction false} NoClientReadsLogOnce(l: LogState, io: TickInput, targetSeconds: int)
    ensures var r := ReadAllLog(l, false, io, targetSeconds);
      r.entries[..|l.entries|] == l.entries
      && |l.entries| <= |r.entries| <= |l.entries| + 1
      && (forall k :: |l.entries| <= k < |r.entries| ==> r.entries[k].level == ERROR)
      && r.dedup.lastError == Some(FaultKey("OPC_UA", NoClientMessage))
  {
    var l1 := Faulted(l, "OPC_UA", NoClientMessage);
    var l2 := Faulted(l1, "OPC_UA", NoClientMessage);
    var l3 := Faulted(l2, "OPC_UA", NoClientMessage);
    assert ReadAllLog(l, false, io, targetSeconds) == l3;
    ThreeFaultsLogAtMostOnce(l.dedup, "OPC_UA", NoClientMessage);
    assert l3.entries == l.entries + FaultEntries(l.dedup, "OPC_UA", NoClientMessage)
      + FaultEntries(l1.dedup, "OPC_UA", NoClientMessage) + FaultEntries(l2.dedup, "OPC_UA", NoClientMessage);
  }

  /** From `l` to `r` the logger raised no fault: its de-duplication state is
      untouched and it only appended lines, none of them at ERROR level. */
  predicate NoFaultBetween(l: LogState, r: LogState)
  {
    && r.dedup == l.dedup
    && |l.entries| <= |r.entries|
    && r.entries[..|l.entries|] == l.entries
    && forall k :: |l.entries| <= k < |r.entries| ==> r.entries[k].level != ERROR
  }

  lemma NoFaultBetweenTrans(a: LogState, b: LogState, c: LogState)
    requires NoFaultBetween(a, b) && NoFaultBetween(b, c)
    ensures NoFaultBetween(a, c)
  {
    assert c.entries[..|a.entries|] == c.entries[..|b.entries|][..|a.entries|];
    forall k | |a.entries| <= k < |c.entries|
      ensures c.entries[k].level != ERROR
    {
      if k < |b.entries| {
        assert c.entries[k] == c.entries[..|b.entries|][k];
      }
    }
  }

  lemma WarningsRaiseNoFault(l: LogState, component: string, failed: seq<int>, error: string)
    ensures NoFaultBetween(l, l.(entries := l.entries + ReadFailureLines(component, failed, error)))
  {
    var w := ReadFailureLines(component, failed, error);
    var r := l.(entries := l.entries + w);
    assert r.entries[..|l.entries|] == l.entries;
    forall k | |l.entries| <= k < |r.entries|
      ensures r.entries[k].level != ERROR
    {
      assert r.entries[k] == w[k - |l.entries|];
    }
  }

  /** With a client and no counter read raising, the reads write only the
      warnings of the sequences that failed. */
  lemma ClientReadsRaiseNoFault(l: LogState, io: TickInput, targetSeconds: int)
    requires !io.good.ReadError? && !io.reject.ReadError? && !io.rework.ReadError?
    ensures NoFaultBetween(l, ReadAllLog(l, true, io, targetSeconds))
  {
    var l1 := SequenceReadLog(l, true, "CYCLE_READ", CycleTimesFrom(io.cycleSamples, targetSeconds).failed, io.error);
    var l2 := SequenceReadLog(l1, true, "TA_READ", TaDataFrom(io.taSamples).failed, io.error);
    WarningsRaiseNoFault(l, "CYCLE_READ", CycleTimesFrom(io.cycleSamples, targetSeconds).failed, io.error);
    WarningsRaiseNoFault(l1, "TA_READ", TaDataFrom(io.taSamples).failed, io.error);
    NoFaultBetweenTrans(l, l1, l2);
  }

  /** Stores that all succeed write at most debug lines. */
  lemma WorkingStoresRaiseNoFault(l: LogState, inScheduledBreak: bool, cycles: seq<CycleTime>, readings: seq<TaReading>,
                                  counters: Option<QualityCounts>, io: TickInput)
    requires io.cycleDbOk && io.taDbOk && io.qualityDbOk
    ensures NoFaultBetween(l, StoreAllLog(l, inScheduledBreak, cycles, readings, counters, io))
  {
  }

  /** The detector's lines are never errors. */
  lemma BreakLinesRaiseNoFault(l: LogState, newNotes: seq<BreakNote>)
    ensures NoFaultBetween(l, BreakLog(l, newNotes))
  {
    var r := BreakLog(l, newNotes);
    assert r.entries[..|l.entries|] == l.entries;
    forall k | |l.entries| <= k < |r.entries|
      ensures r.entries[k].level != ERROR
    {
      assert r.entries[k] == NoteLines(newNotes)[k - |l.entries|];
    }
  }

  /** A cycle in which the client is there, no counter read raises, every
      store succeeds and the detector's work succeeds raises no fault: the
      de-duplication state is untouched and no ERROR line is written,
      whatever break events the detector reports. */
  lemma HealthyCycleRaisesNoFault(l: LogState, inScheduledBreak: bool, newNotes: seq<BreakNote>, now: int,
                                  io: TickInput, targetSeconds: int)
    requires !io.good.ReadError? && !io.reject.ReadError? && !io.rework.ReadError?
    requires io.cycleDbOk && io.taDbOk && io.qualityDbOk
    ensures NoFaultBetween(l, CollectLog(l, true, inScheduledBreak, newNotes, true, now, io, targetSeconds))
  {
    var afterReads := ReadAllLog(l, true, io, targetSeconds);
    var cycles := CyclesRead(true, io.cycleSamples, targetSeconds);
    var readings := TaRead(true, io.taSamples);
    var counters := QualityRead(true, now, io.good, io.reject, io.rework);
    var afterStores := StoreAllLog(afterReads, inScheduledBreak, cycles, readings, counters, io);
    ClientReadsRaiseNoFault(l, io, targetSeconds);
    WorkingStoresRaiseNoFault(afterReads, inScheduledBreak, cycles, readings, counters, io);
    NoFaultBetweenTrans(l, afterReads, afterStores);
    var afterBreaks := BreakLog(afterStores, newNotes);
    BreakLinesRaiseNoFault(afterStores, newNotes);
    NoFaultBetweenTrans(l, afterStores, afterBreaks);
    var r := ReportLog(afterBreaks, true, |cycles|, |readings|, counters, io.error);
    assert NoFaultBetween(afterBreaks, r) by {
      assert r.entries[..|afterBreaks.entries|] == afterBreaks.entries;
    }
    NoFaultBetweenTrans(l, afterBreaks, r);
  }

  /** The break-closing step of `shutdown`: a debug line when a row is open,
      and a BREAK_DETECTOR fault when closing it failed. */
  function CloseBreakLog(l: LogState, outcome: ShutdownClose, error: string): LogState
  {
    var l1 := if outcome != NothingOpen then WithLine(l, Entry(DEBUG, "Closing open break record on shutdown")) else l;
    if outcome == CloseFailed then Faulted(l1, "BREAK_DETECTOR", "Failed to close break: " + error) else l1
  }

  /** The lines `shutdown` writes before closing the break. */
  function ShutdownOpeningLog(l: LogState): LogState
  {
    l.(entries := l.entries + [Entry(INFO, ""), Entry(INFO, Banner()), Entry(INFO, "Shutting down...")])
  }

  /** The lines `shutdown` writes after stopping the connection manager. */
  function ShutdownClosingLog(l: LogState, poolCloseOk: bool): LogState
  {
    var disconnected := if poolCloseOk then [Entry(INFO, "Database disconnected")] else [];
    l.(entries := l.entries + disconnected + [Entry(INFO, "Shutdown complete"), Entry(INFO, Banner())])
  }

  class OEEDataCollector {
    const logger: DataCollectionLogger
    const manager: OPCUAConnectionManager
    const detector: BreakDetector
    /** `target_cycle_time_seconds` of the machine configuration. */
    const targetSeconds: int

    var running: bool
    var cycleRows: seq<CycleRow>
    var taRows: seq<TaRow>
    var qualityRows: map<QualityKey, QualityCounts>

    /** The collector, its manager and its detector share one logger, and
        this version's detector does not clamp late minutes. */
    predicate Wired()
    {
      manager.logger == logger && !detector.clampLate
    }

    function ClientAvailable(): bool
      reads manager
    {
      manager.isConnected && manager.client.Some?
    }

    constructor (logger: DataCollectionLogger, manager: OPCUAConnectionManager, targetSeconds: int)
      requires manager.logger == logger
      ensures this.logger == logger && this.manager == manager && this.targetSeconds == targetSeconds
      ensures Wired() && fresh(detector)
      ensures BreakDetection.Valid(detector.State()) && detector.State().breaks == []
      ensures !running && cycleRows == [] && taRows == [] && qualityRows == map[]
    {
      this.logger := logger;
      this.manager := manager;
      this.targetSeconds := targetSeconds;
      detector := new BreakDetector(false);
      running := false;
      cycleRows := [];
      taRows := [];
      qualityRows := map[];
    }

    /** One warning per sequence whose read raised. */
    method WarnFailures(component: string, failed: seq<int>, error: string)
      modifies logger`entries
      ensures |logger.entries| == |old(logger.entries)| + |failed|
      ensures logger.entries[..|old(logger.entries)|] == old(logger.entries)
      ensures forall k :: 0 <= k < |failed| ==>
        logger.entries[|old(logger.entries)| + k] == Entry(WARNING, Tagged(component, "Seq " + IntToDecimal(failed[k]) + " read failed: " + error))
      ensures logger.Dedup() == old(logger.Dedup())
      ensures logger.entries == old(logger.entries) + ReadFailureLines(component, failed, error)
    {
      var i := 0;
      while i < |failed|
        invariant 0 <= i <= |failed|
        invariant |logger.entries| == |old(logger.entries)| + i
        invariant logger.entries[..|old(logger.entries)|] == old(logger.entries)
        invariant forall k :: 0 <= k < i ==>
          logger.entries[|old(logger.entries)| + k] == Entry(WARNING, Tagged(component, "Seq " + IntToDecimal(failed[k]) + " read failed: " + error))
        invariant logger.Dedup() == old(logger.Dedup())
      {
        logger.Warning(component, "Seq " + IntToDecimal(failed[i]) + " read failed: " + error);
        i := i + 1;
      }
      assert logger.entries == old(logger.entries) + ReadFailureLines(component, failed, error);
    }

    method ReadCycleTimes(samples: seq<CycleSample>, error: string) returns (cycles: seq<CycleTime>)
      modifies logger
      ensures cycles == CyclesRead(ClientAvailable(), samples, targetSeconds)
      ensures logger.State() == SequenceReadLog(old(logger.State()), ClientAvailable(), "CYCLE_READ",
        CycleTimesFrom(samples, targetSeconds).failed, error)
    {
      var client := manager.GetClient();
      if client.None? {
        logger.Fault("OPC_UA", "No active client connection");
        return [];
      }
      var failed;
      cycles, failed := PlcData.ReadCycleTimes(samples, targetSeconds);
      WarnFailures("CYCLE_READ", failed, error);
    }

    method ReadTaData(samples: seq<TaSample>, error: string) returns (readings: seq<TaReading>)
      modifies logger
      ensures readings == TaRead(ClientAvailable(), samples)
      ensures logger.State() == SequenceReadLog(old(logger.State()), ClientAvailable(), "TA_READ", TaDataFrom(samples).failed, error)
    {
      var client := manager.GetClient();
      if client.None? {
        logger.Fault("OPC_UA", "No active client connection");
        return [];
      }
      var failed;
      readings, failed := PlcData.ReadTaData(samples);
      WarnFailures("TA_READ", failed, error);
    }

    method ReadQualityCounters(now: int, good: Reading, reject: Reading, rework: Reading, error: string)
      returns (counters: Option<QualityCounts>)
      modifies logger
      ensures counters == QualityRead(ClientAvailable(), now, good, reject, rework)
      ensures logger.State() == QualityReadLog(old(logger.State()), ClientAvailable(), good, reject, rework, error)
    {
      var sh := ShiftAndHourAsWritten(TimeOf(now), IsoWeekday(now));
      var client := manager.GetClient();
      if client.None? {
        logger.Fault("OPC_UA", "No active client connection");
        return None;
      }
      counters := QualityFrom(sh.shift, sh.hourIndex, good, reject, rework);
      if counters.None? {
        logger.Fault("QUALITY_READ", "Read failed: " + error);
      }
    }

    method StoreCycleTimes(cycles: seq<CycleTime>, now: int, dbOk: bool, error: string)
      modifies this`cycleRows, logger
      ensures cycleRows == old(cycleRows) + CycleInsert(false, cycles, now, dbOk)
      ensures logger.State() == CycleStoreLog(old(logger.State()), cycles, dbOk, error)
    {
      if cycles == [] {
        return;
      }
      var filtered := TwinSyncFilter(cycles);
      TwinSyncFilterDropsPassThroughs(cycles);
      if |filtered| < |cycles| {
        logger.Debug("Filtered " + NatToDecimal(|cycles| - |filtered|) + " passthrough cycles from twin sync stations");
      }
      if filtered == [] {
        return;
      }
      if dbOk {
        cycleRows := cycleRows + CycleRowsAt(now, filtered);
      } else {
        logger.Fault("DATABASE", "Cycle time insert failed: " + error);
      }
    }

    method StoreTaData(readings: seq<TaReading>, now: int, dbOk: bool, error: string)
      modifies this`taRows, logger
      ensures taRows == old(taRows) + TaInsert(readings, now, dbOk)
      ensures logger.State() == TaStoreLog(old(logger.State()), readings, dbOk, error)
    {
      if readings == [] {
        return;
      }
      if dbOk {
        taRows := taRows + TaRowsAt(now, readings);
      } else {
        logger.Fault("DATABASE", "TA insert failed: " + error);
      }
    }

    method StoreQualityCounters(counters: Option<QualityCounts>, now: int, dbOk: bool, error: string)
      modifies this`qualityRows, logger
      ensures qualityRows == if dbOk then UpsertQuality(old(qualityRows), counters, now) else old(qualityRows)
      ensures logger.State() == QualityStoreLog(old(logger.State()), counters, dbOk, error)
    {
      if counters.None? {
        return;
      }
      if dbOk {
        qualityRows := UpsertQuality(qualityRows, counters, now);
      } else {
        logger.Fault("DATABASE", "Quality counter insert failed: " + error);
      }
    }

    /** The three reads of `collect_once`, in order. */
    method ReadAll(now: int, io: TickInput)
      returns (cycles: seq<CycleTime>, readings: seq<TaReading>, counters: Option<QualityCounts>)
      modifies logger
      ensures cycles == CyclesRead(ClientAvailable(), io.cycleSamples, targetSeconds)
      ensures readings == TaRead(ClientAvailable(), io.taSamples)
      ensures counters == QualityRead(ClientAvailable(), now, io.good, io.reject, io.rework)
      ensures logger.State() == ReadAllLog(old(logger.State()), ClientAvailable(), io, targetSeconds)
    {
      cycles := ReadCycleTimes(io.cycleSamples, io.error);
      readings := ReadTaData(io.taSamples, io.error);
      counters := ReadQualityCounters(now, io.good, io.reject, io.rework, io.error);
    }

    /** The three stores of `collect_once`: cycle times only outside the
        scheduled break, TA data and quality counters always. */
    method StoreAll(inScheduledBreak: bool, cycles: seq<CycleTime>, readings: seq<TaReading>,
                    counters: Option<QualityCounts>, now: int, io: TickInput)
      modifies this`cycleRows, this`taRows, this`qualityRows, logger
      ensures cycleRows == old(cycleRows) + CycleInsert(inScheduledBreak, cycles, now, io.cycleDbOk)
      ensures taRows == old(taRows) + TaInsert(readings, now, io.taDbOk)
      ensures qualityRows == if io.qualityDbOk then UpsertQuality(old(qualityRows), counters, now) else old(qualityRows)
      ensures logger.State() == StoreAllLog(old(logger.State()), inScheduledBreak, cycles, readings, counters, io)
    {
      if !inScheduledBreak {
        StoreCycleTimes(cycles, now, io.cycleDbOk, io.error);
      } else {
        logger.Debug("Cycle times skipped (scheduled break)");
      }
      StoreTaData(readings, now, io.taDbOk, io.error);
      StoreQualityCounters(counters, now, io.qualityDbOk, io.error);
    }

    /** The reading and storing part of `collect_once`: the scheduled-break
        check comes first, then the three reads, then the three stores. */
    method ReadAndStore(now: int, io: TickInput)
      returns (cycles: seq<CycleTime>, readings: seq<TaReading>, counters: Option<QualityCounts>)
      requires Wired()
      modifies this`cycleRows, this`taRows, this`qualityRows, logger
      ensures cycleRows == old(cycleRows) + CycleInsert(
        IsInScheduledBreakTime(detector.scheduledBreaks, TimeOf(now)),
        CyclesRead(ClientAvailable(), io.cycleSamples, targetSeconds), now, io.cycleDbOk)
      ensures taRows == old(taRows) + TaInsert(TaRead(ClientAvailable(), io.taSamples), now, io.taDbOk)
      ensures qualityRows == if io.qualityDbOk
        then UpsertQuality(old(qualityRows), QualityRead(ClientAvailable(), now, io.good, io.reject, io.rework), now)
        else old(qualityRows)
      ensures cycles == CyclesRead(ClientAvailable(), io.cycleSamples, targetSeconds)
      ensures readings == TaRead(ClientAvailable(), io.taSamples)
      ensures counters == QualityRead(ClientAvailable(), now, io.good, io.reject, io.rework)
      ensures logger.State() == StoreAllLog(ReadAllLog(old(logger.State()), ClientAvailable(), io, targetSeconds),
        IsInScheduledBreakTime(detector.scheduledBreaks, TimeOf(now)), cycles, readings, counters, io)
    {
      var inScheduledBreak := detector.IsInScheduledBreakTimeAt(now);
      cycles, readings, counters := ReadAll(now, io);
      StoreAll(inScheduledBreak, cycles, readings, counters, now, io);
    }

    /** The last step of `collect_once`: a summary line, or a COLLECTOR fault
        when the detector's database work failed. */
    method ReportTick(ok: bool, cycleCount: nat, taCount: nat, counters: Option<QualityCounts>, error: string)
      modifies logger
      ensures ok ==>
        logger.entries == old(logger.entries) + [Entry(DEBUG, SummaryText(cycleCount, taCount, SummaryQuality(counters)))]
        && logger.Dedup() == old(logger.Dedup())
      ensures !ok ==>
        logger.entries == old(logger.entries) + FaultEntries(old(logger.Dedup()), "COLLECTOR", "Collection cycle error: " + error)
        && logger.Dedup() == FaultStep(old(logger.Dedup()), FaultKey("COLLECTOR", "Collection cycle error: " + error))
      ensures logger.State() == ReportLog(old(logger.State()), ok, cycleCount, taCount, counters, error)
    {
      if ok {
        logger.DataSummary(cycleCount, taCount, SummaryQuality(counters));
      } else {
        logger.Fault("COLLECTOR", "Collection cycle error: " + error);
      }
    }

    /** `collect_once`: cycle times are stored only outside the exact window
        of a scheduled break; TA data and quality counters always are; the
        unfiltered TA data goes to the break detector; a failure of the
        detector's database work ends the cycle with a COLLECTOR fault and
        no summary. */
    method CollectOnce(now: int, io: TickInput)
      requires Wired()
      modifies this`cycleRows, this`taRows, this`qualityRows, logger, detector
      ensures cycleRows == old(cycleRows) + CycleInsert(
        IsInScheduledBreakTime(old(detector.scheduledBreaks), TimeOf(now)),
        CyclesRead(ClientAvailable(), io.cycleSamples, targetSeconds), now, io.cycleDbOk)
      ensures taRows == old(taRows) + TaInsert(TaRead(ClientAvailable(), io.taSamples), now, io.taDbOk)
      ensures qualityRows == if io.qualityDbOk
        then UpsertQuality(old(qualityRows), QualityRead(ClientAvailable(), now, io.good, io.reject, io.rework), now)
        else old(qualityRows)
      ensures detector.State() == ProcessSpec(false, old(detector.State()), TaRead(ClientAvailable(), io.taSamples), now, io.breakDbOk).state
      ensures var ok := ProcessSpec(false, old(detector.State()), TaRead(ClientAvailable(), io.taSamples), now, io.breakDbOk).ok;
        ok ==> |logger.entries| > 0 && logger.entries[|logger.entries| - 1] == Entry(DEBUG, SummaryText(
          |CyclesRead(ClientAvailable(), io.cycleSamples, targetSeconds)|, |TaRead(ClientAvailable(), io.taSamples)|,
          SummaryQuality(QualityRead(ClientAvailable(), now, io.good, io.reject, io.rework))))
      ensures !ProcessSpec(false, old(detector.State()), TaRead(ClientAvailable(), io.taSamples), now, io.breakDbOk).ok ==>
        logger.Dedup().lastError == Some(FaultKey("COLLECTOR", "Collection cycle error: " + io.error))
      ensures var p := ProcessSpec(false, old(detector.State()), TaRead(ClientAvailable(), io.taSamples), now, io.breakDbOk);
        logger.State() == CollectLog(old(logger.State()), ClientAvailable(),
          IsInScheduledBreakTime(old(detector.scheduledBreaks), TimeOf(now)),
          p.state.notes[|old(detector.notes)|..], p.ok, now, io, targetSeconds)
    {
      ghost var before := logger.State();
      ghost var inScheduledBreak := IsInScheduledBreakTime(detector.scheduledBreaks, TimeOf(now));
      ghost var notesBefore := detector.notes;
      var cycles, readings, counters := ReadAndStore(now, io);
      ghost var afterStores := logger.State();
      var ok := DetectBreaks(readings, now, io.breakDbOk);
      ghost var newNotes := detector.notes[|notesBefore|..];
      ReportTick(ok, |cycles|, |readings|, counters, io.error);
      CollectLogSteps(before, ClientAvailable(), inScheduledBreak, newNotes, ok, now, io, targetSeconds, afterStores);
      CollectLogEnds(before, ClientAvailable(), inScheduledBreak, newNotes, ok, now, io, targetSeconds);
    }

    /** The line the detector writes for one event, through the logger's
        own methods. */
    method LogBreakNote(n: BreakNote)
      modifies logger`entries
      ensures logger.State() == WithLine(old(logger.State()), NoteLine(n))
    {
      match n
      case ScheduleLoaded(count) =>
        logger.Info("Break schedule loaded: " + NatToDecimal(count) + " breaks");
      case Started(name, start, end) =>
        logger.BreakEvent("started", name, "(" + ClockText(start) + "-" + ClockText(end) + ")");
      case Ended(name, compliance, _) =>
        logger.BreakEvent("ended", name, ComplianceText(compliance));
      case FrozenWithoutSchedule =>
        logger.Debug(FrozenWithoutScheduleText);
    }

    /** `break_detector.process` on the shared logger: the detector steps as
        `ProcessSpec` gives, and the line of the event it recorded, if any,
        is written. A failed database step records no event. */
    method DetectBreaks(readings: seq<TaReading>, now: int, dbOk: bool) returns (ok: bool)
      requires Wired()
      modifies logger`entries, detector
      ensures var p := ProcessSpec(false, old(detector.State()), readings, now, dbOk);
        detector.State() == p.state && ok == p.ok
        && logger.State() == BreakLog(old(logger.State()), p.state.notes[|old(detector.notes)|..])
    {
      var noteCount := |detector.notes|;
      ok := detector.Process(readings, now, dbOk);
      if |detector.notes| > noteCount {
        var n := detector.notes[|detector.notes| - 1];
        assert detector.notes[noteCount..] == [n];
        LogBreakNote(n);
      } else {
        assert detector.notes[noteCount..] == [];
      }
    }

    /** The opening lines of `shutdown`. */
    method AnnounceShutdown()
      modifies logger`entries
      ensures logger.State() == ShutdownOpeningLog(old(logger.State()))
    {
      logger.Info("");
      logger.Info(Banner());
      logger.Info("Shutting down...");
    }

    /** The closing lines of `shutdown`, after the connection manager has
        stopped. */
    method AnnounceShutdownComplete(poolCloseOk: bool)
      modifies logger`entries
      ensures logger.State() == ShutdownClosingLog(old(logger.State()), poolCloseOk)
    {
      if poolCloseOk {
        logger.Info("Database disconnected");
      }
      logger.Info("Shutdown complete");
      logger.Info(Banner());
    }

    /** The break-closing step of `shutdown`. */
    method CloseOpenBreak(now: int, breakDbOk: bool, error: string) returns (outcome: ShutdownClose)
      requires Wired()
      modifies logger, detector
      ensures (detector.State(), outcome) == ShutdownCloseSpec(false, old(detector.State()), now, breakDbOk)
      ensures logger.State() == CloseBreakLog(old(logger.State()), outcome, error)
    {
      if detector.inBreak && detector.currentBreakId.Some? {
        logger.Debug("Closing open break record on shutdown");
      }
      outcome := detector.CloseOnShutdown(now, breakDbOk);
      if outcome == CloseFailed {
        logger.Fault("BREAK_DETECTOR", "Failed to close break: " + error);
      }
    }

    /** `shutdown`: stop collecting, close the open break row if there is
        one (a failure is logged as a BREAK_DETECTOR fault), then stop the
        connection manager. */
    method Shutdown(now: int, breakDbOk: bool, closeOk: bool, poolCloseOk: bool, error: string)
      returns (outcome: ShutdownClose)
      requires Wired()
      modifies this`running, logger, detector, manager
      ensures !running
      ensures (detector.State(), outcome) == ShutdownCloseSpec(false, old(detector.State()), now, breakDbOk)
      ensures !manager.shouldRun && !manager.monitorRunning && !manager.isConnected && manager.client.None?
      ensures manager.reconnectAttempts == old(manager.reconnectAttempts)
      ensures var closed := CloseBreakLog(ShutdownOpeningLog(old(logger.State())), outcome, error);
        var stopped := StopSpec(old(manager.State()).(dedup := closed.dedup, log := closed.entries), closeOk);
        manager.State() == stopped.(log := logger.entries)
        && logger.State() == ShutdownClosingLog(LogState(stopped.log, stopped.dedup), poolCloseOk)
    {
      ghost var before := manager.State();
      AnnounceShutdown();
      running := false;
      outcome := CloseOpenBreak(now, breakDbOk, error);
      ghost var closed := logger.State();
      assert manager.State() == before.(dedup := closed.dedup, log := closed.entries);
      manager.Stop(closeOk);
      ghost var stopped := manager.State();
      AnnounceShutdownComplete(poolCloseOk);
    }
  }
}
