/** The collection cycle of the earlier collector, `data_collector_oee.py`:
    the same reads and stores as the later one, but every cycle time read is
    stored (no break-window gating and no twin-sync filter), quality slots
    follow the fixed Monday-to-Thursday shift table, and its break detector
    clamps late minutes under the tolerance. It reads through its own client
    rather than a connection manager. */
module CollectorV1 {
  import opened Wrappers
  import opened Clock
  import opened Shifts
  import opened PlcData
  import opened Storage
  import opened BreakDetection
  import CollectorV2

  /** `read_quality_counters` of this version: the slot is the fixed-table
      shift and hour of `now`. */
  function QualityReadV1(now: int, good: Reading, reject: Reading, rework: Reading): (r: Option<QualityCounts>)
    ensures r.None? <==> good.ReadError? || reject.ReadError? || rework.ReadError?
    ensures r.Some? ==> r.value.shift == FixedShift(TimeOf(now)) && 0 <= r.value.hour <= 7
  {
    var sh := ShiftAndHourFixed(TimeOf(now));
    QualityFrom(sh.shift, sh.hourIndex, good, reject, rework)
  }

  /** The `cycle_times` rows one `collect_once` of this version adds. */
  function CycleInsertV1(cycles: seq<CycleTime>, now: int, dbOk: bool): seq<CycleRow>
  {
    if dbOk then CycleRowsAt(now, cycles) else []
  }

  /** The later collector stores no cycle row the earlier one would not, in
      the same order, and the two store the same rows exactly when the batch
      holds no pass-through cycle and no scheduled break is running. */
  lemma LaterVersionStoresSubset(inScheduledBreak: bool, cycles: seq<CycleTime>, now: int, dbOk: bool)
    ensures forall r :: r in CollectorV2.CycleInsert(inScheduledBreak, cycles, now, dbOk) ==> r in CycleInsertV1(cycles, now, dbOk)
    ensures |CollectorV2.CycleInsert(inScheduledBreak, cycles, now, dbOk)| <= |CycleInsertV1(cycles, now, dbOk)|
    ensures !inScheduledBreak && (forall k :: 0 <= k < |cycles| ==> !CollectorV2.IsPassThrough(cycles[k])) ==>
      CollectorV2.CycleInsert(inScheduledBreak, cycles, now, dbOk) == CycleInsertV1(cycles, now, dbOk)
  {
    CollectorV2.StoredCyclesAreRealCycles(inScheduledBreak, cycles, now, dbOk);
    forall r | r in CollectorV2.CycleInsert(inScheduledBreak, cycles, now, dbOk)
      ensures r in CycleInsertV1(cycles, now, dbOk)
    {
      var c :| c in cycles && !CollectorV2.IsPassThrough(c) && r == CycleRowOf(now, c);
      var k :| 0 <= k < |cycles| && cycles[k] == c;
      assert CycleInsertV1(cycles, now, dbOk)[k] == r;
    }
  }

  class OEEDataCollector {
    const detector: BreakDetector
    /** `target_cycle_time_seconds` of the machine configuration. */
    const targetSeconds: int

    var running: bool
    var cycleRows: seq<CycleRow>
    var taRows: seq<TaRow>
    var qualityRows: map<QualityKey, QualityCounts>

    constructor (targetSeconds: int)
      ensures this.targetSeconds == targetSeconds
      ensures fresh(detector) && detector.clampLate
      ensures BreakDetection.Valid(detector.State()) && detector.State().breaks == []
      ensures !running && cycleRows == [] && taRows == [] && qualityRows == map[]
    {
      this.targetSeconds := targetSeconds;
      detector := new BreakDetector(true);
      running := false;
      cycleRows := [];
      taRows := [];
      qualityRows := map[];
    }

    method StoreCycleTimes(cycles: seq<CycleTime>, now: int, dbOk: bool)
      modifies this`cycleRows
      ensures cycleRows == old(cycleRows) + CycleInsertV1(cycles, now, dbOk)
    {
      if cycles == [] {
        return;
      }
      if dbOk {
        cycleRows := cycleRows + CycleRowsAt(now, cycles);
      }
    }

    method StoreTaData(readings: seq<TaReading>, now: int, dbOk: bool)
      modifies this`taRows
      ensures taRows == old(taRows) + CollectorV2.TaInsert(readings, now, dbOk)
    {
      if readings == [] {
        return;
      }
      if dbOk {
        taRows := taRows + TaRowsAt(now, readings);
      }
    }

    method StoreQualityCounters(counters: Option<QualityCounts>, now: int, dbOk: bool)
      modifies this`qualityRows
      ensures qualityRows == if dbOk then UpsertQuality(old(qualityRows), counters, now) else old(qualityRows)
    {
      if counters.None? {
        return;
      }
      if dbOk {
        qualityRows := UpsertQuality(qualityRows, counters, now);
      }
    }

    /** `collect_once`: read, store every cycle time, TA row and the quality
        counters, then run break detection on the TA data. */
    method CollectOnce(now: int, io: CollectorV2.TickInput)
      requires detector.clampLate
      modifies this`cycleRows, this`taRows, this`qualityRows, detector
      ensures cycleRows == old(cycleRows) + CycleInsertV1(CycleTimesFrom(io.cycleSamples, targetSeconds).items, now, io.cycleDbOk)
      ensures taRows == old(taRows) + CollectorV2.TaInsert(TaDataFrom(io.taSamples).items, now, io.taDbOk)
      ensures qualityRows == if io.qualityDbOk
        then UpsertQuality(old(qualityRows), QualityReadV1(now, io.good, io.reject, io.rework), now)
        else old(qualityRows)
      ensures detector.State() == ProcessSpec(true, old(detector.State()), TaDataFrom(io.taSamples).items, now, io.breakDbOk).state
    {
      var cycles, failedCycles := PlcData.ReadCycleTimes(io.cycleSamples, targetSeconds);
      var readings, failedTa := PlcData.ReadTaData(io.taSamples);
      var counters := QualityReadV1(now, io.good, io.reject, io.rework);
      StoreCycleTimes(cycles, now, io.cycleDbOk);
      StoreTaData(readings, now, io.taDbOk);
      StoreQualityCounters(counters, now, io.qualityDbOk);
      var ok := detector.Process(readings, now, io.breakDbOk);
    }

    /** `shutdown`: stop collecting and close the open break row exactly when
        the detector is in a break and holds a row id. */
    method Shutdown(now: int, breakDbOk: bool) returns (outcome: ShutdownClose)
      requires detector.clampLate
      modifies this`running, detector
      ensures !running
      ensures (detector.State(), outcome) == ShutdownCloseSpec(true, old(detector.State()), now, breakDbOk)
    {
      running := false;
      outcome := detector.CloseOnShutdown(now, breakDbOk);
    }
  }
}
