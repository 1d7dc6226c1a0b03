/** The rows the collectors write to `cycle_times`, `technical_availability`
    and `quality_counters`, as functions of the data read in one cycle. */
module Storage {
  import opened Wrappers
  import opened PlcData

  /** `deviation_percent`: the deviation as a percentage of the desired
      time, or 0 when the desired time is not positive. */
  function DeviationPercent(cycleMs: int, desiredMs: int): (p: real)
    ensures desiredMs <= 0 ==> p == 0.0
    ensures desiredMs > 0 ==> p * desiredMs as real == (cycleMs - desiredMs) as real * 100.0
  {
    if desiredMs > 0 then (cycleMs - desiredMs) as real / desiredMs as real * 100.0 else 0.0
  }

  datatype CycleRow = CycleRow(time: int, sequenceId: int, cycleMs: int, desiredMs: int, deviationMs: int, deviationPercent: real)

  datatype TaRow = TaRow(time: int, reading: TaReading)

  function CycleRowOf(now: int, c: CycleTime): CycleRow
  {
    CycleRow(now, c.sequenceId, c.cycleMs, c.desiredMs, c.cycleMs - c.desiredMs, DeviationPercent(c.cycleMs, c.desiredMs))
  }

  /** The `executemany` rows for a list of cycles, one per cycle, in order. */
  function CycleRowsAt(now: int, cycles: seq<CycleTime>): (rows: seq<CycleRow>)
    ensures |rows| == |cycles|
    ensures forall k :: 0 <= k < |cycles| ==> rows[k] == CycleRowOf(now, cycles[k])
  {
    if cycles == [] then [] else [CycleRowOf(now, cycles[0])] + CycleRowsAt(now, cycles[1..])
  }

  function TaRowsAt(now: int, readings: seq<TaReading>): (rows: seq<TaRow>)
    ensures |rows| == |readings|
    ensures forall k :: 0 <= k < |readings| ==> rows[k] == TaRow(now, readings[k])
  {
    if readings == [] then [] else [TaRow(now, readings[0])] + TaRowsAt(now, readings[1..])
  }

  /** The conflict key of `quality_counters`: (time, shift, hour). */
  datatype QualityKey = QualityKey(time: int, shift: int, hour: int)

  /** `INSERT ... ON CONFLICT (time, shift_number, hour_index) DO UPDATE`:
      nothing for no counters, otherwise the row under its key holds the new
      counts and every other row is untouched. */
  function UpsertQuality(table: map<QualityKey, QualityCounts>, counters: Option<QualityCounts>, now: int)
    : (r: map<QualityKey, QualityCounts>)
    ensures counters.None? ==> r == table
    ensures counters.Some? ==>
      var key := QualityKey(now, counters.value.shift, counters.value.hour);
      key in r && r[key] == counters.value
        && r.Keys == table.Keys + {key}
        && forall k :: k in table && k != key ==> r[k] == table[k]
  {
    if counters.None? then table
    else table[QualityKey(now, counters.value.shift, counters.value.hour) := counters.value]
  }

  /** Storing the same counters twice at the same time is storing them once. */
  lemma UpsertIdempotent(table: map<QualityKey, QualityCounts>, counters: Option<QualityCounts>, now: int)
    ensures UpsertQuality(UpsertQuality(table, counters, now), counters, now) == UpsertQuality(table, counters, now)
  {
  }
}
