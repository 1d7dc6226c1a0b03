/** The values the collectors read from the PLC each cycle, and the guards
    and fallbacks applied to them (`read_cycle_times`, `read_ta_data`,
    `read_quality_counters`, the same in `data_collector_oee_BK.py`,
    `data_collector_oee.py` and `data_collector_oee_bk.py`).

    One `read_value()` is a `Reading`: a number, `None`, or an exception.
    Cycle and fault times stay in the PLC's milliseconds and TA in a scaled
    integer; the conversions to float seconds are not modelled. */
module PlcData {
  import opened Wrappers

  datatype Reading = Value(v: int) | Null | ReadError

  /** `int(x) if x else 0` for a read that did not raise. */
  function OrZero(r: Reading): (n: int)
    ensures r.Value? ==> n == r.v
    ensures !r.Value? ==> n == 0
  {
    if r.Value? then r.v else 0
  }

  /** What one sequence's read produces: a row, nothing, or a warning. */
  datatype ReadOutcome<T> = Recorded(item: T) | Skipped | Failed

  /** A reader's result: the rows in sequence order and the sequences whose
      read raised (each is one warning). */
  datatype Collected<T> = Collected(items: seq<T>, failed: seq<int>)

  // ---------------------------------------------------------------------------
  // Cycle times

  datatype CycleSample = CycleSample(sequenceId: int, last: Reading, desired: Reading)

  datatype CycleTime = CycleTime(sequenceId: int, cycleMs: int, desiredMs: int)

  /** `target_cycle_time_seconds` when the configuration omits it. */
  const DefaultTargetSeconds: int := 17

  /** The desired cycle time: the PLC's value unless it is zero, `None` or
      unreadable, in which case the configured target in milliseconds. */
  function DesiredOrFallback(desired: Reading, targetSeconds: int): (ms: int)
    ensures desired.Value? && desired.v != 0 ==> ms == desired.v
    ensures !(desired.Value? && desired.v != 0) ==> ms == targetSeconds * 1000
  {
    if desired.Value? && desired.v != 0 then desired.v else targetSeconds * 1000
  }

  /** One sequence of `read_cycle_times`: a failed read of the last cycle
      time is a warning; a cycle is recorded only when it is present and
      positive. */
  function CycleOutcome(s: CycleSample, targetSeconds: int): (o: ReadOutcome<CycleTime>)
    ensures o.Failed? <==> s.last.ReadError?
    ensures o.Recorded? <==> s.last.Value? && s.last.v > 0
    ensures o.Recorded? ==> o.item == CycleTime(s.sequenceId, s.last.v, DesiredOrFallback(s.desired, targetSeconds))
  {
    match s.last
    case ReadError => Failed
    case Null => Skipped
    case Value(v) => if v > 0 then Recorded(CycleTime(s.sequenceId, v, DesiredOrFallback(s.desired, targetSeconds))) else Skipped
  }

  function AddOutcome<T>(acc: Collected<T>, sequenceId: int, o: ReadOutcome<T>): Collected<T>
  {
    match o
    case Recorded(x) => Collected(acc.items + [x], acc.failed)
    case Skipped => acc
    case Failed => Collected(acc.items, acc.failed + [sequenceId])
  }

  /** The result of `read_cycle_times` over the active sequences, in order. */
  function CycleTimesFrom(samples: seq<CycleSample>, targetSeconds: int): (r: Collected<CycleTime>)
    ensures forall c :: c in r.items ==> c.cycleMs > 0
    ensures |r.items| + |r.failed| <= |samples|
  {
    if samples == [] then Collected([], [])
    else
      var last := samples[|samples| - 1];
      AddOutcome(CycleTimesFrom(samples[..|samples| - 1], targetSeconds), last.sequenceId, CycleOutcome(last, targetSeconds))
  }

  function Concat<T>(a: Collected<T>, b: Collected<T>): Collected<T>
  {
    Collected(a.items + b.items, a.failed + b.failed)
  }

  /** Reading is per sequence: the result for a concatenation of sequence
      lists is the concatenation of the results. */
  lemma {:induction false} CycleTimesSplit(a: seq<CycleSample>, b: seq<CycleSample>, targetSeconds: int)
    ensures CycleTimesFrom(a + b, targetSeconds) == Concat(CycleTimesFrom(a, targetSeconds), CycleTimesFrom(b, targetSeconds))
    decreases |b|
  {
    if b == [] {
      assert a + b == a;
    } else {
      var b' := b[..|b| - 1];
      assert (a + b)[..|a + b| - 1] == a + b';
      CycleTimesSplit(a, b', targetSeconds);
    }
  }

  /** A failed read of one sequence omits that sequence and only it: the
      others' rows are exactly what they would be on their own. */
  lemma FailedCycleReadOmitsOnlyIt(before: seq<CycleSample>, s: CycleSample, after: seq<CycleSample>, targetSeconds: int)
    requires s.last.ReadError?
    ensures CycleTimesFrom(before + [s] + after, targetSeconds).items ==
      CycleTimesFrom(before, targetSeconds).items + CycleTimesFrom(after, targetSeconds).items
    ensures CycleTimesFrom(before + [s] + after, targetSeconds).failed ==
      CycleTimesFrom(before, targetSeconds).failed + [s.sequenceId] + CycleTimesFrom(after, targetSeconds).failed
  {
    CycleTimesSplit(before + [s], after, targetSeconds);
    CycleTimesSplit(before, [s], targetSeconds);
    assert [s][..0] == [];
  }

  /** `read_cycle_times`: the loop over the active sequences. */
  method ReadCycleTimes(samples: seq<CycleSample>, targetSeconds: int) returns (cycles: seq<CycleTime>, failed: seq<int>)
    ensures Collected(cycles, failed) == CycleTimesFrom(samples, targetSeconds)
  {
    cycles, failed := [], [];
    var i := 0;
    while i < |samples|
      invariant 0 <= i <= |samples|
      invariant Collected(cycles, failed) == CycleTimesFrom(samples[..i], targetSeconds)
    {
      assert samples[..i + 1][..i] == samples[..i];
      var s := samples[i];
      match s.last {
        case ReadError =>
          failed := failed + [s.sequenceId];
        case Null =>
        case Value(v) =>
          if v > 0 {
            cycles := cycles + [CycleTime(s.sequenceId, v, DesiredOrFallback(s.desired, targetSeconds))];
          }
      }
      i := i + 1;
    }
    assert samples[..|samples|] == samples;
  }

  // ---------------------------------------------------------------------------
  // Technical availability

  datatype TaSample = TaSample(sequenceId: int, ta: Reading, blocked: Reading, starved: Reading, fault: Reading)

  datatype TaReading = TaReading(sequenceId: int, taPercent: int, blockedTime: int, starvedTime: int, faultTime: int)

  /** One sequence of `read_ta_data`: any of the four reads raising skips the
      sequence with a warning; a `None` or zero value becomes 0. */
  function TaOutcome(s: TaSample): (o: ReadOutcome<TaReading>)
    ensures o.Failed? <==> s.ta.ReadError? || s.blocked.ReadError? || s.starved.ReadError? || s.fault.ReadError?
    ensures !o.Skipped?
    ensures o.Recorded? ==>
      o.item == TaReading(s.sequenceId, OrZero(s.ta), OrZero(s.blocked), OrZero(s.starved), OrZero(s.fault))
  {
    if s.ta.ReadError? || s.blocked.ReadError? || s.starved.ReadError? || s.fault.ReadError? then Failed
    else Recorded(TaReading(s.sequenceId, OrZero(s.ta), OrZero(s.blocked), OrZero(s.starved), OrZero(s.fault)))
  }

  function TaDataFrom(samples: seq<TaSample>): (r: Collected<TaReading>)
    ensures |r.items| + |r.failed| == |samples|
  {
    if samples == [] then Collected([], [])
    else
      var last := samples[|samples| - 1];
      AddOutcome(TaDataFrom(samples[..|samples| - 1]), last.sequenceId, TaOutcome(last))
  }

  /** Every readable sequence yields exactly one TA row, in order. */
  lemma {:induction false} TaRowsFollowSequences(samples: seq<TaSample>)
    requires forall k :: 0 <= k < |samples| ==> !TaOutcome(samples[k]).Failed?
    ensures |TaDataFrom(samples).items| == |samples|
    ensures forall k :: 0 <= k < |samples| ==> TaDataFrom(samples).items[k].sequenceId == samples[k].sequenceId
  {
    if samples != [] {
      TaRowsFollowSequences(samples[..|samples| - 1]);
    }
  }

  /** `read_ta_data`: the loop over the active sequences. */
  method ReadTaData(samples: seq<TaSample>) returns (rows: seq<TaReading>, failed: seq<int>)
    ensures Collected(rows, failed) == TaDataFrom(samples)
  {
    rows, failed := [], [];
    var i := 0;
    while i < |samples|
      invariant 0 <= i <= |samples|
      invariant Collected(rows, failed) == TaDataFrom(samples[..i])
    {
      assert samples[..i + 1][..i] == samples[..i];
      var s := samples[i];
      if s.ta.ReadError? || s.blocked.ReadError? || s.starved.ReadError? || s.fault.ReadError? {
        failed := failed + [s.sequenceId];
      } else {
        rows := rows + [TaReading(s.sequenceId, OrZero(s.ta), OrZero(s.blocked), OrZero(s.starved), OrZero(s.fault))];
      }
      i := i + 1;
    }
    assert samples[..|samples|] == samples;
  }

  // ---------------------------------------------------------------------------
  // Quality counters

  datatype QualityCounts = QualityCounts(shift: int, hour: int, good: int, reject: int, rework: int)

  /** `read_quality_counters` for a given shift and hour slot: nothing when
      any of the three reads raises, otherwise the counts with `None` and
      zero read as 0. */
  function QualityFrom(shift: int, hour: int, good: Reading, reject: Reading, rework: Reading): (r: Option<QualityCounts>)
    ensures r.None? <==> good.ReadError? || reject.ReadError? || rework.ReadError?
    ensures r.Some? ==> r.value == QualityCounts(shift, hour, OrZero(good), OrZero(reject), OrZero(rework))
  {
    if good.ReadError? || reject.ReadError? || rework.ReadError? then None
    else Some(QualityCounts(shift, hour, OrZero(good), OrZero(reject), OrZero(rework)))
  }
}
