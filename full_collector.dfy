/** The configuration-driven helpers of `data_collector_full.py`
    (`ProductionDataCollector`): node-id building, state categorisation,
    the safety-area lookup of `read_sequence_states` and the cycle guard of
    `read_cycle_times`. Its shift lookup and hour index are in `Shifts`. */
module FullCollector {
  import opened Wrappers
  import opened Text
  import opened PlcData
  import opened Storage

  /** `_build_node_id`: `ns=<ns>;s=<plc>.<path>`, or `ns=<ns>;s=<path>`
      when the configured PLC name is empty. */
  function BuildNodeId(ns: nat, plcName: string, path: string): (r: string)
    ensures |r| > |path| + 3 && r[|r| - |path|..] == path
    ensures r[..3] == "ns="
  {
    var prefix := "ns=" + NatToDecimal(ns) + ";s=";
    if plcName != [] then prefix + plcName + "." + path else prefix + path
  }

  /** The namespace can be read back from a node id: it is the run of
      digits after `ns=`, ended by `;`, and the PLC name (when there is one)
      sits between `;s=` and the dot before the path. */
  lemma NodeIdParts(ns: nat, plcName: string, path: string)
    ensures var r := BuildNodeId(ns, plcName, path);
      var d := |NatToDecimal(ns)|;
      3 + d + 3 <= |r|
      && AllDigits(r[3..3 + d]) && DecimalValue(r[3..3 + d]) == ns
      && r[3 + d..3 + d + 3] == ";s="
      && (plcName != [] ==> r[3 + d + 3..] == plcName + "." + path)
      && (plcName == [] ==> r[3 + d + 3..] == path)
  {
    var digits := NatToDecimal(ns);
    var tail := if plcName != [] then plcName + "." + path else path;
    assert BuildNodeId(ns, plcName, path) == "ns=" + digits + ";s=" + tail;
    NodeIdSlices(digits, tail, BuildNodeId(ns, plcName, path));
    DecimalRoundTrip(ns);
  }

  /** The pieces of `ns=<digits>;s=<tail>` can be sliced back out. */
  lemma NodeIdSlices(digits: string, tail: string, r: string)
    requires r == "ns=" + digits + ";s=" + tail
    ensures 3 + |digits| + 3 <= |r|
    ensures r[3..3 + |digits|] == digits
    ensures r[3 + |digits|..3 + |digits| + 3] == ";s="
    ensures r[3 + |digits| + 3..] == tail
  {
  }

  /** `str.lower()` is idempotent. */
  lemma ToLowerIdempotent(s: string)
    ensures ToLower(ToLower(s)) == ToLower(s)
  {
    var t := ToLower(s);
    forall i | 0 <= i < |s|
      ensures ToLower(t)[i] == t[i]
    {
      assert t[i] == ToLowerChar(s[i]);
    }
  }

  /** One entry of `state_mappings.<type>_states`: a category and the
      states it lists. */
  datatype Category = Category(name: string, states: seq<string>)

  /** `state.lower() in [s.lower() for s in states]` */
  predicate Listed(state: string, states: seq<string>)
  {
    exists k :: 0 <= k < |states| && ToLower(states[k]) == ToLower(state)
  }

  /** The position of the first category listing the state, or the number
      of categories when none does. */
  function FirstCategory(state: string, mappings: seq<Category>): (i: nat)
    ensures i <= |mappings|
    ensures i < |mappings| ==> Listed(state, mappings[i].states)
    ensures forall j :: 0 <= j < i ==> !Listed(state, mappings[j].states)
  {
    if mappings == [] then 0
    else if Listed(state, mappings[0].states) then 0
    else 1 + FirstCategory(state, mappings[1..])
  }

  /** `_categorize_state`: the first category in mapping order that lists
      the state, compared without regard to case; `unknown` when none does. */
  function CategorizeState(state: string, mappings: seq<Category>): (r: string)
    ensures (forall k :: 0 <= k < |mappings| ==> !Listed(state, mappings[k].states)) ==> r == "unknown"
    ensures forall k ::
      (0 <= k < |mappings| && Listed(state, mappings[k].states)
       && (forall j :: 0 <= j < k ==> !Listed(state, mappings[j].states)))
      ==> r == mappings[k].name
  {
    var i := FirstCategory(state, mappings);
    if i < |mappings| then mappings[i].name else "unknown"
  }

  /** Categorisation ignores case: a state and its lower-case form fall in
      the same category. */
  lemma CategorizeIgnoresCase(state: string, mappings: seq<Category>)
    ensures CategorizeState(ToLower(state), mappings) == CategorizeState(state, mappings)
  {
    ToLowerIdempotent(state);
    forall k | 0 <= k < |mappings|
      ensures Listed(ToLower(state), mappings[k].states) == Listed(state, mappings[k].states)
    {
    }
  }

  /** `safety_area_mapping`: an area id and the sequences it holds. */
  datatype SafetyArea = SafetyArea(id: int, sequences: seq<int>)

  /** The safety-area lookup of `read_sequence_states`: the first area in
      mapping order whose list holds the sequence, or none. */
  function SafetyAreaOf(sequenceId: int, mapping: seq<SafetyArea>): (r: Option<int>)
    ensures r.None? <==> forall k :: 0 <= k < |mapping| ==> sequenceId !in mapping[k].sequences
    ensures r.Some? ==>
      exists k ::
        0 <= k < |mapping| && mapping[k].id == r.value
        && sequenceId in mapping[k].sequences
        && forall j :: 0 <= j < k ==> sequenceId !in mapping[j].sequences
  {
    if mapping == [] then None
    else if sequenceId in mapping[0].sequences then Some(mapping[0].id)
    else
      var rest := SafetyAreaOf(sequenceId, mapping[1..]);
      assert rest.Some? ==>
        exists k ::
          1 <= k < |mapping| && mapping[k].id == rest.value
          && sequenceId in mapping[k].sequences
          && forall j :: 0 <= j < k ==> sequenceId !in mapping[j].sequences
      by {
        if rest.Some? {
          var k :| 0 <= k < |mapping[1..]| && mapping[1..][k].id == rest.value
            && sequenceId in mapping[1..][k].sequences
            && forall j :: 0 <= j < k ==> sequenceId !in mapping[1..][j].sequences;
          assert mapping[k + 1] == mapping[1..][k];
          forall j | 0 <= j < k + 1
            ensures sequenceId !in mapping[j].sequences
          {
            if j > 0 {
              assert mapping[j] == mapping[1..][j - 1];
            }
          }
        }
      }
      rest
  }

  /** A sequence's state read: `None` when the read raised. */
  datatype StateSample = StateSample(sequenceId: int, state: Option<string>)

  datatype SequenceState = SequenceState(sequenceId: int, state: string, category: string, safetyAreaId: Option<int>)

  function StateRow(sequenceId: int, state: string, mappings: seq<Category>, areas: seq<SafetyArea>): SequenceState
  {
    SequenceState(sequenceId, state, CategorizeState(state, mappings), SafetyAreaOf(sequenceId, areas))
  }

  /** What `read_sequence_states` returns after reading the first samples. */
  function SequenceStatesFrom(samples: seq<StateSample>, mappings: seq<Category>, areas: seq<SafetyArea>)
    : (rows: seq<SequenceState>)
    ensures |rows| <= |samples|
    ensures forall row :: row in rows ==>
      row.category == "unknown" || exists k :: 0 <= k < |mappings| && mappings[k].name == row.category
  {
    if samples == [] then []
    else
      var prefix := SequenceStatesFrom(samples[..|samples| - 1], mappings, areas);
      var s := samples[|samples| - 1];
      if s.state.None? then prefix else prefix + [StateRow(s.sequenceId, s.state.value, mappings, areas)]
  }

  /** The samples whose state read returned a value, in order. */
  function StatesRead(samples: seq<StateSample>): (r: seq<StateSample>)
    ensures |r| <= |samples|
    ensures forall s :: s in r ==> s.state.Some? && s in samples
  {
    if samples == [] then []
    else
      var prefix := StatesRead(samples[..|samples| - 1]);
      var s := samples[|samples| - 1];
      if s.state.Some? then prefix + [s] else prefix
  }

  /** Row k is the categorised, area-tagged state of the k-th sample whose
      read succeeded: exactly those samples appear, each once and in order. */
  lemma {:induction false} SequenceStatesFollowSamples(samples: seq<StateSample>, mappings: seq<Category>, areas: seq<SafetyArea>)
    ensures |SequenceStatesFrom(samples, mappings, areas)| == |StatesRead(samples)|
    ensures forall k :: 0 <= k < |StatesRead(samples)| ==>
      var s := StatesRead(samples)[k];
      s.state.Some? && SequenceStatesFrom(samples, mappings, areas)[k] == StateRow(s.sequenceId, s.state.value, mappings, areas)
  {
    if samples != [] {
      var prefix := samples[..|samples| - 1];
      var s := samples[|samples| - 1];
      SequenceStatesFollowSamples(prefix, mappings, areas);
      var rows, read := SequenceStatesFrom(prefix, mappings, areas), StatesRead(prefix);
      if s.state.Some? {
        assert SequenceStatesFrom(samples, mappings, areas) == rows + [StateRow(s.sequenceId, s.state.value, mappings, areas)];
        assert StatesRead(samples) == read + [s];
      }
    }
  }

  /** `read_sequence_states`: one row per sequence whose state was read, in
      order; a failed read only leaves that sequence out. */
  method ReadSequenceStates(samples: seq<StateSample>, mappings: seq<Category>, areas: seq<SafetyArea>)
    returns (rows: seq<SequenceState>)
    ensures rows == SequenceStatesFrom(samples, mappings, areas)
  {
    rows := [];
    var i := 0;
    while i < |samples|
      invariant 0 <= i <= |samples|
      invariant rows == SequenceStatesFrom(samples[..i], mappings, areas)
    {
      assert samples[..i + 1][..i] == samples[..i];
      var s := samples[i];
      if s.state.Some? {
        var category := CategorizeState(s.state.value, mappings);
        var area: Option<int> := None;
        var j := 0;
        while j < |areas|
          invariant 0 <= j <= |areas|
          invariant SafetyAreaOf(s.sequenceId, areas) == SafetyAreaOf(s.sequenceId, areas[j..])
        {
          if s.sequenceId in areas[j].sequences {
            area := Some(areas[j].id);
            break;
          }
          assert areas[j..][1..] == areas[j + 1..];
          j := j + 1;
        }
        assert area == SafetyAreaOf(s.sequenceId, areas);
        rows := rows + [SequenceState(s.sequenceId, s.state.value, category, area)];
      }
      i := i + 1;
    }
    assert samples[..|samples|] == samples;
  }

  /** The two reads of one sequence's cycle: desired first, then last. */
  datatype FullCycleSample = FullCycleSample(sequenceId: int, desired: Reading, last: Reading)

  datatype FullCycle = FullCycle(sequenceId: int, cycleTime: int, desired: int, deviation: int, deviationPercent: real)

  /** A cycle is recorded when both reads return a value and the last cycle
      is positive; a `None` in the comparison or the subtraction raises, and
      the sequence is skipped like a failed read. */
  predicate RecordsCycle(s: FullCycleSample)
  {
    s.desired.Value? && s.last.Value? && s.last.v > 0
  }

  function FullCyclesFrom(samples: seq<FullCycleSample>): (rows: seq<FullCycle>)
    ensures |rows| <= |samples|
    ensures forall c :: c in rows ==>
      c.cycleTime > 0 && c.deviation == c.cycleTime - c.desired
      && (c.desired <= 0 ==> c.deviationPercent == 0.0)
      && (c.desired > 0 ==> c.deviationPercent * c.desired as real == c.deviation as real * 100.0)
  {
    if samples == [] then []
    else
      var prefix := FullCyclesFrom(samples[..|samples| - 1]);
      var s := samples[|samples| - 1];
      if RecordsCycle(s)
      then prefix + [FullCycle(s.sequenceId, s.last.v, s.desired.v, s.last.v - s.desired.v, DeviationPercent(s.last.v, s.desired.v))]
      else prefix
  }

  /** Only the sequences whose cycle the guard accepts appear, each once per
      accepting sample and in sample order. */
  lemma {:induction false} FullCyclesFollowSamples(samples: seq<FullCycleSample>)
    ensures |FullCyclesFrom(samples)| == |Accepted(samples)|
    ensures forall k :: 0 <= k < |Accepted(samples)| ==>
      FullCyclesFrom(samples)[k].sequenceId == Accepted(samples)[k].sequenceId
      && FullCyclesFrom(samples)[k].cycleTime == Accepted(samples)[k].last.v
      && FullCyclesFrom(samples)[k].desired == Accepted(samples)[k].desired.v
  {
    if samples != [] {
      FullCyclesFollowSamples(samples[..|samples| - 1]);
    }
  }

  /** The samples the guard accepts, in order. */
  function Accepted(samples: seq<FullCycleSample>): (r: seq<FullCycleSample>)
    ensures forall s :: s in r ==> RecordsCycle(s) && s in samples
    ensures forall k :: 0 <= k < |r| ==> RecordsCycle(r[k])
  {
    if samples == [] then []
    else
      var prefix := Accepted(samples[..|samples| - 1]);
      var s := samples[|samples| - 1];
      if RecordsCycle(s) then prefix + [s] else prefix
  }

  /** `read_cycle_times` of this collector. */
  method ReadCycleTimesFull(samples: seq<FullCycleSample>) returns (rows: seq<FullCycle>)
    ensures rows == FullCyclesFrom(samples)
  {
    rows := [];
    var i := 0;
    while i < |samples|
      invariant 0 <= i <= |samples|
      invariant rows == FullCyclesFrom(samples[..i])
    {
      assert samples[..i + 1][..i] == samples[..i];
      var s := samples[i];
      if s.desired.Value? && s.last.Value? && s.last.v > 0 {
        var deviation := s.last.v - s.desired.v;
        rows := rows + [FullCycle(s.sequenceId, s.last.v, s.desired.v, deviation, DeviationPercent(s.last.v, s.desired.v))];
      }
      i := i + 1;
    }
    assert samples[..|samples|] == samples;
  }
}
