/** The collector's logging wrapper (`DataCollectionLogger`) and console
    formatter (`CollectorFormatter`). The log output itself is modelled as an
    append-only sequence of entries, one per line the Python logger emits. */
module LoggingConfig {
  import opened Wrappers
  import opened Text

  datatype Level = DEBUG | INFO | WARNING | ERROR | CRITICAL

  /** One emitted log line: its level and its message text. */
  datatype Entry = Entry(level: Level, text: string)

  /** The quality counters that `data_summary` may be given. */
  datatype QualityDict = QualityDict(good: int, reject: int, rework: int)

  // ---------------------------------------------------------------------------
  // Fault de-duplication

  /** The two fields `fault` keeps: `last_error` and `error_count`. */
  datatype FaultState = FaultState(lastError: Option<string>, errorCount: nat)

  const InitialFaultState: FaultState := FaultState(None, 0)

  /** `f"{component}:{message}"` */
  function FaultKey(component: string, message: string): string
  {
    component + ":" + message
  }

  /** The de-duplication state after one `fault` call with `key`. */
  function FaultStep(st: FaultState, key: string): FaultState
  {
    if st.lastError != Some(key) then FaultState(Some(key), 1)
    else FaultState(st.lastError, st.errorCount + 1)
  }

  /** Whether that call writes a line: a new key always, a repeat only on
      every tenth occurrence. */
  predicate FaultLogged(st: FaultState, key: string)
  {
    st.lastError != Some(key) || (st.errorCount + 1) % 10 == 0
  }

  /** `f"[{component}] {message}"` */
  function Tagged(component: string, message: string): string
  {
    "[" + component + "] " + message
  }

  /** The lines one `fault` call writes, given the state before it. */
  function FaultEntries(st: FaultState, component: string, message: string): (r: seq<Entry>)
    ensures |r| <= 1
    ensures |r| == 1 <==> FaultLogged(st, FaultKey(component, message))
    ensures forall e :: e in r ==> e.level == ERROR
  {
    var key := FaultKey(component, message);
    if st.lastError != Some(key) then [Entry(ERROR, Tagged(component, message))]
    else if (st.errorCount + 1) % 10 == 0 then
      [Entry(ERROR, Tagged(component, message) + " (x" + NatToDecimal(st.errorCount + 1) + ")")]
    else []
  }

  /** Three consecutive `fault` calls with one key write at most one line:
      after the first call the key is the last error, and of three
      consecutive counts at most one is a multiple of ten. */
  lemma ThreeFaultsLogAtMostOnce(st: FaultState, component: string, message: string)
    ensures var key := FaultKey(component, message);
      var st1 := FaultStep(st, key);
      var st2 := FaultStep(st1, key);
      |FaultEntries(st, component, message)| + |FaultEntries(st1, component, message)|
        + |FaultEntries(st2, component, message)| <= 1
  {
    var key := FaultKey(component, message);
    var st1 := FaultStep(st, key);
    var c := st1.errorCount;
    assert st1.lastError == Some(key) && FaultStep(st1, key) == FaultState(Some(key), c + 1);
    if FaultLogged(st, key) {
      assert c % 10 <= 1 by {
        if st.lastError == Some(key) {
          assert (st.errorCount + 1) % 10 == 0 && c == st.errorCount + 1;
        }
      }
    }
  }

  /** What a `DataCollectionLogger` has observably done: the lines written
      so far and its fault de-duplication state. */
  datatype LogState = LogState(entries: seq<Entry>, dedup: FaultState)

  /** The logger after one `fault` call. */
  function Faulted(l: LogState, component: string, message: string): (r: LogState)
    ensures r.dedup.lastError == Some(FaultKey(component, message))
    ensures |l.entries| <= |r.entries| <= |l.entries| + 1
    ensures r.entries[..|l.entries|] == l.entries
    ensures forall k :: |l.entries| <= k < |r.entries| ==> r.entries[k].level == ERROR
  {
    LogState(l.entries + FaultEntries(l.dedup, component, message), FaultStep(l.dedup, FaultKey(component, message)))
  }

  /** The logger after one plain `debug`, `info` or `warning` line. */
  function WithLine(l: LogState, e: Entry): (r: LogState)
    ensures r.dedup == l.dedup && |r.entries| == |l.entries| + 1 && r.entries[|l.entries|] == e
  {
    l.(entries := l.entries + [e])
  }

  /** `n` consecutive `fault` calls with the same key: the final state and
      the number of lines written. */
  function RepeatFault(st: FaultState, key: string, n: nat): (FaultState, nat)
  {
    if n == 0 then (st, 0)
    else
      var (s, lines) := RepeatFault(st, key, n - 1);
      (FaultStep(s, key), lines + if FaultLogged(s, key) then 1 else 0)
  }

  /** A run of `n` identical faults following a different one (or none) ends
      with `error_count == n` and writes `1 + n / 10` lines: the first one and
      then every tenth repeat. */
  lemma {:induction false} RepeatedFaultLines(st: FaultState, key: string, n: nat)
    requires st.lastError != Some(key)
    requires n >= 1
    ensures RepeatFault(st, key, n) == (FaultState(Some(key), n), 1 + n / 10)
  {
    if n > 1 {
      RepeatedFaultLines(st, key, n - 1);
      assert (n - 1) / 10 + (if n % 10 == 0 then 1 else 0) == n / 10;
    }
  }

  /** A different key always resets the count to 1 and is always written. */
  lemma NewKeyResets(st: FaultState, key: string)
    requires st.lastError != Some(key)
    ensures FaultStep(st, key) == FaultState(Some(key), 1)
    ensures FaultLogged(st, key)
  {
  }

  // ---------------------------------------------------------------------------
  // Event dispatch

  /** The line `connection_event` writes: exactly four event types are
      recognised; anything else writes nothing. */
  function ConnectionEventEntry(eventType: string, details: string): (r: Option<Entry>)
    ensures r.Some? <==> eventType in {"connected", "disconnected", "reconnecting", "reconnected"}
    ensures r.Some? ==> (r.value.level == WARNING <==> eventType == "disconnected")
    ensures r.Some? ==> r.value.level in {INFO, WARNING}
  {
    if eventType == "connected" then Some(Entry(INFO, "Connected: " + details))
    else if eventType == "disconnected" then Some(Entry(WARNING, "Disconnected: " + details))
    else if eventType == "reconnecting" then Some(Entry(INFO, "Reconnecting: " + details))
    else if eventType == "reconnected" then Some(Entry(INFO, "Reconnected: " + details))
    else None
  }

  /** The line `break_event` writes: started, ended and compliance, all at
      INFO; any other type writes nothing. */
  function BreakEventEntry(eventType: string, breakName: string, details: string): (r: Option<Entry>)
    ensures r.Some? <==> eventType in {"started", "ended", "compliance"}
    ensures r.Some? ==> r.value.level == INFO
  {
    if eventType == "started" then Some(Entry(INFO, "Break started: " + breakName + " " + details))
    else if eventType == "ended" then Some(Entry(INFO, "Break ended: " + breakName + " " + details))
    else if eventType == "compliance" then Some(Entry(INFO, "Break compliance: " + breakName + " " + details))
    else None
  }

  function OptionToSeq<T>(o: Option<T>): (r: seq<T>)
    ensures |r| <= 1
    ensures o.None? <==> r == []
    ensures o.Some? ==> r == [o.value]
  {
    if o.Some? then [o.value] else []
  }

  function SummaryBase(cycleCount: nat, taCount: nat): string
  {
    "Collected: " + NatToDecimal(cycleCount) + " cycles, " + NatToDecimal(taCount) + " TA readings"
  }

  /** The `data_summary` text: the quality segment is appended exactly when
      a quality dict is given. */
  function SummaryText(cycleCount: nat, taCount: nat, quality: Option<QualityDict>): (r: string)
    ensures quality.None? ==> r == SummaryBase(cycleCount, taCount)
    ensures quality.Some? ==> |r| > |SummaryBase(cycleCount, taCount)|
    ensures r[..|SummaryBase(cycleCount, taCount)|] == SummaryBase(cycleCount, taCount)
  {
    var base := SummaryBase(cycleCount, taCount);
    match quality
    case None => base
    case Some(q) =>
      base + ", Quality: " + IntToDecimal(q.good) + "G/" + IntToDecimal(q.reject) + "R/"
        + IntToDecimal(q.rework) + "RW"
  }

  /** `DataCollectionLogger`: a logger plus the fault de-duplication state. */
  class DataCollectionLogger {
    var lastError: Option<string>
    var errorCount: nat
    /** Everything written so far, oldest first. */
    var entries: seq<Entry>

    function Dedup(): FaultState
      reads this
    {
      FaultState(lastError, errorCount)
    }

    function State(): LogState
      reads this
    {
      LogState(entries, Dedup())
    }

    constructor ()
      ensures Dedup() == InitialFaultState && entries == []
    {
      lastError := None;
      errorCount := 0;
      entries := [];
    }

    method Fault(component: string, message: string)
      modifies this
      ensures Dedup() == FaultStep(old(Dedup()), FaultKey(component, message))
      ensures entries == old(entries) + FaultEntries(old(Dedup()), component, message)
    {
      var errorKey := FaultKey(component, message);
      if Some(errorKey) != lastError {
        entries := entries + [Entry(ERROR, Tagged(component, message))];
        lastError := Some(errorKey);
        errorCount := 1;
      } else {
        errorCount := errorCount + 1;
        if errorCount % 10 == 0 {
          entries := entries + [Entry(ERROR, Tagged(component, message) + " (x" + NatToDecimal(errorCount) + ")")];
        }
      }
    }

    method Warning(component: string, message: string)
      modifies this`entries
      ensures entries == old(entries) + [Entry(WARNING, Tagged(component, message))]
      ensures Dedup() == old(Dedup())
    {
      entries := entries + [Entry(WARNING, Tagged(component, message))];
    }

    method Debug(message: string)
      modifies this`entries
      ensures entries == old(entries) + [Entry(DEBUG, message)]
      ensures Dedup() == old(Dedup())
    {
      entries := entries + [Entry(DEBUG, message)];
    }

    method Info(message: string)
      modifies this`entries
      ensures entries == old(entries) + [Entry(INFO, message)]
      ensures Dedup() == old(Dedup())
    {
      entries := entries + [Entry(INFO, message)];
    }

    method ConnectionEvent(eventType: string, details: string)
      modifies this`entries
      ensures entries == old(entries) + OptionToSeq(ConnectionEventEntry(eventType, details))
      ensures Dedup() == old(Dedup())
    {
      var e := ConnectionEventEntry(eventType, details);
      if e.Some? {
        entries := entries + [e.value];
      }
    }

    method BreakEvent(eventType: string, breakName: string, details: string)
      modifies this`entries
      ensures entries == old(entries) + OptionToSeq(BreakEventEntry(eventType, breakName, details))
      ensures Dedup() == old(Dedup())
    {
      var e := BreakEventEntry(eventType, breakName, details);
      if e.Some? {
        entries := entries + [e.value];
      }
    }

    method DataSummary(cycleCount: nat, taCount: nat, quality: Option<QualityDict>)
      modifies this`entries
      ensures entries == old(entries) + [Entry(DEBUG, SummaryText(cycleCount, taCount, quality))]
      ensures Dedup() == old(Dedup())
    {
      entries := entries + [Entry(DEBUG, SummaryText(cycleCount, taCount, quality))];
    }
  }

  // ---------------------------------------------------------------------------
  // Console formatter

  /** `CollectorFormatter.COLORS` (ANSI escape sequences). */
  const Colors: map<string, string> := map[
    "DEBUG" := "\U{1b}[36m",
    "INFO" := "\U{1b}[32m",
    "WARNING" := "\U{1b}[33m",
    "ERROR" := "\U{1b}[31m",
    "CRITICAL" := "\U{1b}[35m",
    "RESET" := "\U{1b}[0m"
  ]

  /** The level name `format` leaves in the record. */
  function Colored(useColor: bool, levelname: string): string
  {
    if useColor && levelname in Colors then Colors[levelname] + levelname + Colors["RESET"]
    else levelname
  }

  /** The name is rewritten exactly when colour is on and the name is a key
      of `COLORS`; the original name stays inside the colour codes. */
  lemma ColoredChanges(useColor: bool, levelname: string)
    ensures Colored(useColor, levelname) != levelname <==> useColor && levelname in Colors
    ensures useColor && levelname in Colors ==>
      Colored(useColor, levelname) == Colors[levelname] + levelname + "\U{1b}[0m"
  {
    if useColor && levelname in Colors {
      assert |Colored(useColor, levelname)| > |levelname|;
    }
  }

  /** Formatting the same record twice colours it once: a coloured name
      starts with an escape character, which no key of `COLORS` does. */
  lemma ColoredIdempotent(useColor: bool, levelname: string)
    ensures Colored(useColor, Colored(useColor, levelname)) == Colored(useColor, levelname)
  {
    var c := Colored(useColor, levelname);
    if useColor && levelname in Colors {
      assert c[0] == '\U{1b}';
      assert forall k :: k in Colors ==> k[0] != '\U{1b}';
      assert c !in Colors;
    }
  }

  /** A `logging.LogRecord`; only its level name is modelled. */
  class LogRecord {
    var levelname: string

    constructor (levelname: string)
      ensures this.levelname == levelname
    {
      this.levelname := levelname;
    }
  }

  class CollectorFormatter {
    /** `use_color`; absent (false) unless set after construction. */
    var useColor: bool

    constructor ()
      ensures !useColor
    {
      useColor := false;
    }

    /** The colouring step of `format`; the rest of the line is rendered by
        the standard library formatter. */
    method Format(record: LogRecord)
      modifies record
      ensures record.levelname == Colored(useColor, old(record.levelname))
    {
      if useColor {
        var levelname := record.levelname;
        if levelname in Colors {
          record.levelname := Colors[levelname] + levelname + Colors["RESET"];
        }
      }
    }
  }
}
