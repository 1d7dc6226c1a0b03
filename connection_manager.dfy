/** `OPCUAConnectionManager`: the connection lifecycle of the collector's
    OPC UA session, with reconnection under a fixed backoff table.

    The OPC UA client, the database pool and the user callbacks are outside
    the model: every place where one of them can fail is an input. An
    `Attempt` carries the outcomes of one connection attempt, a `Loss` those
    of one detected disconnect. `datetime.now()` is the `now` of those
    records (integer seconds). Sleeping is not modelled; the intervals the
    manager would sleep for are returned instead. */
module ConnectionManager {
  import opened Wrappers
  import opened Text
  import opened LoggingConfig

  /** `BACKOFF_INTERVALS`, in seconds. */
  const BackoffIntervals: seq<nat> := [1, 2, 5, 10, 30, 60]

  /** `HEALTH_CHECK_INTERVAL`, in seconds. */
  const HealthCheckInterval: nat := 30

  /** The sleep before a reconnect try made after `attempts` earlier tries:
      the table is indexed by `min(attempts, 5)`. */
  function BackoffFor(attempts: nat): (seconds: nat)
    ensures 1 <= seconds <= 60
    ensures attempts >= |BackoffIntervals| - 1 ==> seconds == 60
    ensures attempts < |BackoffIntervals| ==> seconds == BackoffIntervals[attempts]
  {
    var index := if attempts < |BackoffIntervals| - 1 then attempts else |BackoffIntervals| - 1;
    BackoffIntervals[index]
  }

  /** The backoff never shrinks as the attempt count grows. */
  lemma BackoffMonotone(a: nat, b: nat)
    requires a <= b
    ensures BackoffFor(a) <= BackoffFor(b)
  {
  }

  /** A client object; `generation` tells apart the clients the manager
      creates, one per connection attempt, and `security` is the security
      string it was given, if any. */
  datatype Client = Client(generation: nat, security: Option<string>)

  /** A row of the `connection_events` table. */
  datatype DbEvent = DbEvent(time: int, eventType: string, endpoint: string, details: string)

  /** The fixed configuration: endpoint, whether a database pool and each
      callback were supplied, and the security settings. An empty string
      stands for a setting that is `None` or empty: both are false in Python. */
  datatype Config = Config(endpoint: string, hasPool: bool, hasOnConnected: bool, hasOnDisconnected: bool,
                           securityPolicy: string, securityMode: string, certificatePath: string, keyPath: string)

  /** Security is applied only when both a policy and a mode are given. */
  predicate SecurityApplied(c: Config)
  {
    c.securityPolicy != "" && c.securityMode != ""
  }

  /** The string handed to `set_security_string`: policy, mode, certificate
      and key, comma-separated, the two paths defaulting to `client_cert.der`
      and `client_key.pem`. */
  function SecurityString(c: Config): (r: Option<string>)
    ensures r.Some? <==> SecurityApplied(c)
    ensures r.Some? ==>
      |r.value| > |c.securityPolicy| + 1 && r.value[..|c.securityPolicy|] == c.securityPolicy && r.value[|c.securityPolicy|] == ','
    ensures r.Some? && c.certificatePath == "" && c.keyPath == "" ==>
      r.value[|c.securityPolicy| + 1..] == c.securityMode + "," + "client_cert.der" + "," + "client_key.pem"
  {
    if !SecurityApplied(c) then None
    else
      var cert := if c.certificatePath != "" then c.certificatePath else "client_cert.der";
      var key := if c.keyPath != "" then c.keyPath else "client_key.pem";
      var tail := c.securityMode + "," + cert + "," + key;
      CommaJoined(c.securityPolicy, tail);
      Some(c.securityPolicy + "," + tail)
  }

  /** `head + "," + tail` splits back at the comma after `head`. */
  lemma CommaJoined(head: string, tail: string)
    ensures var r := head + "," + tail;
      |r| == |head| + 1 + |tail| && r[..|head|] == head && r[|head|] == ',' && r[|head| + 1..] == tail
  {
    var r := head + "," + tail;
    assert r[..|head|] == head;
    assert r[|head| + 1..] == tail;
  }

  /** The debug line `connect` writes before applying the security settings. */
  function SecurityLine(c: Config): Entry
  {
    Entry(DEBUG, "Applying security: " + c.securityPolicy + "/" + c.securityMode)
  }

  /** The outcomes of one connection attempt: whether applying the security
      settings (when configured) and opening the session both returned
      normally, whether the event insert succeeded, whether `on_connected`
      returned normally, and the text of whichever exception was raised. */
  datatype Attempt = Attempt(now: int, sessionOk: bool, dbOk: bool, callbackOk: bool, error: string)

  /** The outcomes around one detected disconnect. */
  datatype Loss = Loss(now: int, dbOk: bool, callbackOk: bool, error: string)

  /** Everything the manager and its logger hold. `clientsCreated` counts the
      clients constructed so far; `dbEvents` are the rows this manager
      inserted; `dedup` and `log` are the logger's. */
  datatype ManagerState = ManagerState(
    client: Option<Client>,
    isConnected: bool,
    reconnectAttempts: nat,
    shouldRun: bool,
    monitorRunning: bool,
    lastConnectTime: Option<int>,
    lastDisconnectTime: Option<int>,
    clientsCreated: nat,
    dbEvents: seq<DbEvent>,
    dedup: FaultState,
    log: seq<Entry>)

  /** The result of an operation: the new state, its boolean return value
      and the backoff intervals it slept for, in order. */
  datatype Outcome = Outcome(state: ManagerState, ok: bool, waits: seq<nat>)

  /** The manager's invariant: a connected manager has a client, a reset
      attempt counter and a connect time; a client is one the manager made. */
  predicate Valid(s: ManagerState)
  {
    (s.isConnected ==> s.client.Some? && s.reconnectAttempts == 0 && s.lastConnectTime.Some?)
    && (s.client.Some? ==> s.client.value.generation < s.clientsCreated)
  }

  /** Logs only grow and the rows inserted are kept. */
  predicate Extends(s: ManagerState, r: ManagerState)
  {
    s.dbEvents <= r.dbEvents && s.log <= r.log
  }

  const Initial: ManagerState :=
    ManagerState(None, false, 0, false, false, None, None, 0, [], InitialFaultState, [])

  // ---------------------------------------------------------------------------
  // Logging into the state

  function FaultIn(s: ManagerState, component: string, message: string): ManagerState
  {
    s.(dedup := FaultStep(s.dedup, FaultKey(component, message)),
       log := s.log + FaultEntries(s.dedup, component, message))
  }

  function WarnIn(s: ManagerState, component: string, message: string): ManagerState
  {
    s.(log := s.log + [Entry(WARNING, Tagged(component, message))])
  }

  function DebugIn(s: ManagerState, message: string): ManagerState
  {
    s.(log := s.log + [Entry(DEBUG, message)])
  }

  function ConnEventIn(s: ManagerState, eventType: string, details: string): ManagerState
  {
    s.(log := s.log + OptionToSeq(ConnectionEventEntry(eventType, details)))
  }

  /** `_log_connection_event`: nothing without a pool; otherwise a row, or a
      DATABASE warning when the insert fails. It never raises, so it never
      touches the connection fields. */
  function LogEvent(c: Config, s: ManagerState, now: int, dbOk: bool, dbError: string,
                    eventType: string, details: string): (r: ManagerState)
    ensures !c.hasPool ==> r == s
    ensures r.(dbEvents := s.dbEvents, log := s.log) == s
    ensures Extends(s, r)
    ensures r.dbEvents == s.dbEvents + (if c.hasPool && dbOk then [DbEvent(now, eventType, c.endpoint, details)] else [])
  {
    if !c.hasPool then s
    else if dbOk then s.(dbEvents := s.dbEvents + [DbEvent(now, eventType, c.endpoint, details)])
    else WarnIn(s, "DATABASE", "Failed to log connection event: " + dbError)
  }

  /** The client is handed out only while connected. */
  function ClientOf(s: ManagerState): (r: Option<Client>)
    ensures r.Some? <==> s.isConnected && s.client.Some?
    ensures r.Some? ==> r == s.client
  {
    if s.isConnected && s.client.Some? then s.client else None
  }

  /** A new client, set up with the configured security, replaces the
      current one. */
  function NewClient(c: Config, s: ManagerState): ManagerState
  {
    s.(client := Some(Client(s.clientsCreated, SecurityString(c))), clientsCreated := s.clientsCreated + 1)
  }

  // ---------------------------------------------------------------------------
  // Operations

  /** The part of `connect` before the session is opened: a new client, and
      the security line when security is configured. */
  function ConnectStart(c: Config, s: ManagerState): (r: ManagerState)
    ensures r.client == Some(Client(s.clientsCreated, SecurityString(c))) && r.clientsCreated == s.clientsCreated + 1
    ensures r.log == s.log + (if SecurityApplied(c) then [SecurityLine(c)] else [])
    ensures r.(client := s.client, clientsCreated := s.clientsCreated, log := s.log) == s
  {
    var s0 := NewClient(c, s);
    if SecurityApplied(c) then s0.(log := s0.log + [SecurityLine(c)]) else s0
  }

  /** `connect`. With security configured it first logs the settings it
      applies. Success needs the session to open and `on_connected`, if
      given, to return normally; either failure is logged as an OPC_UA fault
      and leaves the manager disconnected. */
  function ConnectSpec(c: Config, s: ManagerState, a: Attempt): (r: Outcome)
    ensures r.ok <==> a.sessionOk && (!c.hasOnConnected || a.callbackOk)
    ensures r.ok == r.state.isConnected
    ensures r.ok ==> r.state.reconnectAttempts == 0 && r.state.lastConnectTime == Some(a.now)
    ensures !a.sessionOk ==> r.state.reconnectAttempts == s.reconnectAttempts
    ensures r.state.client == Some(Client(s.clientsCreated, SecurityString(c)))
    ensures r.state.shouldRun == s.shouldRun && r.state.monitorRunning == s.monitorRunning
    ensures r.state.lastDisconnectTime == s.lastDisconnectTime
    ensures r.waits == []
    ensures Extends(s, r.state)
    ensures SecurityApplied(c) ==> |r.state.log| > |s.log| && r.state.log[|s.log|] == SecurityLine(c)
    ensures !a.sessionOk ==>
      r.state.log == s.log + (if SecurityApplied(c) then [SecurityLine(c)] else []) + FaultEntries(s.dedup, "OPC_UA", "Connection failed: " + a.error)
  {
    var s1 := ConnectStart(c, s);
    var r := OpenSession(c, s1, a);
    assert s1.log <= r.state.log;
    r
  }

  /** The rest of `connect`, from opening the session on: mark connected,
      record the event, run `on_connected`; a failure of either is an OPC_UA
      fault. */
  function OpenSession(c: Config, s: ManagerState, a: Attempt): (r: Outcome)
    ensures r.ok <==> a.sessionOk && (!c.hasOnConnected || a.callbackOk)
    ensures r.ok == r.state.isConnected
    ensures r.ok ==> r.state.reconnectAttempts == 0 && r.state.lastConnectTime == Some(a.now)
    ensures !a.sessionOk ==> r.state.reconnectAttempts == s.reconnectAttempts
    ensures r.state.client == s.client && r.state.clientsCreated == s.clientsCreated
    ensures r.state.shouldRun == s.shouldRun && r.state.monitorRunning == s.monitorRunning
    ensures r.state.lastDisconnectTime == s.lastDisconnectTime
    ensures r.waits == []
    ensures Extends(s, r.state)
    ensures !a.sessionOk ==> r.state.log == s.log + FaultEntries(s.dedup, "OPC_UA", "Connection failed: " + a.error)
  {
    if !a.sessionOk then
      Outcome(FaultIn(s.(isConnected := false), "OPC_UA", "Connection failed: " + a.error), false, [])
    else
      var s2 := s.(isConnected := true, reconnectAttempts := 0, lastConnectTime := Some(a.now));
      var s3 := LogEvent(c, s2, a.now, a.dbOk, a.error, "connected", "Initial connection established");
      var s4 := ConnEventIn(s3, "connected", c.endpoint);
      if c.hasOnConnected && !a.callbackOk then
        Outcome(FaultIn(s4.(isConnected := false), "OPC_UA", "Connection failed: " + a.error), false, [])
      else Outcome(s4, true, [])
  }

  /** `disconnect`: always ends disconnected and without a client, whether or
      not closing the client raised; only a clean close is logged. */
  function DisconnectSpec(s: ManagerState, closeOk: bool): (r: ManagerState)
    ensures !r.isConnected && r.client.None?
    ensures r.(isConnected := s.isConnected, client := s.client, log := s.log) == s
    ensures Extends(s, r)
    ensures s.client.None? ==> r.log == s.log
  {
    var s1 := if s.client.Some? && closeOk then ConnEventIn(s, "disconnected", "Graceful shutdown") else s;
    s1.(isConnected := false, client := None)
  }

  function DowntimeText(downtime: Option<int>): string
  {
    if downtime.Some? then IntToDecimal(downtime.value) else "None"
  }

  /** The downtime a reconnect reports: whole seconds since the last
      disconnect, and only when a disconnect was recorded. */
  function Downtime(lastDisconnect: Option<int>, connectedAt: int): (r: Option<int>)
    ensures r.Some? <==> lastDisconnect.Some?
    ensures r.Some? ==> lastDisconnect.value + r.value == connectedAt
  {
    if lastDisconnect.Some? then Some(connectedAt - lastDisconnect.value) else None
  }

  /** `_attempt_reconnect`. The backoff is read before the counter is
      incremented. */
  function AttemptSpec(c: Config, s: ManagerState, a: Attempt): (r: Outcome)
    ensures r.waits == [BackoffFor(s.reconnectAttempts)]
    ensures r.ok <==> a.sessionOk && (!c.hasOnConnected || a.callbackOk)
    ensures r.ok == r.state.isConnected
    ensures r.ok ==> r.state.reconnectAttempts == 0 && r.state.lastConnectTime == Some(a.now)
    ensures !a.sessionOk ==> r.state.reconnectAttempts == s.reconnectAttempts + 1
    ensures a.sessionOk ==> r.state.reconnectAttempts == 0
    ensures r.state.client == Some(Client(s.clientsCreated, SecurityString(c)))
    ensures r.state.shouldRun == s.shouldRun && r.state.monitorRunning == s.monitorRunning
    ensures r.state.lastDisconnectTime == s.lastDisconnectTime
    ensures Extends(s, r.state)
  {
    var s2 := BeginAttempt(c, s);
    if !a.sessionOk then
      Outcome(DebugIn(s2.(isConnected := false), "Reconnect attempt " + NatToDecimal(s2.reconnectAttempts) + " failed: " + a.error),
        false, [BackoffFor(s.reconnectAttempts)])
    else
      var done := CompleteAttempt(c, s2, a, s.lastDisconnectTime);
      Outcome(done.state, done.ok, [BackoffFor(s.reconnectAttempts)])
  }

  /** The part of `_attempt_reconnect` before the session is opened: count
      the try, log it with its backoff, make a new client with the configured
      security (this path writes no security line). */
  function BeginAttempt(c: Config, s: ManagerState): (r: ManagerState)
    ensures r.reconnectAttempts == s.reconnectAttempts + 1
    ensures r.client == Some(Client(s.clientsCreated, SecurityString(c))) && r.clientsCreated == s.clientsCreated + 1
    ensures r.(reconnectAttempts := s.reconnectAttempts, client := s.client, clientsCreated := s.clientsCreated, log := s.log) == s
    ensures Extends(s, r)
  {
    var n := s.reconnectAttempts + 1;
    NewClient(c, ConnEventIn(s.(reconnectAttempts := n), "reconnecting",
      "Attempt " + NatToDecimal(n) + "/∞, backoff: " + NatToDecimal(BackoffFor(s.reconnectAttempts)) + "s"))
  }

  /** The session opened: mark connected, log the event with the attempt
      count and the downtime, reset the counter. */
  function Reconnected(c: Config, s: ManagerState, a: Attempt, lastDisconnect: Option<int>): (r: ManagerState)
    ensures r.isConnected && r.reconnectAttempts == 0 && r.lastConnectTime == Some(a.now)
    ensures r.client == s.client && r.clientsCreated == s.clientsCreated
    ensures r.shouldRun == s.shouldRun && r.monitorRunning == s.monitorRunning
    ensures r.lastDisconnectTime == s.lastDisconnectTime
    ensures Extends(s, r)
  {
    var n := s.reconnectAttempts;
    var s3 := s.(isConnected := true, lastConnectTime := Some(a.now));
    var downtime := DowntimeText(Downtime(lastDisconnect, a.now));
    var s4 := LogEvent(c, s3, a.now, a.dbOk, a.error, "reconnected",
      "Reconnected after " + NatToDecimal(n) + " attempts, downtime: " + downtime + "s");
    var s5 := ConnEventIn(s4, "reconnected",
      "After " + NatToDecimal(n) + " attempts (downtime: " + downtime + "s)");
    s5.(reconnectAttempts := 0)
  }

  /** The part of `_attempt_reconnect` after the session opened: record the
      connection and its downtime, reset the counter, run `on_connected`. */
  function CompleteAttempt(c: Config, s: ManagerState, a: Attempt, lastDisconnect: Option<int>): (r: Outcome)
    ensures r.ok <==> !c.hasOnConnected || a.callbackOk
    ensures r.ok == r.state.isConnected
    ensures r.state.reconnectAttempts == 0 && r.state.lastConnectTime == Some(a.now)
    ensures r.state.client == s.client && r.state.clientsCreated == s.clientsCreated
    ensures r.state.shouldRun == s.shouldRun && r.state.monitorRunning == s.monitorRunning
    ensures r.state.lastDisconnectTime == s.lastDisconnectTime
    ensures Extends(s, r.state)
  {
    var s6 := Reconnected(c, s, a, lastDisconnect);
    if c.hasOnConnected && !a.callbackOk then
      Outcome(DebugIn(s6.(isConnected := false), "Reconnect attempt " + NatToDecimal(s6.reconnectAttempts) + " failed: " + a.error), false, [])
    else Outcome(s6, true, [])
  }

  /** `while should_run and not is_connected: if await _attempt_reconnect():
      break`, fed from a finite script of attempt outcomes. It stops when
      connected, when `should_run` is false, or when the script runs out. */
  function ReconnectLoop(c: Config, s: ManagerState, script: seq<Attempt>): (r: Outcome)
    ensures !s.shouldRun || s.isConnected ==> r == Outcome(s, s.isConnected, [])
    decreases |script|
  {
    if !s.shouldRun || s.isConnected || script == [] then Outcome(s, s.isConnected, [])
    else
      var step := AttemptSpec(c, s, script[0]);
      var rest := ReconnectLoop(c, step.state, script[1..]);
      Outcome(rest.state, rest.ok, step.waits + rest.waits)
  }

  /** What the retry loop keeps: one wait per try at most, a result that is
      the connection flag, `should_run` and the monitor untouched, a loop
      that stops early only once connected, logs that only grow and the
      manager's invariant. */
  lemma {:induction false} ReconnectLoopFacts(c: Config, s: ManagerState, script: seq<Attempt>)
    ensures var r := ReconnectLoop(c, s, script);
      && |r.waits| <= |script|
      && r.ok == r.state.isConnected
      && r.state.shouldRun == s.shouldRun && r.state.monitorRunning == s.monitorRunning
      && r.state.lastDisconnectTime == s.lastDisconnectTime
      && (s.shouldRun && |r.waits| < |script| ==> r.state.isConnected)
      && (r.ok && !s.isConnected ==> r.state.reconnectAttempts == 0)
      && Extends(s, r.state)
      && (Valid(s) ==> Valid(r.state))
    decreases |script|
  {
    if s.shouldRun && !s.isConnected && script != [] {
      var step := AttemptSpec(c, s, script[0]);
      ReconnectLoopFacts(c, step.state, script[1..]);
      if Valid(s) {
        AttemptKeepsValid(c, s, script[0]);
      }
    }
  }

  lemma AppendAssoc<T>(a: seq<T>, b: seq<T>, c: seq<T>)
    ensures a + (b + c) == (a + b) + c
  {
  }

  /** One turn of the retry loop, unfolded at position `i` of the script. */
  lemma ReconnectLoopUnfold(c: Config, s: ManagerState, script: seq<Attempt>, i: nat)
    requires s.shouldRun && !s.isConnected && i < |script|
    ensures ReconnectLoop(c, s, script[i..]).state ==
      ReconnectLoop(c, AttemptSpec(c, s, script[i]).state, script[i + 1..]).state
    ensures ReconnectLoop(c, s, script[i..]).waits ==
      AttemptSpec(c, s, script[i]).waits + ReconnectLoop(c, AttemptSpec(c, s, script[i]).state, script[i + 1..]).waits
  {
    assert script[i..][0] == script[i] && script[i..][1..] == script[i + 1..];
  }

  /** `_handle_disconnect`: nothing when already disconnected; otherwise mark
      the loss, log it, run `on_disconnected` (a failure is a CALLBACK fault)
      and retry until connected. */
  function HandleDisconnectSpec(c: Config, s: ManagerState, loss: Loss, script: seq<Attempt>): (r: Outcome)
    ensures !s.isConnected ==> r.state == s && r.waits == []
    ensures s.isConnected ==> r.state.lastDisconnectTime == Some(loss.now)
    ensures s.isConnected && !s.shouldRun ==> !r.state.isConnected && r.waits == []
    ensures r.state.shouldRun == s.shouldRun
    ensures Extends(s, r.state)
  {
    if !s.isConnected then Outcome(s, false, [])
    else
      var s1 := s.(isConnected := false, lastDisconnectTime := Some(loss.now));
      var s2 := LogEvent(c, s1, loss.now, loss.dbOk, loss.error, "disconnected", "Connection lost - initiating reconnect");
      var s3 := ConnEventIn(s2, "disconnected", "Connection lost - initiating reconnect");
      var s4 := if c.hasOnDisconnected && !loss.callbackOk
        then FaultIn(s3, "CALLBACK", "on_disconnected callback failed: " + loss.error) else s3;
      ReconnectLoopFacts(c, s4, script);
      ReconnectLoop(c, s4, script)
  }

  /** `start`: run, connect once, and on failure fall into the reconnect
      loop; the monitor runs exactly when a connection was made. */
  function StartSpec(c: Config, s: ManagerState, first: Attempt, script: seq<Attempt>): (r: Outcome)
    ensures r.state.shouldRun
    ensures r.ok == r.state.isConnected
    ensures r.ok ==> r.state.monitorRunning
    ensures !r.ok ==> r.state.monitorRunning == s.monitorRunning
    ensures r.ok ==> r.state.reconnectAttempts == 0
    ensures |r.waits| <= |script|
    ensures !r.ok ==> |r.waits| == |script|
    ensures Extends(s, r.state)
  {
    var first := ConnectSpec(c, s.(shouldRun := true), first);
    if first.ok then Outcome(first.state.(monitorRunning := true), true, [])
    else StartRetry(c, first.state, script)
  }

  /** The rest of `start` once the first connect failed: warn, retry until
      connected, and start the monitor only on success. */
  function StartRetry(c: Config, s: ManagerState, script: seq<Attempt>): (r: Outcome)
    requires s.shouldRun && !s.isConnected
    ensures r.state.shouldRun
    ensures r.ok == r.state.isConnected
    ensures r.ok ==> r.state.monitorRunning && r.state.reconnectAttempts == 0
    ensures !r.ok ==> r.state.monitorRunning == s.monitorRunning && |r.waits| == |script|
    ensures |r.waits| <= |script|
    ensures Extends(s, r.state)
  {
    var s1 := WarnIn(s, "OPC_UA", "Initial connection failed - starting reconnection loop");
    ReconnectLoopFacts(c, s1, script);
    var loop := ReconnectLoop(c, s1, script);
    if loop.ok then Outcome(loop.state.(monitorRunning := true), true, loop.waits)
    else Outcome(loop.state, false, loop.waits)
  }

  /** `stop`: clear `should_run` first, cancel the monitor, disconnect. */
  function StopSpec(s: ManagerState, closeOk: bool): (r: ManagerState)
    ensures !r.shouldRun && !r.monitorRunning && !r.isConnected && r.client.None?
    ensures r.reconnectAttempts == s.reconnectAttempts
    ensures r.lastConnectTime == s.lastConnectTime && r.lastDisconnectTime == s.lastDisconnectTime
    ensures r.dbEvents == s.dbEvents && r.dedup == s.dedup
    ensures Extends(s, r)
  {
    var s1 := DisconnectSpec(s.(shouldRun := false, monitorRunning := false), closeOk);
    DebugIn(s1, "Connection manager stopped")
  }

  /** One pass of `_monitor_connection` after its sleep: nothing once
      stopped or while disconnected; a failed health read is an OPC_UA fault
      followed by `_handle_disconnect`. */
  function MonitorTickSpec(c: Config, s: ManagerState, healthOk: bool, loss: Loss, script: seq<Attempt>): (r: Outcome)
    ensures !s.shouldRun || !s.isConnected || healthOk ==> r.state == s && r.waits == []
    ensures s.shouldRun && s.isConnected && !healthOk ==> r.state.lastDisconnectTime == Some(loss.now)
    ensures r.state.shouldRun == s.shouldRun
    ensures Extends(s, r.state)
  {
    if !s.shouldRun || !s.isConnected || healthOk then Outcome(s, s.isConnected, [])
    else
      var s1 := FaultIn(s, "OPC_UA", "Connection health check failed: " + loss.error);
      HandleDisconnectSpec(c, s1, loss, script)
  }

  // ---------------------------------------------------------------------------
  // Properties

  /** Every operation keeps the invariant. */
  lemma ConnectKeepsValid(c: Config, s: ManagerState, a: Attempt)
    requires Valid(s)
    ensures Valid(ConnectSpec(c, s, a).state)
  {
  }

  lemma AttemptKeepsValid(c: Config, s: ManagerState, a: Attempt)
    requires Valid(s)
    ensures Valid(AttemptSpec(c, s, a).state)
  {
  }

  lemma HandleDisconnectKeepsValid(c: Config, s: ManagerState, loss: Loss, script: seq<Attempt>)
    requires Valid(s)
    ensures Valid(HandleDisconnectSpec(c, s, loss, script).state)
  {
    if s.isConnected {
      var s1 := s.(isConnected := false, lastDisconnectTime := Some(loss.now));
      var s2 := LogEvent(c, s1, loss.now, loss.dbOk, loss.error, "disconnected", "Connection lost - initiating reconnect");
      var s3 := ConnEventIn(s2, "disconnected", "Connection lost - initiating reconnect");
      var s4 := if c.hasOnDisconnected && !loss.callbackOk
        then FaultIn(s3, "CALLBACK", "on_disconnected callback failed: " + loss.error) else s3;
      ReconnectLoopFacts(c, s4, script);
    }
  }

  lemma StartKeepsValid(c: Config, s: ManagerState, first: Attempt, script: seq<Attempt>)
    requires Valid(s)
    ensures Valid(StartSpec(c, s, first, script).state)
  {
    var connected := ConnectSpec(c, s.(shouldRun := true), first);
    ConnectKeepsValid(c, s.(shouldRun := true), first);
    if !connected.ok {
      ReconnectLoopFacts(c, WarnIn(connected.state, "OPC_UA", "Initial connection failed - starting reconnection loop"), script);
    }
  }

  lemma StopKeepsValid(s: ManagerState, closeOk: bool)
    requires Valid(s)
    ensures Valid(StopSpec(s, closeOk))
  {
  }

  lemma MonitorTickKeepsValid(c: Config, s: ManagerState, healthOk: bool, loss: Loss, script: seq<Attempt>)
    requires Valid(s)
    ensures Valid(MonitorTickSpec(c, s, healthOk, loss, script).state)
  {
    if s.shouldRun && s.isConnected && !healthOk {
      HandleDisconnectKeepsValid(c, FaultIn(s, "OPC_UA", "Connection health check failed: " + loss.error), loss, script);
    }
  }

  /** The waits of `n` failed tries made after `a` earlier ones. */
  function FailedWaits(a: nat, n: nat): (r: seq<nat>)
    ensures |r| == n
    decreases n
  {
    if n == 0 then [] else [BackoffFor(a)] + FailedWaits(a + 1, n - 1)
  }

  lemma {:induction false} FailedWaitsAt(a: nat, n: nat)
    ensures forall k :: 0 <= k < n ==> FailedWaits(a, n)[k] == BackoffFor(a + k)
    decreases n
  {
    if n > 0 {
      FailedWaitsAt(a + 1, n - 1);
      forall k | 0 < k < n
        ensures FailedWaits(a, n)[k] == BackoffFor(a + k)
      {
        assert FailedWaits(a, n)[k] == FailedWaits(a + 1, n - 1)[k - 1];
      }
    }
  }

  lemma {:induction false} FailedRunWaits(c: Config, s: ManagerState, script: seq<Attempt>)
    requires s.shouldRun && !s.isConnected
    requires forall k :: 0 <= k < |script| ==> !script[k].sessionOk
    ensures ReconnectLoop(c, s, script).waits == FailedWaits(s.reconnectAttempts, |script|)
    ensures ReconnectLoop(c, s, script).state.reconnectAttempts == s.reconnectAttempts + |script|
    ensures !ReconnectLoop(c, s, script).state.isConnected
    decreases |script|
  {
    if script != [] {
      var step := AttemptSpec(c, s, script[0]);
      assert !script[0].sessionOk;
      FailedRunWaits(c, step.state, script[1..]);
      ReconnectLoopUnfold(c, s, script, 0);
      assert script[0..] == script;
    }
  }

  /** A run of reconnect tries in which no session opens sleeps for
      `BACKOFF_INTERVALS[min(a0 + k, 5)]` before the k-th try, leaves the
      counter at `a0 + n` and stays disconnected. */
  lemma FailedRunBackoff(c: Config, s: ManagerState, script: seq<Attempt>)
    requires s.shouldRun && !s.isConnected
    requires forall k :: 0 <= k < |script| ==> !script[k].sessionOk
    ensures |ReconnectLoop(c, s, script).waits| == |script|
    ensures forall k :: 0 <= k < |script| ==>
      ReconnectLoop(c, s, script).waits[k] == BackoffFor(s.reconnectAttempts + k)
    ensures ReconnectLoop(c, s, script).state.reconnectAttempts == s.reconnectAttempts + |script|
    ensures !ReconnectLoop(c, s, script).state.isConnected
  {
    FailedRunWaits(c, s, script);
    FailedWaitsAt(s.reconnectAttempts, |script|);
  }

  /** From the sixth failed try on, every wait is the 60 s cap. */
  lemma FailedRunReachesCap(c: Config, s: ManagerState, script: seq<Attempt>, k: nat)
    requires s.shouldRun && !s.isConnected
    requires forall j :: 0 <= j < |script| ==> !script[j].sessionOk
    requires 5 <= k < |script|
    ensures |ReconnectLoop(c, s, script).waits| == |script|
    ensures ReconnectLoop(c, s, script).waits[k] == 60
  {
    FailedRunBackoff(c, s, script);
  }

  /** When the session opens but `on_connected` raises, the counter has
      already been reset, so the next try waits the first interval again. */
  lemma CallbackFailureRestartsBackoff(c: Config, s: ManagerState, a: Attempt, b: Attempt)
    requires c.hasOnConnected && a.sessionOk && !a.callbackOk
    ensures !AttemptSpec(c, s, a).ok
    ensures AttemptSpec(c, AttemptSpec(c, s, a).state, b).waits == [1]
  {
  }

  /** A second `_handle_disconnect` right after one that could not reconnect
      does nothing. */
  lemma HandleDisconnectIdempotent(c: Config, s: ManagerState, loss1: Loss, loss2: Loss, script: seq<Attempt>)
    requires !s.shouldRun
    ensures var r := HandleDisconnectSpec(c, s, loss1, script).state;
      HandleDisconnectSpec(c, r, loss2, script).state == r
  {
  }

  /** `stop` twice is `stop` once, apart from the second debug line. */
  lemma StopIdempotent(s: ManagerState, close1: bool, close2: bool)
    ensures var once := StopSpec(s, close1);
      StopSpec(once, close2) == DebugIn(once, "Connection manager stopped")
  {
  }

  /** After `stop`, neither a health tick nor a loss triggers a reconnect. */
  lemma StoppedStaysDown(c: Config, s: ManagerState, closeOk: bool, healthOk: bool, loss: Loss, script: seq<Attempt>)
    ensures var stopped := StopSpec(s, closeOk);
      MonitorTickSpec(c, stopped, healthOk, loss, script).state == stopped
      && HandleDisconnectSpec(c, stopped, loss, script).state == stopped
  {
  }

  // ---------------------------------------------------------------------------
  // The manager object

  class OPCUAConnectionManager {
    const config: Config
    const logger: DataCollectionLogger

    var client: Option<Client>
    var isConnected: bool
    var reconnectAttempts: nat
    var shouldRun: bool
    var monitorRunning: bool
    var lastConnectTime: Option<int>
    var lastDisconnectTime: Option<int>
    var clientsCreated: nat
    var dbEvents: seq<DbEvent>

    function State(): ManagerState
      reads this, logger
    {
      ManagerState(client, isConnected, reconnectAttempts, shouldRun, monitorRunning,
        lastConnectTime, lastDisconnectTime, clientsCreated, dbEvents, logger.Dedup(), logger.entries)
    }

    constructor (config: Config, logger: DataCollectionLogger)
      ensures this.config == config && this.logger == logger
      ensures State() == Initial.(dedup := logger.Dedup(), log := logger.entries)
      ensures Valid(State())
    {
      this.config := config;
      this.logger := logger;
      client := None;
      isConnected := false;
      reconnectAttempts := 0;
      shouldRun := false;
      monitorRunning := false;
      lastConnectTime := None;
      lastDisconnectTime := None;
      clientsCreated := 0;
      dbEvents := [];
    }

    /** `get_client`: reads, never waits. */
    method GetClient() returns (r: Option<Client>)
      ensures r.Some? <==> isConnected && client.Some?
      ensures r.Some? ==> r == client
    {
      if isConnected && client.Some? {
        return client;
      }
      return None;
    }

    method LogConnectionEvent(now: int, dbOk: bool, dbError: string, eventType: string, details: string)
      modifies this, logger
      ensures State() == LogEvent(config, old(State()), now, dbOk, dbError, eventType, details)
    {
      if !config.hasPool {
        return;
      }
      if dbOk {
        dbEvents := dbEvents + [DbEvent(now, eventType, config.endpoint, details)];
      } else {
        logger.Warning("DATABASE", "Failed to log connection event: " + dbError);
      }
    }

    /** A new client, and the security line when security is configured. */
    method StartConnect()
      modifies this, logger`entries
      ensures State() == ConnectStart(config, old(State()))
    {
      client := Some(Client(clientsCreated, SecurityString(config)));
      clientsCreated := clientsCreated + 1;
      if SecurityApplied(config) {
        logger.Debug("Applying security: " + config.securityPolicy + "/" + config.securityMode);
      }
    }

    method Connect(a: Attempt) returns (ok: bool)
      modifies this, logger
      ensures State() == ConnectSpec(config, old(State()), a).state
      ensures ok == ConnectSpec(config, old(State()), a).ok
    {
      StartConnect();
      ok := ConnectSession(a);
    }

    /** Open the session, record the connection and run `on_connected`. */
    method ConnectSession(a: Attempt) returns (ok: bool)
      modifies this, logger
      ensures State() == OpenSession(config, old(State()), a).state
      ensures ok == OpenSession(config, old(State()), a).ok
    {
      if !a.sessionOk {
        isConnected := false;
        logger.Fault("OPC_UA", "Connection failed: " + a.error);
        return false;
      }
      isConnected := true;
      reconnectAttempts := 0;
      lastConnectTime := Some(a.now);
      ghost var s2 := old(State()).(isConnected := true, reconnectAttempts := 0, lastConnectTime := Some(a.now));
      assert State() == s2;
      LogConnectionEvent(a.now, a.dbOk, a.error, "connected", "Initial connection established");
      assert State() == LogEvent(config, s2, a.now, a.dbOk, a.error, "connected", "Initial connection established");
      logger.ConnectionEvent("connected", config.endpoint);
      if config.hasOnConnected && !a.callbackOk {
        isConnected := false;
        logger.Fault("OPC_UA", "Connection failed: " + a.error);
        return false;
      }
      return true;
    }

    method Disconnect(closeOk: bool)
      modifies this, logger
      ensures State() == DisconnectSpec(old(State()), closeOk)
    {
      if client.Some? && closeOk {
        logger.ConnectionEvent("disconnected", "Graceful shutdown");
      }
      isConnected := false;
      client := None;
    }

    /** Count the try, log it with its backoff and make a new client. */
    method BeginReconnect() returns (backoff: nat)
      modifies this, logger
      ensures State() == BeginAttempt(config, old(State()))
      ensures backoff == BackoffFor(old(reconnectAttempts))
    {
      backoff := BackoffFor(reconnectAttempts);
      reconnectAttempts := reconnectAttempts + 1;
      logger.ConnectionEvent("reconnecting",
        "Attempt " + NatToDecimal(reconnectAttempts) + "/∞, backoff: " + NatToDecimal(backoff) + "s");
      client := Some(Client(clientsCreated, SecurityString(config)));
      clientsCreated := clientsCreated + 1;
    }

    method AttemptReconnect(a: Attempt) returns (ok: bool, waited: nat)
      modifies this, logger
      ensures State() == AttemptSpec(config, old(State()), a).state
      ensures ok == AttemptSpec(config, old(State()), a).ok
      ensures [waited] == AttemptSpec(config, old(State()), a).waits
    {
      var lastDisconnect := lastDisconnectTime;
      waited := BeginReconnect();
      if !a.sessionOk {
        isConnected := false;
        logger.Debug("Reconnect attempt " + NatToDecimal(reconnectAttempts) + " failed: " + a.error);
        return false, waited;
      }
      ok := CompleteReconnect(a, lastDisconnect);
    }

    method RecordReconnect(a: Attempt, lastDisconnect: Option<int>)
      modifies this, logger
      ensures State() == Reconnected(config, old(State()), a, lastDisconnect)
    {
      isConnected := true;
      lastConnectTime := Some(a.now);
      ghost var s3 := old(State()).(isConnected := true, lastConnectTime := Some(a.now));
      assert State() == s3;
      var downtime := DowntimeText(Downtime(lastDisconnect, a.now));
      var n := reconnectAttempts;
      LogConnectionEvent(a.now, a.dbOk, a.error, "reconnected",
        "Reconnected after " + NatToDecimal(n) + " attempts, downtime: " + downtime + "s");
      ghost var s4 := LogEvent(config, s3, a.now, a.dbOk, a.error, "reconnected",
        "Reconnected after " + NatToDecimal(n) + " attempts, downtime: " + downtime + "s");
      assert State() == s4;
      logger.ConnectionEvent("reconnected",
        "After " + NatToDecimal(n) + " attempts (downtime: " + downtime + "s)");
      reconnectAttempts := 0;
    }

    method CompleteReconnect(a: Attempt, lastDisconnect: Option<int>) returns (ok: bool)
      modifies this, logger
      ensures State() == CompleteAttempt(config, old(State()), a, lastDisconnect).state
      ensures ok == CompleteAttempt(config, old(State()), a, lastDisconnect).ok
    {
      RecordReconnect(a, lastDisconnect);
      if config.hasOnConnected && !a.callbackOk {
        isConnected := false;
        logger.Debug("Reconnect attempt " + NatToDecimal(reconnectAttempts) + " failed: " + a.error);
        return false;
      }
      return true;
    }

    /** The retry loop shared by `start` and `_handle_disconnect`. */
    method ReconnectUntilConnected(script: seq<Attempt>) returns (waits: seq<nat>)
      modifies this, logger
      ensures State() == ReconnectLoop(config, old(State()), script).state
      ensures waits == ReconnectLoop(config, old(State()), script).waits
    {
      ghost var goal := ReconnectLoop(config, State(), script);
      ghost var cur := State();
      waits := [];
      var i := 0;
      while shouldRun && !isConnected && i < |script|
        invariant 0 <= i <= |script|
        invariant State() == cur
        invariant ReconnectLoop(config, cur, script[i..]).state == goal.state
        invariant waits + ReconnectLoop(config, cur, script[i..]).waits == goal.waits
        decreases |script| - i
      {
        ghost var step := AttemptSpec(config, cur, script[i]);
        ghost var rest := ReconnectLoop(config, step.state, script[i + 1..]);
        assert rest.state == goal.state && waits + (step.waits + rest.waits) == goal.waits by {
          ReconnectLoopUnfold(config, cur, script, i);
        }
        var success, waited := AttemptReconnect(script[i]);
        assert waits + [waited] + rest.waits == goal.waits by {
          AppendAssoc(waits, [waited], rest.waits);
        }
        cur := step.state;
        waits := waits + [waited];
        i := i + 1;
        if success {
          break;
        }
      }
      assert ReconnectLoop(config, cur, script[i..]) == Outcome(cur, cur.isConnected, []) by {
        if i == |script| {
          assert script[i..] == [];
        }
      }
    }

    method HandleDisconnect(loss: Loss, script: seq<Attempt>) returns (waits: seq<nat>)
      modifies this, logger
      ensures State() == HandleDisconnectSpec(config, old(State()), loss, script).state
      ensures waits == HandleDisconnectSpec(config, old(State()), loss, script).waits
    {
      if !isConnected {
        return [];
      }
      isConnected := false;
      lastDisconnectTime := Some(loss.now);
      LogConnectionEvent(loss.now, loss.dbOk, loss.error, "disconnected", "Connection lost - initiating reconnect");
      logger.ConnectionEvent("disconnected", "Connection lost - initiating reconnect");
      if config.hasOnDisconnected && !loss.callbackOk {
        logger.Fault("CALLBACK", "on_disconnected callback failed: " + loss.error);
      }
      waits := ReconnectUntilConnected(script);
    }

    method Start(first: Attempt, script: seq<Attempt>) returns (ok: bool, waits: seq<nat>)
      modifies this, logger
      ensures State() == StartSpec(config, old(State()), first, script).state
      ensures ok == StartSpec(config, old(State()), first, script).ok
      ensures waits == StartSpec(config, old(State()), first, script).waits
    {
      shouldRun := true;
      var success := Connect(first);
      if success {
        monitorRunning := true;
        ok, waits := true, [];
      } else {
        ok, waits := RetryAfterFailedConnect(script);
      }
    }

    method RetryAfterFailedConnect(script: seq<Attempt>) returns (ok: bool, waits: seq<nat>)
      requires shouldRun && !isConnected
      modifies this, logger
      ensures State() == StartRetry(config, old(State()), script).state
      ensures ok == StartRetry(config, old(State()), script).ok
      ensures waits == StartRetry(config, old(State()), script).waits
    {
      logger.Warning("OPC_UA", "Initial connection failed - starting reconnection loop");
      ghost var s1 := WarnIn(old(State()), "OPC_UA", "Initial connection failed - starting reconnection loop");
      assert State() == s1;
      waits := ReconnectUntilConnected(script);
      ok := isConnected;
      if ok {
        monitorRunning := true;
      }
    }

    method Stop(closeOk: bool)
      modifies this, logger
      ensures State() == StopSpec(old(State()), closeOk)
    {
      shouldRun := false;
      monitorRunning := false;
      Disconnect(closeOk);
      logger.Debug("Connection manager stopped");
    }

    method MonitorTick(healthOk: bool, loss: Loss, script: seq<Attempt>) returns (waits: seq<nat>)
      modifies this, logger
      ensures State() == MonitorTickSpec(config, old(State()), healthOk, loss, script).state
      ensures waits == MonitorTickSpec(config, old(State()), healthOk, loss, script).waits
    {
      if !shouldRun || !isConnected || healthOk {
        return [];
      }
      logger.Fault("OPC_UA", "Connection health check failed: " + loss.error);
      waits := HandleDisconnect(loss, script);
    }
  }
}
