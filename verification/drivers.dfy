/**
 * The driver layer: the connection state machine every driver inherits
 * (`health_check`, `auto_reconnect`, the status summary) and the driver
 * variants. The variant set is closed: the vendor drivers (Growatt, Deye,
 * SMA, generic Modbus), whose modules are not part of this model, and the
 * simulation driver. What a vendor driver's `connect`, `read_data`,
 * `write_control` and `test_connection` do on the wire is an input.
 */
module Drivers {
  import opened Wrappers
  import opened DeviceTypes
  import Sim = SimulationModel

  /** Retry cap of `auto_reconnect`, fixed for every driver. */
  const MaxRetries: nat := 3

  datatype DriverKind = GrowattKind | DeyeKind | SmaKind | GenericKind | SimulatorKind

  /** The four fields of a driver that its methods change. */
  datatype DriverState = DriverState(
    status: DeviceStatus,
    lastError: Option<string>,
    attempts: nat,
    lastData: Option<DeviceData>)

  /** What the liveness probe (`test_connection`) did. */
  datatype ProbeOutcome = Responding | NotResponding | ProbeRaised(message: string)

  /** What the driver's `connect` did. */
  datatype ConnectOutcome = Opened | Refused | ConnectRaised(message: string)

  /** The dictionary `health_check` returns. */
  datatype HealthReport = HealthReport(health: string, connected: bool, lastError: Option<string>, attempts: nat)

  /** The dictionary `get_status_summary` returns. */
  datatype StatusSummary = StatusSummary(
    name: string,
    manufacturer: string,
    model: string,
    status: DeviceStatus,
    connected: bool,
    lastError: Option<string>,
    attempts: nat,
    lastData: Option<real>,
    protocol: string,
    connectionString: string)

  /** A driver as `__init__` leaves it. */
  function InitialState(): DriverState
  {
    DriverState(Disconnected, None, 0, None)
  }

  /** The simulation driver's `connect` and `test_connection` always succeed. */
  function EffectiveConnect(kind: DriverKind, outcome: ConnectOutcome): ConnectOutcome
  {
    if kind == SimulatorKind then Opened else outcome
  }

  function EffectiveProbe(kind: DriverKind, probe: ProbeOutcome): ProbeOutcome
  {
    if kind == SimulatorKind then Responding else probe
  }

  /**
   * `health_check`: the status follows the probe; only a responding device
   * clears the stored error, and the attempt counter is never touched.
   */
  function HealthCheckStep(s: DriverState, probe: ProbeOutcome): (r: (DriverState, HealthReport))
    ensures r.0.attempts == s.attempts && r.0.lastData == s.lastData && r.1.attempts == s.attempts
    ensures r.0.status == Connected <==> probe.Responding?
    ensures r.0.status == Error <==> !probe.Responding?
    ensures r.1.connected <==> probe.Responding?
    ensures probe.Responding? ==> r.0.lastError == None && r.1.lastError == None
    ensures probe.NotResponding? ==> r.0.lastError == s.lastError && r.1.lastError == Some("Device not responding")
    ensures probe.ProbeRaised? ==> r.0.lastError == Some(probe.message) && r.1.lastError == r.0.lastError
  {
    match probe
    case Responding =>
      (s.(status := Connected, lastError := None), HealthReport("healthy", true, None, s.attempts))
    case NotResponding =>
      (s.(status := Error), HealthReport("unhealthy", false, Some("Device not responding"), s.attempts))
    case ProbeRaised(msg) =>
      (s.(status := Error, lastError := Some(msg)), HealthReport("error", false, Some(msg), s.attempts))
  }

  /** The circuit breaker is open: `auto_reconnect` gives up without calling `connect`. */
  predicate BreakerOpen(s: DriverState)
  {
    s.status != Connected && s.status != Connecting && s.attempts >= MaxRetries
  }

  /**
   * `auto_reconnect`: a connected or connecting driver is left alone; an
   * open breaker refuses; otherwise exactly one more attempt is counted and
   * `connect` decides. A success resets the counter but keeps `last_error`.
   */
  function ReconnectStep(s: DriverState, outcome: ConnectOutcome): (r: (DriverState, bool))
    ensures s.status == Connected || s.status == Connecting ==> r == (s, true)
    ensures BreakerOpen(s) ==> r == (s, false)
    ensures s.attempts <= MaxRetries ==> r.0.attempts <= MaxRetries
    ensures r.0.lastData == s.lastData
    ensures r.1 <==> (r.0.status == Connected || r.0.status == Connecting)
    ensures s.status != Connected && s.status != Connecting && !BreakerOpen(s) ==>
              && r.1 == outcome.Opened?
              && r.0.status == (if outcome.Opened? then Connected else Error)
              && r.0.attempts == (if outcome.Opened? then 0 else s.attempts + 1)
              && r.0.lastError == (if outcome.ConnectRaised? then Some(outcome.message) else s.lastError)
  {
    if s.status == Connected || s.status == Connecting then (s, true)
    else if s.attempts >= MaxRetries then (s, false)
    else
      var trying := s.(status := Connecting, attempts := s.attempts + 1);
      match outcome
      case Opened => (trying.(status := Connected, attempts := 0), true)
      case Refused => (trying.(status := Error), false)
      case ConnectRaised(msg) => (trying.(status := Error, lastError := Some(msg)), false)
  }

  /** The summary reports `connected` exactly for the Connected status, and the last snapshot's time. */
  function Summary(info: DeviceInfo, s: DriverState): (r: StatusSummary)
    ensures r.connected <==> s.status == Connected
    ensures r.status == s.status && r.lastError == s.lastError && r.attempts == s.attempts
    ensures r.lastData.Some? <==> s.lastData.Some?
    ensures s.lastData.Some? ==> r.lastData == Some(s.lastData.value.timestamp)
    ensures r.name == info.name && r.connectionString == info.connectionString
  {
    StatusSummary(
      info.name, info.manufacturer, info.model, s.status, s.status == Connected, s.lastError,
      s.attempts, if s.lastData.Some? then Some(s.lastData.value.timestamp) else None,
      info.protocol, info.connectionString)
  }

  /** A call the outside world makes on a driver's state machine. */
  datatype DriverEvent = Reconnect(outcome: ConnectOutcome) | Health(probe: ProbeOutcome)

  function Step(s: DriverState, e: DriverEvent): DriverState
  {
    match e
    case Reconnect(o) => ReconnectStep(s, o).0
    case Health(p) => HealthCheckStep(s, p).0
  }

  function Run(s: DriverState, events: seq<DriverEvent>): DriverState
    decreases |events|
  {
    if |events| == 0 then s else Run(Step(s, events[0]), events[1..])
  }

  /** From a fresh driver, the attempt counter never exceeds the retry cap, whatever happens. */
  lemma {:induction false} AttemptsStayCapped(s: DriverState, events: seq<DriverEvent>)
    requires s.attempts <= MaxRetries
    ensures Run(s, events).attempts <= MaxRetries
    decreases |events|
  {
    if |events| > 0 {
      AttemptsStayCapped(Step(s, events[0]), events[1..]);
    }
  }

  lemma FreshDriverCapped(events: seq<DriverEvent>)
    ensures Run(InitialState(), events).attempts <= MaxRetries
  {
    AttemptsStayCapped(InitialState(), events);
  }

  /**
   * Once the breaker is open, reconnects alone change nothing, whatever
   * `connect` would have done: only a health check can move the driver.
   */
  lemma {:induction false} BreakerLatches(s: DriverState, outcomes: seq<ConnectOutcome>)
    requires BreakerOpen(s)
    ensures Run(s, seq(|outcomes|, i requires 0 <= i < |outcomes| => Reconnect(outcomes[i]))) == s
    decreases |outcomes|
  {
    var events := seq(|outcomes|, i requires 0 <= i < |outcomes| => Reconnect(outcomes[i]));
    if |outcomes| > 0 {
      assert events[1..] == seq(|outcomes[1..]|, i requires 0 <= i < |outcomes[1..]| => Reconnect(outcomes[1..][i]));
      BreakerLatches(s, outcomes[1..]);
    }
  }

  /**
   * Connected does not imply "no error": a connect that raises leaves its
   * message, and the successful reconnect after it keeps that message.
   */
  lemma ConnectedWithStaleError()
    ensures var s := Run(InitialState(), [Reconnect(ConnectRaised("timeout")), Reconnect(Opened)]);
            s.status == Connected && s.lastError == Some("timeout") && s.attempts == 0
  {
    var s1 := ReconnectStep(InitialState(), ConnectRaised("timeout")).0;
    assert s1 == DriverState(Error, Some("timeout"), 1, None);
    var s2 := ReconnectStep(s1, Opened).0;
    assert s2 == DriverState(Connected, Some("timeout"), 0, None);
    assert Run(InitialState(), [Reconnect(ConnectRaised("timeout")), Reconnect(Opened)]) == Run(s1, [Reconnect(Opened)]);
    assert Run(s1, [Reconnect(Opened)]) == Run(s2, []);
  }

  /**
   * One driver. The base-class fields are shared by all variants; `dayStart`,
   * `dayEnd`, `batterySoc` and `lastUpdate` belong to the simulation variant.
   */
  class Driver {
    const info: DeviceInfo
    const kind: DriverKind
    const maxRetries: nat
    var status: DeviceStatus
    var lastError: Option<string>
    var connectionAttempts: nat
    var lastData: Option<DeviceData>
    const dayStart: real
    const dayEnd: real
    var batterySoc: real
    var lastUpdate: real

    ghost function State(): DriverState
      reads this
    {
      DriverState(status, lastError, connectionAttempts, lastData)
    }

    /** The simulation variant's own state. */
    ghost function SimState(): (real, real)
      reads this
    {
      (batterySoc, lastUpdate)
    }

    ghost predicate Valid()
      reads this
    {
      maxRetries == MaxRetries && connectionAttempts <= maxRetries
    }

    /** A vendor driver, as `BaseDriver.__init__` leaves it. */
    constructor Vendor(info: DeviceInfo, kind: DriverKind)
      requires kind != SimulatorKind
      ensures Valid() && this.info == info && this.kind == kind
      ensures State() == InitialState()
    {
      this.info := info;
      this.kind := kind;
      maxRetries := MaxRetries;
      status := Disconnected;
      lastError := None;
      connectionAttempts := 0;
      lastData := None;
      dayStart, dayEnd, batterySoc, lastUpdate := 0.0, 0.0, 0.0, 0.0;
    }

    /**
     * The simulation driver, built at time `now` on the day starting at
     * `midnight`: status Simulation, state of charge 75, and a daylight
     * window fixed at 06:00-18:00 of that day.
     */
    constructor Simulator(info: DeviceInfo, now: real, midnight: real)
      ensures Valid() && this.info == info && kind == SimulatorKind
      ensures State() == InitialState().(status := Simulation)
      ensures batterySoc == Sim.InitialSoc && lastUpdate == now
      ensures dayStart == midnight + Sim.DayStartOffset && dayEnd == midnight + Sim.DayEndOffset
    {
      this.info := info;
      kind := SimulatorKind;
      maxRetries := MaxRetries;
      status := Simulation;
      lastError := None;
      connectionAttempts := 0;
      lastData := None;
      dayStart := midnight + Sim.DayStartOffset;
      dayEnd := midnight + Sim.DayEndOffset;
      batterySoc := Sim.InitialSoc;
      lastUpdate := now;
    }

    /**
     * `connect`. The simulation driver always becomes Connected. A vendor
     * driver becomes Connected when the line opens and Error when it is
     * refused; when its `connect` raises, the exception reaches the caller
     * (`Err`) and nothing was changed.
     */
    method Connect(outcome: ConnectOutcome) returns (r: Result<bool, string>)
      requires Valid()
      modifies this
      ensures Valid()
      ensures var o := EffectiveConnect(kind, outcome);
              && (o.Opened? ==> r == Ok(true) && status == Connected)
              && (o.Refused? ==> r == Ok(false) && status == Error)
              && (o.ConnectRaised? ==> r == Err(o.message) && status == old(status))
      ensures lastError == old(lastError) && connectionAttempts == old(connectionAttempts)
      ensures lastData == old(lastData) && SimState() == old(SimState())
    {
      match EffectiveConnect(kind, outcome)
      case Opened => status := Connected; r := Ok(true);
      case Refused => status := Error; r := Ok(false);
      case ConnectRaised(msg) => r := Err(msg);
    }

    /** `disconnect`: every variant ends Disconnected; calling it again changes nothing more. */
    method Disconnect()
      requires Valid()
      modifies this
      ensures Valid()
      ensures State() == old(State()).(status := Disconnected)
      ensures SimState() == old(SimState())
    {
      status := Disconnected;
    }

    /** `health_check`, as `HealthCheckStep` states it. */
    method HealthCheck(probe: ProbeOutcome) returns (report: HealthReport)
      requires Valid()
      modifies this
      ensures Valid()
      ensures (State(), report) == HealthCheckStep(old(State()), EffectiveProbe(kind, probe))
      ensures SimState() == old(SimState())
    {
      match EffectiveProbe(kind, probe)
      case Responding =>
        status := Connected;
        lastError := None;
        report := HealthReport("healthy", true, None, connectionAttempts);
      case NotResponding =>
        status := Error;
        report := HealthReport("unhealthy", false, Some("Device not responding"), connectionAttempts);
      case ProbeRaised(msg) =>
        status := Error;
        lastError := Some(msg);
        report := HealthReport("error", false, Some(msg), connectionAttempts);
    }

    /** `auto_reconnect`, as `ReconnectStep` states it; it calls `connect` only when it counts an attempt. */
    method AutoReconnect(outcome: ConnectOutcome) returns (ok: bool)
      requires Valid()
      modifies this
      ensures Valid()
      ensures (State(), ok) == ReconnectStep(old(State()), EffectiveConnect(kind, outcome))
      ensures SimState() == old(SimState())
    {
      if status == Connected || status == Connecting {
        return true;
      }
      if connectionAttempts >= maxRetries {
        return false;
      }
      status := Connecting;
      connectionAttempts := connectionAttempts + 1;
      var r := Connect(outcome);
      match r
      case Ok(success) =>
        if success {
          status := Connected;
          connectionAttempts := 0;
          ok := true;
        } else {
          status := Error;
          ok := false;
        }
      case Err(msg) =>
        status := Error;
        lastError := Some(msg);
        ok := false;
    }

    /**
     * `write_control`: the simulation driver accepts every command; a vendor
     * driver answers what the device answered. Nothing is stored.
     */
    method WriteControl(control: DeviceControl, deviceAccepts: DeviceControl -> bool) returns (ok: bool)
      ensures ok == (kind == SimulatorKind || deviceAccepts(control))
    {
      ok := kind == SimulatorKind || deviceAccepts(control);
    }

    /** `get_status_summary`. */
    function StatusSummary(): (r: StatusSummary)
      reads this
      ensures r == Summary(info, State())
    {
      Summary(info, DriverState(status, lastError, connectionAttempts, lastData))
    }

    /**
     * The simulation driver's `read_data` at time `now` (local hour `hour`):
     * it integrates the state of charge over the time since the last call,
     * stores the snapshot as `last_data`, stamped with the current status.
     * The 20..95 band on the state of charge survives the call only when the
     * clock did not go back.
     */
    method ReadSimulated(now: real, hour: int, d: Sim.Draws) returns (data: DeviceData)
      requires Valid() && kind == SimulatorKind
      requires 0 <= hour <= 23
      modifies this
      ensures Valid()
      ensures var r := Sim.SimulatedReading(now, hour, now - old(lastUpdate), old(status), old(batterySoc), dayStart, dayEnd, d);
              data == r.data && batterySoc == r.soc
      ensures lastData == Some(data) && lastUpdate == now
      ensures Sim.SocFloor <= old(batterySoc) <= Sim.SocCeiling && now >= old(lastUpdate) ==>
                Sim.SocFloor <= batterySoc <= Sim.SocCeiling
      ensures status == old(status) && lastError == old(lastError) && connectionAttempts == old(connectionAttempts)
    {
      var dt := now - lastUpdate;
      lastUpdate := now;
      var r := Sim.SimulatedReading(now, hour, dt, status, batterySoc, dayStart, dayEnd, d);
      batterySoc := r.soc;
      data := r.data;
      lastData := Some(data);
    }
  }
}
