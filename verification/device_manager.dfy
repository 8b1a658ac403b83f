/**
 * The device manager: a table of drivers keyed by id (in insertion order),
 * the discovery that fills it, the fallback to the simulator, one pass of
 * the data-collection loop and the queries the API reads.
 */
module DeviceManager {
  import opened Wrappers
  import opened DeviceTypes
  import Text
  import DictOrder
  import Sim = SimulationModel
  import opened Drivers
  import Rtu = ModbusRtu

  /** The table key of the simulation driver. */
  const SimulatorKey: string := "simulator"

  /** The device information the simulation driver is built with. */
  const SimulatorInfo: DeviceInfo := DeviceInfo(
    "Solar Sync Simulator", "Solar Sync", "Simulation Device", "SIM-001", "1.0.0",
    SimulationType, "simulation", "simulation://localhost")

  /** One entry of the scan's found-device list. */
  datatype Discovered = Discovered(
    adapter: Rtu.Rs485Adapter,
    device: Rtu.FoundDevice,
    port: string,
    baudrate: int,
    slaveId: int,
    identification: string)

  function DiscoveredOn(adapter: Rtu.Rs485Adapter, devices: seq<Rtu.FoundDevice>): (r: seq<Discovered>)
    ensures |r| == |devices|
    ensures forall i :: 0 <= i < |r| ==>
              r[i] == Discovered(adapter, devices[i], adapter.port, devices[i].baudrate, devices[i].slaveId,
                                 devices[i].identity.identification)
  {
    seq(|devices|, i requires 0 <= i < |devices| =>
      Discovered(adapter, devices[i], adapter.port, devices[i].baudrate, devices[i].slaveId,
                 devices[i].identity.identification))
  }

  /** Every adapter scanned with the default baud rates and slave ids, in adapter order. */
  function DiscoverAll(adapters: seq<Rtu.Rs485Adapter>, opener: Rtu.LineOpener, bus: Rtu.RegisterBus): seq<Discovered>
    decreases |adapters|
  {
    if |adapters| == 0 then []
    else
      DiscoverAll(adapters[..|adapters| - 1], opener, bus)
        + DiscoveredOn(adapters[|adapters| - 1],
                       Rtu.ScanResult(opener, bus, adapters[|adapters| - 1].port, Rtu.DefaultBaudRates, Rtu.DefaultSlaveIds))
  }

  /**
   * Every discovered device sits on an adapter's port, at a default baud
   * rate and at a unicast slave address 1..247.
   */
  lemma {:induction false} DiscoveredShape(adapters: seq<Rtu.Rs485Adapter>, opener: Rtu.LineOpener, bus: Rtu.RegisterBus)
    ensures forall e :: e in DiscoverAll(adapters, opener, bus) ==>
              && (exists a :: a in adapters && a.port == e.port)
              && e.baudrate in Rtu.DefaultBaudRates
              && 1 <= e.slaveId <= 247
    decreases |adapters|
  {
    if |adapters| > 0 {
      var init := adapters[..|adapters| - 1];
      var last := adapters[|adapters| - 1];
      DiscoveredShape(init, opener, bus);
      Rtu.ScanShape(opener, bus, last.port, Rtu.DefaultBaudRates, Rtu.DefaultSlaveIds);
      Rtu.DefaultSlaveIdsRange();
      forall e | e in DiscoverAll(adapters, opener, bus)
        ensures (exists a :: a in adapters && a.port == e.port) && e.baudrate in Rtu.DefaultBaudRates && 1 <= e.slaveId <= 247
      {
        if e in DiscoverAll(init, opener, bus) {
          var a :| a in init && a.port == e.port;
          assert a in adapters;
        } else {
          var found := Rtu.ScanResult(opener, bus, last.port, Rtu.DefaultBaudRates, Rtu.DefaultSlaveIds);
          var i :| 0 <= i < |found| && e == DiscoveredOn(last, found)[i];
          assert found[i] in found;
          assert last in adapters;
        }
      }
    }
  }

  /**
   * The discovery half of `scan_devices`: the RS-485 adapters among the
   * enumerated ports, each scanned for Modbus devices.
   */
  method Discover(ports: seq<Rtu.PortInfo>, opener: Rtu.LineOpener, bus: Rtu.RegisterBus) returns (found: seq<Discovered>)
    ensures found == DiscoverAll(Rtu.Adapters(ports), opener, bus)
  {
    var adapters := Rtu.FindRs485Adapters(ports);
    found := [];
    var i := 0;
    while i < |adapters|
      invariant 0 <= i <= |adapters|
      invariant found == DiscoverAll(adapters[..i], opener, bus)
    {
      var adapter := adapters[i];
      var devices := Rtu.ScanModbusDevices(adapter.port, None, None, opener, bus);
      assert adapters[..i + 1][..i] == adapters[..i];
      found := found + DiscoveredOn(adapter, devices);
      i := i + 1;
    }
    assert adapters[..|adapters|] == adapters;
  }

  // ---------------------------------------------------------------------
  // Driver selection
  // ---------------------------------------------------------------------

  /** The driver family `_create_driver` picks from the lower-cased identification. */
  function SelectKind(identification: string): (k: DriverKind)
    ensures k != SimulatorKind
  {
    var id := Text.Lower(identification);
    if Text.Contains(id, "growatt") || Text.Contains(id, "spf") then GrowattKind
    else if Text.Contains(id, "deye") || Text.Contains(id, "sun") then DeyeKind
    else if Text.Contains(id, "sma") || Text.Contains(id, "sunny") then SmaKind
    else GenericKind
  }

  /**
   * The keyword tests run in a fixed order, so "sun" claims every
   * identification containing "sunny" before the SMA test is reached: an
   * identification is routed to SMA only through "sma", and only when it
   * contains no "sun" at all. Growatt wins over everything else.
   */
  lemma SelectKindOrder(identification: string)
    ensures var id := Text.Lower(identification);
            (Text.Contains(id, "growatt") || Text.Contains(id, "spf")) <==> SelectKind(identification) == GrowattKind
    ensures var id := Text.Lower(identification);
            Text.Contains(id, "sunny") && SelectKind(identification) != GrowattKind ==> SelectKind(identification) == DeyeKind
    ensures var id := Text.Lower(identification);
            SelectKind(identification) == SmaKind ==> Text.Contains(id, "sma") && !Text.Contains(id, "sun")
  {
    var id := Text.Lower(identification);
    if Text.Contains(id, "sunny") {
      Text.ContainsPrefixOf(id, "sunny", "sun");
    }
  }

  function TypeOfKind(kind: DriverKind): DeviceType
  {
    match kind
    case GrowattKind => GrowattSpf
    case DeyeKind => DeyeSun
    case SmaKind => SmaSunnyboy
    case GenericKind => GenericModbus
    case SimulatorKind => SimulationType
  }

  /** "<port>:<baudrate>:<slave id>". */
  function ConnectionString(port: string, baudrate: int, slaveId: int): (r: string)
    ensures Text.StartsWith(r, port + ":")
  {
    assert (port + ":" + Text.IntToString(baudrate) + ":" + Text.IntToString(slaveId))[..|port + ":"|] == port + ":";
    port + ":" + Text.IntToString(baudrate) + ":" + Text.IntToString(slaveId)
  }

  /** The device information a vendor driver is created with. */
  function VendorInfo(kind: DriverKind, d: Discovered): (info: DeviceInfo)
    requires kind != SimulatorKind
    ensures info.deviceType == TypeOfKind(kind) && info.protocol == "modbus_rtu"
    ensures info.serialNumber == d.identification && info.firmwareVersion == "Unknown"
    ensures info.connectionString == ConnectionString(d.port, d.baudrate, d.slaveId)
  {
    var conn := ConnectionString(d.port, d.baudrate, d.slaveId);
    match kind
    case GrowattKind => DeviceInfo("Growatt SPF Series", "Growatt", "SPF Series", d.identification, "Unknown", GrowattSpf, "modbus_rtu", conn)
    case DeyeKind => DeviceInfo("Deye SUN Series", "Deye", "SUN Series", d.identification, "Unknown", DeyeSun, "modbus_rtu", conn)
    case SmaKind => DeviceInfo("SMA Sunny Boy", "SMA", "Sunny Boy", d.identification, "Unknown", SmaSunnyboy, "modbus_rtu", conn)
    case GenericKind => DeviceInfo("Generic Modbus Device", "Unknown", "Modbus Device", d.identification, "Unknown", GenericModbus, "modbus_rtu", conn)
  }

  /** "<port>_<slave id>", the table key of a hardware device. */
  function DeviceKey(port: string, slaveId: int): string
  {
    port + "_" + Text.IntToString(slaveId)
  }

  /** A key starts with its port, then an underscore, then at least one more character. */
  lemma DeviceKeyShape(port: string, slaveId: int)
    ensures var k := DeviceKey(port, slaveId);
            |k| > |port| + 1 && k[|port|] == '_' && k[..|port|] == port
  {
    var k := DeviceKey(port, slaveId);
    assert k[..|port|] == port;
  }

  /** A hardware key never collides with the simulator's slot: "simulator" has no underscore. */
  lemma DeviceKeyNotSimulator(port: string, slaveId: int)
    ensures DeviceKey(port, slaveId) != SimulatorKey
  {
    var k := DeviceKey(port, slaveId);
    DeviceKeyShape(port, slaveId);
    if |k| == |SimulatorKey| {
      assert k[|port|] == '_';
      assert SimulatorKey[|port|] != '_';
    }
  }

  /** Whether the driver module of a kind can be imported. */
  type ModuleAvailability = DriverKind -> bool

  /** Whether a found device gets a driver. */
  predicate Creates(available: ModuleAvailability, d: Discovered)
  {
    available(SelectKind(d.identification))
  }

  /** The keys of the found devices that get a driver, in scan order (repeats included). */
  function CreatedKeys(found: seq<Discovered>, available: ModuleAvailability): (r: seq<string>)
    ensures |r| <= |found|
    decreases |found|
  {
    if |found| == 0 then []
    else
      var last := found[|found| - 1];
      CreatedKeys(found[..|found| - 1], available)
        + (if Creates(available, last) then [DeviceKey(last.port, last.slaveId)] else [])
  }

  /** Some found device with a driver module is keyed `k`. */
  predicate Touched(found: seq<Discovered>, available: ModuleAvailability, k: string)
  {
    k in CreatedKeys(found, available)
  }

  /** A found device gets a driver and that driver goes under `k`. */
  predicate MakesKey(available: ModuleAvailability, d: Discovered, k: string)
  {
    Creates(available, d) && DeviceKey(d.port, d.slaveId) == k
  }

  /**
   * The found device whose driver ends up under `k`: the last one that
   * makes that key, since a later insertion replaces an earlier driver.
   */
  function CreatedFrom(found: seq<Discovered>, available: ModuleAvailability, k: string): (r: Option<Discovered>)
    ensures r.Some? <==> Touched(found, available, k)
    ensures r.Some? ==> MakesKey(available, r.value, k)
    decreases |found|
  {
    if |found| == 0 then None
    else
      var n := |found| - 1;
      if MakesKey(available, found[n], k) then Some(found[n])
      else CreatedFrom(found[..n], available, k)
  }

  /** One more found device decides the key it makes and leaves every other key's device alone. */
  lemma CreatedFromSnoc(found: seq<Discovered>, available: ModuleAvailability, i: nat, k: string)
    requires i < |found|
    ensures CreatedFrom(found[..i + 1], available, k) ==
              if MakesKey(available, found[i], k) then Some(found[i]) else CreatedFrom(found[..i], available, k)
  {
    assert found[..i + 1][..i] == found[..i];
  }

  /** A found device whose driver module is available touches its own key. */
  lemma TouchedByCreated(found: seq<Discovered>, available: ModuleAvailability, i: nat)
    requires i < |found| && Creates(available, found[i])
    ensures Touched(found, available, DeviceKey(found[i].port, found[i].slaveId))
  {
    var key := DeviceKey(found[i].port, found[i].slaveId);
    TouchedSnoc(found, available, i, key);
    var j := i + 1;
    while j < |found|
      invariant i < j <= |found|
      invariant Touched(found[..j], available, key)
    {
      TouchedSnoc(found, available, j, key);
      j := j + 1;
    }
    assert found[..|found|] == found;
  }

  /** A touched key is the key of a found device whose driver module is available. */
  lemma {:induction false} TouchedSource(found: seq<Discovered>, available: ModuleAvailability, k: string) returns (i: nat)
    requires Touched(found, available, k)
    ensures i < |found| && Creates(available, found[i]) && DeviceKey(found[i].port, found[i].slaveId) == k
    decreases |found|
  {
    var n := |found| - 1;
    if Touched(found[..n], available, k) {
      i := TouchedSource(found[..n], available, k);
      assert found[..n][i] == found[i];
    } else {
      i := n;
    }
  }

  /** `Touched` holds exactly for the keys of the found devices whose driver module is available. */
  lemma TouchedIff(found: seq<Discovered>, available: ModuleAvailability, k: string)
    ensures Touched(found, available, k) <==>
              exists i :: 0 <= i < |found| && Creates(available, found[i]) && DeviceKey(found[i].port, found[i].slaveId) == k
  {
    if Touched(found, available, k) {
      var i := TouchedSource(found, available, k);
    } else {
      forall i | 0 <= i < |found| && Creates(available, found[i])
        ensures DeviceKey(found[i].port, found[i].slaveId) != k
      {
        TouchedByCreated(found, available, i);
      }
    }
  }

  /** The key order after `_connect_to_devices` has inserted every created driver. */
  function AddedKeys(keys: seq<string>, found: seq<Discovered>, available: ModuleAvailability): (r: seq<string>)
    ensures DictOrder.Distinct(keys) ==> DictOrder.Distinct(r)
    decreases |found|
  {
    if |found| == 0 then keys
    else
      var before := AddedKeys(keys, found[..|found| - 1], available);
      var last := found[|found| - 1];
      if Creates(available, last) then DictOrder.Put(before, DeviceKey(last.port, last.slaveId)) else before
  }

  /** One more found device touches its own key and nothing else. */
  lemma TouchedSnoc(found: seq<Discovered>, available: ModuleAvailability, i: nat, k: string)
    requires i < |found|
    ensures Touched(found[..i + 1], available, k) <==>
              Touched(found[..i], available, k)
              || (Creates(available, found[i]) && DeviceKey(found[i].port, found[i].slaveId) == k)
  {
    assert found[..i + 1][..i] == found[..i];
  }

  /**
   * The table after `_connect_to_devices` holds the keys it held before
   * and the key of every found device whose driver module is available,
   * and nothing else.
   */
  lemma {:induction false} AddedKeysMembers(keys: seq<string>, found: seq<Discovered>, available: ModuleAvailability)
    ensures forall k :: k in AddedKeys(keys, found, available) <==> k in keys || Touched(found, available, k)
    decreases |found|
  {
    if |found| > 0 {
      var n := |found| - 1;
      AddedKeysMembers(keys, found[..n], available);
      assert found[..n + 1] == found;
      forall k
        ensures Touched(found, available, k) <==>
                  Touched(found[..n], available, k)
                  || (Creates(available, found[n]) && DeviceKey(found[n].port, found[n].slaveId) == k)
      {
        TouchedSnoc(found, available, n, k);
      }
    }
  }

  /** The status a fresh vendor driver has after `connect`; a raising connect leaves it Disconnected. */
  function StatusAfterConnect(outcome: ConnectOutcome): DeviceStatus
  {
    match outcome
    case Opened => Connected
    case Refused => Error
    case ConnectRaised(_) => Disconnected
  }

  // ---------------------------------------------------------------------
  // Collection pass, status and latest data
  // ---------------------------------------------------------------------

  /** What the outside world supplies for one device during one collection pass. */
  datatype DeviceInput = DeviceInput(draws: Sim.Draws, reading: Option<DeviceData>, reconnect: ConnectOutcome)

  /** A driver's mutable state including the simulation variant's own fields. */
  datatype Slot = Slot(state: DriverState, soc: real, lastUpdate: real)

  /**
   * What one pass of the collection loop does to one driver: a Connected
   * driver is read (and a reading is stored), an Error driver gets one
   * `auto_reconnect`, any other status is left alone.
   */
  function CollectStep(kind: DriverKind, dayStart: real, dayEnd: real, s: Slot, now: real, hour: int, input: DeviceInput): (r: Slot)
    requires 0 <= hour <= 23
    ensures s.state.attempts <= MaxRetries ==> r.state.attempts <= MaxRetries
    ensures s.state.status != Error ==> r.state.status == s.state.status && r.state.attempts == s.state.attempts
                                        && r.state.lastError == s.state.lastError
    ensures s.state.status != Connected ==> r.state.lastData == s.state.lastData && r.soc == s.soc
    ensures s.state.status == Connected && kind == SimulatorKind ==>
              r.state.lastData.Some? && r.state.lastData.value.timestamp == now && r.lastUpdate == now
    ensures s.state.status == Connected && kind != SimulatorKind ==>
              r.state.lastData == (if input.reading.Some? then input.reading else s.state.lastData)
    ensures s.state.status == Error ==>
              && r.state == ReconnectStep(s.state, EffectiveConnect(kind, input.reconnect)).0
              && r.soc == s.soc && r.lastUpdate == s.lastUpdate
  {
    if s.state.status == Connected then
      if kind == SimulatorKind then
        var reading := Sim.SimulatedReading(now, hour, now - s.lastUpdate, s.state.status, s.soc, dayStart, dayEnd, input.draws);
        Slot(s.state.(lastData := Some(reading.data)), reading.soc, now)
      else if input.reading.Some? then Slot(s.state.(lastData := input.reading), s.soc, s.lastUpdate)
      else s
    else if s.state.status == Error then
      Slot(ReconnectStep(s.state, EffectiveConnect(kind, input.reconnect)).0, s.soc, s.lastUpdate)
    else s
  }

  /** The number of Connected drivers among `states`. */
  function CountConnected(states: seq<DriverState>): (n: nat)
    ensures n <= |states|
    decreases |states|
  {
    if |states| == 0 then 0
    else CountConnected(states[..|states| - 1]) + (if states[|states| - 1].status == Connected then 1 else 0)
  }

  /** All drivers are counted exactly when all are Connected, none exactly when none is. */
  lemma {:induction false} CountConnectedExtremes(states: seq<DriverState>)
    ensures CountConnected(states) == |states| <==> forall i :: 0 <= i < |states| ==> states[i].status == Connected
    ensures CountConnected(states) == 0 <==> forall i :: 0 <= i < |states| ==> states[i].status != Connected
    decreases |states|
  {
    if |states| > 0 {
      var init := states[..|states| - 1];
      CountConnectedExtremes(init);
      assert forall i :: 0 <= i < |init| ==> init[i] == states[i];
    }
  }

  function TimestampOrZero(d: Option<DeviceData>): real
  {
    if d.Some? then d.value.timestamp else 0.0
  }

  /**
   * `get_latest_data` over the snapshots in table order: a running maximum
   * of the timestamps, starting from 0, replaced only by a strictly later one.
   */
  function Latest(snapshots: seq<Option<DeviceData>>): (r: Option<DeviceData>)
    ensures r.Some? ==> r.value.timestamp > 0.0
    decreases |snapshots|
  {
    if |snapshots| == 0 then None
    else
      var best := Latest(snapshots[..|snapshots| - 1]);
      var last := snapshots[|snapshots| - 1];
      if last.Some? && last.value.timestamp > TimestampOrZero(best) then last else best
  }

  /**
   * `Latest` is the snapshot with the greatest timestamp, provided that is
   * above 0, and on a tie the earliest such one; None when no timestamp is
   * above 0.
   */
  lemma {:induction false} LatestIsFirstMaximum(snapshots: seq<Option<DeviceData>>)
    ensures var r := Latest(snapshots);
            && (r.None? <==> forall i :: 0 <= i < |snapshots| ==> TimestampOrZero(snapshots[i]) <= 0.0)
            && (forall i :: 0 <= i < |snapshots| ==> TimestampOrZero(snapshots[i]) <= TimestampOrZero(r))
            && (r.Some? ==> exists i :: 0 <= i < |snapshots| && snapshots[i] == r
                              && forall j :: 0 <= j < i ==> TimestampOrZero(snapshots[j]) < r.value.timestamp)
    decreases |snapshots|
  {
    if |snapshots| > 0 {
      var init := snapshots[..|snapshots| - 1];
      LatestIsFirstMaximum(init);
      assert forall i :: 0 <= i < |init| ==> init[i] == snapshots[i];
    }
  }

  /** One key of a JSON request body: absent, present with `null`, or present with a value. */
  datatype Field<T> = Missing | Null | Given(value: T)

  /** The request body of `write_control`: every field may be missing or null. */
  datatype ControlRequest = ControlRequest(
    outputPriority: Field<string>,
    batteryChargeLimit: Field<real>,
    batteryDischargeLimit: Field<real>,
    gridExportLimit: Field<real>,
    emergencyPower: Field<bool>)

  /** Python's `body.get(key, default)`: the default only when the key is absent; `null` reads as None. */
  function GetOr<T>(f: Field<T>, default: T): Option<T>
  {
    match f
    case Missing => Some(default)
    case Null => None
    case Given(v) => Some(v)
  }

  /** `v` is what the command holds for the field `f` with default `default`. */
  predicate ReadsAs<T(==)>(f: Field<T>, default: T, v: Option<T>)
  {
    && (f.Missing? ==> v == Some(default))
    && (f.Null? ==> v == None)
    && (f.Given? ==> v == Some(f.value))
  }

  /**
   * The command built from a request: each absent field takes its default
   * (solar priority, 100 % charge limit, 0 % discharge limit, no export
   * limit, no emergency power), a given field its value, and a `null` field
   * is passed on as None.
   */
  function BuildControl(req: ControlRequest): (c: DeviceControl)
    ensures ReadsAs(req.outputPriority, "solar", c.outputPriority)
    ensures ReadsAs(req.batteryChargeLimit, 100.0, c.batteryChargeLimit)
    ensures ReadsAs(req.batteryDischargeLimit, 0.0, c.batteryDischargeLimit)
    ensures ReadsAs(req.gridExportLimit, 0.0, c.gridExportLimit)
    ensures ReadsAs(req.emergencyPower, false, c.emergencyPower)
  {
    DeviceControl(
      GetOr(req.outputPriority, "solar"),
      GetOr(req.batteryChargeLimit, 100.0),
      GetOr(req.batteryDischargeLimit, 0.0),
      GetOr(req.gridExportLimit, 0.0),
      GetOr(req.emergencyPower, false))
  }

  /** The dictionary `get_device_status` returns. */
  datatype ManagerStatus = ManagerStatus(
    simulationMode: bool,
    totalDevices: nat,
    connectedDevices: nat,
    devices: seq<(string, StatusSummary)>,
    lastScan: Option<real>,
    scanning: bool)

  /** The dictionary `scan_devices` returns. */
  datatype ScanReport =
    | ScanBusy
    | ScanCompleted(devices: seq<Discovered>, simulationMode: bool)
    | ScanFailed(error: string, simulationMode: bool)

  /** The parts of the manager's state a scan reads and writes. */
  datatype TableView = TableView(keys: seq<string>, devices: map<string, Driver>, simulationMode: bool, lastScan: Option<real>)

  /**
   * `_enable_simulation_mode` seen in the table, from the table `t0`:
   * simulation mode is on, "simulator" keeps its slot or goes last, a
   * connected simulation driver is stored under it, and every other entry
   * keeps its driver.
   */
  ghost predicate SimulatorAdded(t: TableView, t0: TableView)
    reads t.devices.Values
  {
    && t.simulationMode
    && t.keys == DictOrder.Put(t0.keys, SimulatorKey)
    && SimulatorKey in t.devices && t.devices == t0.devices[SimulatorKey := t.devices[SimulatorKey]]
    && t.devices[SimulatorKey].kind == SimulatorKind && t.devices[SimulatorKey].info == SimulatorInfo
    && t.devices[SimulatorKey].State() == InitialState().(status := Connected)
  }

  /**
   * `_connect_to_devices` seen in the table, from the table `t0`: the keys
   * of the found devices that get a driver are added in scan order, each
   * such key holds a vendor driver connected with that key's outcome, and
   * every other entry keeps its driver.
   */
  ghost predicate FoundAdded(t: TableView, t0: TableView, found: seq<Discovered>, available: ModuleAvailability,
                             outcome: string -> ConnectOutcome)
    reads t.devices.Values
  {
    && t.keys == AddedKeys(t0.keys, found, available)
    && (forall k :: k in t0.devices && !Touched(found, available, k) ==> k in t.devices && t.devices[k] == t0.devices[k])
    && (forall k :: k in t.devices && Touched(found, available, k) ==>
          && var d := CreatedFrom(found, available, k).value;
          && t.devices[k].kind != SimulatorKind
          && t.devices[k].kind == SelectKind(d.identification)
          && t.devices[k].info == VendorInfo(SelectKind(d.identification), d)
          && t.devices[k].State() == InitialState().(status := StatusAfterConnect(outcome(k))))
  }

  /**
   * What the body of `scan_devices` leaves, from the table `t0`: when the
   * port enumeration raised, the simulator is enabled and `last_scan` is
   * kept; otherwise `last_scan` is `now` and either nothing was found and
   * the simulator is enabled, or the found devices are connected and
   * simulation mode is as it was.
   */
  ghost predicate Scanned(t: TableView, t0: TableView, ports: Result<seq<Rtu.PortInfo>, string>,
                          opener: Rtu.LineOpener, bus: Rtu.RegisterBus, available: ModuleAvailability,
                          outcome: string -> ConnectOutcome, now: real)
    reads t.devices.Values
  {
    match ports
    case Err(_) => t.lastScan == t0.lastScan && SimulatorAdded(t, t0)
    case Ok(enumerated) =>
      var found := DiscoverAll(Rtu.Adapters(enumerated), opener, bus);
      && t.lastScan == Some(now)
      && (found == [] ==> SimulatorAdded(t, t0))
      && (found != [] ==> t.simulationMode == t0.simulationMode && FoundAdded(t, t0, found, available, outcome))
  }

  /** The answer of `scan_devices` once past its guard: the error, or the found devices; with the mode reached. */
  function ScanReportFor(ports: Result<seq<Rtu.PortInfo>, string>, opener: Rtu.LineOpener, bus: Rtu.RegisterBus,
                         simulationMode: bool): ScanReport
  {
    match ports
    case Err(e) => ScanFailed(e, simulationMode)
    case Ok(enumerated) => ScanCompleted(DiscoverAll(Rtu.Adapters(enumerated), opener, bus), simulationMode)
  }

  ghost function SlotOfDriver(d: Driver): Slot
    reads d
  {
    Slot(d.State(), d.batterySoc, d.lastUpdate)
  }

  /** The body of the collection loop for one driver. */
  method CollectDevice(device: Driver, now: real, hour: int, input: DeviceInput)
    requires device.Valid() && 0 <= hour <= 23
    modifies device
    ensures device.Valid()
    ensures SlotOfDriver(device) == CollectStep(device.kind, device.dayStart, device.dayEnd, old(SlotOfDriver(device)), now, hour, input)
  {
    if device.status == Connected {
      if device.kind == SimulatorKind {
        var _ := device.ReadSimulated(now, hour, input.draws);
      } else if input.reading.Some? {
        device.lastData := input.reading;
      }
    } else if device.status == Error {
      var _ := device.AutoReconnect(input.reconnect);
    }
  }

  /** Every key of `before` outside `touched` still holds the same driver in `devices`. */
  ghost predicate Kept(devices: map<string, Driver>, before: map<string, Driver>, touched: set<string>)
  {
    forall k :: k in before && k !in touched ==> k in devices && devices[k] == before[k]
  }

  /** Every driver of `devices` under a key in `touched` is one of `created`. */
  ghost predicate Owned(devices: map<string, Driver>, touched: set<string>, created: set<Driver>)
  {
    forall k :: k in devices && k in touched ==> devices[k] in created
  }

  lemma KeptUpdate(devices: map<string, Driver>, before: map<string, Driver>, touched: set<string>, key: string, d: Driver)
    requires Kept(devices, before, touched)
    ensures Kept(devices[key := d], before, touched + {key})
  {
  }

  lemma OwnedUpdate(devices: map<string, Driver>, touched: set<string>, created: set<Driver>, key: string, d: Driver)
    requires Owned(devices, touched, created)
    ensures Owned(devices[key := d], touched + {key}, created + {d})
  {
  }

  class DeviceManager {
    /** The table's keys in insertion order. */
    var keys: seq<string>
    var devices: map<string, Driver>
    var simulationMode: bool
    const scanInterval: int
    const dataInterval: int
    var lastScan: Option<real>
    var scanning: bool
    var running: bool
    /** The key each driver in the table is stored under: no driver is stored twice. */
    ghost var owner: map<Driver, string>

    /** The table's own shape: distinct keys, the same keys as the map, no driver stored twice. */
    ghost predicate Table()
      reads this
    {
      && DictOrder.Distinct(keys)
      && (forall k :: k in keys <==> k in devices)
      && (forall k :: k in devices ==> devices[k] in owner && owner[devices[k]] == k)
    }

    ghost predicate Valid()
      reads this, devices.Values
    {
      Table() && forall k :: k in devices ==> devices[k].Valid()
    }

    /** The states of the drivers under `ks`, in that order. */
    ghost function StatesOf(ks: seq<string>): (r: seq<DriverState>)
      reads this, devices.Values
      requires forall k :: k in ks ==> k in devices
      ensures |r| == |ks|
      ensures forall i :: 0 <= i < |ks| ==> r[i] == devices[ks[i]].State()
      decreases |ks|
    {
      if |ks| == 0 then [] else StatesOf(ks[..|ks| - 1]) + [devices[ks[|ks| - 1]].State()]
    }

    /** The drivers' states in table order. */
    ghost function States(): (r: seq<DriverState>)
      reads this, devices.Values
      requires Valid()
      ensures |r| == |keys|
      ensures forall i :: 0 <= i < |keys| ==> r[i] == devices[keys[i]].State()
    {
      StatesOf(keys)
    }

    /** The last snapshots of the drivers under `ks`, in that order. */
    function SnapshotsOf(ks: seq<string>): (r: seq<Option<DeviceData>>)
      reads this, devices.Values
      requires forall k :: k in ks ==> k in devices
      ensures |r| == |ks|
      ensures forall i :: 0 <= i < |ks| ==> r[i] == devices[ks[i]].lastData
      decreases |ks|
    {
      if |ks| == 0 then [] else SnapshotsOf(ks[..|ks| - 1]) + [devices[ks[|ks| - 1]].lastData]
    }

    /** The drivers' last snapshots in table order. */
    function Snapshots(): (r: seq<Option<DeviceData>>)
      reads this, devices.Values
      requires Valid()
      ensures |r| == |keys|
      ensures forall i :: 0 <= i < |keys| ==> r[i] == devices[keys[i]].lastData
    {
      SnapshotsOf(keys)
    }

    /** The table, the mode and the scan time as one value. */
    function View(): TableView
      reads this
    {
      TableView(keys, devices, simulationMode, lastScan)
    }

    /** The periodic scan runs only when the table is empty or every driver is Disconnected. */
    predicate ScanDue()
      reads this, devices.Values
    {
      forall k :: k in devices ==> devices[k].status == Disconnected
    }

    constructor ()
      ensures Valid() && keys == [] && devices == map[]
      ensures !simulationMode && lastScan == None && !scanning && !running
      ensures scanInterval == 30 && dataInterval == 5
    {
      keys := [];
      devices := map[];
      owner := map[];
      simulationMode := false;
      scanInterval := 30;
      dataInterval := 5;
      lastScan := None;
      scanning := false;
      running := false;
    }

    /**
     * `_enable_simulation_mode`: a new simulation driver, connected, under
     * "simulator" (replacing any earlier one in its slot); every other entry
     * stays. With a Connected driver in the table the periodic scan is no
     * longer due.
     */
    method EnableSimulationMode(now: real, midnight: real)
      requires Valid()
      modifies this
      ensures Valid() && SimulatorAdded(View(), old(View()))
      ensures fresh(devices[SimulatorKey]) && !ScanDue()
      ensures lastScan == old(lastScan) && scanning == old(scanning) && running == old(running)
    {
      var simulator := NewSimulator(now, midnight);
      Insert(SimulatorKey, simulator);
      simulationMode := true;
    }

    /** A simulation driver built at `now` and connected. */
    static method NewSimulator(now: real, midnight: real) returns (d: Driver)
      ensures fresh(d) && d.Valid() && d.kind == SimulatorKind && d.info == SimulatorInfo
      ensures d.State() == InitialState().(status := Connected)
    {
      d := new Driver.Simulator(SimulatorInfo, now, midnight);
      var _ := d.Connect(Opened);
    }

    /** `devices[key] = driver`: the key keeps its slot if it exists, else goes last. */
    method Insert(key: string, driver: Driver)
      requires Valid() && driver.Valid() && driver !in devices.Values
      modifies this
      ensures Valid()
      ensures keys == DictOrder.Put(old(keys), key) && devices == old(devices)[key := driver]
      ensures simulationMode == old(simulationMode) && lastScan == old(lastScan)
      ensures scanning == old(scanning) && running == old(running)
    {
      devices := devices[key := driver];
      owner := owner[driver := key];
      keys := DictOrder.Put(keys, key);
    }

    /**
     * `_create_driver`: the family chosen by `SelectKind`; when that
     * family's module is missing there is no driver (no generic fallback).
     */
    static method CreateDriver(d: Discovered, available: ModuleAvailability) returns (r: Option<Driver>)
      ensures r.Some? <==> Creates(available, d)
      ensures r.Some? ==> && fresh(r.value) && r.value.Valid()
                          && r.value.kind == SelectKind(d.identification)
                          && r.value.info == VendorInfo(SelectKind(d.identification), d)
                          && r.value.State() == InitialState()
    {
      var kind := SelectKind(d.identification);
      if !available(kind) {
        return None;
      }
      var driver := new Driver.Vendor(VendorInfo(kind, d), kind);
      return Some(driver);
    }

    /** Puts `driver` under `key` (keeping the key's slot if it exists) and connects it. */
    method Install(key: string, driver: Driver, outcome: ConnectOutcome)
      requires Valid() && driver.Valid() && driver !in devices.Values
      requires driver.kind != SimulatorKind && driver.State() == InitialState()
      modifies this, driver
      ensures Valid()
      ensures keys == DictOrder.Put(old(keys), key) && devices == old(devices)[key := driver]
      ensures driver.State() == InitialState().(status := StatusAfterConnect(outcome))
      ensures simulationMode == old(simulationMode) && lastScan == old(lastScan)
      ensures scanning == old(scanning) && running == old(running)
    {
      Insert(key, driver);
      var _ := driver.Connect(outcome);
    }

    /**
     * Every driver under a key touched by `done` is the vendor driver of the
     * device that made that key last, just connected with `outcome`.
     */
    ghost predicate Renewed(done: seq<Discovered>, available: ModuleAvailability, outcome: string -> ConnectOutcome)
      reads this, devices.Values
    {
      forall k :: k in devices && Touched(done, available, k) ==>
        && var d := CreatedFrom(done, available, k).value;
        && devices[k].kind != SimulatorKind
        && devices[k].kind == SelectKind(d.identification)
        && devices[k].info == VendorInfo(SelectKind(d.identification), d)
        && devices[k].State() == InitialState().(status := StatusAfterConnect(outcome(k)))
    }

    /**
     * The loop body of `_connect_to_devices` for `found[i]`, together with
     * the loop's bookkeeping: the keys touched by `found[..i]` and the
     * drivers created so far grow to those of `found[..i + 1]`.
     */
    method ConnectStep(found: seq<Discovered>, i: nat, available: ModuleAvailability, outcome: string -> ConnectOutcome,
                       ghost keys0: seq<string>, ghost before: map<string, Driver>,
                       ghost touched: set<string>, ghost created: set<Driver>)
        returns (ghost touched': set<string>, ghost created': set<Driver>)
      requires i < |found| && Valid()
      requires keys == AddedKeys(keys0, found[..i], available)
      requires forall k :: k in touched <==> Touched(found[..i], available, k)
      requires Kept(devices, before, touched) && Owned(devices, touched, created) && Renewed(found[..i], available, outcome)
      modifies this
      ensures Valid()
      ensures keys == AddedKeys(keys0, found[..i + 1], available)
      ensures forall k :: k in touched' <==> Touched(found[..i + 1], available, k)
      ensures Kept(devices, before, touched') && Owned(devices, touched', created') && Renewed(found[..i + 1], available, outcome)
      ensures forall o :: o in created' ==> o in created || fresh(o)
      ensures simulationMode == old(simulationMode) && lastScan == old(lastScan)
      ensures scanning == old(scanning) && running == old(running)
    {
      var d := found[i];
      var key := DeviceKey(d.port, d.slaveId);
      assert found[..i + 1][..i] == found[..i];
      forall k
        ensures Touched(found[..i + 1], available, k) <==>
                  Touched(found[..i], available, k) || (Creates(available, d) && key == k)
      {
        TouchedSnoc(found, available, i, k);
      }
      var driver := CreateDriver(d, available);
      if driver.Some? {
        ghost var devices0 := devices;
        Install(key, driver.value, outcome(key));
        touched' := touched + {key};
        created' := created + {driver.value};
        KeptUpdate(devices0, before, touched, key, driver.value);
        OwnedUpdate(devices0, touched, created, key, driver.value);
        forall k | k in devices && Touched(found[..i + 1], available, k)
          ensures var e := CreatedFrom(found[..i + 1], available, k).value;
                  && devices[k].kind != SimulatorKind
                  && devices[k].kind == SelectKind(e.identification)
                  && devices[k].info == VendorInfo(SelectKind(e.identification), e)
                  && devices[k].State() == InitialState().(status := StatusAfterConnect(outcome(k)))
        {
          CreatedFromSnoc(found, available, i, k);
          if k != key {
            assert devices[k] == devices0[k] && devices0[k] != driver.value;
          }
        }
      } else {
        touched', created' := touched, created;
        forall k | Touched(found[..i + 1], available, k)
          ensures CreatedFrom(found[..i + 1], available, k) == CreatedFrom(found[..i], available, k)
        {
          CreatedFromSnoc(found, available, i, k);
        }
      }
    }

    /**
     * `_connect_to_devices`: each created driver is put under
     * "<port>_<slave id>" before it connects, so a failed connect leaves
     * it in the table and a repeated key replaces the earlier driver.
     */
    method ConnectToDevices(found: seq<Discovered>, available: ModuleAvailability, outcome: string -> ConnectOutcome)
      requires Valid()
      modifies this
      ensures Valid()
      ensures FoundAdded(View(), old(View()), found, available, outcome)
      ensures forall k :: k in devices && Touched(found, available, k) ==> fresh(devices[k])
      ensures simulationMode == old(simulationMode) && lastScan == old(lastScan)
      ensures scanning == old(scanning) && running == old(running)
    {
      var i := 0;
      ghost var touched: set<string> := {};
      ghost var created: set<Driver> := {};
      while i < |found|
        invariant 0 <= i <= |found|
        invariant Valid()
        invariant keys == AddedKeys(old(keys), found[..i], available)
        invariant forall k :: k in touched <==> Touched(found[..i], available, k)
        invariant Kept(devices, old(devices), touched) && Owned(devices, touched, created) && Renewed(found[..i], available, outcome)
        invariant forall o :: o in created ==> fresh(o)
        invariant simulationMode == old(simulationMode) && lastScan == old(lastScan)
        invariant scanning == old(scanning) && running == old(running)
      {
        touched, created := ConnectStep(found, i, available, outcome, old(keys), old(devices), touched, created);
        i := i + 1;
      }
      assert found[..|found|] == found;
    }

    /**
     * The body of `scan_devices` once the "already scanning" guard has
     * passed: if enumerating the ports raises, the simulator is enabled and
     * the error reported, with `last_scan` left alone; otherwise the
     * enumerated ports are scanned.
     */
    method ScanPorts(ports: Result<seq<Rtu.PortInfo>, string>, opener: Rtu.LineOpener, bus: Rtu.RegisterBus,
                     available: ModuleAvailability, outcome: string -> ConnectOutcome,
                     now: real, midnight: real) returns (report: ScanReport)
      requires Valid()
      modifies this
      ensures Valid()
      ensures scanning == old(scanning) && running == old(running)
      ensures Scanned(View(), old(View()), ports, opener, bus, available, outcome, now)
      ensures report == ScanReportFor(ports, opener, bus, simulationMode)
      ensures forall k :: k in devices ==> (k in old(devices) && devices[k] == old(devices)[k]) || fresh(devices[k])
    {
      match ports {
        case Err(message) =>
          EnableSimulationMode(now, midnight);
          report := ScanFailed(message, simulationMode);
        case Ok(enumerated) =>
          report := ScanEnumerated(enumerated, opener, bus, available, outcome, now, midnight);
      }
    }

    /**
     * Scanning the enumerated ports: if no device is found the simulator is
     * enabled, else the found devices are connected; `last_scan` is set.
     */
    method ScanEnumerated(enumerated: seq<Rtu.PortInfo>, opener: Rtu.LineOpener, bus: Rtu.RegisterBus,
                          available: ModuleAvailability, outcome: string -> ConnectOutcome,
                          now: real, midnight: real) returns (report: ScanReport)
      requires Valid()
      modifies this
      ensures Valid()
      ensures scanning == old(scanning) && running == old(running)
      ensures Scanned(View(), old(View()), Ok(enumerated), opener, bus, available, outcome, now)
      ensures report == ScanReportFor(Ok(enumerated), opener, bus, simulationMode)
      ensures forall k :: k in devices ==> (k in old(devices) && devices[k] == old(devices)[k]) || fresh(devices[k])
    {
      var found := Discover(enumerated, opener, bus);
      if |found| == 0 {
        EnableSimulationMode(now, midnight);
      } else {
        ConnectToDevices(found, available, outcome);
        AddedKeysMembers(old(keys), found, available);
      }
      lastScan := Some(now);
      report := ScanCompleted(found, simulationMode);
    }

    /**
     * `scan_devices`. While a scan is running the call reports "scanning"
     * and changes nothing; otherwise it runs `ScanPorts` with the
     * `scanning` flag raised. `simulation_mode` is never reset, and
     * `scanning` is false again on every path.
     */
    method ScanDevices(ports: Result<seq<Rtu.PortInfo>, string>, opener: Rtu.LineOpener, bus: Rtu.RegisterBus,
                       available: ModuleAvailability, outcome: string -> ConnectOutcome,
                       now: real, midnight: real) returns (report: ScanReport)
      requires Valid()
      modifies this
      ensures Valid()
      ensures old(scanning) ==> report == ScanBusy && unchanged(this)
      ensures !old(scanning) ==> && !scanning && running == old(running)
                                 && Scanned(View(), old(View()), ports, opener, bus, available, outcome, now)
                                 && report == ScanReportFor(ports, opener, bus, simulationMode)
      ensures forall k :: k in devices ==> (k in old(devices) && devices[k] == old(devices)[k]) || fresh(devices[k])
    {
      if scanning {
        return ScanBusy;
      }
      scanning := true;
      report := ScanPorts(ports, opener, bus, available, outcome, now, midnight);
      scanning := false;
    }

    /** `start`: marks the manager running and performs the initial scan (the background loops are not part of this model). */
    method Start(ports: Result<seq<Rtu.PortInfo>, string>, opener: Rtu.LineOpener, bus: Rtu.RegisterBus,
                 available: ModuleAvailability, outcome: string -> ConnectOutcome, now: real, midnight: real)
      requires Valid()
      modifies this
      ensures Valid() && running
      ensures old(scanning) ==> scanning && View() == old(View())
      ensures !old(scanning) ==> !scanning && Scanned(View(), old(View()), ports, opener, bus, available, outcome, now)
      ensures forall k :: k in devices ==> (k in old(devices) && devices[k] == old(devices)[k]) || fresh(devices[k])
    {
      running := true;
      var _ := ScanDevices(ports, opener, bus, available, outcome, now, midnight);
    }

    /** Disconnects every driver in the table, leaving the table itself alone. */
    method DisconnectAll()
      requires Valid()
      modifies devices.Values
      ensures Valid()
      ensures forall d :: d in devices.Values ==> d.State() == old(d.State()).(status := Disconnected)
      ensures forall d :: d in devices.Values ==> d.SimState() == old(d.SimState())
    {
      var i := 0;
      while i < |keys|
        invariant 0 <= i <= |keys| && Valid()
        invariant forall k :: k in keys[..i] ==> devices[k].State() == old(devices[k].State()).(status := Disconnected)
        invariant forall k :: k in devices && k !in keys[..i] ==> devices[k].State() == old(devices[k].State())
        invariant forall k :: k in devices ==> devices[k].SimState() == old(devices[k].SimState())
      {
        var key := keys[i];
        assert keys[..i + 1] == keys[..i] + [key];
        devices[key].Disconnect();
        i := i + 1;
      }
      assert keys[..i] == keys;
      forall d | d in devices.Values
        ensures d.State() == old(d.State()).(status := Disconnected)
        ensures d.SimState() == old(d.SimState())
      {
        var k :| k in devices && devices[k] == d;
      }
    }

    /** `stop`: every driver is disconnected and the table is emptied. */
    method Stop()
      requires Valid()
      modifies this, devices.Values
      ensures Valid() && !running && keys == [] && devices == map[]
      ensures forall d :: d in old(devices.Values) ==> d.State() == old(d.State()).(status := Disconnected)
      ensures simulationMode == old(simulationMode) && lastScan == old(lastScan) && scanning == old(scanning)
    {
      running := false;
      DisconnectAll();
      devices := map[];
      keys := [];
    }

    /**
     * One pass of `_data_collection_loop` at time `now` (local hour `hour`):
     * each driver in the table, independently, takes `CollectStep`. The
     * table itself does not change.
     */
    method CollectOnce(now: real, hour: int, inputs: string -> DeviceInput)
      requires Valid() && 0 <= hour <= 23
      modifies devices.Values
      ensures Valid()
      ensures forall k :: k in devices ==>
                SlotOfDriver(devices[k]) == CollectStep(devices[k].kind, devices[k].dayStart, devices[k].dayEnd,
                                                        old(SlotOfDriver(devices[k])), now, hour, inputs(k))
    {
      var i := 0;
      while i < |keys|
        invariant 0 <= i <= |keys| && Valid()
        invariant forall k :: k in keys[..i] ==>
                    SlotOfDriver(devices[k])
                      == CollectStep(devices[k].kind, devices[k].dayStart, devices[k].dayEnd,
                                     old(SlotOfDriver(devices[k])), now, hour, inputs(k))
        invariant forall k :: k in devices && k !in keys[..i] ==> SlotOfDriver(devices[k]) == old(SlotOfDriver(devices[k]))
      {
        var key := keys[i];
        var device := devices[key];
        assert keys[..i + 1] == keys[..i] + [key];
        CollectDevice(device, now, hour, inputs(key));
        i := i + 1;
      }
      assert keys[..i] == keys;
    }

    /** The `devices` part of `get_device_status`: each driver's summary, in table order. */
    method Summaries() returns (r: seq<(string, StatusSummary)>)
      requires Valid()
      ensures |r| == |keys|
      ensures forall i :: 0 <= i < |keys| ==> r[i] == (keys[i], Summary(devices[keys[i]].info, devices[keys[i]].State()))
    {
      r := [];
      var i := 0;
      while i < |keys|
        invariant 0 <= i <= |keys| && |r| == i
        invariant forall j :: 0 <= j < i ==> r[j] == (keys[j], Summary(devices[keys[j]].info, devices[keys[j]].State()))
      {
        var summary := devices[keys[i]].StatusSummary();
        r := r + [(keys[i], summary)];
        i := i + 1;
      }
    }

    /** The `connected_devices` count of `get_device_status`. */
    method ConnectedCount() returns (n: nat)
      requires Valid()
      ensures n == CountConnected(States())
    {
      ghost var states := States();
      n := 0;
      var i := 0;
      while i < |keys|
        invariant 0 <= i <= |keys|
        invariant n == CountConnected(states[..i])
      {
        assert states[..i + 1][..i] == states[..i];
        if devices[keys[i]].status == Connected {
          n := n + 1;
        }
        i := i + 1;
      }
      assert states[..|keys|] == states;
    }

    /**
     * `get_device_status`: one summary per entry in table order; the
     * connected count is the number of Connected drivers.
     */
    method GetDeviceStatus() returns (r: ManagerStatus)
      requires Valid()
      ensures r.totalDevices == |keys|
      ensures r.connectedDevices == CountConnected(States()) && r.connectedDevices <= r.totalDevices
      ensures |r.devices| == |keys|
      ensures forall i :: 0 <= i < |keys| ==> r.devices[i] == (keys[i], Summary(devices[keys[i]].info, States()[i]))
      ensures r.simulationMode == simulationMode && r.lastScan == lastScan && r.scanning == scanning
    {
      var summaries := Summaries();
      var connected := ConnectedCount();
      r := ManagerStatus(simulationMode, |keys|, connected, summaries, lastScan, scanning);
    }

    /** `get_latest_data`: a running maximum over the table in order. */
    method GetLatestData() returns (r: Option<DeviceData>)
      requires Valid()
      ensures r == Latest(Snapshots())
    {
      ghost var snapshots := Snapshots();
      r := None;
      var latest := 0.0;
      var i := 0;
      while i < |keys|
        invariant 0 <= i <= |keys|
        invariant r == Latest(snapshots[..i]) && latest == TimestampOrZero(r)
      {
        var snapshot := devices[keys[i]].lastData;
        assert snapshots[..i + 1][..i] == snapshots[..i];
        if snapshot.Some? && snapshot.value.timestamp > latest {
          r := snapshot;
          latest := snapshot.value.timestamp;
        }
        i := i + 1;
      }
      assert snapshots[..|keys|] == snapshots;
    }

    /**
     * `write_control`: false for an unknown id and for a driver that is not
     * Connected (a never-connected simulator included); otherwise the
     * driver's answer to the command built from the request.
     */
    method WriteControl(deviceId: string, req: ControlRequest, deviceAccepts: DeviceControl -> bool) returns (ok: bool)
      requires Valid()
      ensures ok <==> && deviceId in devices
                      && devices[deviceId].status == Connected
                      && (devices[deviceId].kind == SimulatorKind || deviceAccepts(BuildControl(req)))
    {
      if deviceId !in devices {
        return false;
      }
      var device := devices[deviceId];
      if device.status != Connected {
        return false;
      }
      ok := device.WriteControl(BuildControl(req), deviceAccepts);
    }
  }

  /** Over any number of collection passes, no driver's attempt counter exceeds the retry cap. */
  lemma {:induction false} CollectKeepsRetryCap(kind: DriverKind, dayStart: real, dayEnd: real, s: Slot,
                                                 now: seq<real>, hour: int, inputs: seq<DeviceInput>)
    requires 0 <= hour <= 23 && |inputs| == |now| && s.state.attempts <= MaxRetries
    ensures CollectRun(kind, dayStart, dayEnd, s, now, hour, inputs).state.attempts <= MaxRetries
    decreases |now|
  {
    if |now| > 0 {
      CollectKeepsRetryCap(kind, dayStart, dayEnd, CollectStep(kind, dayStart, dayEnd, s, now[0], hour, inputs[0]),
                           now[1..], hour, inputs[1..]);
    }
  }

  /** One driver across several collection passes. */
  function CollectRun(kind: DriverKind, dayStart: real, dayEnd: real, s: Slot, now: seq<real>, hour: int, inputs: seq<DeviceInput>): Slot
    requires 0 <= hour <= 23 && |inputs| == |now|
    decreases |now|
  {
    if |now| == 0 then s
    else CollectRun(kind, dayStart, dayEnd, CollectStep(kind, dayStart, dayEnd, s, now[0], hour, inputs[0]), now[1..], hour, inputs[1..])
  }
}
