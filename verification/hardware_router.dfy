/**
 * The hardware API handlers that read or edit the device manager's table:
 * listing and looking up devices (an unknown id is a 404), writing control
 * settings, reconnecting one device, and switching simulation mode on and
 * off by editing the table directly.
 */
module HardwareRouter {
  import opened Wrappers
  import opened DeviceTypes
  import DictOrder
  import opened Drivers
  import DM = DeviceManager
  import Rtu = ModbusRtu

  /** The one failure these handlers answer themselves: HTTP 404, "Device not found". */
  datatype Failure = NotFound

  /** Whether the handler answered "success" or "error". */
  datatype Outcome = Succeeded | Failed

  /** One entry of the `get_devices` listing. */
  datatype Listing = Listing(
    id: string,
    name: string,
    manufacturer: string,
    model: string,
    status: DeviceStatus,
    connected: bool,
    protocol: string,
    connectionString: string,
    lastError: Option<string>,
    lastData: Option<real>)

  /** The body of a `get_devices` answer. */
  datatype DevicesReport = DevicesReport(
    simulationMode: bool,
    totalDevices: nat,
    connectedDevices: nat,
    devices: seq<Listing>)

  /** The `device` part of a `get_device` answer. */
  datatype Detail = Detail(
    id: string,
    name: string,
    manufacturer: string,
    model: string,
    serialNumber: string,
    firmwareVersion: string,
    deviceType: DeviceType,
    protocol: string,
    connectionString: string,
    status: DeviceStatus,
    connected: bool,
    lastError: Option<string>,
    attempts: nat,
    lastData: Option<real>)

  /** What `get_device_data` answers for a known id. */
  datatype DataAnswer = NoData | Snapshot(deviceId: string, data: DeviceData)

  /** The timestamp of the last snapshot, if any. */
  function Stamp(d: Option<DeviceData>): Option<real>
  {
    if d.Some? then Some(d.value.timestamp) else None
  }

  /** The listing entry of the driver stored under `id`. */
  function ListingOf(id: string, info: DeviceInfo, s: DriverState): Listing
  {
    Listing(id, info.name, info.manufacturer, info.model, s.status, s.status == Connected,
            info.protocol, info.connectionString, s.lastError, Stamp(s.lastData))
  }

  /**
   * A listing entry says exactly what the driver's own status summary says,
   * field for field, with the table key added.
   */
  lemma ListingAgreesWithSummary(id: string, info: DeviceInfo, s: DriverState)
    ensures var l, sum := ListingOf(id, info, s), Summary(info, s);
            && l.id == id && l.name == sum.name && l.manufacturer == sum.manufacturer && l.model == sum.model
            && l.status == sum.status && l.connected == sum.connected && l.lastError == sum.lastError
            && l.lastData == sum.lastData && l.protocol == sum.protocol
            && l.connectionString == sum.connectionString
  {
  }

  /**
   * `get_devices`: one entry per table entry, in table order; the total is
   * the number of entries and the connected count the number of entries
   * whose listing says connected.
   */
  method GetDevices(m: DM.DeviceManager) returns (r: DevicesReport)
    requires m.Valid()
    ensures r.simulationMode == m.simulationMode
    ensures |r.devices| == r.totalDevices == |m.keys| == |m.devices|
    ensures forall i :: 0 <= i < |m.keys| ==>
              r.devices[i] == ListingOf(m.keys[i], m.devices[m.keys[i]].info, m.devices[m.keys[i]].State())
    ensures r.connectedDevices == DM.CountConnected(m.States()) <= r.totalDevices
  {
    var listings := ListDevices(m);
    var connected := CountListed(listings, m.States());
    DictOrder.DistinctCount(m.keys, m.devices.Keys);
    r := DevicesReport(m.simulationMode, |listings|, connected, listings);
  }

  /** The listing loop of `get_devices`: one entry per key, in table order. */
  method ListDevices(m: DM.DeviceManager) returns (listings: seq<Listing>)
    requires m.Valid()
    ensures |listings| == |m.keys|
    ensures forall i :: 0 <= i < |m.keys| ==>
              listings[i] == ListingOf(m.keys[i], m.devices[m.keys[i]].info, m.devices[m.keys[i]].State())
  {
    listings := [];
    var i := 0;
    while i < |m.keys|
      invariant 0 <= i <= |m.keys| && |listings| == i
      invariant forall j :: 0 <= j < i ==>
                  listings[j] == ListingOf(m.keys[j], m.devices[m.keys[j]].info, m.devices[m.keys[j]].State())
    {
      var device := m.devices[m.keys[i]];
      listings := listings + [Listing(m.keys[i], device.info.name, device.info.manufacturer, device.info.model,
                                      device.status, device.status == Connected, device.info.protocol,
                                      device.info.connectionString, device.lastError, Stamp(device.lastData))];
      i := i + 1;
    }
  }

  /** The connected count of `get_devices`: the entries whose listing says connected. */
  method CountListed(listings: seq<Listing>, ghost states: seq<DriverState>) returns (connected: nat)
    requires |states| == |listings|
    requires forall i :: 0 <= i < |listings| ==> listings[i].connected == (states[i].status == Connected)
    ensures connected == DM.CountConnected(states)
  {
    connected := 0;
    var i := 0;
    while i < |listings|
      invariant 0 <= i <= |listings|
      invariant connected == DM.CountConnected(states[..i])
    {
      assert states[..i + 1][..i] == states[..i];
      if listings[i].connected {
        connected := connected + 1;
      }
      i := i + 1;
    }
    assert states[..i] == states;
  }

  /** `get_device`: 404 for an unknown id, else the driver's details. */
  function GetDevice(m: DM.DeviceManager, id: string): (r: Result<Detail, Failure>)
    reads m, m.devices.Values
    ensures r.Err? <==> id !in m.devices
    ensures r.Ok? ==> && r.value.id == id
                      && r.value.status == m.devices[id].status
                      && (r.value.connected <==> m.devices[id].status == Connected)
                      && r.value.attempts == m.devices[id].connectionAttempts
                      && r.value.lastData == Stamp(m.devices[id].lastData)
                      && r.value.lastError == m.devices[id].lastError
    ensures r.Ok? ==> var info := m.devices[id].info;
                      && r.value.name == info.name && r.value.manufacturer == info.manufacturer
                      && r.value.model == info.model && r.value.serialNumber == info.serialNumber
                      && r.value.firmwareVersion == info.firmwareVersion && r.value.deviceType == info.deviceType
                      && r.value.protocol == info.protocol && r.value.connectionString == info.connectionString
  {
    if id !in m.devices then Err(NotFound)
    else
      var d := m.devices[id];
      Ok(Detail(id, d.info.name, d.info.manufacturer, d.info.model, d.info.serialNumber, d.info.firmwareVersion,
                d.info.deviceType, d.info.protocol, d.info.connectionString, d.status, d.status == Connected,
                d.lastError, d.connectionAttempts, Stamp(d.lastData)))
  }

  /** `get_device_data`: 404 for an unknown id, "no_data" without a snapshot, else the snapshot. */
  function GetDeviceData(m: DM.DeviceManager, id: string): (r: Result<DataAnswer, Failure>)
    reads m, m.devices.Values
    ensures r.Err? <==> id !in m.devices
    ensures r == Ok(NoData) <==> id in m.devices && m.devices[id].lastData.None?
    ensures r.Ok? && r.value.Snapshot? ==> id in m.devices && r.value == Snapshot(id, m.devices[id].lastData.value)
  {
    if id !in m.devices then Err(NotFound)
    else if m.devices[id].lastData.None? then Ok(NoData)
    else Ok(Snapshot(id, m.devices[id].lastData.value))
  }

  /**
   * `write_device_control`: 404 for an unknown id; otherwise "success"
   * exactly when the manager's `write_control` accepts.
   */
  method WriteDeviceControl(m: DM.DeviceManager, id: string, req: DM.ControlRequest,
                            deviceAccepts: DeviceControl -> bool) returns (r: Result<Outcome, Failure>)
    requires m.Valid()
    ensures r.Err? <==> id !in m.devices
    ensures r == Ok(Succeeded) <==>
              && id in m.devices
              && m.devices[id].status == Connected
              && (m.devices[id].kind == SimulatorKind || deviceAccepts(DM.BuildControl(req)))
  {
    if id !in m.devices {
      return Err(NotFound);
    }
    var ok := m.WriteControl(id, req, deviceAccepts);
    r := if ok then Ok(Succeeded) else Ok(Failed);
  }

  /**
   * `reconnect_device`: 404 for an unknown id; otherwise one
   * `auto_reconnect` of that driver, answered "success" exactly when it
   * returned true. No other driver and not the table change.
   */
  method ReconnectDevice(m: DM.DeviceManager, id: string, outcome: ConnectOutcome) returns (r: Result<Outcome, Failure>)
    requires m.Valid()
    modifies if id in m.devices then {m.devices[id]} else {}
    ensures m.Valid()
    ensures r.Err? <==> id !in m.devices
    ensures id in m.devices ==>
              var step := ReconnectStep(old(m.devices[id].State()), EffectiveConnect(m.devices[id].kind, outcome));
              && m.devices[id].State() == step.0
              && (r == Ok(Succeeded) <==> step.1)
    ensures id in m.devices ==> m.devices[id].SimState() == old(m.devices[id].SimState())
    ensures forall k :: k in m.devices && k != id ==> m.devices[k].State() == old(m.devices[k].State())
    ensures forall k :: k in m.devices && k != id ==> m.devices[k].SimState() == old(m.devices[k].SimState())
  {
    if id !in m.devices {
      return Err(NotFound);
    }
    var device := m.devices[id];
    assert forall k :: k in m.devices && k != id ==> m.devices[k] != device by {
      forall k | k in m.devices && k != id
        ensures m.devices[k] != device
      {
        assert m.owner[m.devices[k]] == k;
      }
    }
    var ok := device.AutoReconnect(outcome);
    r := if ok then Ok(Succeeded) else Ok(Failed);
  }

  /**
   * `enable_simulation`: every driver is disconnected, the table is
   * cleared and the simulator enabled, so the table then holds the
   * simulator alone.
   */
  method EnableSimulation(m: DM.DeviceManager, now: real, midnight: real)
    requires m.Valid()
    modifies m, m.devices.Values
    ensures m.Valid() && m.simulationMode
    ensures m.keys == [DM.SimulatorKey] && m.devices.Keys == {DM.SimulatorKey}
    ensures fresh(m.devices[DM.SimulatorKey]) && m.devices[DM.SimulatorKey].kind == SimulatorKind
    ensures m.devices[DM.SimulatorKey].State() == InitialState().(status := Connected)
    ensures forall d :: d in old(m.devices.Values) ==> d.State() == old(d.State()).(status := Disconnected)
    ensures m.lastScan == old(m.lastScan) && m.scanning == old(m.scanning) && m.running == old(m.running)
  {
    m.DisconnectAll();
    m.devices := map[];
    m.keys := [];
    m.EnableSimulationMode(now, midnight);
  }

  /** The keys of the simulation drivers in a table. */
  function SimulationKeys(devices: map<string, Driver>): (r: set<string>)
    ensures forall k :: k in r <==> k in devices && devices[k].info.deviceType == SimulationType
  {
    set k | k in devices && devices[k].info.deviceType == SimulationType
  }

  /**
   * One iteration of `disable_simulation`'s clearing loop: a simulation
   * driver is disconnected and its entry deleted (the other entries keep
   * their order); any other entry is left alone.
   */
  method DropIfSimulation(m: DM.DeviceManager, id: string)
    requires m.Valid() && id in m.devices
    modifies m, m.devices[id]
    ensures m.Valid()
    ensures var d := old(m.devices[id]);
            if d.info.deviceType == SimulationType then
              && m.devices == old(m.devices) - {id} && m.keys == DictOrder.Remove(old(m.keys), id)
              && d.State() == old(d.State()).(status := Disconnected)
            else
              m.devices == old(m.devices) && m.keys == old(m.keys) && d.State() == old(d.State())
    ensures m.owner == old(m.owner) && m.simulationMode == old(m.simulationMode)
    ensures m.lastScan == old(m.lastScan) && m.scanning == old(m.scanning) && m.running == old(m.running)
  {
    var device := m.devices[id];
    if device.info.deviceType == SimulationType {
      device.Disconnect();
      m.devices := m.devices - {id};
      m.keys := DictOrder.Remove(m.keys, id);
    }
  }

  /**
   * The clearing loop of `disable_simulation`: over a snapshot of the
   * keys, every simulation entry is disconnected and deleted; every other
   * entry stays, in its order, with its driver untouched.
   */
  method RemoveSimulators(m: DM.DeviceManager)
    requires m.Valid()
    modifies m, m.devices.Values
    ensures m.Valid()
    ensures m.keys == DictOrder.Filter(old(m.keys), SimulationKeys(old(m.devices)))
    ensures m.devices == old(m.devices) - SimulationKeys(old(m.devices))
    ensures StatesIn(old(m.devices)) == MarkDisconnected(old(StatesIn(m.devices)), SimulationKeys(old(m.devices)))
    ensures m.simulationMode == old(m.simulationMode)
    ensures m.lastScan == old(m.lastScan) && m.scanning == old(m.scanning) && m.running == old(m.running)
  {
    ghost var before := m.devices;
    ghost var sims := SimulationKeys(before);
    ghost var states := StatesIn(before);
    var ks := m.keys;
    Started(ks, before, sims, states);
    ClearLoop(m, ks, before, sims, states, m.owner);
    Cleared(m.keys, m.devices, StatesIn(before), ks, before, sims, states);
  }

  /** The loop itself: from the start of the snapshot `ks` to its end. */
  method ClearLoop(m: DM.DeviceManager, ks: seq<string>, ghost before: map<string, Driver>, ghost sims: set<string>,
                   ghost states: map<string, DriverState>, ghost owner: map<Driver, string>)
    requires m.Valid() && m.owner == owner && Injective(before, owner)
    requires Progress(m.keys, m.devices, StatesIn(before), ks, 0, before, sims, states)
    modifies m, before.Values
    ensures m.Valid() && Progress(m.keys, m.devices, StatesIn(before), ks, |ks|, before, sims, states)
    ensures m.simulationMode == old(m.simulationMode)
    ensures m.lastScan == old(m.lastScan) && m.scanning == old(m.scanning) && m.running == old(m.running)
  {
    var i := 0;
    while i < |ks|
      invariant 0 <= i <= |ks| && m.Valid()
      invariant m.owner == owner
      invariant Progress(m.keys, m.devices, StatesIn(before), ks, i, before, sims, states)
      invariant m.simulationMode == old(m.simulationMode)
      invariant m.lastScan == old(m.lastScan) && m.scanning == old(m.scanning) && m.running == old(m.running)
    {
      RemoveStep(m, ks, i, before, sims, states, owner);
      i := i + 1;
    }
  }

  /** Before the clearing loop has passed any key, nothing is deleted. */
  lemma {:induction false} Started(ks: seq<string>, before: map<string, Driver>, sims: set<string>, states: map<string, DriverState>)
    requires DictOrder.Distinct(ks) && (forall k :: k in ks <==> k in before)
    requires sims == SimulationKeys(before) && states.Keys == before.Keys
    ensures Progress(ks, before, MarkDisconnected(states, {}), ks, 0, before, sims, states)
    ensures MarkDisconnected(states, {}) == states
  {
    NothingPassed(ks, sims);
    DictOrder.FilterAbsent(ks, {});
    assert before - {} == before;
    NothingMarked(states);
  }

  lemma NothingPassed(ks: seq<string>, sims: set<string>)
    ensures Passed(ks[..0], sims) == {}
  {
    assert ks[..0] == [];
  }

  lemma NothingMarked(states: map<string, DriverState>)
    ensures MarkDisconnected(states, {}) == states
  {
    forall k | k in states
      ensures MarkDisconnected(states, {})[k] == states[k]
    {
    }
  }

  /** Once the clearing loop has passed every key, exactly the simulation entries are gone. */
  lemma {:induction false} Cleared(keys: seq<string>, devices: map<string, Driver>, current: map<string, DriverState>,
                ks: seq<string>, before: map<string, Driver>, sims: set<string>, states: map<string, DriverState>)
    requires Progress(keys, devices, current, ks, |ks|, before, sims, states)
    ensures keys == DictOrder.Filter(ks, sims) && devices == before - sims
    ensures current == MarkDisconnected(states, sims)
  {
    assert ks[..|ks|] == ks;
    assert Passed(ks, sims) == sims;
  }

  /** The simulation keys among `ks`: those the clearing loop has deleted once it has passed `ks`. */
  function Passed(ks: seq<string>, sims: set<string>): set<string>
  {
    set k | k in ks && k in sims
  }

  /** The state of every driver in a table. */
  ghost function StatesIn(devices: map<string, Driver>): (r: map<string, DriverState>)
    reads devices.Values
    ensures r.Keys == devices.Keys
  {
    map k | k in devices :: devices[k].State()
  }

  /** `states` with the drivers under the keys in `gone` marked disconnected. */
  function MarkDisconnected(states: map<string, DriverState>, gone: set<string>): (r: map<string, DriverState>)
    ensures r.Keys == states.Keys
  {
    map k | k in states :: if k in gone then states[k].(status := Disconnected) else states[k]
  }

  /**
   * The clearing loop's invariant once it has passed `ks[..i]`, for a loop
   * that started from the table `before` (keys `ks`, driver states
   * `states`, simulation keys `sims`).
   */
  ghost predicate Progress(keys: seq<string>, devices: map<string, Driver>, current: map<string, DriverState>,
                           ks: seq<string>, i: nat, before: map<string, Driver>, sims: set<string>,
                           states: map<string, DriverState>)
  {
    && i <= |ks| && DictOrder.Distinct(ks)
    && sims == SimulationKeys(before) && (forall k :: k in ks <==> k in before) && states.Keys == before.Keys
    && keys == DictOrder.Filter(ks, Passed(ks[..i], sims))
    && devices == before - Passed(ks[..i], sims)
    && current == MarkDisconnected(states, Passed(ks[..i], sims))
  }

  /** `owner` names the key of every driver in `before`: no driver sits under two keys. */
  ghost predicate Injective(before: map<string, Driver>, owner: map<Driver, string>)
  {
    forall k :: k in before ==> before[k] in owner && owner[before[k]] == k
  }

  /** `RemoveSimulators`' loop body, carrying its invariant one key further. */
  method RemoveStep(m: DM.DeviceManager, ks: seq<string>, i: nat, ghost before: map<string, Driver>, ghost sims: set<string>,
                    ghost states: map<string, DriverState>, ghost owner: map<Driver, string>)
    requires m.Valid() && m.owner == owner && Injective(before, owner)
    requires i < |ks| && Progress(m.keys, m.devices, StatesIn(before), ks, i, before, sims, states)
    modifies m, before[ks[i]]
    ensures m.Valid() && m.owner == owner
    ensures Progress(m.keys, m.devices, StatesIn(before), ks, i + 1, before, sims, states)
    ensures m.simulationMode == old(m.simulationMode)
    ensures m.lastScan == old(m.lastScan) && m.scanning == old(m.scanning) && m.running == old(m.running)
  {
    var id := ks[i];
    DeleteStep(ks, i, sims);
    ghost var keys, devices, current := m.keys, m.devices, StatesIn(before);
    DropStep(m, id, before, owner);
    ProgressStep(keys, devices, current, m.keys, m.devices, StatesIn(before), ks, i, before, sims, states);
  }

  /** `DropIfSimulation` seen from the table `before` the loop started from. */
  method DropStep(m: DM.DeviceManager, id: string, ghost before: map<string, Driver>, ghost owner: map<Driver, string>)
    requires m.Valid() && m.owner == owner && Injective(before, owner)
    requires id in m.devices && id in before && m.devices[id] == before[id]
    modifies m, before[id]
    ensures m.Valid() && m.owner == owner
    ensures before[id].info.deviceType == SimulationType ==>
              && m.keys == DictOrder.Remove(old(m.keys), id) && m.devices == old(m.devices) - {id}
              && StatesIn(before) == old(StatesIn(before))[id := old(StatesIn(before))[id].(status := Disconnected)]
    ensures before[id].info.deviceType != SimulationType ==>
              m.keys == old(m.keys) && m.devices == old(m.devices) && StatesIn(before) == old(StatesIn(before))
    ensures m.simulationMode == old(m.simulationMode)
    ensures m.lastScan == old(m.lastScan) && m.scanning == old(m.scanning) && m.running == old(m.running)
  {
    ghost var current := StatesIn(before);
    ghost var d := before[id];
    DropIfSimulation(m, id);
    forall k | k in before
      ensures StatesIn(before)[k] == current[id := d.State()][k]
    {
      if k != id {
        assert before[k] != d;
      }
    }
  }

  /**
   * The step for `ks[i]` deletes a simulation entry, marking its driver
   * disconnected, and leaves any other entry alone; either way the
   * invariant moves past `ks[i]`.
   */
  lemma {:induction false} ProgressStep(keys: seq<string>, devices: map<string, Driver>, current: map<string, DriverState>,
                     keys': seq<string>, devices': map<string, Driver>, current': map<string, DriverState>,
                     ks: seq<string>, i: nat, before: map<string, Driver>, sims: set<string>, states: map<string, DriverState>)
    requires i < |ks| && Progress(keys, devices, current, ks, i, before, sims, states)
    requires ks[i] in sims ==>
               keys' == DictOrder.Remove(keys, ks[i]) && devices' == devices - {ks[i]}
               && current' == current[ks[i] := current[ks[i]].(status := Disconnected)]
    requires ks[i] !in sims ==> keys' == keys && devices' == devices && current' == current
    ensures Progress(keys', devices', current', ks, i + 1, before, sims, states)
  {
    var id := ks[i];
    DeleteStep(ks, i, sims);
    if id in sims {
      MinusStep(before, Passed(ks[..i], sims), id);
      assert current' == MarkDisconnected(states, Passed(ks[..i + 1], sims)) by {
        forall k | k in states
          ensures current'[k] == MarkDisconnected(states, Passed(ks[..i + 1], sims))[k]
        {
          assert k in current;
          if k == id {
            assert id !in Passed(ks[..i], sims);
          }
        }
      }
    }
  }

  /** The deleted keys after the clearing loop's step for `ks[i]`, and the key order that step leaves. */
  lemma {:induction false} DeleteStep(ks: seq<string>, i: nat, sims: set<string>)
    requires i < |ks| && DictOrder.Distinct(ks)
    ensures ks[i] !in Passed(ks[..i], sims)
    ensures ks[i] !in sims ==> Passed(ks[..i + 1], sims) == Passed(ks[..i], sims)
    ensures ks[i] in sims ==> Passed(ks[..i + 1], sims) == Passed(ks[..i], sims) + {ks[i]}
    ensures ks[i] in sims ==>
              DictOrder.Remove(DictOrder.Filter(ks, Passed(ks[..i], sims)), ks[i]) == DictOrder.Filter(ks, Passed(ks[..i + 1], sims))
  {
    var id := ks[i];
    assert ks[..i + 1] == ks[..i] + [id];
    DictOrder.DistinctNotBefore(ks, i);
    DictOrder.FilterFilter(ks, Passed(ks[..i], sims), {id});
  }

  lemma {:induction false} MinusStep(before: map<string, Driver>, gone: set<string>, id: string)
    ensures (before - gone) - {id} == before - (gone + {id})
  {
  }

  /**
   * `disable_simulation`: every simulation entry is disconnected and
   * deleted, `simulation_mode` is set false, and a scan follows. If that
   * scan finds nothing (or enumerating the ports fails) the scan itself
   * enables the simulator again; if a scan is already running, nothing is
   * rescanned and simulation mode stays off.
   */
  method DisableSimulation(m: DM.DeviceManager, ports: Result<seq<Rtu.PortInfo>, string>, opener: Rtu.LineOpener,
                           bus: Rtu.RegisterBus, available: DM.ModuleAvailability, outcome: string -> ConnectOutcome,
                           now: real, midnight: real)
    requires m.Valid()
    modifies m, m.devices.Values
    ensures m.Valid()
    ensures forall k :: k in old(m.devices) && k in SimulationKeys(old(m.devices)) ==>
              old(m.devices)[k].State() == old(m.devices[k].State()).(status := Disconnected)
    ensures forall k :: k in old(m.devices) && k !in SimulationKeys(old(m.devices)) ==>
              old(m.devices)[k].State() == old(m.devices[k].State())
    ensures var sims := SimulationKeys(old(m.devices));
            var cleared := DM.TableView(DictOrder.Filter(old(m.keys), sims), old(m.devices) - sims, false, old(m.lastScan));
            && (old(m.scanning) ==> m.View() == cleared)
            && (!old(m.scanning) ==> DM.Scanned(m.View(), cleared, ports, opener, bus, available, outcome, now))
    ensures forall k :: k in m.devices ==>
              || (k in old(m.devices) && k !in SimulationKeys(old(m.devices)) && m.devices[k] == old(m.devices)[k])
              || fresh(m.devices[k])
  {
    RemoveSimulators(m);
    Rescan(m, ports, opener, bus, available, outcome, now, midnight);
  }

  /** The tail of `disable_simulation`: simulation mode off, then a scan. */
  method Rescan(m: DM.DeviceManager, ports: Result<seq<Rtu.PortInfo>, string>, opener: Rtu.LineOpener,
                bus: Rtu.RegisterBus, available: DM.ModuleAvailability, outcome: string -> ConnectOutcome,
                now: real, midnight: real)
    requires m.Valid()
    modifies m
    ensures m.Valid()
    ensures old(m.scanning) ==> m.View() == old(m.View()).(simulationMode := false)
    ensures !old(m.scanning) ==> DM.Scanned(m.View(), old(m.View()).(simulationMode := false), ports, opener, bus, available, outcome, now)
    ensures forall k :: k in m.devices ==> (k in old(m.devices) && m.devices[k] == old(m.devices)[k]) || fresh(m.devices[k])
  {
    m.simulationMode := false;
    var _ := m.ScanDevices(ports, opener, bus, available, outcome, now, midnight);
  }
}
