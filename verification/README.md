# Solar Sync hardware layer and services, modelled in Dafny

Solar Sync is a home solar-monitoring back end. This project models the
parts of it that make decisions:

- the **driver life cycle** shared by all inverter drivers: connect, health
  check, the bounded auto-reconnect with its retry "breaker", and the status
  summary;
- the **simulation driver** that stands in for real hardware: a solar bell
  curve, load periods, a battery whose state of charge (SOC) is clamped to a
  band, and efficiency;
- **Modbus RTU discovery**: the register client, RS485 adapter matching by
  USB vendor and product id, the baud-rate and slave-id scan, and device
  identification from holding registers;
- the **device manager**: its device table in Python dict insertion order,
  the scan with its fallback to simulation mode, driver creation, data
  collection, status, latest data and control writes;
- the **hardware router**'s edits of that table: listing, detail, data,
  control, reconnect, and enabling or disabling simulation;
- the development **data simulator** and its setters;
- the **chart data service**: time ranges, power flow, battery performance
  with half-cycle counting, and energy summaries;
- the **data export service**, which builds CSV tables;
- the **settings router**, which is CRUD over configuration keys.

Every module stands alone apart from the imports listed here:

- `Wrappers` holds Option and Result.
- `Text` holds the string helpers.
- `Numeric` holds Python's `int()`, `min`, `max` and the clamp idiom on floats.
- `DictOrder` models the key order of a Python dict under assignment and `del`.

Effects become parameters, with one oracle per unknown:

- the clock;
- random draws: a `Draws` record whose ranges `ValidDraws` states;
- the serial bus;
- the vendor drivers' answers;
- the database queries.

Stateful objects are classes with `modifies` frames:

- `Drivers.Driver`
- `ModbusRtu.ModbusClient`
- `DeviceManager.DeviceManager`
- `DataSimulator.SolarDataSimulator`
- `SettingsRouter.SettingsStore`

Most class methods are proved against a pure function of the old state,
and the lemmas are stated about those functions. The scan family
(`ScanEnumerated`, `ScanPorts`, `ScanDevices`, `Start`) and the router's
`Rescan` and `DisableSimulation` are stated instead by predicates relating
the new table to the old one. `SimulatorAdded`, `FoundAdded` and `Scanned`
give the keys, the mode, the scan time and the driver under every key (for
a found device: its family, its device information and its status), and
every driver that is not the old one under its key is new.

## Model

| member | source | states |
|---|---|---|
| Drivers.HealthCheckStep | app/hardware/drivers/base_driver.py:115-145 | responding makes the driver Connected and clears the error; not responding makes it Error with the report "Device not responding"; a raised probe makes it Error and records the exception text; attempts and data are untouched |
| Drivers.ReconnectStep | app/hardware/drivers/base_driver.py:147-175 | a Connected or Connecting driver answers true and does nothing; any other driver whose attempts reached the retry limit answers false and does nothing; otherwise the answer is the connect outcome, the status becomes Connected or Error, attempts reset to 0 on success and grow by one otherwise, and only a raised connect replaces the error |
| Drivers.Summary | app/hardware/drivers/base_driver.py:177-190 | `connected` holds exactly when the status is Connected; status, error and attempts are copied; `last_data` is the data's timestamp, or absent when there is no data |
| Drivers.AttemptsStayCapped | app/hardware/drivers/base_driver.py:147-175 | over any sequence of health checks and reconnects, attempts never exceed the retry limit if they start within it |
| Drivers.FreshDriverCapped | app/hardware/drivers/base_driver.py:77-83 | a new driver never exceeds the retry limit, whatever happens to it |
| Drivers.BreakerLatches | app/hardware/drivers/base_driver.py:151-153 | once the limit is reached while not Connected or Connecting, any number of reconnects leaves the state unchanged, whatever the device answers |
| Drivers.ConnectedWithStaleError | app/hardware/drivers/base_driver.py:160-167 | a reconnect that raised and then one that succeeded leave a Connected driver that still carries the old error text, because the success path does not clear `last_error` |
| Drivers.Driver.Vendor | app/hardware/drivers/base_driver.py:77-83 | a vendor driver starts Disconnected, with no error, no data and zero attempts |
| Drivers.Driver.Simulator | app/hardware/simulation/simulator.py:21-37 | a simulation driver starts in Simulation status at 75% SOC, with a 06:00–18:00 day window around the clock's midnight |
| Drivers.Driver.Connect | app/hardware/simulation/simulator.py:39-43 | the simulator always connects; a vendor driver's answer sets Connected or Error, and a raised connect leaves the status unchanged and reports the error |
| Drivers.Driver.Disconnect | app/hardware/simulation/simulator.py:45-48 | only the status changes, to Disconnected |
| Drivers.Driver.HealthCheck | app/hardware/drivers/base_driver.py:115-145 | the new state and the report are `HealthCheckStep` of the old state; a simulator always responds |
| Drivers.Driver.AutoReconnect | app/hardware/drivers/base_driver.py:147-175 | the new state and the answer are `ReconnectStep` of the old state |
| Drivers.Driver.WriteControl | app/hardware/simulation/simulator.py:91-95 | the simulator accepts every command; a vendor driver reports what the device answers |
| Drivers.Driver.ReadSimulated | app/hardware/simulation/simulator.py:50-89 | the reading is `SimulatedReading` from the time since the last update; it becomes `last_data`, the clock is stored, and the SOC stays in band when the clock does not go back |
| SimulationModel.SolarPower | app/hardware/simulation/simulator.py:105-131 | never negative; zero outside the day window; at most 110% of the 5 kW peak plus 50 W |
| SimulationModel.LoadPeriodOf | app/hardware/simulation/simulator.py:138-148 | morning peak exactly for hours 7–9, evening peak for 18–22, night for hour 23 or hours up to 6, plain daytime otherwise |
| SimulationModel.LoadPower | app/hardware/simulation/simulator.py:133-153 | never negative, and at most 1.8 times the 800 W base plus 200 W |
| SimulationModel.SocChangeNonNegative | app/hardware/simulation/simulator.py:165 | the SOC change of a non-negative power over a non-negative time is non-negative |
| SimulationModel.BatteryStep | app/hardware/simulation/simulator.py:155-182 | charging (at most 2 kW) happens exactly on surplus below 95%, and discharging (at most 3 kW) exactly on deficit above 20%; the SOC moves by the energy and is clamped to [20, 95], and is unchanged when idle |
| SimulationModel.Efficiency | app/hardware/simulation/simulator.py:184-200 | zero without solar; always in [0, 100]; in [83, 92] with solar; at least 88 in the 30–70% power band; at most 87 above it |
| SimulationModel.SimulatedReading | app/hardware/simulation/simulator.py:50-89 | grid power is load minus solar minus battery; no solar or efficiency at night; the SOC stays in band; the voltage is 48 V ± 0.5; there is no error code |
| SimulationModel.SocStaysInBand | app/hardware/simulation/simulator.py:161-173 | over any run of readings with a clock that does not go back, the SOC stays in [20, 95] |
| SimulationModel.SocLeavesBandWhenClockGoesBack | app/hardware/simulation/simulator.py:52-53 | when the clock goes backwards the elapsed time is negative, so a charging step can push the SOC below 20% |
| ModbusRtu.ModbusClient.constructor | app/hardware/protocols/modbus_rtu.py:19-24 | a new client holds its port, baud rate and timeout; it has no serial client and is not connected |
| ModbusRtu.ModbusClient.Connect | app/hardware/protocols/modbus_rtu.py:26-48 | succeeds exactly when the port opens; a constructor failure leaves no client |
| ModbusRtu.ModbusClient.Disconnect | app/hardware/protocols/modbus_rtu.py:50-55 | the client is no longer connected |
| ModbusRtu.ModbusClient.ReadHoldingRegisters | app/hardware/protocols/modbus_rtu.py:57-71 | returns nothing unless connected; otherwise returns the bus's answer to exactly this request |
| ModbusRtu.ModbusClient.ReadInputRegisters | app/hardware/protocols/modbus_rtu.py:73-87 | returns nothing unless connected; otherwise the bus's answer to a read-input-registers (function 0x04) request at that slave, address and count |
| ModbusRtu.ModbusClient.WriteRegister | app/hardware/protocols/modbus_rtu.py:89-103 | succeeds exactly when connected and the device accepts one register at that address |
| ModbusRtu.ModbusClient.WriteRegisters | app/hardware/protocols/modbus_rtu.py:105-119 | succeeds exactly when connected and the device accepts all the values |
| ModbusRtu.ModbusClient.TestConnection | app/hardware/protocols/modbus_rtu.py:121-133 | true exactly when one holding register at address 0 reads back |
| ModbusRtu.FirstMatchIsFirst | app/hardware/protocols/modbus_rtu.py:175-186 | the chosen catalog entry matches the port's vendor and product id, and no earlier entry matches |
| ModbusRtu.LookupAdapter | app/hardware/protocols/modbus_rtu.py:175-186 | the loop with `break` finds `FirstMatch` |
| ModbusRtu.FindRs485Adapters | app/hardware/protocols/modbus_rtu.py:157-188 | the adapters are `Adapters(ports)`, at most one per port and in port order |
| ModbusRtu.NeverGrowattAdapter | app/hardware/protocols/modbus_rtu.py:169-171 | "Growatt USB Adapter" is never reported: it has the same ids as CH340, which comes first |
| ModbusRtu.AdapterForIff | app/hardware/protocols/modbus_rtu.py:174-186 | a port yields an adapter exactly when some catalog entry matches it, and never more than one |
| ModbusRtu.AdaptersShape | app/hardware/protocols/modbus_rtu.py:157-188 | no more adapters than ports; none named Growatt; each comes from a listed port with its vendor id |
| ModbusRtu.PrintableAscii | app/hardware/protocols/modbus_rtu.py:245 | at most one character per register, and every character is in 32–126 |
| ModbusRtu.PrintableAsciiAppend | app/hardware/protocols/modbus_rtu.py:245 | the text of two register runs is the text of the first followed by the text of the second, so register order is kept |
| ModbusRtu.PrintableAsciiOne | app/hardware/protocols/modbus_rtu.py:245 | one register gives its character exactly when it is in 32–126, and nothing otherwise |
| ModbusRtu.Take5 | app/hardware/protocols/modbus_rtu.py:250 | the first five registers, or all of them if there are fewer |
| ModbusRtu.IdentifyFromFirstUsable | app/hardware/protocols/modbus_rtu.py:239-264 | the identity comes from the first window whose read returned a non-zero register; there is none when no window did |
| ModbusRtu.WindowReads | app/hardware/protocols/modbus_rtu.py:233-241 | three reads of 10 registers, at 0x0000, 0x0100 and 0x0200 |
| ModbusRtu.IdentifyDevice | app/hardware/protocols/modbus_rtu.py:226-268 | the identification is `IdentifyFrom` of the window reads |
| ModbusRtu.Range | app/hardware/protocols/modbus_rtu.py:196 | Python `range(lo, hi)` as a sequence |
| ModbusRtu.DefaultSlaveIdsRange | app/hardware/protocols/modbus_rtu.py:196 | the default slave ids are exactly 1..247, in increasing order |
| ModbusRtu.FirstFoundIsFirst | app/hardware/protocols/modbus_rtu.py:205-217 | the device found at a baud rate is the first slave id that answers and identifies; no earlier id does |
| ModbusRtu.ProbeSlaves | app/hardware/protocols/modbus_rtu.py:205-219 | the slave loop with `break` finds `FirstFound` |
| ModbusRtu.ScanResultSnoc | app/hardware/protocols/modbus_rtu.py:200-221 | scanning one more baud rate appends at most that rate's device |
| ModbusRtu.ScanWith | app/hardware/protocols/modbus_rtu.py:198-223 | the devices found are `ScanResult` over the baud rates in order |
| ModbusRtu.ScanModbusDevices | app/hardware/protocols/modbus_rtu.py:191-223 | the same, with the default baud rates and slave ids when none are given |
| ModbusRtu.ScanShape | app/hardware/protocols/modbus_rtu.py:200-217 | at most one device per baud rate, each on the scanned port, at a scanned rate, with a scanned id |
| ModbusRtu.BlankIdentification | app/hardware/protocols/modbus_rtu.py:245-249 | four spaces pass the length test but strip to an empty identification |
| DeviceManager.DiscoveredOn | app/hardware/device_manager.py:104-113 | one entry per Modbus device, carrying the adapter's port and the device's rate, id and identification |
| DeviceManager.DiscoveredShape | app/hardware/device_manager.py:97-113 | every discovered device is on a found adapter's port, at a default baud rate, with an id in 1..247 |
| DeviceManager.Discover | app/hardware/device_manager.py:91-113 | the nested loop collects `DiscoverAll` of the adapters |
| DeviceManager.SelectKind | app/hardware/device_manager.py:187-201 | never selects the simulator |
| DeviceManager.SelectKindOrder | app/hardware/device_manager.py:189-201 | Growatt is checked first, then Deye, then SMA, on the lower-cased identification; anything else is generic |
| DeviceManager.VendorInfo | app/hardware/device_manager.py:212-221 | the driver info carries the family's type, protocol "modbus_rtu", the identification as serial number, and "port:baud:slave" as connection string |
| DeviceManager.ConnectionString | app/hardware/device_manager.py:220 | starts with the port and a colon |
| DeviceManager.DeviceKeyShape | app/hardware/device_manager.py:171 | the key is the port, an underscore, then the slave id |
| DeviceManager.DeviceKeyNotSimulator | app/hardware/device_manager.py:158 | a real device's key never collides with "simulator" |
| DeviceManager.TouchedIff | app/hardware/device_manager.py:166-172 | a key is written exactly when some discovered device with a creatable driver has that key |
| DeviceManager.CreatedFrom | app/hardware/device_manager.py:166-172 | the device behind a key is found exactly when some discovered device with a creatable driver has that key, and it is one such device |
| DeviceManager.CreatedFromSnoc | app/hardware/device_manager.py:166-172 | one more discovered device that makes a key becomes that key's device, replacing an earlier one; any other key keeps its device |
| DeviceManager.AddedKeysMembers | app/hardware/device_manager.py:166-172 | after connecting, the keys are the old keys plus the written ones |
| DeviceManager.AddedKeys | app/hardware/device_manager.py:172 | dict assignment keeps the keys distinct |
| DeviceManager.CollectStep | app/hardware/device_manager.py:311-319 | a Connected simulator stores a reading stamped now, and a Connected vendor driver stores its reading if it gave one; an Error driver takes exactly one `ReconnectStep` and is not read in the same round; any other status is left alone; the retry cap is preserved |
| DeviceManager.CountConnectedExtremes | app/hardware/device_manager.py:336 | all devices count exactly when all are Connected, and none exactly when none is |
| DeviceManager.LatestIsFirstMaximum | app/hardware/device_manager.py:342-352 | the latest data has the greatest positive timestamp, and is the first in table order with it; there is none when no timestamp is positive |
| DeviceManager.BuildControl | app/hardware/device_manager.py:368-374 | per field: an absent key takes its default (solar, 100, 0, 0, false), a given value is used, and an explicit `null` passes on as None |
| DeviceManager.CollectDevice | app/hardware/device_manager.py:311-322 | the device's state after a collection round is `CollectStep` of its old state |
| DeviceManager.CollectKeepsRetryCap | app/hardware/device_manager.py:304-325 | repeated collection rounds never push attempts past the retry limit |
| DeviceManager.DeviceManager.constructor | app/hardware/device_manager.py:23-30 | an empty table, simulation off, no scan yet, not running, intervals 30 s and 5 s |
| DeviceManager.DeviceManager.EnableSimulationMode | app/hardware/device_manager.py:141-162 | simulation on; a fresh connected simulator under "simulator", which keeps its slot if the key existed; nothing else changes |
| DeviceManager.DeviceManager.CreateDriver | app/hardware/device_manager.py:183-205 | a driver exists exactly when the selected family's module is available |
| DeviceManager.DeviceManager.Install | app/hardware/device_manager.py:172-178 | the driver is stored under its key and then connected |
| DeviceManager.DeviceManager.ConnectToDevices | app/hardware/device_manager.py:164-181 | keys become `AddedKeys`; untouched devices keep their driver; each written key holds a fresh driver of the family `SelectKind` picks for the last device making that key, with that device's `VendorInfo`, connected once |
| DeviceManager.DeviceManager.ScanPorts | app/hardware/device_manager.py:89-137 | `Scanned`: a failed port listing adds a fresh connected simulator, keeps every other driver and keeps the scan time; otherwise as `ScanEnumerated`; the report carries the error or the found devices |
| DeviceManager.DeviceManager.ScanEnumerated | app/hardware/device_manager.py:91-128 | the scan time is now; finding nothing adds a fresh connected simulator and keeps every other driver; otherwise the found devices' keys hold fresh drivers of the selected family with the device's `VendorInfo`, in their connect status, every other key keeps its driver, and the mode is unchanged |
| DeviceManager.DeviceManager.ScanDevices | app/hardware/device_manager.py:81-139 | a scan already running answers "scanning" and changes nothing; otherwise the table ends as `Scanned` says and the scanning flag is cleared on every path |
| DeviceManager.DeviceManager.Start | app/hardware/device_manager.py:55-67 | the manager is running; a scan already in progress leaves the table alone; otherwise the table ends as `Scanned` says |
| DeviceManager.DeviceManager.DisconnectAll | app/hardware/device_manager.py:74-76 | every device is Disconnected; its other state and its simulator SOC and update time are unchanged |
| DeviceManager.DeviceManager.Stop | app/hardware/device_manager.py:69-79 | not running, every old device Disconnected, and the table empty |
| DeviceManager.DeviceManager.CollectOnce | app/hardware/device_manager.py:304-325 | every device's state is `CollectStep` of its old state |
| DeviceManager.DeviceManager.Summaries | app/hardware/device_manager.py:329-331 | one summary per key, in key order |
| DeviceManager.DeviceManager.ConnectedCount | app/hardware/device_manager.py:336 | the number of Connected devices |
| DeviceManager.DeviceManager.GetDeviceStatus | app/hardware/device_manager.py:327-340 | total and connected counts, with connected at most total, the summaries in order, and the flags |
| DeviceManager.DeviceManager.GetLatestData | app/hardware/device_manager.py:342-352 | the loop computes `Latest` of the snapshots |
| DeviceManager.DeviceManager.WriteControl | app/hardware/device_manager.py:354-380 | succeeds exactly when the device exists, is Connected and accepts the built control |
| DictOrder.Put | app/hardware/device_manager.py:158 | assignment appends a new key and keeps an existing key's slot |
| DictOrder.Remove | app/routers/hardware.py:301 | `del` drops exactly that key and keeps the order of the rest |
| DictOrder.FilterMembers | app/routers/hardware.py:298-301 | deleting a set of keys keeps exactly the other keys, still distinct |
| DictOrder.FilterFilter | app/routers/hardware.py:298-301 | deleting in two rounds is the same as deleting the union |
| HardwareRouter.ListingAgreesWithSummary | app/routers/hardware.py:66-78 | a device's listing agrees with its status summary on status, connection, error and data time |
| HardwareRouter.GetDevices | app/routers/hardware.py:62-86 | one listing per device, in table order; the connected count equals `CountConnected` |
| HardwareRouter.ListDevices | app/routers/hardware.py:66-78 | the i-th listing is `ListingOf` the i-th device |
| HardwareRouter.CountListed | app/routers/hardware.py:84 | counting the connected listings is counting the Connected devices |
| HardwareRouter.GetDevice | app/routers/hardware.py:93-124 | 404 exactly when the id is absent; otherwise the id, every device-info field, the status, connected, last error, attempts and last data time of that driver |
| HardwareRouter.GetDeviceData | app/routers/hardware.py:128-164 | 404 exactly when absent; "no data" exactly when there is no snapshot; otherwise the snapshot |
| HardwareRouter.WriteDeviceControl | app/routers/hardware.py:168-190 | 404 exactly when absent; success exactly when the manager's write succeeds |
| HardwareRouter.ReconnectDevice | app/routers/hardware.py:194-217 | 404 exactly when absent; otherwise that device's reconnect step and answer, with its simulator SOC and update time unchanged; other devices are untouched |
| HardwareRouter.EnableSimulation | app/routers/hardware.py:273-290 | every old device is disconnected; the table holds only a fresh connected simulator |
| HardwareRouter.SimulationKeys | app/routers/hardware.py:299 | exactly the keys of simulation-type devices |
| HardwareRouter.RemoveSimulators | app/routers/hardware.py:298-301 | the simulation devices are disconnected and deleted; the other keys keep their order; no other device changes |
| HardwareRouter.DisableSimulation | app/routers/hardware.py:294-311 | simulators are disconnected and removed while every other driver keeps its state, the mode is off; a busy scan leaves that table, otherwise the table ends as `Scanned` from it; every remaining driver is a kept non-simulator or a new one |
| HardwareRouter.Rescan | app/routers/hardware.py:303-306 | the mode is off; a busy scan changes nothing else; otherwise the table ends as `Scanned` says |
| DataSimulator.SolarPower | app/services/data_simulator.py:23-32 | zero outside 06:00–18:00; between 0 and 4800 W for weather factors from 0.2 to 1; never below −800 W for factors in [0, 1] |
| DataSimulator.ModeOf | app/services/data_simulator.py:35-42 | charging above 1500 W, floating above 500 W, discharging otherwise |
| DataSimulator.BatteryPower | app/services/data_simulator.py:35-42 | −800..−200 W charging, −200..200 W floating, 300..1000 W discharging |
| DataSimulator.NextSoc | app/services/data_simulator.py:37-42 | charging adds 0.1 capped at 100; floating keeps it; discharging takes 0.1 floored at 10; the bands [10, 100] and [0, 100] are kept |
| DataSimulator.LoadPower | app/services/data_simulator.py:45-46 | within 500 W of the base load |
| DataSimulator.BatteryVoltage | app/services/data_simulator.py:61 | at least 48 V exactly from 50% SOC; between 38 and 58 V for SOC in [0, 100] |
| DataSimulator.Generate | app/services/data_simulator.py:21-66 | solar is `SolarPower` of the fractional hour and weather, battery is `BatteryPower` of that solar, the new SOC is `NextSoc` of the old SOC and that solar, load is `LoadPower`; only the SOC changes in the state; grid is load minus solar minus battery; the inverter is the ambient 20 + 15 x day wave plus solar / 200; no solar at night; the voltage follows the SOC; the battery mode and ranges are as above |
| DataSimulator.Apply | app/services/data_simulator.py:68-78 | weather is clamped to [0, 1]; base load is floored at 0; SOC is clamped to [0, 100]; a reading is `Generate` |
| DataSimulator.SettersIdempotent | app/services/data_simulator.py:68-78 | calling a setter twice is calling it once |
| DataSimulator.SocBandOverReadings | app/services/data_simulator.py:37-42 | from an SOC in [10, 100], readings keep it there |
| DataSimulator.SocBandOverAnyCalls | app/services/data_simulator.py:37-78 | from an SOC in [0, 100], any mix of readings and setters keeps it there |
| DataSimulator.FreshSocBand | app/services/data_simulator.py:11-42 | a new simulator's SOC stays in [10, 100] under readings |
| DataSimulator.ResetLeavesReadingBand | app/services/data_simulator.py:42 | a reset to 5% holds until a discharging reading jumps it to the 10% floor |
| DataSimulator.SolarDataSimulator.constructor | app/services/data_simulator.py:11-15 | the state is `Initial()`: SOC 75, efficiency 85, base load 800, weather 0.8 |
| DataSimulator.SolarDataSimulator.GetDataForTime | app/services/data_simulator.py:21-66 | the new state and the reading are `Generate` of the old state |
| DataSimulator.SolarDataSimulator.UpdateWeather | app/services/data_simulator.py:68-70 | the state is `Apply` of the weather event |
| DataSimulator.SolarDataSimulator.UpdateBaseLoad | app/services/data_simulator.py:72-74 | the state is `Apply` of the base-load event |
| DataSimulator.SolarDataSimulator.ResetBatterySoc | app/services/data_simulator.py:76-78 | the state is `Apply` of the SOC reset |
| Numeric.Trunc | app/services/data_simulator.py:30 | `int()` on a float rounds toward zero: within one below a non-negative value and within one above a negative one |
| Numeric.Clamp | app/services/data_simulator.py:70 | the result lies in the bounds, and equals the input when the input does |
| ChartData.CustomInterval | app/services/chart_data_service.py:171-178 | 15 minutes below two days (at most one whole day), one hour below eight days, six hours from eight days on |
| ChartData.GetTimeRange | app/services/chart_data_service.py:151-185 | fails with "Invalid period: …" exactly for an unknown period, or for "custom" without both bounds; live, today, week and month have fixed windows ending now |
| ChartData.CustomIntervalMonotone | app/services/chart_data_service.py:171-178 | a longer custom range never gets a finer interval |
| ChartData.FixedRangesEndNow | app/services/chart_data_service.py:155-168 | every fixed period ends at the clock and starts no later |
| ChartData.BatteryStateOf | app/services/chart_data_service.py:54-58 | discharging above 50 W, charging below −50 W, idle otherwise |
| ChartData.FlipsBound | app/services/chart_data_service.py:288-301 | at most one flip between each pair of neighbouring samples |
| ChartData.HalfCyclesBound | app/services/chart_data_service.py:288-301 | zero cycles for at most one sample; otherwise at most half the number of gaps |
| ChartData.RepeatOrIdleAddsNothing | app/services/chart_data_service.py:295-299 | a repeated state, or any idle sample, adds no cycle |
| ChartData.FlipAddsHalf | app/services/chart_data_service.py:295-299 | a flip between charging and discharging adds half a cycle |
| ChartData.CalculateBatteryCycles | app/services/chart_data_service.py:288-301 | the loop counts `HalfCycles` of the states and stays under the bound |
| ChartData.PerformanceFrom | app/services/chart_data_service.py:43-77 | per-record timestamps, SOC, voltage, power and state, with cycles = `HalfCycles` of the states |
| ChartData.GetBatteryPerformanceData | app/services/chart_data_service.py:43-77 | an invalid period is an error; otherwise the performance of the records in the range |
| ChartData.KwhToWatts | app/services/chart_data_service.py:246-248 | a whole number of watts, within one watt of the kWh total times 1000, toward zero for both signs |
| ChartData.FromHourly | app/services/chart_data_service.py:242-253 | an hourly row gives its averages, its total load as `int(kwh * 1000)` watts, and zero battery and grid |
| ChartData.FromDaily | app/services/chart_data_service.py:275-286 | a daily row gives peak solar and efficiency, its total load as `int(kwh * 1000)` watts, and zero battery, grid and SOC |
| ChartData.SourceOf | app/services/chart_data_service.py:22-27 | raw data for live and today, hourly for week and month, daily otherwise |
| ChartData.Datasets | app/services/chart_data_service.py:29-41 | the flow's series are the points' fields, in order, with the range's bounds |
| ChartData.GetPowerFlowData | app/services/chart_data_service.py:15-41 | an error exactly when the range fails; otherwise the datasets of the chosen source's points |
| ChartData.SummariesHaveNoBatteryOrGrid | app/services/chart_data_service.py:22-27 | for week and month the battery and grid series are all zero |
| ChartData.DailyCells | app/services/chart_data_service.py:85-95 | a daily row has five columns: date, solar, load, net, efficiency |
| ChartData.HourlyCells | app/services/chart_data_service.py:98-108 | an hourly row has four columns: hour, solar, load, efficiency |
| ChartData.SummaryShape | app/services/chart_data_service.py:116-122 | one label and value per row; the net column is column 3, and efficiency is column 4 only in five-column rows |
| ChartData.SummaryRowsFor | app/services/chart_data_service.py:83-114 | week, month and custom read the daily-summary query over the range, one five-column row (date, solar, load, solar minus load, efficiency) per result; other periods read the hourly query, one four-column row (hour, solar, load, efficiency) per result |
| ChartData.GetEnergySummaryData | app/services/chart_data_service.py:79-122 | an error exactly when the range fails; otherwise the shaped rows of that range's summary query |
| ChartData.DailySummaryColumns | app/services/chart_data_service.py:83-122 | for week and month, one entry per daily row in every series: the date label, solar and load kWh, net energy as solar minus load, and the daily average efficiency |
| ChartData.HourlyNetEnergyIsEfficiency | app/services/chart_data_service.py:96-122 | for live and today, one entry per hourly row: the hour label, solar and load kWh, and the average efficiency, which the "net" series repeats |
| ChartData.EmptySummary | app/services/chart_data_service.py:116-122 | no rows give empty series |
| ChartData.CustomRefusedWithoutBounds | app/services/chart_data_service.py:79-83 | the summary never accepts "custom", because it passes no bounds |
| DataExport.OrBlank | app/services/data_export_service.py:222-223 | falsy values become empty cells |
| DataExport.FilenamePeriod | app/services/data_export_service.py:158 | "custom" becomes "custom_range"; other periods are kept |
| DataExport.GetExportFilename | app/services/data_export_service.py:155-162 | the name is "solar_sync_", then the data type, "_", the period, "_", the stamp and ".csv" |
| DataExport.FilenameDeterminesPeriod | app/services/data_export_service.py:155-162 | two periods give the same file name only when equal, or when they are "custom" and "custom_range" |
| DataExport.EnergyRow | app/services/data_export_service.py:48-67 | nine cells: time, solar, battery, SOC and voltage (blank past the battery data), load, grid, a blank, and 1 |
| DataExport.EnergyCsv | app/services/data_export_service.py:35-67 | the header, then one `EnergyRow` per flow timestamp |
| DataExport.ExportToCsv | app/services/data_export_service.py:17-73 | an error exactly when the flow fails or the bound-less range fails, so "custom" always fails; otherwise the energy table |
| DataExport.SummaryRow | app/services/data_export_service.py:98-106 | label, solar, load, then net and efficiency, or 0 when missing |
| DataExport.SummaryCsv | app/services/data_export_service.py:89-106 | the header, then one `SummaryRow` per label |
| DataExport.ExportSummaryCsv | app/services/data_export_service.py:75-112 | an error exactly when the summary fails; otherwise its table |
| DataExport.BatteryCsvRow | app/services/data_export_service.py:138-147 | timestamp, SOC, voltage, power and state, blank past their data; cycles only on the first row |
| DataExport.BatteryCsv | app/services/data_export_service.py:128-147 | the header, then one `BatteryCsvRow` per timestamp |
| DataExport.CyclesOnce | app/services/data_export_service.py:146 | the cycle count appears on the first data row and nowhere else |
| DataExport.ExportBatteryCsv | app/services/data_export_service.py:114-153 | an error exactly when the range fails; otherwise the battery table of the performance data |
| DataExport.BuildEventsQuery | app/services/data_export_service.py:184-192 | each date clause and parameter is present exactly when its bound is given; the query ends newest-first |
| DataExport.EventRow | app/services/data_export_service.py:214-224 | eight cells; "Yes" exactly when acknowledged; empty acknowledgement fields become blanks |
| DataExport.ExportSystemEventsCsv | app/services/data_export_service.py:164-230 | the query starts with the select and ends newest-first, with a date clause and parameter exactly for each given bound; the CSV is the header, then one `EventRow` per event that query returns |
| DataExport.RegistryRow | app/services/data_export_service.py:261-289 | eleven cells; optional fields become blanks |
| DataExport.ExportDeviceRegistryCsv | app/services/data_export_service.py:232-295 | the header, then one `RegistryRow` per device |
| SettingsRouter.SortedKeys | app/routers/settings.py:23-24 | every key exactly once, in strictly increasing order |
| SettingsRouter.Listing | app/routers/settings.py:19-35 | one view per setting, each matching its stored row, ordered by key |
| SettingsRouter.Get | app/routers/settings.py:38-54 | 404 exactly when the key is absent; otherwise that key's view |
| SettingsRouter.KeptDescription | app/routers/settings.py:79 | an empty or missing description keeps the stored one |
| SettingsRouter.Update | app/routers/settings.py:57-95 | 404 and no change when absent; otherwise the new value and a timestamp, with the same keys and other rows untouched |
| SettingsRouter.Create | app/routers/settings.py:98-127 | 409 and no change when the key exists; otherwise one new row, with other rows untouched |
| SettingsRouter.Delete | app/routers/settings.py:130-146 | 404 and no change when absent; otherwise that key is gone, other rows are untouched, and a message is returned |
| SettingsRouter.CreateThenGet | app/routers/settings.py:98-127 | a created key reads back with its value and description |
| SettingsRouter.CreateThenDelete | app/routers/settings.py:130-146 | deleting a new key restores the table |
| SettingsRouter.DeleteThenGet | app/routers/settings.py:130-146 | after a delete the key is 404 and can be created again |
| SettingsRouter.CreateTwice | app/database/models.py:11 | a second create of the same key is 409 and keeps the first row |
| SettingsRouter.UpdateThenGet | app/routers/settings.py:57-95 | an update reads back with the new value and the kept description |
| SettingsRouter.UpdateIdempotent | app/routers/settings.py:57-95 | repeating an update changes nothing further |
| SettingsRouter.CreateGrowsListing | app/routers/settings.py:19-35 | a successful create lengthens the listing by one |
| SettingsRouter.MaskHidesPath | app/routers/settings.py:160 | a sqlite URL gets "***" before its path; other URLs are unchanged |
| SettingsRouter.SettingsStore.GetAllSettings | app/routers/settings.py:19-35 | the listing of the table |
| SettingsRouter.SettingsStore.GetSetting | app/routers/settings.py:38-54 | `Get` on the table |
| SettingsRouter.SettingsStore.UpdateSetting | app/routers/settings.py:57-95 | table and answer are `Update` of the old table |
| SettingsRouter.SettingsStore.CreateSetting | app/routers/settings.py:98-127 | table and answer are `Create` of the old table |
| SettingsRouter.SettingsStore.DeleteSetting | app/routers/settings.py:130-146 | table and answer are `Delete` of the old table |

## Left out

- **Vendor drivers.** The Growatt, Deye, SMA and generic Modbus drivers are not part of this model. Their connect, probe, read and write are oracle parameters, and the outcome of creating one is a module-availability parameter.
- Drivers.Driver.Connect: for a vendor driver the effect of a connect (an opened line gives Connected, a refusal gives Error, an exception leaves the status and reports the message) is how the model reads a connect outcome; it is assumed of every vendor module, whose connect code is not part of this model.
- Drivers.Driver.Disconnect: the driver base class leaves `disconnect` abstract and only the simulator's own code sets Disconnected; the model gives every vendor driver that same effect (status Disconnected, nothing else changed), and `Stop`, `DisconnectAll`, `EnableSimulation` and `RemoveSimulators` rely on it. The vendor modules' disconnect code is not part of this model.
- **Periodic loops.** The asyncio loops, sleeps and background tasks are left out. `_scan_loop` and `_data_collection_loop` are modelled as single rounds (`ScanDevices`, `CollectOnce`), and the scan loop's "rescan when all disconnected" guard as `ScanDue`.
- **Device profiles.** Loading YAML profiles (`_load_device_profiles`) is file I/O, and nothing in the core reads the result.
- **Serial port listing.** `scan_serial_ports` and pyserial are I/O. The port list is an input. A failure to list ports is the error path of `ScanDevices`.
- **Floating-point behaviour.** `math.exp`, `math.sin`, and `random.*` are draws with stated ranges. Reals stand for floats. `round(…)` in the data simulator's output is not modelled.
- **Simulator temperature.** `_calculate_temperature` (a sine of the hour and the day of year) is left out. The reading's temperature is a draw.
- DataSimulator.SolarPower: the solar curve is a draw in [0, 1] rather than the sine, so the bounds are stated for any such draw, not for the exact curve.
- DataSimulator.SolarDataSimulator.GetDataForTime: `get_current_data` is this method at the clock's time and is not a separate member. The timestamp's ISO text is an input.
- **Time.** `datetime.now()` is a parameter (`now`, `midnight`). Datetimes are seconds as reals. `strptime` parsing of daily dates is not modelled.
- **SQL.** SQL execution is a `Database` record of query functions, one per query in the chart service. The events export's query is built as fragments and parameters, and its answer is an oracle.
- **CSV quoting.** The `csv` module's quoting and number formatting are left out. A CSV is a table of cells, and a number cell is a real: the summary export's integer default `0` and a float `0.0` are the same cell.
- **System efficiency.** `get_system_efficiency_data` in the chart service is not part of this model. Nothing in the listed exports uses it.
- **System info.** Of `get_system_info`, only the masking of the database URL is modelled. The other fields are copied configuration values.
- **Thin hardware routes.** The `/status`, `/scan`, `/scan/status`, `/data/latest` and `/ports` routes are thin wrappers. They wrap `GetDeviceStatus`, `ScanDevices`, `GetLatestData` and the port listing, and are not separate members.
- **Other modules.** The websocket manager, the chart, dashboard and control routers, seed data, and application start-up are not part of this model.
- SettingsRouter.SortedKeys: orders keys by code points, which is SQLite's default binary collation; other collations are not modelled. `updated_at` is the clock parameter `now`.
- **Query order.** The device registry's `ORDER BY device_type, name` and the events' newest-first order are the database's: the records arrive in that order as an input.
- DeviceManager.BuildControl: a field given with another JSON type (a string limit, say) is not modelled; the request's fields are typed, with absent and `null` told apart.
- **Exceptions.** An exception inside a single driver's collection round is caught and ignored in the source. The model has no such exception: a raised connect or probe is one of the oracle's outcomes.
