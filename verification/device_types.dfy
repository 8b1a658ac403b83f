/**
 * The value types of the driver layer: the status and type enumerations and
 * the three records (device information, telemetry snapshot, control payload).
 */
module DeviceTypes {
  import opened Wrappers

  /** Connection state of one driver. */
  datatype DeviceStatus = Disconnected | Connecting | Connected | Error | Simulation

  /** Device families the system knows; only some of them have a driver. */
  datatype DeviceType = GrowattSpf | DeyeSun | SmaSunnyboy | FroniusSymo | GenericModbus | SimulationType

  /** Created once when a driver is built and never changed afterwards. */
  datatype DeviceInfo = DeviceInfo(
    name: string,
    manufacturer: string,
    model: string,
    serialNumber: string,
    firmwareVersion: string,
    deviceType: DeviceType,
    protocol: string,
    connectionString: string)

  /** One telemetry snapshot; `timestamp` is in seconds since the epoch. */
  datatype DeviceData = DeviceData(
    timestamp: real,
    solarPower: real,
    batteryPower: real,
    loadPower: real,
    gridPower: real,
    batterySoc: real,
    batteryVoltage: real,
    efficiency: real,
    temperature: real,
    deviceStatus: DeviceStatus,
    errorCode: Option<string>)

  /**
   * Control settings sent to a device; consumed by a write, never kept.
   * A field is None when the request carried an explicit `null` for it.
   */
  datatype DeviceControl = DeviceControl(
    outputPriority: Option<string>,
    batteryChargeLimit: Option<real>,
    batteryDischargeLimit: Option<real>,
    gridExportLimit: Option<real>,
    emergencyPower: Option<bool>)
}
