/**
 * `DataExportService`: the rows each CSV export writes, the export file
 * name and the filter clauses of the system-events query. A CSV document is
 * its sequence of rows, each a sequence of cells; quoting and line endings
 * are the `csv` module's business and are not modelled.
 */
module DataExport {
  import opened Wrappers
  import opened Text
  import opened ChartData

  type Csv = seq<seq<Value>>

  const Blank: Value := Str("")

  /** Python truthiness of a database value. */
  predicate Truthy(v: Value)
  {
    match v
    case Null => false
    case Str(s) => s != ""
    case Num(x) => x != 0.0
  }

  /** `v if v else ''`. */
  function OrBlank(v: Value): (c: Value)
    ensures Truthy(v) ==> c == v
    ensures !Truthy(v) ==> c == Blank
  {
    if Truthy(v) then v else Blank
  }

  function Labels(names: seq<string>): (cells: seq<Value>)
    ensures |cells| == |names| && forall i :: 0 <= i < |names| ==> cells[i] == Str(names[i])
  {
    seq(|names|, i requires 0 <= i < |names| => Str(names[i]))
  }

  // ---------------------------------------------------------------------
  // File name

  const DefaultDataType := "energy"

  /** The period as it appears in a file name: "custom" is spelled out as "custom_range". */
  function FilenamePeriod(period: string): (p: string)
    ensures period == "custom" ==> p == "custom_range"
    ensures period != "custom" ==> p == period
  {
    if period == "custom" then "custom_range" else period
  }

  /**
   * `get_export_filename`, with `stamp` the local time as
   * `%Y%m%d_%H%M%S` and the data type "energy" unless one is given.
   */
  function GetExportFilename(period: string, dataType: Option<string>, stamp: string): (name: string)
    ensures var t := if dataType.Some? then dataType.value else DefaultDataType;
            && |name| == |"solar_sync_" + t + "_"| + |FilenamePeriod(period)| + |"_" + stamp + ".csv"|
            && StartsWith(name, "solar_sync_" + t + "_")
            && EndsWith(name, "_" + stamp + ".csv")
            && name[|"solar_sync_" + t + "_"|..|name| - |"_" + stamp + ".csv"|] == FilenamePeriod(period)
  {
    var t := if dataType.Some? then dataType.value else DefaultDataType;
    var prefix := "solar_sync_" + t + "_";
    var suffix := "_" + stamp + ".csv";
    var name := prefix + FilenamePeriod(period) + suffix;
    assert name[..|prefix|] == prefix;
    assert name[|name| - |suffix|..] == suffix;
    assert name[|prefix|..|name| - |suffix|] == FilenamePeriod(period);
    name
  }

  /**
   * With the same type and stamp, the file name tells the periods apart,
   * except that "custom" and "custom_range" share one name.
   */
  lemma FilenameDeterminesPeriod(p1: string, p2: string, dataType: Option<string>, stamp: string)
    requires GetExportFilename(p1, dataType, stamp) == GetExportFilename(p2, dataType, stamp)
    ensures FilenamePeriod(p1) == FilenamePeriod(p2)
    ensures p1 == p2 || (p1 == "custom" && p2 == "custom_range") || (p1 == "custom_range" && p2 == "custom")
  {
  }

  // ---------------------------------------------------------------------
  // Energy export

  const EnergyHeader: seq<Value> := Labels([
    "Timestamp", "Solar Power (W)", "Battery Power (W)", "Battery SOC (%)", "Battery Voltage (V)",
    "Load Power (W)", "Grid Power (W)", "System Efficiency (%)", "Data Quality"])

  /** The power-flow lists the energy export reads by index are all as long as the timestamps. */
  predicate FlowReadable(f: PowerFlow)
  {
    |f.solarPower| == |f.timestamps| && |f.batteryPower| == |f.timestamps|
    && |f.loadPower| == |f.timestamps| && |f.gridPower| == |f.timestamps|
  }

  /** Row `i` of the energy export: battery columns when the battery lists reach that far, blank otherwise. */
  function EnergyRow(f: PowerFlow, b: BatteryPerformance, i: nat): (row: seq<Value>)
    requires FlowReadable(f) && |b.voltageData| >= |b.socData| && i < |f.timestamps|
    ensures |row| == 9 && row[0] == Str(f.timestamps[i])
    ensures row[1] == Num(f.solarPower[i]) && row[2] == Num(f.batteryPower[i])
    ensures row[5] == Num(f.loadPower[i]) && row[6] == Num(f.gridPower[i])
    ensures i < |b.socData| ==> row[3] == Num(b.socData[i]) && row[4] == Num(b.voltageData[i])
    ensures i >= |b.socData| ==> row[3] == Blank && row[4] == Blank
    ensures row[7] == Blank && row[8] == Num(1.0)
  {
    var soc := if i < |b.socData| then Num(b.socData[i]) else Blank;
    var voltage := if i < |b.socData| then Num(b.voltageData[i]) else Blank;
    [Str(f.timestamps[i]), Num(f.solarPower[i]), Num(f.batteryPower[i]), soc, voltage,
     Num(f.loadPower[i]), Num(f.gridPower[i]), Blank, Num(1.0)]
  }

  /** The writing loop of `export_to_csv`: the header, then one row per timestamp in order. */
  method EnergyCsv(f: PowerFlow, b: BatteryPerformance) returns (csv: Csv)
    requires FlowReadable(f) && |b.voltageData| >= |b.socData|
    ensures |csv| == 1 + |f.timestamps| && csv[0] == EnergyHeader
    ensures forall j :: 0 < j < |csv| ==> csv[j] == EnergyRow(f, b, j - 1)
  {
    csv := [EnergyHeader];
    for i := 0 to |f.timestamps|
      invariant |csv| == 1 + i && csv[0] == EnergyHeader
      invariant forall k :: 0 <= k < i ==> csv[k + 1] == EnergyRow(f, b, k)
    {
      var soc, voltage := Blank, Blank;
      if i < |b.socData| {
        soc := Num(b.socData[i]);
        voltage := Num(b.voltageData[i]);
      }
      csv := csv + [[Str(f.timestamps[i]), Num(f.solarPower[i]), Num(f.batteryPower[i]), soc, voltage,
                     Num(f.loadPower[i]), Num(f.gridPower[i]), Blank, Num(1.0)]];
    }
  }

  /**
   * `export_to_csv`. It fetches the power flow, the battery view and the
   * energy summary (whose result it does not use), and fails when any of
   * them does. The battery and summary views take no custom bounds, so a
   * custom period always fails.
   */
  method ExportToCsv(period: string, now: real, midnight: real,
                     customStart: Option<real>, customEnd: Option<real>, db: Database)
    returns (r: Result<Csv, string>)
    ensures r.Err? <==> GetPowerFlowData(period, now, midnight, customStart, customEnd, db).Err?
                        || GetTimeRange(period, now, midnight, None, None).Err?
    ensures period == "custom" ==> r.Err?
    ensures r.Ok? ==>
              var f := GetPowerFlowData(period, now, midnight, customStart, customEnd, db).value;
              var range := GetTimeRange(period, now, midnight, None, None).value;
              var b := PerformanceFrom(db.batteryRecords(range.start, range.end));
              && |r.value| == 1 + f.dataPoints && r.value[0] == EnergyHeader
              && forall j :: 0 < j < |r.value| ==> r.value[j] == EnergyRow(f, b, j - 1)
  {
    var flow := GetPowerFlowData(period, now, midnight, customStart, customEnd, db);
    if flow.Err? {
      return Err(flow.error);
    }
    var battery := GetBatteryPerformanceData(period, now, midnight, db);
    if battery.Err? {
      return Err(battery.error);
    }
    var summary := GetEnergySummaryData(period, now, midnight, db);
    // It refuses exactly the periods the battery view refused, so it cannot fail here.
    assert summary.Ok?;
    var csv := EnergyCsv(flow.value, battery.value);
    r := Ok(csv);
  }

  // ---------------------------------------------------------------------
  // Summary export

  const SummaryHeader: seq<Value> := Labels([
    "Period", "Solar Energy (kWh)", "Load Energy (kWh)", "Net Energy (kWh)", "Average Efficiency (%)"])

  predicate SummaryReadable(s: EnergySummary)
  {
    |s.solarEnergy| >= |s.labels| && |s.loadEnergy| >= |s.labels|
  }

  /** Row `i` of the summary export: net energy and efficiency are 0 past the end of their lists. */
  function SummaryRow(s: EnergySummary, i: nat): (row: seq<Value>)
    requires SummaryReadable(s) && i < |s.labels|
    ensures |row| == 5 && row[0] == s.labels[i] && row[1] == s.solarEnergy[i] && row[2] == s.loadEnergy[i]
    ensures row[3] == (if i < |s.netEnergy| then s.netEnergy[i] else Num(0.0))
    ensures row[4] == (if i < |s.efficiency| then s.efficiency[i] else Num(0.0))
  {
    [s.labels[i], s.solarEnergy[i], s.loadEnergy[i],
     if i < |s.netEnergy| then s.netEnergy[i] else Num(0.0),
     if i < |s.efficiency| then s.efficiency[i] else Num(0.0)]
  }

  method SummaryCsv(s: EnergySummary) returns (csv: Csv)
    requires SummaryReadable(s)
    ensures |csv| == 1 + |s.labels| && csv[0] == SummaryHeader
    ensures forall j :: 0 < j < |csv| ==> csv[j] == SummaryRow(s, j - 1)
  {
    csv := [SummaryHeader];
    for i := 0 to |s.labels|
      invariant |csv| == 1 + i && csv[0] == SummaryHeader
      invariant forall k :: 0 <= k < i ==> csv[k + 1] == SummaryRow(s, k)
    {
      var net := if i < |s.netEnergy| then s.netEnergy[i] else Num(0.0);
      var efficiency := if i < |s.efficiency| then s.efficiency[i] else Num(0.0);
      csv := csv + [[s.labels[i], s.solarEnergy[i], s.loadEnergy[i], net, efficiency]];
    }
  }

  /** `export_summary_csv`: fails exactly when the summary view does, so always for a custom period. */
  method ExportSummaryCsv(period: string, now: real, midnight: real, db: Database)
    returns (r: Result<Csv, string>)
    ensures r.Err? <==> GetEnergySummaryData(period, now, midnight, db).Err?
    ensures period == "custom" ==> r.Err?
    ensures r.Ok? ==>
              var s := GetEnergySummaryData(period, now, midnight, db).value;
              && |r.value| == 1 + |s.labels| && r.value[0] == SummaryHeader
              && forall j :: 0 < j < |r.value| ==> r.value[j] == SummaryRow(s, j - 1)
  {
    var summary := GetEnergySummaryData(period, now, midnight, db);
    if summary.Err? {
      return Err(summary.error);
    }
    var csv := SummaryCsv(summary.value);
    r := Ok(csv);
  }

  // ---------------------------------------------------------------------
  // Battery export

  const BatteryHeader: seq<Value> := Labels([
    "Timestamp", "Battery SOC (%)", "Battery Voltage (V)", "Battery Power (W)", "Battery State", "Total Cycles"])

  /** Row `i` of the battery export: missing entries are blank and the cycle total is only on the first row. */
  function BatteryCsvRow(b: BatteryPerformance, i: nat): (row: seq<Value>)
    requires i < |b.timestamps|
    ensures |row| == 6 && row[0] == Str(b.timestamps[i])
    ensures row[1] == (if i < |b.socData| then Num(b.socData[i]) else Blank)
    ensures row[2] == (if i < |b.voltageData| then Num(b.voltageData[i]) else Blank)
    ensures row[3] == (if i < |b.powerData| then Num(b.powerData[i]) else Blank)
    ensures row[4] == (if i < |b.stateData| then Str(b.stateData[i]) else Blank)
    ensures row[5] == (if i == 0 then Num(b.chargeCycles) else Blank)
  {
    [Str(b.timestamps[i]),
     if i < |b.socData| then Num(b.socData[i]) else Blank,
     if i < |b.voltageData| then Num(b.voltageData[i]) else Blank,
     if i < |b.powerData| then Num(b.powerData[i]) else Blank,
     if i < |b.stateData| then Str(b.stateData[i]) else Blank,
     if i == 0 then Num(b.chargeCycles) else Blank]
  }

  method BatteryCsv(b: BatteryPerformance) returns (csv: Csv)
    ensures |csv| == 1 + |b.timestamps| && csv[0] == BatteryHeader
    ensures forall j :: 0 < j < |csv| ==> csv[j] == BatteryCsvRow(b, j - 1)
  {
    csv := [BatteryHeader];
    for i := 0 to |b.timestamps|
      invariant |csv| == 1 + i && csv[0] == BatteryHeader
      invariant forall k :: 0 <= k < i ==> csv[k + 1] == BatteryCsvRow(b, k)
    {
      csv := csv + [BatteryCsvRow(b, i)];
    }
  }

  /** The cycle total appears exactly once, on the first data row, whatever the rows. */
  lemma CyclesOnce(b: BatteryPerformance, csv: Csv)
    requires |csv| == 1 + |b.timestamps|
    requires forall j :: 0 < j < |csv| ==> csv[j] == BatteryCsvRow(b, j - 1)
    ensures forall j :: 1 < j < |csv| ==> |csv[j]| == 6 && csv[j][5] == Blank
    ensures |csv| > 1 ==> |csv[1]| == 6 && csv[1][5] == Num(b.chargeCycles)
  {
  }

  /** `export_battery_csv`: fails exactly when the battery view does. */
  method ExportBatteryCsv(period: string, now: real, midnight: real, db: Database)
    returns (r: Result<Csv, string>)
    ensures r.Err? <==> GetTimeRange(period, now, midnight, None, None).Err?
    ensures r.Ok? ==>
              var range := GetTimeRange(period, now, midnight, None, None).value;
              var b := PerformanceFrom(db.batteryRecords(range.start, range.end));
              && |r.value| == 1 + |b.timestamps| && r.value[0] == BatteryHeader
              && forall j :: 0 < j < |r.value| ==> r.value[j] == BatteryCsvRow(b, j - 1)
  {
    var battery := GetBatteryPerformanceData(period, now, midnight, db);
    if battery.Err? {
      return Err(battery.error);
    }
    var csv := BatteryCsv(battery.value);
    r := Ok(csv);
  }

  // ---------------------------------------------------------------------
  // System events export

  const EventsSelect := "SELECT timestamp, event_type, severity, message, source, acknowledged, acknowledged_at, acknowledged_by FROM system_events WHERE 1=1"
  const StartClause := " AND timestamp >= :start_date"
  const EndClause := " AND timestamp <= :end_date"
  const NewestFirst := " ORDER BY timestamp DESC"

  /** The events query as the fragments it is concatenated from, and its bound parameters. */
  datatype EventsQuery = EventsQuery(fragments: seq<string>, params: map<string, real>)

  /**
   * The query of `export_system_events_csv`: each bound adds its clause and
   * its parameter exactly when it is given, and the newest events come first.
   */
  method BuildEventsQuery(startDate: Option<real>, endDate: Option<real>) returns (q: EventsQuery)
    ensures |q.fragments| >= 2 && q.fragments[0] == EventsSelect
    ensures q.fragments[|q.fragments| - 1] == NewestFirst
    ensures StartClause in q.fragments <==> startDate.Some?
    ensures EndClause in q.fragments <==> endDate.Some?
    ensures |q.fragments| == 2 + (if startDate.Some? then 1 else 0) + (if endDate.Some? then 1 else 0)
    ensures q.params.Keys == (if startDate.Some? then {"start_date"} else {}) + (if endDate.Some? then {"end_date"} else {})
    ensures startDate.Some? ==> q.params["start_date"] == startDate.value
    ensures endDate.Some? ==> q.params["end_date"] == endDate.value
  {
    var fragments := [EventsSelect];
    var params: map<string, real> := map[];
    if startDate.Some? {
      fragments := fragments + [StartClause];
      params := params["start_date" := startDate.value];
    }
    if endDate.Some? {
      fragments := fragments + [EndClause];
      params := params["end_date" := endDate.value];
    }
    fragments := fragments + [NewestFirst];
    q := EventsQuery(fragments, params);
  }

  /** One row of the events query. */
  datatype EventRecord = EventRecord(
    timestamp: Value, eventType: Value, severity: Value, message: Value, source: Value,
    acknowledged: Value, acknowledgedAt: Value, acknowledgedBy: Value)

  const EventsHeader: seq<Value> := Labels([
    "Timestamp", "Event Type", "Severity", "Message", "Source", "Acknowledged", "Acknowledged At",
    "Acknowledged By"])

  function EventRow(e: EventRecord): (row: seq<Value>)
    ensures |row| == 8
    ensures row[..5] == [e.timestamp, e.eventType, e.severity, e.message, e.source]
    ensures row[5] == Str("Yes") <==> Truthy(e.acknowledged)
    ensures row[5] == Str("No") <==> !Truthy(e.acknowledged)
    ensures row[6] == OrBlank(e.acknowledgedAt) && row[7] == OrBlank(e.acknowledgedBy)
  {
    [e.timestamp, e.eventType, e.severity, e.message, e.source,
     Str(if Truthy(e.acknowledged) then "Yes" else "No"),
     OrBlank(e.acknowledgedAt), OrBlank(e.acknowledgedBy)]
  }

  /**
   * `export_system_events_csv`: `answer` is what the database returns for
   * a query; one row per returned record, in the returned order.
   */
  method ExportSystemEventsCsv(startDate: Option<real>, endDate: Option<real>, answer: EventsQuery -> seq<EventRecord>)
    returns (q: EventsQuery, csv: Csv)
    ensures |q.fragments| >= 2 && q.fragments[0] == EventsSelect && q.fragments[|q.fragments| - 1] == NewestFirst
    ensures StartClause in q.fragments <==> startDate.Some?
    ensures EndClause in q.fragments <==> endDate.Some?
    ensures q.params.Keys == (if startDate.Some? then {"start_date"} else {}) + (if endDate.Some? then {"end_date"} else {})
    ensures startDate.Some? ==> q.params["start_date"] == startDate.value
    ensures endDate.Some? ==> q.params["end_date"] == endDate.value
    ensures |csv| == 1 + |answer(q)| && csv[0] == EventsHeader
    ensures forall j :: 0 < j < |csv| ==> csv[j] == EventRow(answer(q)[j - 1])
  {
    q := BuildEventsQuery(startDate, endDate);
    var rows := answer(q);
    csv := [EventsHeader];
    for i := 0 to |rows|
      invariant |csv| == 1 + i && csv[0] == EventsHeader
      invariant forall k :: 0 <= k < i ==> csv[k + 1] == EventRow(rows[k])
    {
      csv := csv + [EventRow(rows[i])];
    }
  }

  // ---------------------------------------------------------------------
  // Device registry export

  /** One row of the registry query, ordered by device type and name. */
  datatype RegistryRecord = RegistryRecord(
    deviceId: Value, deviceType: Value, name: Value, model: Value, manufacturer: Value,
    firmwareVersion: Value, ipAddress: Value, port: Value, status: Value, lastSeen: Value, createdAt: Value)

  const RegistryHeader: seq<Value> := Labels([
    "Device ID", "Device Type", "Name", "Model", "Manufacturer", "Firmware Version", "IP Address", "Port",
    "Status", "Last Seen", "Created At"])

  /** The optional columns are blank when falsy (a port of 0 included); the others are copied. */
  function RegistryRow(d: RegistryRecord): (row: seq<Value>)
    ensures |row| == 11
    ensures row[0] == d.deviceId && row[1] == d.deviceType && row[2] == d.name
    ensures row[8] == d.status && row[10] == d.createdAt
    ensures row[3] == OrBlank(d.model) && row[4] == OrBlank(d.manufacturer)
    ensures row[5] == OrBlank(d.firmwareVersion) && row[6] == OrBlank(d.ipAddress)
    ensures row[7] == OrBlank(d.port) && row[9] == OrBlank(d.lastSeen)
  {
    [d.deviceId, d.deviceType, d.name, OrBlank(d.model), OrBlank(d.manufacturer), OrBlank(d.firmwareVersion),
     OrBlank(d.ipAddress), OrBlank(d.port), d.status, OrBlank(d.lastSeen), d.createdAt]
  }

  method ExportDeviceRegistryCsv(records: seq<RegistryRecord>) returns (csv: Csv)
    ensures |csv| == 1 + |records| && csv[0] == RegistryHeader && |RegistryHeader| == 11
    ensures forall j :: 0 < j < |csv| ==> csv[j] == RegistryRow(records[j - 1])
  {
    csv := [RegistryHeader];
    for i := 0 to |records|
      invariant |csv| == 1 + i && csv[0] == RegistryHeader
      invariant forall k :: 0 <= k < i ==> csv[k + 1] == RegistryRow(records[k])
    {
      csv := csv + [RegistryRow(records[i])];
    }
  }
}
