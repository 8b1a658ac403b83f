/**
 * `ChartDataService`: the period-to-time-range rule, the battery half-cycle
 * counter, the SQL battery-state rule and the shaping of query rows into
 * chart datasets. The database is a set of query functions from a time
 * range to the rows the query returns, in the query's order; the clock is a
 * parameter in seconds (`now`, and `midnight`, the start of its day).
 */
module ChartData {
  import opened Wrappers
  import opened Numeric

  const Minute: real := 60.0
  const Hour: real := 3600.0
  const Day: real := 86400.0

  /** A time range and the sampling interval chosen for it, in seconds. */
  datatype TimeRange = TimeRange(start: real, end: real, interval: real)

  predicate FixedPeriod(period: string)
  {
    period == "live" || period == "today" || period == "week" || period == "month"
  }

  /**
   * The interval a custom range gets from its length in whole days (the
   * floor, as `timedelta.days`): 15 minutes up to one whole day, one hour
   * up to seven, six hours beyond.
   */
  function CustomInterval(start: real, end: real): (interval: real)
    ensures end - start < 2.0 * Day ==> interval == 15.0 * Minute
    ensures 2.0 * Day <= end - start < 8.0 * Day ==> interval == Hour
    ensures 8.0 * Day <= end - start ==> interval == 6.0 * Hour
  {
    var days := ((end - start) / Day).Floor;
    if days <= 1 then 15.0 * Minute
    else if days <= 7 then Hour
    else 6.0 * Hour
  }

  /**
   * `_get_time_range`. A custom period needs both bounds; any other
   * unknown period is refused with "Invalid period: <period>".
   */
  function GetTimeRange(period: string, now: real, midnight: real,
                        customStart: Option<real>, customEnd: Option<real>): (r: Result<TimeRange, string>)
    ensures r.Err? <==> !FixedPeriod(period) && !(period == "custom" && customStart.Some? && customEnd.Some?)
    ensures r.Err? ==> r.error == "Invalid period: " + period
    ensures period == "live" ==> r == Ok(TimeRange(now - 10.0 * Minute, now, 30.0))
    ensures period == "today" ==> r == Ok(TimeRange(midnight, now, 15.0 * Minute))
    ensures period == "week" ==> r == Ok(TimeRange(now - 7.0 * Day, now, Hour))
    ensures period == "month" ==> r == Ok(TimeRange(now - 30.0 * Day, now, 6.0 * Hour))
    ensures r.Ok? && period == "custom" ==>
              r.value.start == customStart.value && r.value.end == customEnd.value
    ensures r.Ok? ==> r.value.interval in {30.0, 15.0 * Minute, Hour, 6.0 * Hour}
  {
    if period == "live" then Ok(TimeRange(now - 10.0 * Minute, now, 30.0))
    else if period == "today" then Ok(TimeRange(midnight, now, 15.0 * Minute))
    else if period == "week" then Ok(TimeRange(now - 7.0 * Day, now, Hour))
    else if period == "month" then Ok(TimeRange(now - 30.0 * Day, now, 6.0 * Hour))
    else if period == "custom" && customStart.Some? && customEnd.Some? then
      Ok(TimeRange(customStart.value, customEnd.value, CustomInterval(customStart.value, customEnd.value)))
    else Err("Invalid period: " + period)
  }

  /** A longer custom range never gets a finer interval. */
  lemma {:induction false} CustomIntervalMonotone(start: real, end1: real, end2: real)
    requires end1 <= end2
    ensures CustomInterval(start, end1) <= CustomInterval(start, end2)
  {
    assert (end1 - start) / Day <= (end2 - start) / Day;
    assert ((end1 - start) / Day).Floor <= ((end2 - start) / Day).Floor;
  }

  /** The fixed periods end now and never start after it, when midnight is not after now. */
  lemma FixedRangesEndNow(period: string, now: real, midnight: real)
    requires FixedPeriod(period) && midnight <= now
    ensures var r := GetTimeRange(period, now, midnight, None, None);
            r.Ok? && r.value.end == now && r.value.start <= now
  {
  }

  // ---------------------------------------------------------------------
  // Battery performance

  const ChargingState := "charging"
  const DischargingState := "discharging"
  const IdleState := "idle"

  /** The `CASE` of the battery query: more than 50 W out is discharging, more than 50 W in is charging. */
  function BatteryStateOf(power: real): (s: string)
    ensures s == DischargingState <==> power > 50.0
    ensures s == ChargingState <==> power < -50.0
    ensures s == IdleState <==> -50.0 <= power <= 50.0
  {
    if power > 50.0 then DischargingState
    else if power < -50.0 then ChargingState
    else IdleState
  }

  /** A pair of adjacent states that counts as half a cycle. */
  predicate IsFlip(previous: string, current: string)
  {
    (previous == ChargingState && current == DischargingState)
    || (previous == DischargingState && current == ChargingState)
  }

  /** The number of adjacent pairs that flip directly between charging and discharging. */
  function Flips(states: seq<string>): nat
    decreases |states|
  {
    if |states| <= 1 then 0
    else Flips(states[..|states| - 1]) + (if IsFlip(states[|states| - 2], states[|states| - 1]) then 1 else 0)
  }

  /** The cycle estimate: half a cycle per flip. */
  function HalfCycles(states: seq<string>): real
  {
    0.5 * Flips(states) as real
  }

  /** At most every adjacent pair flips. */
  lemma {:induction false} FlipsBound(states: seq<string>)
    requires |states| >= 1
    ensures Flips(states) <= |states| - 1
    decreases |states|
  {
    if |states| > 1 {
      FlipsBound(states[..|states| - 1]);
    }
  }

  /** For n states the estimate is 0 when n <= 1 and never above (n - 1) / 2. */
  lemma HalfCyclesBound(states: seq<string>)
    ensures |states| <= 1 ==> HalfCycles(states) == 0.0
    ensures |states| >= 1 ==> HalfCycles(states) <= (|states| - 1) as real / 2.0
  {
    if |states| >= 1 {
      FlipsBound(states);
    }
  }

  /** A repeated state or a pass through idle adds nothing. */
  lemma RepeatOrIdleAddsNothing(states: seq<string>, next: string)
    requires |states| >= 1
    requires next == states[|states| - 1] || next == IdleState || states[|states| - 1] == IdleState
    ensures Flips(states + [next]) == Flips(states)
  {
    var longer := states + [next];
    assert longer[..|longer| - 1] == states;
    assert longer[|longer| - 2] == states[|states| - 1] && longer[|longer| - 1] == next;
    assert !IsFlip(states[|states| - 1], next);
  }

  /** A direct flip adds one half cycle. */
  lemma FlipAddsHalf(states: seq<string>, next: string)
    requires |states| >= 1 && IsFlip(states[|states| - 1], next)
    ensures HalfCycles(states + [next]) == HalfCycles(states) + 0.5
  {
    assert (states + [next])[..|states|] == states;
  }

  /** One row of the battery query. */
  datatype BatteryRow = BatteryRow(timestamp: string, soc: real, voltage: real, power: real, state: string)

  function StatesOf(rows: seq<BatteryRow>): (states: seq<string>)
    ensures |states| == |rows| && forall i :: 0 <= i < |rows| ==> states[i] == rows[i].state
  {
    seq(|rows|, i requires 0 <= i < |rows| => rows[i].state)
  }

  /**
   * `_calculate_battery_cycles`: one pass keeping the previous state.
   * Rounding to two places is exact on multiples of 0.5 and is left as is.
   */
  method CalculateBatteryCycles(rows: seq<BatteryRow>) returns (cycles: real)
    ensures cycles == HalfCycles(StatesOf(rows))
    ensures cycles <= (if |rows| == 0 then 0.0 else (|rows| - 1) as real / 2.0)
  {
    cycles := 0.0;
    var lastState: Option<string> := None;
    ghost var states := StatesOf(rows);
    for i := 0 to |rows|
      invariant cycles == HalfCycles(states[..i])
      invariant i == 0 <==> lastState == None
      invariant i > 0 ==> lastState == Some(states[i - 1])
    {
      var currentState := rows[i].state;
      assert states[..i + 1] == states[..i] + [currentState];
      if lastState.Some? && lastState.value != "" && lastState.value != currentState {
        if (lastState.value == ChargingState && currentState == DischargingState)
          || (lastState.value == DischargingState && currentState == ChargingState)
        {
          FlipAddsHalf(states[..i], currentState);
          cycles := cycles + 0.5;
        } else {
          assert !IsFlip(states[i - 1], currentState);
          assert states[..i + 1][..i] == states[..i];
        }
      } else if i > 0 {
        assert !IsFlip(states[i - 1], currentState);
        assert states[..i + 1][..i] == states[..i];
      }
      lastState := Some(currentState);
    }
    assert states[..|rows|] == states;
    HalfCyclesBound(states);
  }

  /** One `energy_data` record as the battery and efficiency queries see it. */
  datatype EnergyRecord = EnergyRecord(timestamp: string, soc: real, voltage: real, power: real)

  /** The battery query's row for a record: the state comes from the power. */
  function BatteryRowOf(e: EnergyRecord): BatteryRow
  {
    BatteryRow(e.timestamp, e.soc, e.voltage, e.power, BatteryStateOf(e.power))
  }

  /** The dictionary `get_battery_performance_data` returns. */
  datatype BatteryPerformance = BatteryPerformance(
    timestamps: seq<string>,
    socData: seq<real>,
    voltageData: seq<real>,
    powerData: seq<real>,
    stateData: seq<string>,
    chargeCycles: real)

  /** The five lists all follow the records, index by index. */
  predicate PerformanceOf(b: BatteryPerformance, records: seq<EnergyRecord>)
  {
    && |b.timestamps| == |records| && |b.socData| == |records| && |b.voltageData| == |records|
    && |b.powerData| == |records| && |b.stateData| == |records|
    && forall i :: 0 <= i < |records| ==>
         && b.timestamps[i] == records[i].timestamp && b.socData[i] == records[i].soc
         && b.voltageData[i] == records[i].voltage && b.powerData[i] == records[i].power
         && b.stateData[i] == BatteryStateOf(records[i].power)
  }

  /** The view of a run of records: the five lists and the cycle estimate over their states. */
  function PerformanceFrom(records: seq<EnergyRecord>): (b: BatteryPerformance)
    ensures PerformanceOf(b, records) && b.chargeCycles == HalfCycles(b.stateData)
  {
    var states := seq(|records|, i requires 0 <= i < |records| => BatteryStateOf(records[i].power));
    BatteryPerformance(
      seq(|records|, i requires 0 <= i < |records| => records[i].timestamp),
      seq(|records|, i requires 0 <= i < |records| => records[i].soc),
      seq(|records|, i requires 0 <= i < |records| => records[i].voltage),
      seq(|records|, i requires 0 <= i < |records| => records[i].power),
      states,
      HalfCycles(states))
  }

  /** What the database answers, query by query, for a time range. */
  datatype Database = Database(
    rawRows: (real, real) -> seq<FlowPoint>,
    hourlyRows: (real, real) -> seq<HourlyRow>,
    dailyRows: (real, real) -> seq<DailyRow>,
    batteryRecords: (real, real) -> seq<EnergyRecord>,
    dailySummaries: (real, real) -> seq<DailySummaryRow>,
    hourlySummaries: (real, real) -> seq<HourlySummaryRow>)

  /**
   * `get_battery_performance_data` (which takes no custom bounds, so a
   * custom period is always refused).
   */
  method GetBatteryPerformanceData(period: string, now: real, midnight: real, db: Database)
    returns (r: Result<BatteryPerformance, string>)
    ensures var range := GetTimeRange(period, now, midnight, None, None);
            r == if range.Err? then Err(range.error)
                 else Ok(PerformanceFrom(db.batteryRecords(range.value.start, range.value.end)))
  {
    var range := GetTimeRange(period, now, midnight, None, None);
    if range.Err? {
      return Err(range.error);
    }
    var records := db.batteryRecords(range.value.start, range.value.end);
    var rows := seq(|records|, i requires 0 <= i < |records| => BatteryRowOf(records[i]));
    var cycles := CalculateBatteryCycles(rows);
    r := Ok(BatteryPerformance(
      seq(|rows|, i requires 0 <= i < |rows| => rows[i].timestamp),
      seq(|rows|, i requires 0 <= i < |rows| => rows[i].soc),
      seq(|rows|, i requires 0 <= i < |rows| => rows[i].voltage),
      seq(|rows|, i requires 0 <= i < |rows| => rows[i].power),
      StatesOf(rows),
      cycles));
    ghost var spec := PerformanceFrom(records);
    assert StatesOf(rows) == spec.stateData;
    assert r.value.timestamps == spec.timestamps && r.value.socData == spec.socData;
    assert r.value.voltageData == spec.voltageData && r.value.powerData == spec.powerData;
  }

  // ---------------------------------------------------------------------
  // Power flow

  /** One point of the power-flow series (the raw query's row has exactly these columns). */
  datatype FlowPoint = FlowPoint(
    timestamp: string, solar: real, battery: real, load: real, grid: real, soc: real, efficiency: real)

  datatype HourlyRow = HourlyRow(hourStart: string, avgSolar: real, avgSoc: real, totalLoadKwh: real, avgEfficiency: real)

  datatype DailyRow = DailyRow(date: string, peakSolar: real, avgEfficiency: real, totalSolarKwh: real, totalLoadKwh: real)

  /** Kilowatt-hours to watts as `int(kwh * 1000)`. */
  function KwhToWatts(kwh: real): (w: real)
    ensures w == w.Floor as real
    ensures kwh >= 0.0 ==> 0.0 <= w <= kwh * 1000.0 < w + 1.0
    ensures kwh < 0.0 ==> w - 1.0 < kwh * 1000.0 <= w <= 0.0
  {
    Trunc(kwh * 1000.0) as real
  }

  /** Hourly summaries carry no battery or grid power. */
  function FromHourly(row: HourlyRow): (p: FlowPoint)
    ensures p.timestamp == row.hourStart && p.solar == row.avgSolar && p.soc == row.avgSoc
    ensures p.load == KwhToWatts(row.totalLoadKwh)
    ensures p.battery == 0.0 && p.grid == 0.0 && p.efficiency == row.avgEfficiency
  {
    FlowPoint(row.hourStart, row.avgSolar, 0.0, KwhToWatts(row.totalLoadKwh), 0.0, row.avgSoc, row.avgEfficiency)
  }

  /** Daily summaries carry no battery or grid power and no state of charge. */
  function FromDaily(row: DailyRow): (p: FlowPoint)
    ensures p.timestamp == row.date && p.solar == row.peakSolar
    ensures p.load == KwhToWatts(row.totalLoadKwh)
    ensures p.battery == 0.0 && p.grid == 0.0 && p.soc == 0.0 && p.efficiency == row.avgEfficiency
  {
    FlowPoint(row.date, row.peakSolar, 0.0, KwhToWatts(row.totalLoadKwh), 0.0, 0.0, row.avgEfficiency)
  }

  datatype Source = RawSource | HourlySource | DailySource

  function SourceOf(period: string): (s: Source)
    ensures s == RawSource <==> period == "live" || period == "today"
    ensures s == HourlySource <==> period == "week" || period == "month"
  {
    if period == "live" || period == "today" then RawSource
    else if period == "week" || period == "month" then HourlySource
    else DailySource
  }

  /** The points of a period's chosen source over a range. */
  function Points(source: Source, range: TimeRange, db: Database): seq<FlowPoint>
  {
    match source
    case RawSource => db.rawRows(range.start, range.end)
    case HourlySource =>
      var rows := db.hourlyRows(range.start, range.end);
      seq(|rows|, i requires 0 <= i < |rows| => FromHourly(rows[i]))
    case DailySource =>
      var rows := db.dailyRows(range.start, range.end);
      seq(|rows|, i requires 0 <= i < |rows| => FromDaily(rows[i]))
  }

  /** The dictionary `get_power_flow_data` returns. */
  datatype PowerFlow = PowerFlow(
    period: string,
    start: real,
    end: real,
    dataPoints: nat,
    timestamps: seq<string>,
    solarPower: seq<real>,
    batteryPower: seq<real>,
    loadPower: seq<real>,
    gridPower: seq<real>)

  /** The five lists have `dataPoints` entries each and follow the points in order. */
  predicate FlowOf(f: PowerFlow, points: seq<FlowPoint>)
  {
    && f.dataPoints == |points|
    && |f.timestamps| == |points| && |f.solarPower| == |points| && |f.batteryPower| == |points|
    && |f.loadPower| == |points| && |f.gridPower| == |points|
    && forall i :: 0 <= i < |points| ==>
         && f.timestamps[i] == points[i].timestamp && f.solarPower[i] == points[i].solar
         && f.batteryPower[i] == points[i].battery && f.loadPower[i] == points[i].load
         && f.gridPower[i] == points[i].grid
  }

  function Datasets(period: string, range: TimeRange, points: seq<FlowPoint>): (f: PowerFlow)
    ensures FlowOf(f, points) && f.period == period && f.start == range.start && f.end == range.end
  {
    PowerFlow(period, range.start, range.end, |points|,
      seq(|points|, i requires 0 <= i < |points| => points[i].timestamp),
      seq(|points|, i requires 0 <= i < |points| => points[i].solar),
      seq(|points|, i requires 0 <= i < |points| => points[i].battery),
      seq(|points|, i requires 0 <= i < |points| => points[i].load),
      seq(|points|, i requires 0 <= i < |points| => points[i].grid))
  }

  /** `get_power_flow_data`. */
  function GetPowerFlowData(period: string, now: real, midnight: real,
                            customStart: Option<real>, customEnd: Option<real>, db: Database)
    : (r: Result<PowerFlow, string>)
    ensures r.Err? <==> GetTimeRange(period, now, midnight, customStart, customEnd).Err?
    ensures r.Ok? ==>
              var range := GetTimeRange(period, now, midnight, customStart, customEnd).value;
              && r.value.period == period && r.value.start == range.start && r.value.end == range.end
              && FlowOf(r.value, Points(SourceOf(period), range, db))
  {
    var range := GetTimeRange(period, now, midnight, customStart, customEnd);
    if range.Err? then Err(range.error)
    else Ok(Datasets(period, range.value, Points(SourceOf(period), range.value, db)))
  }

  /** Summaries (week, month and custom periods) always report zero battery and grid power. */
  lemma SummariesHaveNoBatteryOrGrid(period: string, now: real, midnight: real,
                                     customStart: Option<real>, customEnd: Option<real>, db: Database)
    requires SourceOf(period) != RawSource
    ensures var r := GetPowerFlowData(period, now, midnight, customStart, customEnd, db);
            r.Ok? ==> forall i :: 0 <= i < r.value.dataPoints ==>
                        r.value.batteryPower[i] == 0.0 && r.value.gridPower[i] == 0.0
  {
  }

  // ---------------------------------------------------------------------
  // Energy summary

  /** A database value as it reaches a result list or a CSV cell. */
  datatype Value = Null | Str(s: string) | Num(x: real)

  datatype DailySummaryRow = DailySummaryRow(date: string, solarKwh: real, loadKwh: real, avgEfficiency: real)

  datatype HourlySummaryRow = HourlySummaryRow(hour: string, solarKwh: real, loadKwh: real, avgEfficiency: real)

  /** The daily-summary query's five columns; the fourth is solar minus load. */
  function DailyCells(r: DailySummaryRow): (cells: seq<Value>)
    ensures |cells| == 5
  {
    [Str(r.date), Num(r.solarKwh), Num(r.loadKwh), Num(r.solarKwh - r.loadKwh), Num(r.avgEfficiency)]
  }

  /** The hourly query's four columns. */
  function HourlyCells(r: HourlySummaryRow): (cells: seq<Value>)
    ensures |cells| == 4
  {
    [Str(r.hour), Num(r.solarKwh), Num(r.loadKwh), Num(r.avgEfficiency)]
  }

  /** The dictionary `get_energy_summary_data` returns. */
  datatype EnergySummary = EnergySummary(
    labels: seq<Value>, solarEnergy: seq<Value>, loadEnergy: seq<Value>,
    netEnergy: seq<Value>, efficiency: seq<Value>)

  /** Rows as a query returns them: at least four columns, and all as wide as the first when that has five. */
  predicate SummaryRows(rows: seq<seq<Value>>)
  {
    && (forall i :: 0 <= i < |rows| ==> |rows[i]| >= 4)
    && (|rows| > 0 && |rows[0]| > 4 ==> forall i :: 0 <= i < |rows| ==> |rows[i]| > 4)
  }

  /**
   * The result shaping: net energy is column 3 and efficiency column 4 when
   * the rows are five wide; four-wide rows give column 3 to both.
   */
  function SummaryShape(rows: seq<seq<Value>>): (r: EnergySummary)
    requires SummaryRows(rows)
    ensures |r.labels| == |rows| && |r.solarEnergy| == |rows| && |r.loadEnergy| == |rows|
    ensures |r.netEnergy| == |rows| && |r.efficiency| == |rows|
    ensures forall i :: 0 <= i < |rows| ==>
              && r.labels[i] == rows[i][0] && r.solarEnergy[i] == rows[i][1]
              && r.loadEnergy[i] == rows[i][2] && r.netEnergy[i] == rows[i][3]
    ensures forall i :: 0 <= i < |rows| ==>
              r.efficiency[i] == (if |rows[0]| > 4 then rows[i][4] else rows[i][3])
  {
    var wide := |rows| > 0 && |rows[0]| > 4;
    EnergySummary(
      seq(|rows|, i requires 0 <= i < |rows| => rows[i][0]),
      seq(|rows|, i requires 0 <= i < |rows| => rows[i][1]),
      seq(|rows|, i requires 0 <= i < |rows| => rows[i][2]),
      if |rows| > 0 && |rows[0]| > 3 then seq(|rows|, i requires 0 <= i < |rows| => rows[i][3]) else [],
      seq(|rows|, i requires 0 <= i < |rows| => if wide then rows[i][4] else rows[i][3]))
  }

  /** Summaries of week, month and custom come from the daily table; every other period is summed by hour. */
  predicate UsesDailySummaries(period: string)
  {
    period == "week" || period == "month" || period == "custom"
  }

  function SummaryRowsFor(period: string, range: TimeRange, db: Database): (rows: seq<seq<Value>>)
    ensures SummaryRows(rows)
    ensures UsesDailySummaries(period) ==> forall i :: 0 <= i < |rows| ==> |rows[i]| == 5
    ensures !UsesDailySummaries(period) ==> forall i :: 0 <= i < |rows| ==> |rows[i]| == 4
    ensures UsesDailySummaries(period) ==>
              var q := db.dailySummaries(range.start, range.end);
              |rows| == |q| && forall i :: 0 <= i < |q| ==> rows[i] == DailyCells(q[i])
    ensures !UsesDailySummaries(period) ==>
              var q := db.hourlySummaries(range.start, range.end);
              |rows| == |q| && forall i :: 0 <= i < |q| ==> rows[i] == HourlyCells(q[i])
  {
    if UsesDailySummaries(period) then
      var rows := db.dailySummaries(range.start, range.end);
      seq(|rows|, i requires 0 <= i < |rows| => DailyCells(rows[i]))
    else
      var rows := db.hourlySummaries(range.start, range.end);
      seq(|rows|, i requires 0 <= i < |rows| => HourlyCells(rows[i]))
  }

  /** `get_energy_summary_data` (which takes no custom bounds). */
  function GetEnergySummaryData(period: string, now: real, midnight: real, db: Database)
    : (r: Result<EnergySummary, string>)
    ensures r.Err? <==> GetTimeRange(period, now, midnight, None, None).Err?
    ensures r.Ok? ==> r.value == SummaryShape(SummaryRowsFor(period, GetTimeRange(period, now, midnight, None, None).value, db))
  {
    var range := GetTimeRange(period, now, midnight, None, None);
    if range.Err? then Err(range.error)
    else Ok(SummaryShape(SummaryRowsFor(period, range.value, db)))
  }

  /**
   * Week and month read the daily table: one entry per day in every series,
   * net energy from column 3 and efficiency from column 4.
   */
  lemma DailySummaryColumns(period: string, now: real, midnight: real, db: Database)
    requires period == "week" || period == "month"
    ensures var r := GetEnergySummaryData(period, now, midnight, db);
            var range := GetTimeRange(period, now, midnight, None, None).value;
            var rows := db.dailySummaries(range.start, range.end);
            && r.Ok? && |r.value.labels| == |rows| && |r.value.solarEnergy| == |rows| && |r.value.loadEnergy| == |rows|
            && |r.value.netEnergy| == |rows| && |r.value.efficiency| == |rows|
            && (forall i :: 0 <= i < |rows| ==>
                 r.value.labels[i] == Str(rows[i].date) && r.value.solarEnergy[i] == Num(rows[i].solarKwh)
                 && r.value.loadEnergy[i] == Num(rows[i].loadKwh))
            && forall i :: 0 <= i < |rows| ==>
                 r.value.netEnergy[i] == Num(rows[i].solarKwh - rows[i].loadKwh)
                 && r.value.efficiency[i] == Num(rows[i].avgEfficiency)
  {
    var range := GetTimeRange(period, now, midnight, None, None).value;
    var rows := db.dailySummaries(range.start, range.end);
    var cells := SummaryRowsFor(period, range, db);
    assert forall i :: 0 <= i < |rows| ==> cells[i] == DailyCells(rows[i]);
  }

  /**
   * Four-wide (hourly) rows report the average efficiency as the net energy
   * too, since net energy is column 3 whenever the rows have one.
   */
  lemma HourlyNetEnergyIsEfficiency(period: string, now: real, midnight: real, db: Database)
    requires period == "live" || period == "today"
    ensures var r := GetEnergySummaryData(period, now, midnight, db);
            var range := GetTimeRange(period, now, midnight, None, None).value;
            var rows := db.hourlySummaries(range.start, range.end);
            && r.Ok? && r.value.netEnergy == r.value.efficiency && |r.value.efficiency| == |rows|
            && |r.value.labels| == |rows| && |r.value.solarEnergy| == |rows| && |r.value.loadEnergy| == |rows|
            && (forall i :: 0 <= i < |rows| ==>
                 r.value.labels[i] == Str(rows[i].hour) && r.value.solarEnergy[i] == Num(rows[i].solarKwh)
                 && r.value.loadEnergy[i] == Num(rows[i].loadKwh))
            && forall i :: 0 <= i < |rows| ==> r.value.efficiency[i] == Num(rows[i].avgEfficiency)
  {
    var range := GetTimeRange(period, now, midnight, None, None).value;
    var rows := db.hourlySummaries(range.start, range.end);
    var cells := SummaryRowsFor(period, range, db);
    assert forall i :: 0 <= i < |rows| ==> cells[i] == HourlyCells(rows[i]);
  }

  /** No rows give empty lists throughout. */
  lemma EmptySummary()
    ensures SummaryShape([]) == EnergySummary([], [], [], [], [])
  {
  }

  /**
   * The summary and battery views take no custom bounds, so a custom period
   * is refused there even though the daily-summary branch names it.
   */
  lemma CustomRefusedWithoutBounds(now: real, midnight: real, db: Database)
    ensures GetEnergySummaryData("custom", now, midnight, db).Err?
    ensures GetTimeRange("custom", now, midnight, None, None).Err?
  {
  }
}
