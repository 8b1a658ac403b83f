/**
 * The development data generator `SolarDataSimulator`: a battery state of
 * charge, an efficiency, a base load and a weather factor, and the readings
 * it produces for a time of day. The three sine curves and the random draws
 * of one reading are inputs (`Draws`); rounding of the reported values is
 * not modelled.
 */
module DataSimulator {
  import opened Numeric

  const InitialSoc: real := 75.0
  const InitialEfficiency: real := 85.0
  const InitialBaseLoad: int := 800
  const InitialWeather: real := 0.8
  /** Peak output of the simulated array, in watts. */
  const ArrayPeak: real := 4000.0
  /** Solar output above this charges the battery. */
  const HighSolar: int := 1500
  /** Solar output above this (and up to `HighSolar`) lets the battery float. */
  const MediumSolar: int := 500
  /** Discharging never takes the state of charge below this. */
  const DischargeFloor: real := 10.0
  const SocStep: real := 0.1

  /** Everything one `get_data_for_time` call takes from a curve or draws at random. */
  datatype Draws = Draws(
    daylight: real,         // sin((hour - 6) * pi / 12)
    weatherWave: real,      // sin(time() / 1800), the 30-minute weather cycle
    dayWave: real,          // sin((hour - 12) * pi / 12), shared by load and temperature
    chargeDraw: int,        // randint(200, 800), used while charging
    floatDraw: int,         // randint(-200, 200), used while floating
    dischargeDraw: int,     // randint(300, 1000), used while discharging
    loadNoise: real,        // uniform(-100, 100)
    efficiencyNoise: real)  // uniform(-2, 2)

  predicate ValidDraws(d: Draws)
  {
    && -1.0 <= d.daylight <= 1.0
    && -1.0 <= d.weatherWave <= 1.0
    && -1.0 <= d.dayWave <= 1.0
    && 200 <= d.chargeDraw <= 800
    && -200 <= d.floatDraw <= 200
    && 300 <= d.dischargeDraw <= 1000
    && -100.0 <= d.loadNoise <= 100.0
    && -2.0 <= d.efficiencyNoise <= 2.0
  }

  /** The four fields of the generator. */
  datatype SimulatorState = SimulatorState(
    batterySoc: real,
    systemEfficiency: real,
    baseLoad: int,
    weatherFactor: real)

  function Initial(): SimulatorState
  {
    SimulatorState(InitialSoc, InitialEfficiency, InitialBaseLoad, InitialWeather)
  }

  /** The dictionary one reading returns (before rounding). */
  datatype SimReading = SimReading(
    timestamp: string,
    solarPower: int,
    batteryPower: int,
    batterySoc: real,
    batteryVoltage: real,
    loadPower: int,
    gridPower: int,
    inverterTemp: real,
    efficiency: real)

  /** The fractional hour of a time of day. */
  function HourOf(hour: int, minute: int): real
  {
    hour as real + minute as real / 60.0
  }

  predicate Daylight(hour: real)
  {
    6.0 <= hour <= 18.0
  }

  lemma MulBounds(x: real, y: real, xMax: real, yLo: real, yHi: real)
    requires 0.0 <= x <= xMax && yLo <= y <= yHi && 0.0 <= xMax
    ensures x * y <= xMax * (if yHi >= 0.0 then yHi else 0.0)
    ensures x * y >= xMax * (if yLo <= 0.0 then yLo else 0.0)
  {
    if y >= 0.0 {
      assert x * y <= xMax * y;
    } else {
      assert x * y >= xMax * y;
    }
  }

  /**
   * Solar output: nothing outside 06:00-18:00, otherwise the daylight curve
   * (cut at zero) scaled by the weather factor plus the 30-minute wave,
   * truncated toward zero. A weather factor below 0.2 can make it negative.
   */
  function SolarPower(hour: real, weatherFactor: real, d: Draws): (p: int)
    ensures !Daylight(hour) ==> p == 0
    ensures ValidDraws(d) && 0.2 <= weatherFactor <= 1.0 ==> 0 <= p <= 4800
    ensures ValidDraws(d) && 0.0 <= weatherFactor <= 1.0 ==> -800 <= p <= 4800
  {
    if Daylight(hour) then
      var factor := Max(0.0, d.daylight);
      var weather := weatherFactor + 0.2 * d.weatherWave;
      var lo := if weatherFactor >= 0.2 then 0 else -800;
      assert ArrayPeak * factor * weather == ArrayPeak * (factor * weather);
      assert ValidDraws(d) && 0.0 <= weatherFactor <= 1.0 ==> lo <= Trunc(ArrayPeak * factor * weather) <= 4800 by {
        if ValidDraws(d) && 0.0 <= weatherFactor <= 1.0 {
          MulBounds(factor, weather, 1.0, weatherFactor - 0.2, weatherFactor + 0.2);
          assert factor * weather <= 1.2;
          assert factor * weather >= -0.2 && (weatherFactor >= 0.2 ==> factor * weather >= 0.0);
          TruncBetween(ArrayPeak * (factor * weather), lo, 4800);
        }
      }
      Trunc(ArrayPeak * factor * weather)
    else 0
  }

  datatype BatteryMode = Charging | Floating | Discharging

  function ModeOf(solar: int): (m: BatteryMode)
    ensures m == Charging <==> solar > HighSolar
    ensures m == Floating <==> MediumSolar < solar <= HighSolar
    ensures m == Discharging <==> solar <= MediumSolar
  {
    if solar > HighSolar then Charging
    else if solar > MediumSolar then Floating
    else Discharging
  }

  /** Battery power for a solar level: negative while charging. */
  function BatteryPower(solar: int, d: Draws): (p: int)
    ensures ValidDraws(d) && ModeOf(solar) == Charging ==> -800 <= p <= -200
    ensures ValidDraws(d) && ModeOf(solar) == Floating ==> -200 <= p <= 200
    ensures ValidDraws(d) && ModeOf(solar) == Discharging ==> 300 <= p <= 1000
  {
    match ModeOf(solar)
    case Charging => -d.chargeDraw
    case Floating => d.floatDraw
    case Discharging => d.dischargeDraw
  }

  /**
   * The state of charge after one reading: up by 0.1 (capped at 100) while
   * charging, unchanged while floating, down by 0.1 (but never below 10)
   * while discharging.
   */
  function NextSoc(soc: real, solar: int): (r: real)
    ensures ModeOf(solar) == Charging ==> r <= 100.0 && (soc <= 100.0 ==> r >= soc) && (soc <= 99.9 ==> r == soc + SocStep)
    ensures ModeOf(solar) == Floating ==> r == soc
    ensures ModeOf(solar) == Discharging ==> r >= DischargeFloor && (soc >= 10.1 ==> r == soc - SocStep)
    ensures ModeOf(solar) == Discharging && soc >= DischargeFloor ==> r <= soc
    ensures DischargeFloor <= soc <= 100.0 ==> DischargeFloor <= r <= 100.0
    ensures 0.0 <= soc <= 100.0 ==> 0.0 <= r <= 100.0
  {
    match ModeOf(solar)
    case Charging => Min(100.0, soc + SocStep)
    case Floating => soc
    case Discharging => Max(DischargeFloor, soc - SocStep)
  }

  /** Household load: the base load swung by +-400 over the day, plus noise, truncated. */
  function LoadPower(baseLoad: int, d: Draws): (p: int)
    ensures ValidDraws(d) ==> baseLoad - 500 <= p <= baseLoad + 500
  {
    var x := baseLoad as real + 400.0 * d.dayWave + d.loadNoise;
    assert ValidDraws(d) ==> baseLoad - 500 <= Trunc(x) <= baseLoad + 500 by {
      if ValidDraws(d) {
        TruncBetween(x, baseLoad - 500, baseLoad + 500);
      }
    }
    Trunc(x)
  }

  /** Nominal 48 V, moving 0.2 V per point of charge away from 50%. */
  function BatteryVoltage(soc: real): (v: real)
    ensures soc >= 50.0 <==> v >= 48.0
    ensures 0.0 <= soc <= 100.0 ==> 38.0 <= v <= 58.0
  {
    48.0 + (soc - 50.0) * 0.2
  }

  /**
   * One `get_data_for_time` call at `hour`:`minute`: the new state and the
   * reading. Only the state of charge changes, and the reading reports the
   * new value.
   */
  function Generate(s: SimulatorState, timestamp: string, hour: int, minute: int, d: Draws)
    : (r: (SimulatorState, SimReading))
    ensures r.0 == s.(batterySoc := r.1.batterySoc)
    ensures r.1.timestamp == timestamp
    ensures r.1.solarPower == SolarPower(HourOf(hour, minute), s.weatherFactor, d)
    ensures r.1.batteryPower == BatteryPower(r.1.solarPower, d)
    ensures r.1.batterySoc == NextSoc(s.batterySoc, r.1.solarPower)
    ensures r.1.loadPower == LoadPower(s.baseLoad, d)
    ensures r.1.inverterTemp == 20.0 + 15.0 * d.dayWave + r.1.solarPower as real / 200.0
    ensures r.1.gridPower == r.1.loadPower - r.1.solarPower - r.1.batteryPower
    ensures !Daylight(HourOf(hour, minute)) ==> r.1.solarPower == 0
    ensures r.1.batteryVoltage == 48.0 + (r.1.batterySoc - 50.0) * 0.2
    ensures var m := ModeOf(r.1.solarPower);
            && (m == Charging ==> r.1.batterySoc <= 100.0 && (s.batterySoc <= 100.0 ==> r.1.batterySoc >= s.batterySoc))
            && (m == Floating ==> r.1.batterySoc == s.batterySoc)
            && (m == Discharging ==> r.1.batterySoc >= DischargeFloor)
    ensures ValidDraws(d) ==>
              && s.baseLoad - 500 <= r.1.loadPower <= s.baseLoad + 500
              && s.systemEfficiency - 2.0 <= r.1.efficiency <= s.systemEfficiency + 2.0
              && (ModeOf(r.1.solarPower) == Charging ==> -800 <= r.1.batteryPower <= -200)
              && (ModeOf(r.1.solarPower) == Floating ==> -200 <= r.1.batteryPower <= 200)
              && (ModeOf(r.1.solarPower) == Discharging ==> 300 <= r.1.batteryPower <= 1000)
  {
    var h := HourOf(hour, minute);
    var solar := SolarPower(h, s.weatherFactor, d);
    var battery := BatteryPower(solar, d);
    var soc := NextSoc(s.batterySoc, solar);
    var load := LoadPower(s.baseLoad, d);
    var net := solar + battery - load;
    var ambient := 20.0 + 15.0 * d.dayWave;
    var reading := SimReading(
      timestamp, solar, battery, soc, BatteryVoltage(soc), load, -net,
      ambient + solar as real / 200.0, s.systemEfficiency + d.efficiencyNoise);
    (s.(batterySoc := soc), reading)
  }

  /** One call on the generator: a reading or one of the three setters. */
  datatype Event =
    | Reading(timestamp: string, hour: int, minute: int, draws: Draws)
    | UpdateWeather(factor: real)
    | UpdateBaseLoad(load: int)
    | ResetBatterySoc(soc: real)

  function Apply(s: SimulatorState, e: Event): (t: SimulatorState)
    ensures e.UpdateWeather? ==> t == s.(weatherFactor := Clamp(e.factor, 0.0, 1.0))
    ensures e.UpdateBaseLoad? ==> t == s.(baseLoad := if e.load < 0 then 0 else e.load)
    ensures e.ResetBatterySoc? ==> t == s.(batterySoc := Clamp(e.soc, 0.0, 100.0))
    ensures e.Reading? ==> t == Generate(s, e.timestamp, e.hour, e.minute, e.draws).0
  {
    match e
    case Reading(timestamp, hour, minute, d) => Generate(s, timestamp, hour, minute, d).0
    case UpdateWeather(f) => s.(weatherFactor := Clamp(f, 0.0, 1.0))
    case UpdateBaseLoad(l) => s.(baseLoad := if l < 0 then 0 else l)
    case ResetBatterySoc(soc) => s.(batterySoc := Clamp(soc, 0.0, 100.0))
  }

  function Run(s: SimulatorState, events: seq<Event>): SimulatorState
    decreases |events|
  {
    if |events| == 0 then s else Run(Apply(s, events[0]), events[1..])
  }

  predicate ReadingsOnly(events: seq<Event>)
  {
    forall i :: 0 <= i < |events| ==> events[i].Reading?
  }

  /** Each setter is idempotent: calling it a second time with the same argument changes nothing. */
  lemma SettersIdempotent(s: SimulatorState, e: Event)
    requires !e.Reading?
    ensures Apply(Apply(s, e), e) == Apply(s, e)
  {
  }

  /** A state of charge in [10, 100] stays there over any run of readings. */
  lemma {:induction false} SocBandOverReadings(s: SimulatorState, events: seq<Event>)
    requires ReadingsOnly(events)
    requires DischargeFloor <= s.batterySoc <= 100.0
    ensures DischargeFloor <= Run(s, events).batterySoc <= 100.0
    decreases |events|
  {
    if |events| > 0 {
      assert events[0].Reading?;
      assert ReadingsOnly(events[1..]) by {
        forall i | 0 <= i < |events[1..]| ensures events[1..][i].Reading? {
          assert events[1..][i] == events[i + 1];
        }
      }
      SocBandOverReadings(Apply(s, events[0]), events[1..]);
    }
  }

  /** A state of charge in [0, 100] stays there over any run of calls, resets included. */
  lemma {:induction false} SocBandOverAnyCalls(s: SimulatorState, events: seq<Event>)
    requires 0.0 <= s.batterySoc <= 100.0
    ensures 0.0 <= Run(s, events).batterySoc <= 100.0
    decreases |events|
  {
    if |events| > 0 {
      SocBandOverAnyCalls(Apply(s, events[0]), events[1..]);
    }
  }

  /** From a fresh generator the state of charge stays in [10, 100] while only readings are taken. */
  lemma FreshSocBand(events: seq<Event>)
    requires ReadingsOnly(events)
    ensures DischargeFloor <= Run(Initial(), events).batterySoc <= 100.0
  {
    SocBandOverReadings(Initial(), events);
  }

  /**
   * The tighter band needs readings only: after a reset to 5 the floor of
   * the discharge branch lifts the state of charge to 10 on the next
   * reading at night, and before that reading it sits below 10.
   */
  lemma ResetLeavesReadingBand(d: Draws)
    ensures Run(Initial(), [ResetBatterySoc(5.0)]).batterySoc == 5.0
    ensures Run(Initial(), [ResetBatterySoc(5.0), Reading("", 0, 0, d)]).batterySoc == DischargeFloor
  {
    var s := Apply(Initial(), ResetBatterySoc(5.0));
    assert s.batterySoc == 5.0;
    assert Run(Initial(), [ResetBatterySoc(5.0)]) == Run(s, []) == s;
    var g := Generate(s, "", 0, 0, d);
    assert g.1.solarPower == 0;
    assert [ResetBatterySoc(5.0), Reading("", 0, 0, d)][1..] == [Reading("", 0, 0, d)];
    calc {
      Run(Initial(), [ResetBatterySoc(5.0), Reading("", 0, 0, d)]);
      Run(s, [Reading("", 0, 0, d)]);
      Run(g.0, []);
    }
  }

  /** `SolarDataSimulator`. */
  class SolarDataSimulator {
    var batterySoc: real
    var systemEfficiency: real
    var baseLoad: int
    var weatherFactor: real

    ghost function State(): SimulatorState
      reads this
    {
      SimulatorState(batterySoc, systemEfficiency, baseLoad, weatherFactor)
    }

    constructor()
      ensures State() == Initial()
    {
      batterySoc := InitialSoc;
      systemEfficiency := InitialEfficiency;
      baseLoad := InitialBaseLoad;
      weatherFactor := InitialWeather;
    }

    /** `get_data_for_time` for the local time `hour`:`minute`. */
    method GetDataForTime(timestamp: string, hour: int, minute: int, d: Draws) returns (data: SimReading)
      modifies this
      ensures (State(), data) == Generate(old(State()), timestamp, hour, minute, d)
    {
      var h := hour as real + minute as real / 60.0;
      var solar := 0;
      if 6.0 <= h <= 18.0 {
        solar := SolarPower(h, weatherFactor, d);
      }
      var battery: int;
      if solar > HighSolar {
        battery := -d.chargeDraw;
        batterySoc := Min(100.0, batterySoc + SocStep);
      } else if solar > MediumSolar {
        battery := d.floatDraw;
      } else {
        battery := d.dischargeDraw;
        batterySoc := Max(DischargeFloor, batterySoc - SocStep);
      }
      var load := LoadPower(baseLoad, d);
      var net := solar + battery - load;
      var grid := -net;
      var ambient := 20.0 + 15.0 * d.dayWave;
      var inverterTemp := ambient + solar as real / 200.0;
      data := SimReading(
        timestamp, solar, battery, batterySoc, 48.0 + (batterySoc - 50.0) * 0.2, load, grid,
        inverterTemp, systemEfficiency + d.efficiencyNoise);
    }

    method UpdateWeather(factor: real)
      modifies this
      ensures State() == Apply(old(State()), Event.UpdateWeather(factor))
    {
      weatherFactor := Max(0.0, Min(1.0, factor));
    }

    method UpdateBaseLoad(load: int)
      modifies this
      ensures State() == Apply(old(State()), Event.UpdateBaseLoad(load))
    {
      baseLoad := if load >= 0 then load else 0;
    }

    method ResetBatterySoc(soc: real)
      modifies this
      ensures State() == Apply(old(State()), Event.ResetBatterySoc(soc))
    {
      batterySoc := Max(0.0, Min(100.0, soc));
    }
  }
}
