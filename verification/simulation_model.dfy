/**
 * The arithmetic of the simulation driver: solar curve, load profile, battery
 * state-of-charge integrator and efficiency. The random draws, the bell-curve
 * value `exp(-(t^2)/8)` and the temperature sinusoids are inputs (`Draws`);
 * the clock is a parameter in seconds.
 */
module SimulationModel {
  import opened Wrappers
  import opened DeviceTypes

  const MaxSolarPower: real := 5000.0
  const BatteryCapacity: real := 100.0
  const NominalVoltage: real := 48.0
  const BaseLoad: real := 800.0
  const InitialSoc: real := 75.0
  const MaxChargePower: real := 2000.0
  const MaxDischargePower: real := 3000.0
  const SocCeiling: real := 95.0
  const SocFloor: real := 20.0
  /** The daylight window starts and ends this many seconds after midnight. */
  const DayStartOffset: real := 6.0 * 3600.0
  const DayEndOffset: real := 18.0 * 3600.0

  function Min(a: real, b: real): real { if a <= b then a else b }
  function Max(a: real, b: real): real { if a >= b then a else b }

  /** Everything one `read_data` call draws at random or takes from a curve. */
  datatype Draws = Draws(
    bell: real,             // exp(-(hours from noon)^2 / 8)
    jitter: real,           // uniform(-0.1, 0.1) on the solar factor
    weather: real,          // uniform(0.7, 1.0)
    fluctuation: real,      // uniform(-50, 50) added to solar power
    morningFactor: real,    // uniform(1.2, 1.5)
    eveningFactor: real,    // uniform(1.3, 1.8)
    nightFactor: real,      // uniform(0.3, 0.6)
    loadNoise: real,        // uniform(-100, 200)
    batteryNoise: real,     // uniform(-50, 50)
    voltageNoise: real,     // uniform(-0.5, 0.5)
    efficiencyNoise: real,  // uniform(-2, 2)
    temperature: real)      // the temperature model's value, not interpreted

  /** The ranges the Python code draws from. */
  predicate ValidDraws(d: Draws)
  {
    && 0.0 <= d.bell <= 1.0
    && -0.1 <= d.jitter <= 0.1
    && 0.7 <= d.weather <= 1.0
    && -50.0 <= d.fluctuation <= 50.0
    && 1.2 <= d.morningFactor <= 1.5
    && 1.3 <= d.eveningFactor <= 1.8
    && 0.3 <= d.nightFactor <= 0.6
    && -100.0 <= d.loadNoise <= 200.0
    && -50.0 <= d.batteryNoise <= 50.0
    && -0.5 <= d.voltageNoise <= 0.5
    && -2.0 <= d.efficiencyNoise <= 2.0
  }

  lemma MulBounds(x: real, y: real, xMax: real, yMax: real)
    requires 0.0 <= x <= xMax && 0.0 <= y <= yMax
    ensures 0.0 <= x * y <= xMax * yMax
  {
    assert x * y <= xMax * y;
    assert xMax * y <= xMax * yMax;
  }

  /**
   * Solar output at time `now`: nothing outside the daylight window fixed at
   * construction, otherwise the noisy bell curve cut off at zero.
   */
  function SolarPower(now: real, dayStart: real, dayEnd: real, d: Draws): (p: real)
    ensures p >= 0.0
    ensures now < dayStart || now > dayEnd ==> p == 0.0
    ensures ValidDraws(d) ==> p <= MaxSolarPower * 1.1 + 50.0
  {
    if now < dayStart || now > dayEnd then 0.0
    else
      var factor := d.bell * (1.0 + d.jitter);
      var raw := MaxSolarPower * factor * d.weather + d.fluctuation;
      assert ValidDraws(d) ==> 0.0 <= factor * d.weather <= 1.1 by {
        if ValidDraws(d) {
          MulBounds(d.bell, 1.0 + d.jitter, 1.0, 1.1);
          MulBounds(factor, d.weather, 1.1, 1.0);
        }
      }
      Max(0.0, raw)
  }

  /** The four load periods, checked in this order by the Python code. */
  datatype LoadPeriod = MorningPeak | EveningPeak | Night | Daytime

  /** Hour 22 falls in the evening peak because that test comes first. */
  function LoadPeriodOf(hour: int): (p: LoadPeriod)
    requires 0 <= hour <= 23
    ensures p == MorningPeak <==> 7 <= hour <= 9
    ensures p == EveningPeak <==> 18 <= hour <= 22
    ensures p == Night <==> hour <= 6 || hour == 23
    ensures p == Daytime <==> 10 <= hour <= 17
  {
    if 7 <= hour <= 9 then MorningPeak
    else if 18 <= hour <= 22 then EveningPeak
    else if hour >= 22 || hour <= 6 then Night
    else Daytime
  }

  function LoadFactor(p: LoadPeriod, d: Draws): real
  {
    match p
    case MorningPeak => d.morningFactor
    case EveningPeak => d.eveningFactor
    case Night => d.nightFactor
    case Daytime => 1.0
  }

  /** Household load: the base load scaled by the period, plus noise, never negative. */
  function LoadPower(hour: int, d: Draws): (p: real)
    requires 0 <= hour <= 23
    ensures p >= 0.0
    ensures ValidDraws(d) ==> p <= BaseLoad * 1.8 + 200.0
  {
    Max(0.0, BaseLoad * LoadFactor(LoadPeriodOf(hour), d) + d.loadNoise)
  }

  /** State-of-charge change, in percent, of `power` watts held for `dt` seconds. */
  function SocChange(power: real, dt: real): real
  {
    power * dt / (BatteryCapacity * NominalVoltage * 3600.0) * 100.0
  }

  lemma SocChangeNonNegative(power: real, dt: real)
    requires power >= 0.0 && dt >= 0.0
    ensures SocChange(power, dt) >= 0.0
  {
    assert power * dt >= 0.0;
  }

  datatype BatteryOutcome = BatteryOutcome(power: real, soc: real)

  /**
   * One step of the battery model. `r.power - noise` is the power before the
   * added noise: negative while charging, positive while discharging.
   */
  function BatteryStep(soc: real, solar: real, load: real, dt: real, noise: real): (r: BatteryOutcome)
    ensures -MaxChargePower <= r.power - noise <= MaxDischargePower
    ensures r.power - noise < 0.0 <==> solar > load && soc < SocCeiling
    ensures r.power - noise > 0.0 <==> solar < load && soc > SocFloor
    ensures r.power - noise < 0.0 ==> r.soc == Min(SocCeiling, soc + SocChange(noise - r.power, dt))
    ensures r.power - noise > 0.0 ==> r.soc == Max(SocFloor, soc - SocChange(r.power - noise, dt))
    ensures r.power == noise ==> r.soc == soc
    ensures SocFloor <= soc <= SocCeiling && dt >= 0.0 ==> SocFloor <= r.soc <= SocCeiling
  {
    var excess := solar - load;
    if excess > 0.0 && soc < SocCeiling then
      var charge := Min(excess * 0.8, MaxChargePower);
      assert dt >= 0.0 ==> SocChange(charge, dt) >= 0.0 by {
        if dt >= 0.0 { SocChangeNonNegative(charge, dt); }
      }
      BatteryOutcome(-charge + noise, Min(SocCeiling, soc + SocChange(charge, dt)))
    else if excess < 0.0 && soc > SocFloor then
      var discharge := Min(-excess * 0.9, MaxDischargePower);
      assert dt >= 0.0 ==> SocChange(discharge, dt) >= 0.0 by {
        if dt >= 0.0 { SocChangeNonNegative(discharge, dt); }
      }
      BatteryOutcome(discharge + noise, Max(SocFloor, soc - SocChange(discharge, dt)))
    else
      BatteryOutcome(noise, soc)
  }

  /** System efficiency: zero without sun, otherwise around 85 (90 at 30-70% output), within [0, 100]. */
  function Efficiency(solar: real, noise: real): (e: real)
    ensures 0.0 <= e <= 100.0
    ensures solar == 0.0 ==> e == 0.0
    ensures solar != 0.0 && -2.0 <= noise <= 2.0 ==> 83.0 <= e <= 92.0
    ensures 0.3 * MaxSolarPower <= solar <= 0.7 * MaxSolarPower && -2.0 <= noise <= 2.0 ==> e >= 88.0
    ensures solar > 0.7 * MaxSolarPower && -2.0 <= noise <= 2.0 ==> e <= 87.0
  {
    if solar == 0.0 then 0.0
    else
      var ratio := Min(solar / MaxSolarPower, 1.0);
      var base := if 0.3 <= ratio <= 0.7 then 90.0 else 85.0;
      Max(0.0, Min(100.0, base + noise))
  }

  /** What one `read_data` call produces: the snapshot and the new state of charge. */
  datatype Reading = Reading(data: DeviceData, soc: real)

  /**
   * One simulated reading at time `now` (local hour `hour`), from state of
   * charge `soc`, `dt` seconds after the previous reading.
   */
  function SimulatedReading(now: real, hour: int, dt: real, status: DeviceStatus, soc: real,
                            dayStart: real, dayEnd: real, d: Draws): (r: Reading)
    requires 0 <= hour <= 23
    ensures r.data.timestamp == now && r.data.deviceStatus == status
    ensures r.data.gridPower == r.data.loadPower - r.data.solarPower - r.data.batteryPower
    ensures r.data.batterySoc == r.soc
    ensures r.data.solarPower >= 0.0 && r.data.loadPower >= 0.0
    ensures now < dayStart || now > dayEnd ==> r.data.solarPower == 0.0 && r.data.efficiency == 0.0
    ensures 0.0 <= r.data.efficiency <= 100.0
    ensures SocFloor <= soc <= SocCeiling && dt >= 0.0 ==> SocFloor <= r.soc <= SocCeiling
    ensures ValidDraws(d) ==> NominalVoltage - 0.5 <= r.data.batteryVoltage <= NominalVoltage + 0.5
    ensures r.data.errorCode == None
  {
    var solar := SolarPower(now, dayStart, dayEnd, d);
    var load := LoadPower(hour, d);
    var battery := BatteryStep(soc, solar, load, dt, d.batteryNoise);
    var data := DeviceData(
      now, solar, battery.power, load, load - solar - battery.power, battery.soc,
      NominalVoltage + d.voltageNoise, Efficiency(solar, d.efficiencyNoise), d.temperature,
      status, None);
    Reading(data, battery.soc)
  }

  /** The inputs of one `read_data` call. */
  datatype ReadInput = ReadInput(now: real, hour: int, draws: Draws)

  predicate HoursValid(inputs: seq<ReadInput>)
  {
    forall i :: 0 <= i < |inputs| ==> 0 <= inputs[i].hour <= 23
  }

  /** The clock never goes backwards, starting from `start`. */
  predicate Monotone(start: real, inputs: seq<ReadInput>)
  {
    (|inputs| > 0 ==> start <= inputs[0].now)
    && forall i :: 0 < i < |inputs| ==> inputs[i - 1].now <= inputs[i].now
  }

  /** State of charge after a run of readings, the first at `inputs[0]`. */
  function SocAfterReadings(soc: real, lastUpdate: real, dayStart: real, dayEnd: real,
                            inputs: seq<ReadInput>): real
    requires HoursValid(inputs)
    decreases |inputs|
  {
    if |inputs| == 0 then soc
    else
      var i := inputs[0];
      var r := SimulatedReading(i.now, i.hour, i.now - lastUpdate, Simulation, soc, dayStart, dayEnd, i.draws);
      SocAfterReadings(r.soc, i.now, dayStart, dayEnd, inputs[1..])
  }

  /** The state of charge stays within [20, 95] over any run of readings while the clock does not go back. */
  lemma {:induction false} SocStaysInBand(soc: real, lastUpdate: real, dayStart: real, dayEnd: real,
                                          inputs: seq<ReadInput>)
    requires HoursValid(inputs) && Monotone(lastUpdate, inputs)
    requires SocFloor <= soc <= SocCeiling
    ensures SocFloor <= SocAfterReadings(soc, lastUpdate, dayStart, dayEnd, inputs) <= SocCeiling
    decreases |inputs|
  {
    if |inputs| > 0 {
      var i := inputs[0];
      var r := SimulatedReading(i.now, i.hour, i.now - lastUpdate, Simulation, soc, dayStart, dayEnd, i.draws);
      assert Monotone(i.now, inputs[1..]) by {
        forall k | 0 < k < |inputs[1..]|
          ensures inputs[1..][k - 1].now <= inputs[1..][k].now
        {
          assert inputs[1..][k - 1] == inputs[k] && inputs[1..][k] == inputs[k + 1];
        }
        if |inputs| > 1 {
          assert inputs[1..][0] == inputs[1];
        }
      }
      SocStaysInBand(r.soc, i.now, dayStart, dayEnd, inputs[1..]);
    }
  }

  /**
   * The band needs the clock not to go back: a charging step with a negative
   * elapsed time takes the state of charge below the floor.
   */
  lemma SocLeavesBandWhenClockGoesBack()
    ensures BatteryStep(20.0, 3000.0, 0.0, -100000.0, 0.0).soc < SocFloor
  {
    var r := BatteryStep(20.0, 3000.0, 0.0, -100000.0, 0.0);
    assert r.soc == Min(SocCeiling, 20.0 + SocChange(2000.0, -100000.0));
  }
}
