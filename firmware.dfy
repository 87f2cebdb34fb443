/** The firmware's per-tick state: the display filters, the zero-speed
    hysteresis, the fuel and instant-MPG accounting, the odometer pulse
    accumulator, the critical-warning state machine and the exchange of
    persistent fuel data with the dashboard. Every global the main loop
    keeps is a field of one `Firmware` object; `millis()` is the `now`
    parameter and the analog inputs are ADC counts passed in. */
module Firmware {
  import opened Common
  import opened Text
  import opened Calibration
  import LineProtocol

  // ---------------------------------------------------------------------
  // Deadband smoothing of the sensor displays
  // ---------------------------------------------------------------------

  /** `x` lies between `a` and `b`, in either order. */
  predicate Between(x: real, a: real, b: real)
  {
    (a <= x <= b) || (b <= x <= a)
  }

  /** The filter the loop applies to each display value: changes within the
      deadband are ignored, larger ones move the display a `smoothing`
      fraction of the way to the new reading. */
  function Deadband(display: real, raw: real, deadband: real, smoothing: real): (r: real)
    ensures Abs(raw - display) <= deadband ==> r == display
    ensures Abs(raw - display) > deadband ==> r - display == smoothing * (raw - display)
  {
    if Abs(raw - display) > deadband then display * (1.0 - smoothing) + raw * smoothing
    else display
  }

  /** The five smoothed sensor displays. */
  datatype Sensors = Sensors(fuelLevel: real, oilPressure: real, voltage: real,
                             coolantTemp: real, oilTemp: real)

  const InitialSensors: Sensors := Sensors(50.0, 0.0, 12.0, 180.0, 180.0)

  /** The fuel display: a full (or disconnected) reading shows at once;
      otherwise heavier smoothing and a wider deadband while the engine runs. */
  function FuelFilter(display: real, raw: real, rpm: real): real
  {
    if raw >= 99.5 then 100.0
    else if rpm > 500.0 then Deadband(display, raw, 1.5, 0.01)
    else Deadband(display, raw, 1.0, 0.02)
  }

  /** A temperature display: the "LO" sentinel passes through at once. */
  function TempFilter(display: real, raw: real): real
  {
    if raw <= LoTemperature then raw else Deadband(display, raw, 2.0, 0.15)
  }

  /** The sensor block of one print tick, on the converted readings and the
      RPM of the previous tick. */
  function SensorStep(s: Sensors, fuel: real, oil: real, volts: real,
                      coolant: real, oilTemp: real, rpm: real): Sensors
  {
    Sensors(FuelFilter(s.fuelLevel, fuel, rpm),
            Deadband(s.oilPressure, oil, 2.0, 0.3),
            Deadband(s.voltage, volts, 0.1, 0.2),
            TempFilter(s.coolantTemp, coolant),
            TempFilter(s.oilTemp, oilTemp))
  }

  /** What the sensor filters guarantee: every display moves towards its
      reading without passing it (or jumps to 100 % / "LO"); a change within
      the deadband leaves the display as it was; the fuel display stays a
      percentage. */
  lemma SensorStepEffect(s: Sensors, fuel: real, oil: real, volts: real,
                         coolant: real, oilTemp: real, rpm: real)
    ensures var r := SensorStep(s, fuel, oil, volts, coolant, oilTemp, rpm);
            (fuel >= 99.5 ==> r.fuelLevel == 100.0) &&
            (fuel < 99.5 ==> Between(r.fuelLevel, s.fuelLevel, fuel)) &&
            (fuel < 99.5 && Abs(fuel - s.fuelLevel) <= 1.0 ==> r.fuelLevel == s.fuelLevel) &&
            (fuel < 99.5 && rpm > 500.0 && Abs(fuel - s.fuelLevel) <= 1.5 ==> r.fuelLevel == s.fuelLevel) &&
            (0.0 <= s.fuelLevel <= 100.0 && 0.0 <= fuel <= 100.0 ==> 0.0 <= r.fuelLevel <= 100.0)
    ensures var r := SensorStep(s, fuel, oil, volts, coolant, oilTemp, rpm);
            Between(r.oilPressure, s.oilPressure, oil) &&
            (Abs(oil - s.oilPressure) <= 2.0 <==> r.oilPressure == s.oilPressure || oil == s.oilPressure) &&
            Between(r.voltage, s.voltage, volts) &&
            (Abs(volts - s.voltage) <= 0.1 ==> r.voltage == s.voltage)
    ensures var r := SensorStep(s, fuel, oil, volts, coolant, oilTemp, rpm);
            (coolant <= LoTemperature ==> r.coolantTemp == coolant) &&
            (coolant > LoTemperature ==> Between(r.coolantTemp, s.coolantTemp, coolant)) &&
            (oilTemp <= LoTemperature ==> r.oilTemp == oilTemp) &&
            (oilTemp > LoTemperature ==> Between(r.oilTemp, s.oilTemp, oilTemp))
  {
  }

  // ---------------------------------------------------------------------
  // Speed display: zero hysteresis and noise filter
  // ---------------------------------------------------------------------

  /** The speedometer globals. */
  datatype Speedo = Speedo(displaySpeed: real, currentSpeed: real, lastRawSpeed: real,
                           isZero: bool, startupTime: Clock32)

  const InitialSpeedo: Speedo := Speedo(0.0, 0.0, 0.0, false, 0)

  /** The speed block of one print tick on the speedometer reading: the
      reading is clamped to [0, 250]; the zero display is entered below
      2 mph and left above 4 mph at a gentle start value; then, off zero,
      changes of up to 2.5 mph are ignored, changes above 10 mph are taken
      at once and the rest smoothed 70/30. */
  function SpeedStep(s: Speedo, reading: real, now: Clock32): Speedo
  {
    var raw := if reading > 250.0 then 250.0 else if reading < 0.0 then 0.0 else reading;
    var gap := Abs(raw - s.lastRawSpeed);
    var diff := if gap > 100.0 then 100.0 else gap;
    var h :=
      if !s.isZero then
        if raw < 2.0 then s.(displaySpeed := 0.0, currentSpeed := 0.0, isZero := true) else s
      else if raw > 4.0 then
        var start := Min(raw * 0.3, 8.0);
        s.(isZero := false, startupTime := now, displaySpeed := start, currentSpeed := start)
      else s.(displaySpeed := 0.0, currentSpeed := 0.0);
    var n :=
      if h.isZero then h
      else if diff <= 2.5 then h.(currentSpeed := h.displaySpeed)
      else if diff > 10.0 then h.(displaySpeed := raw, currentSpeed := raw)
      else
        var d := h.displaySpeed * (1.0 - 0.7) + raw * 0.7;
        h.(displaySpeed := d, currentSpeed := d);
    n.(lastRawSpeed := raw)
  }

  /** The hysteresis: off zero the display drops to 0 exactly when the
      reading is under 2 mph; on zero it stays there exactly while the
      reading is at most 4 mph, and leaving it records the start time.
      After every tick the speed used for accounting equals the display,
      the display stays within [0, 250], and the last reading is kept. */
  lemma SpeedHysteresis(s: Speedo, reading: real, now: Clock32)
    requires 0.0 <= s.displaySpeed <= 250.0
    ensures var raw := if reading > 250.0 then 250.0 else if reading < 0.0 then 0.0 else reading;
            var r := SpeedStep(s, reading, now);
            (r.isZero <==> (if s.isZero then raw <= 4.0 else raw < 2.0)) &&
            (r.isZero ==> r.displaySpeed == 0.0) &&
            (s.isZero && !r.isZero ==> r.startupTime == now) &&
            (!s.isZero ==> r.startupTime == s.startupTime) &&
            r.currentSpeed == r.displaySpeed &&
            0.0 <= r.displaySpeed <= 250.0 &&
            r.lastRawSpeed == raw
  {
  }

  /** Leaving zero starts the display at 30 % of the reading, at most
      8 mph, but only when the reading is within 2.5 mph of the previous
      one; a jump of more than 10 mph is shown at once on the same tick. */
  lemma SpeedStartValue(s: Speedo, reading: real, now: Clock32)
    requires s.isZero && 4.0 < reading <= 250.0
    ensures Abs(reading - s.lastRawSpeed) <= 2.5 ==>
              SpeedStep(s, reading, now).displaySpeed == Min(reading * 0.3, 8.0)
    ensures Abs(reading - s.lastRawSpeed) > 10.0 ==>
              SpeedStep(s, reading, now).displaySpeed == reading
  {
  }

  // ---------------------------------------------------------------------
  // RPM display
  // ---------------------------------------------------------------------

  /** The firmware's RPM filter: jumps above 100 RPM move 80 % of the gap,
      changes above 30 RPM move 40 %, smaller ones are ignored. */
  function RpmFilter(display: real, raw: real): (r: real)
    ensures Abs(raw - display) > 100.0 ==> r - display == 0.8 * (raw - display)
    ensures 30.0 < Abs(raw - display) <= 100.0 ==> r - display == 0.4 * (raw - display)
    ensures Abs(raw - display) <= 30.0 ==> r == display
  {
    var diff := Abs(raw - display);
    if diff > 100.0 then display * (1.0 - 0.8) + raw * 0.8
    else if diff > 30.0 then display * (1.0 - 0.4) + raw * 0.4
    else display
  }

  /** The display never passes the reading, gets strictly closer whenever
      it moves, and stays a tachometer value. */
  lemma RpmFilterTracks(display: real, raw: real)
    ensures Between(RpmFilter(display, raw), display, raw)
    ensures RpmFilter(display, raw) != display ==> Abs(raw - RpmFilter(display, raw)) < Abs(raw - display)
    ensures 0.0 <= display <= 6500.0 && 0.0 <= raw <= 6500.0 ==> 0.0 <= RpmFilter(display, raw) <= 6500.0
  {
  }

  // ---------------------------------------------------------------------
  // Fuel and instant-MPG accounting
  // ---------------------------------------------------------------------

  /** The tank holds about 20 gallons. */
  const TankGallons: real := 20.0

  const MsPerHour: real := 3600000.0

  /** The trip and MPG globals. */
  datatype Trip = Trip(fuelUsed: real, fuelUsedBpw: real, lastFuelLevel: real,
                       fuelLevelInitialized: bool, instantMpg: real, averageMpg: real,
                       fuelRange: real, fuelFlowGph: real)

  /** The values `setup` gives them; -2 is the "OFF" display. */
  const InitialTrip: Trip := Trip(0.0, 0.0, 0.0, false, -2.0, 0.0, 0.0, 0.0)

  /** The remaining range: the fuel left times the average MPG when there is
      one, else times a plausible instant MPG, else times 15; at most 500. */
  function FuelRange(level: real, averageMpg: real, instantMpg: real): (range: real)
    ensures range <= 500.0
    ensures 0.0 <= level && 0.0 <= averageMpg ==> 0.0 <= range
  {
    var gallons := (level / 100.0) * TankGallons;
    var r := if averageMpg > 0.0 then gallons * averageMpg
             else if instantMpg > 0.0 && instantMpg < 50.0 then gallons * instantMpg
             else gallons * 15.0;
    if r > 500.0 then 500.0 else r
  }

  /** `updateDistanceAndMPG` apart from the odometer, on the current RPM, the
      current fuel flow, the tick length, the speed and the fuel display. */
  function TripStep(t: Trip, rpm: real, flowGph: real, dt: real, speed: real, level: real): Trip
  {
    if !t.fuelLevelInitialized then
      t.(lastFuelLevel := level, fuelLevelInitialized := true)
    else
      var change := t.lastFuelLevel - level;
      var used := if change > 0.1 then t.fuelUsed + (change / 100.0) * TankGallons else t.fuelUsed;
      var last := if change > 0.1 then level else t.lastFuelLevel;
      var moving := rpm > 500.0 && speed > 1.0 && flowGph > 0.01;
      var mpg := if rpm <= 500.0 then -1.0
                 else if moving then Constrain(speed / flowGph, 1.0, 50.0)
                 else 0.0;
      var bpw := if moving then t.fuelUsedBpw + (flowGph * dt) / MsPerHour else t.fuelUsedBpw;
      var flow := if rpm > 500.0 then flowGph else 0.0;
      Trip(used, bpw, last, true, mpg, t.averageMpg, FuelRange(level, t.averageMpg, mpg), flow)
  }

  /** The accounting rules:
      - the first call only records the fuel level;
      - afterwards the fuel used never decreases, and grows exactly when
        the level dropped more than 0.1 %, by the dropped share of the tank;
      - the instant MPG is -1 with no flow when the engine is off (500 RPM
        or less), 0 while idling, and otherwise speed over flow within [1, 50],
        and only then does the flow-based fuel total grow;
      - the range never exceeds 500 and the average is untouched. */
  lemma TripStepEffect(t: Trip, rpm: real, flowGph: real, dt: real, speed: real, level: real)
    ensures !t.fuelLevelInitialized ==>
              TripStep(t, rpm, flowGph, dt, speed, level) == t.(lastFuelLevel := level, fuelLevelInitialized := true)
    ensures var r := TripStep(t, rpm, flowGph, dt, speed, level);
            var drop := t.lastFuelLevel - level;
            t.fuelLevelInitialized ==>
              r.fuelUsed >= t.fuelUsed &&
              (r.fuelUsed > t.fuelUsed <==> drop > 0.1) &&
              (drop > 0.1 ==> r.fuelUsed == t.fuelUsed + drop / 5.0 && r.lastFuelLevel == level) &&
              (drop <= 0.1 ==> r.lastFuelLevel == t.lastFuelLevel)
    ensures var r := TripStep(t, rpm, flowGph, dt, speed, level);
            t.fuelLevelInitialized ==>
              (rpm <= 500.0 ==> r.instantMpg == -1.0 && r.fuelFlowGph == 0.0) &&
              (rpm > 500.0 && !(speed > 1.0 && flowGph > 0.01) ==> r.instantMpg == 0.0 && r.fuelFlowGph == flowGph) &&
              (rpm > 500.0 && speed > 1.0 && flowGph > 0.01 ==>
                 1.0 <= r.instantMpg <= 50.0 && r.fuelFlowGph == flowGph &&
                 (1.0 <= speed / flowGph <= 50.0 ==> r.instantMpg * flowGph == speed)) &&
              (r.fuelUsedBpw != t.fuelUsedBpw ==> rpm > 500.0 && speed > 1.0 && flowGph > 0.01) &&
              (dt >= 0.0 ==> r.fuelUsedBpw >= t.fuelUsedBpw)
    ensures var r := TripStep(t, rpm, flowGph, dt, speed, level);
            r.averageMpg == t.averageMpg && r.fuelLevelInitialized &&
            (t.fuelLevelInitialized ==> r.fuelRange <= 500.0)
  {
    if t.fuelLevelInitialized && rpm > 500.0 && speed > 1.0 && flowGph > 0.01 && dt >= 0.0 {
      assert flowGph * dt >= 0.0;
    }
  }

  // ---------------------------------------------------------------------
  // Odometer pulses
  // ---------------------------------------------------------------------

  /** The stepper motor's factory pulse rate. */
  const PulsesPerMile: real := 2002.0

  /** The pulses requested for an accumulator value: its whole part once it
      reaches 1, none before. */
  /** The pulse accumulator after driving at `speed` mph for `dt` ms: the
      distance `speed * dt / 3600000` miles at 2002 pulses per mile. */
  function PulseAccumulator(accumulated: real, speed: real, dt: real): real
  {
    accumulated + (speed * dt) / MsPerHour * PulsesPerMile
  }

  function PulsesDue(accumulated: real): nat
  {
    if accumulated >= 1.0 then accumulated.Floor else 0
  }

  /** Starting from a fraction of a pulse, a forward move requests exactly
      the whole pulses it completes and leaves the accumulator a fraction of
      a pulse again. */
  lemma OdometerFraction(accumulated: real, miles: real)
    requires 0.0 <= accumulated < 1.0 && miles >= 0.0
    ensures var a := accumulated + miles * PulsesPerMile;
            PulsesDue(a) == a.Floor && 0.0 <= a - PulsesDue(a) as real < 1.0
  {
    assert miles * PulsesPerMile >= 0.0;
  }

  /** Over two moves the pulse count is the count for their sum: no
      distance is lost to rounding. */
  lemma OdometerAdditive(accumulated: real, a: real, b: real)
    requires 0.0 <= accumulated < 1.0 && a >= 0.0 && b >= 0.0
    ensures var first := accumulated + a * PulsesPerMile;
            var rest := first - PulsesDue(first) as real;
            PulsesDue(first) + PulsesDue(rest + b * PulsesPerMile) ==
              PulsesDue(accumulated + (a + b) * PulsesPerMile)
  {
    var first := accumulated + a * PulsesPerMile;
    OdometerFraction(accumulated, a);
    var rest := first - PulsesDue(first) as real;
    OdometerFraction(rest, b);
    var total := accumulated + (a + b) * PulsesPerMile;
    assert total == rest + b * PulsesPerMile + PulsesDue(first) as real;
    assert b * PulsesPerMile >= 0.0;
  }

  // ---------------------------------------------------------------------
  // Critical warnings
  // ---------------------------------------------------------------------

  const CriticalOilPressure: real := 10.0
  const CriticalCoolantTemp: real := 230.0
  const CriticalBatteryVoltage: real := 11.0
  const CriticalFuelLevel: real := 5.0
  const CriticalOilTemp: real := 280.0

  /** The warning codes. */
  const OilPressureWarning: int := 1
  const CoolantWarning: int := 2
  const BatteryWarning: int := 3
  const FuelWarning: int := 4
  const OilTempWarning: int := 5

  /** Some reading is past its critical threshold: the independent
      statement of when a warning is due. */
  predicate Critical(oil: real, coolant: real, battery: real, fuel: real, oilTemp: real)
  {
    oil < CriticalOilPressure || coolant > CriticalCoolantTemp || oilTemp > CriticalOilTemp ||
    battery < CriticalBatteryVoltage || fuel < CriticalFuelLevel
  }

  /** The code of the most severe violated threshold, 0 when none is. */
  function WarningKind(oil: real, coolant: real, battery: real, fuel: real, oilTemp: real): (k: int)
    ensures 0 <= k <= 5
    ensures k != 0 <==> Critical(oil, coolant, battery, fuel, oilTemp)
    ensures k == OilPressureWarning <==> oil < CriticalOilPressure
    ensures k == CoolantWarning <==> oil >= CriticalOilPressure && coolant > CriticalCoolantTemp
    ensures k == OilTempWarning <==> oil >= CriticalOilPressure && coolant <= CriticalCoolantTemp &&
                                      oilTemp > CriticalOilTemp
    ensures k == BatteryWarning <==> oil >= CriticalOilPressure && coolant <= CriticalCoolantTemp &&
                                      oilTemp <= CriticalOilTemp && battery < CriticalBatteryVoltage
  {
    if oil < CriticalOilPressure then OilPressureWarning
    else if coolant > CriticalCoolantTemp then CoolantWarning
    else if oilTemp > CriticalOilTemp then OilTempWarning
    else if battery < CriticalBatteryVoltage then BatteryWarning
    else if fuel < CriticalFuelLevel then FuelWarning
    else 0
  }

  /** The warning globals. */
  datatype Warning = Warning(active: bool, kind: int, startTime: Clock32)

  const NoWarning: Warning := Warning(false, 0, 0)

  /** The state is consistent: active exactly when a code is set. */
  predicate Consistent(w: Warning)
  {
    (w.active <==> w.kind != 0) && 0 <= w.kind <= 5
  }

  /** One `checkCriticalWarnings` on the code of the readings. */
  function WarningStep(w: Warning, kind: int, now: Clock32): Warning
  {
    var detected := kind != 0;
    if detected && !w.active then Warning(true, kind, now)
    else if detected && w.active && kind != w.kind then w.(kind := kind, startTime := now)
    else if !detected && w.active then w.(active := false, kind := 0)
    else w
  }

  /** From a consistent state, the warning is active after a check exactly
      when some threshold is violated, its code is the most severe one, and
      the start time moves only when a warning appears or changes code. */
  lemma WarningStepEffect(w: Warning, oil: real, coolant: real, battery: real, fuel: real,
                          oilTemp: real, now: Clock32)
    requires Consistent(w)
    ensures var k := WarningKind(oil, coolant, battery, fuel, oilTemp);
            var r := WarningStep(w, k, now);
            Consistent(r) &&
            (r.active <==> Critical(oil, coolant, battery, fuel, oilTemp)) &&
            r.kind == k &&
            (r.startTime != w.startTime ==> r.active && r.kind != w.kind) &&
            (r.active && r.kind != w.kind ==> r.startTime == now)
  {
  }

  // ---------------------------------------------------------------------
  // Messages to the dashboard
  // ---------------------------------------------------------------------

  /** The protocol lines the firmware prints. */
  datatype ArduinoLine =
    | InitRequest
    | ResetTripNotice
    | SaveData(fuelUsed: real, fuelUsedBpw: real)

  // ---------------------------------------------------------------------
  // Replies from the dashboard
  // ---------------------------------------------------------------------

  const AvgMpgUpdatePrefix: string := "AVG_MPG_UPDATE:"
  const InitDataPrefix: string := "INIT_DATA:"

  /** The reply texts the dashboard writes (`send_init_data`, and the reset
      acknowledgement): two accumulators to four decimals, and an average to
      one, each given as the integer of its scaled digits. */
  function InitDataText(fuel: int, bpw: int): string
  {
    InitDataPrefix + (FormatFixed(fuel, 4) + "," + FormatFixed(bpw, 4))
  }

  function AvgMpgUpdateText(mpg: int): string
  {
    AvgMpgUpdatePrefix + FormatFixed(mpg, 1)
  }

  /** The fields of an `INIT_DATA:` payload as the firmware locates them:
      the first comma, and the next one after it (-1 when absent). */
  function Commas(data: string): (r: (int, int))
    ensures r.0 == -1 <==> ',' !in data
    ensures r.0 >= 0 ==> r.0 < |data| && data[r.0] == ',' && ',' !in data[..r.0]
    ensures r.0 == -1 ==> r.1 == -1
    ensures r.0 >= 0 ==> (r.1 == -1 <==> ',' !in data[r.0 + 1..])
    ensures r.1 >= 0 ==> 0 <= r.0 < r.1 < |data| && data[r.1] == ',' && ',' !in data[r.0 + 1..r.1]
  {
    var first := IndexOf(data, ',', 0);
    var second := IndexOf(data, ',', first + 1);
    if first == -1 then
      assert ',' !in data by {
        forall k | 0 <= k < |data| ensures data[k] != ',' { }
      }
      (first, second)
    else
      assert ',' !in data[..first] by {
        var head := data[..first];
        forall k | 0 <= k < |head| ensures head[k] != ',' { }
      }
      if second == -1 then
        assert ',' !in data[first + 1..] by {
          var tail := data[first + 1..];
          forall k | 0 <= k < |tail| ensures tail[k] != ',' {
            assert tail[k] == data[first + 1 + k];
          }
        }
        (first, second)
      else
        assert ',' !in data[first + 1..second] by {
          var mid := data[first + 1..second];
          forall k | 0 <= k < |mid| ensures mid[k] != ',' {
            assert mid[k] == data[first + 1 + k];
          }
        }
        assert data[first + 1..][second - first - 1] == ',';
        (first, second)
  }

  /** The reply handling of `processPersistentDataResponse` as written: the
      flow-based total is read only when a SECOND comma follows the first. */
  function ResponseAsWritten(t: Trip, initialized: bool, reply: string): (r: (Trip, bool))
  {
    var line := Strip(reply, CWhitespace);
    if StartsWith(line, AvgMpgUpdatePrefix) then
      (t.(averageMpg := AtofPrefix(line[|AvgMpgUpdatePrefix|..])), initialized)
    else if StartsWith(line, InitDataPrefix) then
      var data := line[|InitDataPrefix|..];
      var (first, second) := Commas(data);
      if first > 0 then
        var t1 := t.(fuelUsed := AtofPrefix(data[..first]));
        (if second > first then t1.(fuelUsedBpw := AtofPrefix(data[first + 1..])) else t1, true)
      else (t, initialized)
    else (t, initialized)
  }

  /** The reply handling with the evident intent: the flow-based total is
      read whenever text follows the first comma. */
  function Response(t: Trip, initialized: bool, reply: string): (r: (Trip, bool))
  {
    var line := Strip(reply, CWhitespace);
    if StartsWith(line, AvgMpgUpdatePrefix) then
      (t.(averageMpg := AtofPrefix(line[|AvgMpgUpdatePrefix|..])), initialized)
    else if StartsWith(line, InitDataPrefix) then
      var data := line[|InitDataPrefix|..];
      var first := IndexOf(data, ',', 0);
      if first > 0 then
        var t1 := t.(fuelUsed := AtofPrefix(data[..first]));
        (if first + 1 < |data| then t1.(fuelUsedBpw := AtofPrefix(data[first + 1..])) else t1, true)
      else (t, initialized)
    else (t, initialized)
  }

  /** Two comma-free fields joined by a comma are found again by the
      firmware's comma search. */
  lemma CommaFields(a: string, b: string)
    requires ',' !in a && ',' !in b && a != []
    ensures var data := a + "," + b;
            IndexOf(data, ',', 0) == |a| && IndexOf(data, ',', |a| + 1) == -1 &&
            data[..|a|] == a && data[|a| + 1..] == b
  {
    var data := a + "," + b;
    assert data[|a|] == ',';
    assert forall k :: 0 <= k < |a| ==> data[k] == a[k];
    assert forall k :: |a| + 1 <= k < |data| ==> data[k] == b[k - |a| - 1];
    assert data[..|a|] == a;
    assert data[|a| + 1..] == b;
  }

  /** A reply made of a prefix and a printed number needs no trimming and
      is read from just past the prefix. */
  lemma PrefixedNumber(prefix: string, body: string)
    requires prefix != [] && prefix[0] !in CWhitespace
    requires body != [] && IsDigit(body[|body| - 1])
    ensures Strip(prefix + body, CWhitespace) == prefix + body
    ensures StartsWith(prefix + body, prefix) && (prefix + body)[|prefix|..] == body
  {
    var line := prefix + body;
    DigitNotWhitespace(body[|body| - 1]);
    assert line[|line| - 1] == body[|body| - 1];
    assert line[0] == prefix[0];
    StripNoOp(line, CWhitespace);
    assert line[..|prefix|] == prefix;
    assert line[|prefix|..] == body;
  }

  /** The dashboard's `INIT_DATA:` reply needs no trimming and is told
      apart from the average update by its prefix. */
  lemma InitDataShape(fuel: int, bpw: int)
    ensures var line := InitDataText(fuel, bpw);
            Strip(line, CWhitespace) == line &&
            StartsWith(line, InitDataPrefix) && !StartsWith(line, AvgMpgUpdatePrefix) &&
            line[|InitDataPrefix|..] == FormatFixed(fuel, 4) + "," + FormatFixed(bpw, 4)
  {
    LineProtocol.FormatFixedNoComma(bpw, 4);
    InitLineShape(FormatFixed(fuel, 4), FormatFixed(bpw, 4));
  }

  lemma InitLineShape(a: string, b: string)
    requires b != [] && IsDigit(b[|b| - 1])
    ensures var line := InitDataPrefix + (a + "," + b);
            Strip(line, CWhitespace) == line &&
            StartsWith(line, InitDataPrefix) && !StartsWith(line, AvgMpgUpdatePrefix) &&
            line[|InitDataPrefix|..] == a + "," + b
  {
    var body := a + "," + b;
    assert body[|body| - 1] == b[|b| - 1];
    PrefixedNumber(InitDataPrefix, body);
    assert (InitDataPrefix + body)[0] != AvgMpgUpdatePrefix[0];
  }

  /** As written, the dashboard's two-field reply restores the fuel used and
      marks the data initialised, but leaves the flow-based total as it was:
      the reply has one comma and the firmware waits for a second. */
  lemma InitDataAsWrittenDropsBpw(t: Trip, initialized: bool, fuel: int, bpw: int)
    ensures ResponseAsWritten(t, initialized, InitDataText(fuel, bpw)) ==
            (t.(fuelUsed := FixedValue(fuel, 4)), true)
  {
    var a, b := FormatFixed(fuel, 4), FormatFixed(bpw, 4);
    assert ResponseAsWritten(t, initialized, InitDataText(fuel, bpw)) == (t.(fuelUsed := AtofPrefix(a)), true) by {
      LineProtocol.FormatFixedNoComma(fuel, 4);
      LineProtocol.FormatFixedNoComma(bpw, 4);
      InitReplyAsWritten(t, initialized, a, b);
    }
    AtofFormattedAlone(fuel, 4);
  }

  /** With the intended test, the reply restores both accumulators. */
  lemma InitDataRestoresBoth(t: Trip, initialized: bool, fuel: int, bpw: int)
    ensures Response(t, initialized, InitDataText(fuel, bpw)) ==
            (t.(fuelUsed := FixedValue(fuel, 4), fuelUsedBpw := FixedValue(bpw, 4)), true)
  {
    var a, b := FormatFixed(fuel, 4), FormatFixed(bpw, 4);
    assert Response(t, initialized, InitDataText(fuel, bpw)) ==
           (t.(fuelUsed := AtofPrefix(a), fuelUsedBpw := AtofPrefix(b)), true) by {
      LineProtocol.FormatFixedNoComma(fuel, 4);
      LineProtocol.FormatFixedNoComma(bpw, 4);
      InitReply(t, initialized, a, b);
    }
    AtofFormattedAlone(fuel, 4);
    AtofFormattedAlone(bpw, 4);
  }

  /** The firmware's reading of `INIT_DATA:a,b`, as written: only `a` is read. */
  lemma InitReplyAsWritten(t: Trip, initialized: bool, a: string, b: string)
    requires ',' !in a && ',' !in b && a != [] && b != [] && IsDigit(b[|b| - 1])
    ensures ResponseAsWritten(t, initialized, InitDataPrefix + (a + "," + b)) ==
            (t.(fuelUsed := AtofPrefix(a)), true)
  {
    InitLineShape(a, b);
    CommaFields(a, b);
  }

  /** The intended reading of `INIT_DATA:a,b`: both fields are read. */
  lemma InitReply(t: Trip, initialized: bool, a: string, b: string)
    requires ',' !in a && ',' !in b && a != [] && b != [] && IsDigit(b[|b| - 1])
    ensures Response(t, initialized, InitDataPrefix + (a + "," + b)) ==
            (t.(fuelUsed := AtofPrefix(a), fuelUsedBpw := AtofPrefix(b)), true)
  {
    InitLineShape(a, b);
    CommaFields(a, b);
  }

  /** The average update reply sets the average and nothing else. */
  lemma AvgMpgUpdateRead(t: Trip, initialized: bool, mpg: int)
    ensures ResponseAsWritten(t, initialized, AvgMpgUpdateText(mpg)) ==
            (t.(averageMpg := FixedValue(mpg, 1)), initialized)
    ensures Response(t, initialized, AvgMpgUpdateText(mpg)) ==
            (t.(averageMpg := FixedValue(mpg, 1)), initialized)
  {
    var a := FormatFixed(mpg, 1);
    assert Strip(AvgMpgUpdateText(mpg), CWhitespace) == AvgMpgUpdatePrefix + a &&
           StartsWith(AvgMpgUpdatePrefix + a, AvgMpgUpdatePrefix) &&
           (AvgMpgUpdatePrefix + a)[|AvgMpgUpdatePrefix|..] == a by {
      LineProtocol.FormatFixedNoComma(mpg, 1);
      PrefixedNumber(AvgMpgUpdatePrefix, a);
    }
    AtofFormattedAlone(mpg, 1);
  }

  /** Any other reply, and an `INIT_DATA:` payload without a comma after its
      first character, changes nothing; an accepted `INIT_DATA:` reply only
      touches the two accumulators and the initialised flag. */
  lemma ResponseFrame(t: Trip, initialized: bool, reply: string)
    ensures var line := Strip(reply, CWhitespace);
            !StartsWith(line, AvgMpgUpdatePrefix) && !StartsWith(line, InitDataPrefix) ==>
              Response(t, initialized, reply) == (t, initialized)
    ensures var line := Strip(reply, CWhitespace);
            !StartsWith(line, AvgMpgUpdatePrefix) && StartsWith(line, InitDataPrefix) &&
            IndexOf(line[|InitDataPrefix|..], ',', 0) <= 0 ==>
              Response(t, initialized, reply) == (t, initialized)
    ensures var r := Response(t, initialized, reply);
            r.0.(fuelUsed := t.fuelUsed, fuelUsedBpw := t.fuelUsedBpw, averageMpg := t.averageMpg) == t &&
            (r.1 != initialized ==> r.1 && r.0.averageMpg == t.averageMpg)
  {
  }

  // ---------------------------------------------------------------------
  // The firmware object
  // ---------------------------------------------------------------------

  /** The analog inputs of one print tick, as ADC counts. */
  datatype Readings = Readings(fuel: int, oilPressure: int, coolant: int, oilTemp: int,
                               battery: int, tachometer: int, speedometer: int)

  /** The interval of the print block, of the initialisation requests and
      of the periodic save. */
  const PrintInterval: int := 100
  const DataRequestInterval: int := 5000
  const SaveInterval: int := 10000

  class Firmware {
    var sensors: Sensors
    var speedo: Speedo
    var displayRpm: real
    var currentRpm: real
    var trip: Trip
    var fuelConsumptionLbHr: real
    var odometerAccumulated: real
    var odometerPulses: nat
    var warning: Warning
    var persistentDataInitialized: bool
    var lastDataRequest: Clock32
    var lastPrintTime: Clock32
    var lastOdometerSave: Clock32
    var outbox: seq<ArduinoLine>

    /** The state after `setup`. */
    constructor ()
      ensures sensors == InitialSensors && speedo == InitialSpeedo
      ensures displayRpm == 0.0 && currentRpm == 0.0
      ensures trip == InitialTrip && fuelConsumptionLbHr == 0.0
      ensures odometerAccumulated == 0.0 && odometerPulses == 0
      ensures warning == NoWarning && !persistentDataInitialized
      ensures lastDataRequest == 0 && lastPrintTime == 0 && lastOdometerSave == 0
      ensures outbox == []
    {
      sensors := InitialSensors;
      speedo := InitialSpeedo;
      displayRpm := 0.0;
      currentRpm := 0.0;
      trip := InitialTrip;
      fuelConsumptionLbHr := 0.0;
      odometerAccumulated := 0.0;
      odometerPulses := 0;
      warning := NoWarning;
      persistentDataInitialized := false;
      lastDataRequest := 0;
      lastPrintTime := 0;
      lastOdometerSave := 0;
      outbox := [];
    }

    /** `updateOdometer`: add the distance in pulses, then request one pulse
        per whole pulse accumulated. */
    method UpdateOdometer(miles: real)
      modifies this`odometerAccumulated, this`odometerPulses
      ensures var a := old(odometerAccumulated) + miles * PulsesPerMile;
              odometerPulses == old(odometerPulses) + PulsesDue(a) &&
              odometerAccumulated == a - PulsesDue(a) as real
    {
      odometerAccumulated := odometerAccumulated + miles * PulsesPerMile;
      ghost var start := odometerAccumulated;
      ghost var pulses0 := odometerPulses;
      var generated: nat := 0;
      while odometerAccumulated >= 1.0
        invariant odometerAccumulated == start - generated as real
        invariant odometerPulses == pulses0 + generated
        invariant generated <= PulsesDue(start)
        decreases odometerAccumulated.Floor
      {
        odometerPulses := odometerPulses + 1;
        odometerAccumulated := odometerAccumulated - 1.0;
        generated := generated + 1;
      }
    }

    /** `updateDistanceAndMPG`: the odometer moves by the distance of the
        tick, then the fuel and MPG accounting runs on the current RPM and
        fuel flow. */
    method UpdateDistanceAndMpg(deltaTime: real, speed: real, fuelLevel: real)
      modifies this`odometerAccumulated, this`odometerPulses, this`trip
      ensures var a := PulseAccumulator(old(odometerAccumulated), speed, deltaTime);
              odometerPulses == old(odometerPulses) + PulsesDue(a) &&
              odometerAccumulated == a - PulsesDue(a) as real
      ensures trip == TripStep(old(trip), currentRpm, fuelConsumptionLbHr, deltaTime, speed, fuelLevel)
    {
      var distanceIncrement := (speed * deltaTime) / MsPerHour;
      assert PulseAccumulator(odometerAccumulated, speed, deltaTime) ==
             odometerAccumulated + distanceIncrement * PulsesPerMile;
      UpdateOdometer(distanceIncrement);
      if !trip.fuelLevelInitialized {
        trip := trip.(lastFuelLevel := fuelLevel, fuelLevelInitialized := true);
        return;
      }
      var fuelLevelChange := trip.lastFuelLevel - fuelLevel;
      if fuelLevelChange > 0.1 {
        var fuelConsumed := (fuelLevelChange / 100.0) * TankGallons;
        trip := trip.(fuelUsed := trip.fuelUsed + fuelConsumed, lastFuelLevel := fuelLevel);
      }
      trip := trip.(fuelFlowGph := fuelConsumptionLbHr);
      if currentRpm > 500.0 {
        if speed > 1.0 && trip.fuelFlowGph > 0.01 {
          var mpg := speed / trip.fuelFlowGph;
          if mpg > 50.0 { mpg := 50.0; }
          if mpg < 1.0 { mpg := 1.0; }
          trip := trip.(instantMpg := mpg,
                        fuelUsedBpw := trip.fuelUsedBpw + (trip.fuelFlowGph * deltaTime) / MsPerHour);
        } else {
          trip := trip.(instantMpg := 0.0);
        }
      } else {
        trip := trip.(instantMpg := -1.0, fuelFlowGph := 0.0);
      }
      trip := trip.(fuelRange := FuelRange(fuelLevel, trip.averageMpg, trip.instantMpg));
    }

    /** `sendPersistentDataUpdate`. */
    method SendPersistentDataUpdate()
      modifies this`outbox
      ensures outbox == old(outbox) + [SaveData(trip.fuelUsed, trip.fuelUsedBpw)]
    {
      outbox := outbox + [SaveData(trip.fuelUsed, trip.fuelUsedBpw)];
    }

    /** `resetTripOdometer`: clear the fuel totals and the average, keep the
        fuel level baseline, tell the dashboard, then send the cleared totals. */
    method ResetTripOdometer()
      modifies this`trip, this`outbox
      ensures trip == old(trip).(fuelUsed := 0.0, fuelUsedBpw := 0.0, averageMpg := 0.0)
      ensures outbox == old(outbox) + [ResetTripNotice, SaveData(0.0, 0.0)]
    {
      trip := trip.(fuelUsed := 0.0, fuelUsedBpw := 0.0, averageMpg := 0.0);
      outbox := outbox + [ResetTripNotice];
      SendPersistentDataUpdate();
    }

    /** `resetAverageFuel`: the same clearing, without the trip notice. */
    method ResetAverageFuel()
      modifies this`trip, this`outbox
      ensures trip == old(trip).(fuelUsed := 0.0, fuelUsedBpw := 0.0, averageMpg := 0.0)
      ensures outbox == old(outbox) + [SaveData(0.0, 0.0)]
    {
      trip := trip.(fuelUsed := 0.0, fuelUsedBpw := 0.0, averageMpg := 0.0);
      SendPersistentDataUpdate();
    }

    /** `estimateFuelConsumptionFromRPM`, on the current RPM and speed. */
    method EstimateFuelConsumptionFromRpm()
      modifies this`fuelConsumptionLbHr
      ensures fuelConsumptionLbHr == EstimatedConsumption(old(fuelConsumptionLbHr), currentRpm, speedo.currentSpeed)
    {
      if currentRpm < 500.0 {
        fuelConsumptionLbHr := 0.0;
        return;
      }
      var estimated := FuelEstimate(currentRpm, speedo.currentSpeed);
      fuelConsumptionLbHr := fuelConsumptionLbHr * 0.8 + estimated * 0.2;
    }

    /** `checkCriticalWarnings` on the displayed readings. */
    method CheckCriticalWarnings(oil: real, coolant: real, battery: real, fuel: real, oilTemp: real, now: Clock32)
      modifies this`warning
      ensures warning == WarningStep(old(warning), WarningKind(oil, coolant, battery, fuel, oilTemp), now)
    {
      var detected := false;
      var kind := 0;
      if oil < CriticalOilPressure {
        detected, kind := true, OilPressureWarning;
      } else if coolant > CriticalCoolantTemp {
        detected, kind := true, CoolantWarning;
      } else if oilTemp > CriticalOilTemp {
        detected, kind := true, OilTempWarning;
      } else if battery < CriticalBatteryVoltage {
        detected, kind := true, BatteryWarning;
      } else if fuel < CriticalFuelLevel {
        detected, kind := true, FuelWarning;
      }
      if detected && !warning.active {
        warning := Warning(true, kind, now);
      } else if detected && warning.active && kind != warning.kind {
        warning := warning.(kind := kind, startTime := now);
      } else if !detected && warning.active {
        warning := warning.(active := false, kind := 0);
      }
    }

    /** `processPersistentDataResponse`, with the reply line read (if one
        was waiting); see `Response` for the corrected comma test. */
    method ProcessPersistentDataResponse(reply: Option<string>)
      modifies this`trip, this`persistentDataInitialized
      ensures reply.None? ==> trip == old(trip) && persistentDataInitialized == old(persistentDataInitialized)
      ensures reply.Some? ==>
                (trip, persistentDataInitialized) == Response(old(trip), old(persistentDataInitialized), reply.value)
    {
      if reply.Some? {
        var r := Response(trip, persistentDataInitialized, reply.value);
        trip := r.0;
        persistentDataInitialized := r.1;
      }
    }

    /** The sensor filter block of the print tick. */
    method FilterSensors(fuel: real, oil: real, volts: real, coolant: real, oilTemp: real)
      modifies this`sensors
      ensures sensors == SensorStep(old(sensors), fuel, oil, volts, coolant, oilTemp, currentRpm)
    {
      var s := sensors;
      var fuelDisplay := s.fuelLevel;
      var smoothing := if currentRpm > 500.0 then 0.01 else 0.02;
      var deadband := if currentRpm > 500.0 then 1.5 else 1.0;
      if fuel >= 99.5 {
        fuelDisplay := 100.0;
      } else if Abs(fuel - fuelDisplay) > deadband {
        fuelDisplay := fuelDisplay * (1.0 - smoothing) + fuel * smoothing;
      }
      var oilDisplay := s.oilPressure;
      if Abs(oil - oilDisplay) > 2.0 {
        oilDisplay := oilDisplay * (1.0 - 0.3) + oil * 0.3;
      }
      var voltDisplay := s.voltage;
      if Abs(volts - voltDisplay) > 0.1 {
        voltDisplay := voltDisplay * (1.0 - 0.2) + volts * 0.2;
      }
      var coolantDisplay := s.coolantTemp;
      if coolant <= LoTemperature {
        coolantDisplay := coolant;
      } else if Abs(coolant - coolantDisplay) > 2.0 {
        coolantDisplay := coolantDisplay * (1.0 - 0.15) + coolant * 0.15;
      }
      var oilTempDisplay := s.oilTemp;
      if oilTemp <= LoTemperature {
        oilTempDisplay := oilTemp;
      } else if Abs(oilTemp - oilTempDisplay) > 2.0 {
        oilTempDisplay := oilTempDisplay * (1.0 - 0.15) + oilTemp * 0.15;
      }
      sensors := Sensors(fuelDisplay, oilDisplay, voltDisplay, coolantDisplay, oilTempDisplay);
    }

    /** The speed block of the print tick. */
    method FilterSpeed(reading: real, now: Clock32)
      modifies this`speedo
      ensures speedo == SpeedStep(old(speedo), reading, now)
    {
      var rawSpeed := reading;
      if rawSpeed > 250.0 { rawSpeed := 250.0; }
      if rawSpeed < 0.0 { rawSpeed := 0.0; }
      var speedDifference := Abs(rawSpeed - speedo.lastRawSpeed);
      if speedDifference > 100.0 { speedDifference := 100.0; }
      var s := speedo;
      if !s.isZero {
        if rawSpeed < 2.0 {
          s := s.(displaySpeed := 0.0, currentSpeed := 0.0, isZero := true);
        }
      } else {
        if rawSpeed > 4.0 {
          var start := Min(rawSpeed * 0.3, 8.0);
          s := s.(isZero := false, startupTime := now, displaySpeed := start, currentSpeed := start);
        } else {
          s := s.(displaySpeed := 0.0, currentSpeed := 0.0);
        }
      }
      if !s.isZero {
        if speedDifference <= 2.5 {
          s := s.(currentSpeed := s.displaySpeed);
        } else if speedDifference > 10.0 {
          s := s.(displaySpeed := rawSpeed, currentSpeed := rawSpeed);
        } else {
          var d := s.displaySpeed * (1.0 - 0.7) + rawSpeed * 0.7;
          s := s.(displaySpeed := d, currentSpeed := d);
        }
      }
      speedo := s.(lastRawSpeed := rawSpeed);
    }

    /** The RPM block of the print tick. */
    method FilterRpm(rawRpm: real)
      modifies this`displayRpm, this`currentRpm
      ensures displayRpm == RpmFilter(old(displayRpm), rawRpm) && currentRpm == displayRpm
    {
      var rpmDifference := Abs(rawRpm - displayRpm);
      if rpmDifference > 100.0 {
        displayRpm := displayRpm * (1.0 - 0.8) + rawRpm * 0.8;
      } else if rpmDifference > 30.0 {
        displayRpm := displayRpm * (1.0 - 0.4) + rawRpm * 0.4;
      }
      currentRpm := displayRpm;
    }

    /** The converted readings of a print tick. The fuel level uses the RPM
        of the previous tick, as `fuelLevelPercent` reads the global. */
    method ReadSensors(counts: Readings) returns (fuel: real, oil: real, volts: real, coolant: real, oilTemp: real)
      ensures fuel == FuelLevelPercent(AnalogToVoltage(counts.fuel), currentRpm)
      ensures oil == OilPressureCurve(VoltageToResistanceOilPressure(AnalogToVoltage(counts.oilPressure)))
      ensures volts == BatteryVoltage(AnalogToVoltage(counts.battery))
      ensures coolant == TemperatureCurve(VoltageToResistance(AnalogToVoltage(counts.coolant)))
      ensures oilTemp == TemperatureCurve(VoltageToResistance(AnalogToVoltage(counts.oilTemp)))
      ensures 0.0 <= fuel <= 100.0 && 0.0 <= oil <= 120.0
    {
      fuel := FuelLevelPercent(AnalogToVoltage(counts.fuel), currentRpm);
      oil := OilPressurePsi(VoltageToResistanceOilPressure(AnalogToVoltage(counts.oilPressure)));
      OilPressureCases(VoltageToResistanceOilPressure(AnalogToVoltage(counts.oilPressure)));
      volts := BatteryVoltage(AnalogToVoltage(counts.battery));
      coolant := TemperatureFahrenheit(VoltageToResistance(AnalogToVoltage(counts.coolant)));
      oilTemp := TemperatureFahrenheit(VoltageToResistance(AnalogToVoltage(counts.oilTemp)));
    }

    /** The measuring part of the print block: sensors, speed, RPM,
        distance and fuel accounting, then the warning check. */
    method MeasureTick(now: Clock32, elapsed: int, counts: Readings)
      modifies this`sensors, this`speedo, this`displayRpm, this`currentRpm, this`trip,
               this`odometerAccumulated, this`odometerPulses, this`warning
      ensures sensors == SensorStep(old(sensors), FuelLevelPercent(AnalogToVoltage(counts.fuel), old(currentRpm)),
                                    OilPressureCurve(VoltageToResistanceOilPressure(AnalogToVoltage(counts.oilPressure))),
                                    BatteryVoltage(AnalogToVoltage(counts.battery)),
                                    TemperatureCurve(VoltageToResistance(AnalogToVoltage(counts.coolant))),
                                    TemperatureCurve(VoltageToResistance(AnalogToVoltage(counts.oilTemp))),
                                    old(currentRpm))
      ensures speedo == SpeedStep(old(speedo), SpeedometerMph(counts.speedometer), now)
      ensures displayRpm == RpmFilter(old(displayRpm), TachometerRpm(counts.tachometer)) && currentRpm == displayRpm
      ensures var a := PulseAccumulator(old(odometerAccumulated), speedo.currentSpeed, elapsed as real);
              odometerPulses == old(odometerPulses) + PulsesDue(a) && odometerAccumulated == a - PulsesDue(a) as real
      ensures trip == TripStep(old(trip), currentRpm, fuelConsumptionLbHr, elapsed as real,
                               speedo.currentSpeed, sensors.fuelLevel)
      ensures warning == WarningStep(old(warning), WarningKind(sensors.oilPressure, sensors.coolantTemp,
                                     sensors.voltage, sensors.fuelLevel, sensors.oilTemp), now)
    {
      var fuel, oil, volts, coolant, oilTemp := ReadSensors(counts);
      FilterSensors(fuel, oil, volts, coolant, oilTemp);
      var deltaTime := elapsed as real;
      FilterSpeed(SpeedometerMph(counts.speedometer), now);
      FilterRpm(TachometerRpm(counts.tachometer));
      UpdateDistanceAndMpg(deltaTime, speedo.currentSpeed, sensors.fuelLevel);
      CheckCriticalWarnings(sensors.oilPressure, sensors.coolantTemp, sensors.voltage,
                            sensors.fuelLevel, sensors.oilTemp, now);
    }

    /** The start-up handshake of the print block: until initialised, a
        request every 5 s, and the dashboard's reply, if any, handled. */
    method Handshake(now: Clock32, reply: Option<string>)
      modifies this`trip, this`persistentDataInitialized, this`lastDataRequest, this`outbox
      ensures old(persistentDataInitialized) ==>
                trip == old(trip) && persistentDataInitialized && lastDataRequest == old(lastDataRequest) &&
                outbox == old(outbox)
      ensures !old(persistentDataInitialized) ==>
                var due := Elapsed32(now, old(lastDataRequest)) >= DataRequestInterval;
                outbox == old(outbox) + (if due then [InitRequest] else []) &&
                lastDataRequest == (if due then now else old(lastDataRequest)) &&
                if reply.None? then trip == old(trip) && !persistentDataInitialized
                else (trip, persistentDataInitialized) == Response(old(trip), false, reply.value)
    {
      if !persistentDataInitialized {
        if Elapsed32(now, lastDataRequest) >= DataRequestInterval {
          outbox := outbox + [InitRequest];
          lastDataRequest := now;
        }
        ProcessPersistentDataResponse(reply);
      }
    }

    /** The state the print block leaves behind, apart from the outbox: every
        filter, accounting and warning step on the readings of this tick, the
        request time refreshed when a request goes out, and, until
        initialised, the reply handled after the trip step. */
    twostate predicate TickEffect(now: Clock32, elapsed: int, counts: Readings, reply: Option<string>)
      reads this
    {
      && sensors == SensorStep(old(sensors), FuelLevelPercent(AnalogToVoltage(counts.fuel), old(currentRpm)),
                               OilPressureCurve(VoltageToResistanceOilPressure(AnalogToVoltage(counts.oilPressure))),
                               BatteryVoltage(AnalogToVoltage(counts.battery)),
                               TemperatureCurve(VoltageToResistance(AnalogToVoltage(counts.coolant))),
                               TemperatureCurve(VoltageToResistance(AnalogToVoltage(counts.oilTemp))),
                               old(currentRpm))
      && speedo == SpeedStep(old(speedo), SpeedometerMph(counts.speedometer), now)
      && displayRpm == RpmFilter(old(displayRpm), TachometerRpm(counts.tachometer)) && currentRpm == displayRpm
      && fuelConsumptionLbHr == old(fuelConsumptionLbHr)
      && (var a := PulseAccumulator(old(odometerAccumulated), speedo.currentSpeed, elapsed as real);
          odometerPulses == old(odometerPulses) + PulsesDue(a) && odometerAccumulated == a - PulsesDue(a) as real)
      && (var t := TripStep(old(trip), currentRpm, old(fuelConsumptionLbHr), elapsed as real,
                            speedo.currentSpeed, sensors.fuelLevel);
          if old(persistentDataInitialized) || reply.None?
          then trip == t && persistentDataInitialized == old(persistentDataInitialized)
          else (trip, persistentDataInitialized) == Response(t, false, reply.value))
      && warning == WarningStep(old(warning), WarningKind(sensors.oilPressure, sensors.coolantTemp,
                                sensors.voltage, sensors.fuelLevel, sensors.oilTemp), now)
      && lastDataRequest == (if !old(persistentDataInitialized) &&
                                Elapsed32(now, old(lastDataRequest)) >= DataRequestInterval
                             then now else old(lastDataRequest))
    }

    /** The print block of `loop`, `elapsed` milliseconds after the
        previous one: the sensor, speed and RPM filters, the accounting, the
        warning check and, until initialised, the request for and handling
        of the dashboard's reply. */
    method PrintTick(now: Clock32, elapsed: int, counts: Readings, reply: Option<string>)
      modifies this`sensors, this`speedo, this`displayRpm, this`currentRpm, this`trip,
               this`odometerAccumulated, this`odometerPulses, this`warning,
               this`persistentDataInitialized, this`lastDataRequest, this`outbox
      ensures TickEffect(now, elapsed, counts, reply)
      ensures old(persistentDataInitialized) ==> persistentDataInitialized && outbox == old(outbox)
      ensures !old(persistentDataInitialized) ==>
                outbox == old(outbox) + (if Elapsed32(now, old(lastDataRequest)) >= DataRequestInterval
                                         then [InitRequest] else [])
    {
      MeasureTick(now, elapsed, counts);
      Handshake(now, reply);
    }

    /** One pass of `loop` apart from the serial links: the print block
        every 100 ms, and every 10 s the fuel totals are sent. */
    method Loop(now: Clock32, counts: Readings, reply: Option<string>)
      modifies this
      ensures Elapsed32(now, old(lastPrintTime)) >= PrintInterval ==>
                lastPrintTime == now && TickEffect(now, Elapsed32(now, old(lastPrintTime)), counts, reply)
      ensures Elapsed32(now, old(lastPrintTime)) < PrintInterval ==>
                lastPrintTime == old(lastPrintTime) && sensors == old(sensors) && speedo == old(speedo) &&
                displayRpm == old(displayRpm) && trip == old(trip) && warning == old(warning) &&
                currentRpm == old(currentRpm) && odometerPulses == old(odometerPulses) &&
                odometerAccumulated == old(odometerAccumulated) && lastDataRequest == old(lastDataRequest) &&
                persistentDataInitialized == old(persistentDataInitialized)
      ensures Elapsed32(now, old(lastOdometerSave)) >= SaveInterval ==>
                lastOdometerSave == now && |outbox| > 0 && outbox[|outbox| - 1] == ArduinoLine.SaveData(trip.fuelUsed, trip.fuelUsedBpw)
      ensures fuelConsumptionLbHr == old(fuelConsumptionLbHr)
      ensures old(persistentDataInitialized) ==> persistentDataInitialized
      ensures |outbox| >= |old(outbox)| && outbox[..|old(outbox)|] == old(outbox)
    {
      var elapsed := Elapsed32(now, lastPrintTime);
      if elapsed >= PrintInterval {
        PrintTick(now, elapsed, counts, reply);
        lastPrintTime := now;
      }
      if Elapsed32(now, lastOdometerSave) >= SaveInterval {
        SendPersistentDataUpdate();
        lastOdometerSave := now;
      }
    }
  }
}
