/** The firmware's sensor calibration: ADC counts to volts, divider volts to
    sender resistance, and the resistance and voltage curves of the
    temperature, oil pressure, fuel level, battery, dimmer, tachometer and
    speedometer inputs, plus the RPM-based fuel flow estimate. */
module Calibration {
  import opened Common

  const Vcc: real := 5.0
  const SeriesResistor: real := 1000.0
  const AdcMax: real := 1023.0

  /** The resistance reported for an open circuit. */
  const OpenCircuit: real := 1000000.0

  /** The "LO" temperature: a disconnected or frozen sender. */
  const LoTemperature: real := -999.0

  /** `analogToVoltage`: an ADC count scaled to the 5 V reference. */
  function AnalogToVoltage(count: int): (v: real)
    ensures v * AdcMax == count as real * Vcc
    ensures 0 <= count <= 1023 ==> 0.0 <= v <= Vcc
  {
    count as real * 5.0 / 1023.0
  }

  // ---------------------------------------------------------------------
  // Voltage dividers
  // ---------------------------------------------------------------------

  /** The voltage a sender of resistance `r` produces under the 1 kOhm
      pull-up from 5 V. */
  function DividerVoltage(r: real): (v: real)
    requires r >= 0.0
    ensures 0.0 <= v < Vcc
  {
    Vcc * r / (SeriesResistor + r)
  }

  /** `voltageToResistance` (the temperature senders): the divider solved for
      the sender, scaled by the 1.47 calibration factor, with the two ends
      pinned. */
  function VoltageToResistance(v: real): (r: real)
    ensures v <= 0.005 ==> r == 0.0
    ensures v >= 4.95 ==> r == OpenCircuit
    ensures 0.005 < v < 4.95 ==> r > 0.0 && r * (Vcc - v) == 1.47 * SeriesResistor * v
  {
    if v <= 0.005 then 0.0
    else if v >= 4.95 then 1000000.0
    else SeriesResistor * v / (Vcc - v) * 1.47
  }

  /** `voltageToResistanceFuel`: the same divider without a calibration
      factor and with the top pinned at 150 Ohm from 2.45 V. */
  function VoltageToResistanceFuel(v: real): (r: real)
    ensures v <= 0.005 ==> r == 0.0
    ensures v >= 2.45 ==> r == 150.0
    ensures 0.005 < v < 2.45 ==> r > 0.0 && r * (Vcc - v) == SeriesResistor * v
  {
    if v <= 0.005 then 0.0
    else if v >= 2.45 then 150.0
    else 1000.0 * v / (Vcc - v)
  }

  /** `voltageToResistanceOilPressure`: as `VoltageToResistance` with the
      factor 0.8. */
  function VoltageToResistanceOilPressure(v: real): (r: real)
    ensures v <= 0.005 ==> r == 0.0
    ensures v >= 4.95 ==> r == OpenCircuit
    ensures 0.005 < v < 4.95 ==> r > 0.0 && r * (Vcc - v) == 0.8 * SeriesResistor * v
  {
    if v <= 0.005 then 0.0
    else if v >= 4.95 then 1000000.0
    else SeriesResistor * v / (Vcc - v) * 0.8
  }

  /** Solving the divider recovers the sender: a sender of resistance `r`
      whose voltage is inside the solvable band is read back as `r` times
      the calibration factor, by all three conversions. */
  lemma DividerRoundTrip(r: real)
    requires r >= 0.0
    ensures var v := DividerVoltage(r);
            (0.005 < v < 4.95 ==> VoltageToResistance(v) == 1.47 * r &&
                                  VoltageToResistanceOilPressure(v) == 0.8 * r) &&
            (0.005 < v < 2.45 ==> VoltageToResistanceFuel(v) == r)
  {
    var v := DividerVoltage(r);
    var d := SeriesResistor + r;
    assert v * d == Vcc * r;
    assert Vcc - v == Vcc * SeriesResistor / d by {
      assert (Vcc - v) * d == Vcc * SeriesResistor;
    }
    assert SeriesResistor * v / (Vcc - v) == r by {
      assert SeriesResistor * v == r * (Vcc - v);
    }
  }

  /** `v / (5 - v)` grows with `v` below 5 V. */
  lemma DividerRatioMonotone(a: real, b: real)
    requires 0.0 <= a <= b < Vcc
    ensures a / (Vcc - a) <= b / (Vcc - b)
  {
    var da, db := 5.0 - a, 5.0 - b;
    var x, y := a / da, b / db;
    assert x >= 0.0;
    assert x * db <= x * da;
    assert x * da == a;
    assert y * db == b;
    assert x * db <= y * db;
    assert x <= y by {
      CancelPositive(x, y, db);
    }
  }

  lemma CancelPositive(x: real, y: real, c: real)
    requires c > 0.0 && x * c <= y * c
    ensures x <= y
  {
  }

  /** A higher voltage never reads as a lower resistance (temperature senders). */
  lemma ResistanceMonotone(a: real, b: real)
    requires a <= b
    ensures VoltageToResistance(a) <= VoltageToResistance(b)
  {
    if 0.005 < a < 4.95 {
      var ra := SeriesResistor * a / (Vcc - a) * 1.47;
      assert ra == 1470.0 * (a / (Vcc - a));
      if b < 4.95 {
        DividerRatioMonotone(a, b);
        assert VoltageToResistance(b) == 1470.0 * (b / (Vcc - b));
      } else {
        DividerRatioMonotone(a, 4.95);
        assert 4.95 / (Vcc - 4.95) == 99.0;
      }
    }
  }

  /** A higher voltage never reads as a lower resistance (oil pressure sender). */
  lemma OilResistanceMonotone(a: real, b: real)
    requires a <= b
    ensures VoltageToResistanceOilPressure(a) <= VoltageToResistanceOilPressure(b)
  {
    if 0.005 < a < 4.95 {
      var ra := SeriesResistor * a / (Vcc - a) * 0.8;
      assert ra == 800.0 * (a / (Vcc - a));
      if b < 4.95 {
        DividerRatioMonotone(a, b);
        assert VoltageToResistanceOilPressure(b) == 800.0 * (b / (Vcc - b));
      } else {
        DividerRatioMonotone(a, 4.95);
        assert 4.95 / (Vcc - 4.95) == 99.0;
      }
    }
  }

  /** Below 2.45 V a higher voltage never reads as a lower resistance (fuel
      sender), but the 150 Ohm pin at 2.45 V lies below what the divider
      gives just under it: 2.0 V reads about 667 Ohm. */
  lemma FuelResistanceShape(a: real, b: real)
    requires a <= b < 2.45
    ensures VoltageToResistanceFuel(a) <= VoltageToResistanceFuel(b)
    ensures VoltageToResistanceFuel(2.0) > VoltageToResistanceFuel(2.45)
  {
    if 0.005 < a {
      var ra := 1000.0 * a / (Vcc - a);
      assert ra == 1000.0 * (a / (Vcc - a));
      DividerRatioMonotone(a, b);
      assert VoltageToResistanceFuel(b) == 1000.0 * (b / (Vcc - b));
    }
  }

  // ---------------------------------------------------------------------
  // Piecewise-linear tables
  // ---------------------------------------------------------------------

  /** The straight line through `(r1, y1)` and `(r2, y2)` at `r`. */
  function Lerp(r1: real, y1: real, r2: real, y2: real, r: real): (y: real)
    requires r1 != r2
  {
    y1 + (r - r1) / (r2 - r1) * (y2 - y1)
  }

  /** Where the line lies, for `r` between the two end points. */
  lemma LerpBetween(r1: real, y1: real, r2: real, y2: real, r: real)
    requires r1 < r2 && r1 <= r <= r2
    ensures y1 <= y2 ==> y1 <= Lerp(r1, y1, r2, y2, r) <= y2
    ensures y2 <= y1 ==> y2 <= Lerp(r1, y1, r2, y2, r) <= y1
    ensures Lerp(r1, y1, r2, y2, r1) == y1 && Lerp(r1, y1, r2, y2, r2) == y2
  {
    UnitFraction(r - r1, r2 - r1);
    Between(y1, (r - r1) / (r2 - r1), y2, Lerp(r1, y1, r2, y2, r));
    SelfQuotient(r2 - r1);
  }

  lemma SelfQuotient(c: real)
    requires c != 0.0
    ensures c / c == 1.0
  {
  }

  /** A part `n` of a positive whole `c` is a fraction in [0, 1]. */
  lemma UnitFraction(n: real, c: real)
    requires 0.0 <= n <= c && c > 0.0
    ensures 0.0 <= n / c <= 1.0
  {
    assert n / c * c == n;
  }

  /** A point a fraction `t` of the way from `a` to `b` lies between them. */
  lemma Between(a: real, t: real, b: real, y: real)
    requires 0.0 <= t <= 1.0 && y == a + t * (b - a)
    ensures a <= b ==> a <= y <= b
    ensures b <= a ==> b <= y <= a
  {
    if a <= b {
      NonnegativeProduct(t, b - a);
      NonnegativeProduct(1.0 - t, b - a);
      assert b - y == (1.0 - t) * (b - a);
    } else {
      NonnegativeProduct(t, a - b);
      NonnegativeProduct(1.0 - t, a - b);
      assert y - b == (1.0 - t) * (a - b);
      assert a - y == t * (a - b);
    }
  }

  lemma NonnegativeProduct(x: real, y: real)
    requires 0.0 <= x && 0.0 <= y
    ensures 0.0 <= x * y
  {
  }

  /** The line is monotone in `r`, in the direction of its end points. */
  lemma LerpMonotone(r1: real, y1: real, r2: real, y2: real, a: real, b: real)
    requires r1 < r2 && a <= b
    ensures y1 <= y2 ==> Lerp(r1, y1, r2, y2, a) <= Lerp(r1, y1, r2, y2, b)
    ensures y2 <= y1 ==> Lerp(r1, y1, r2, y2, b) <= Lerp(r1, y1, r2, y2, a)
  {
    assert (a - r1) / (r2 - r1) <= (b - r1) / (r2 - r1);
  }

  // ---------------------------------------------------------------------
  // Temperature senders (oil and coolant share one curve)
  // ---------------------------------------------------------------------

  /** The factory points: 7500 Ohm at 39 F, 3400 Ohm at 68 F, 185 Ohm at 210 F. */
  const TempResistances: seq<real> := [7500.0, 3400.0, 185.0]
  const TempDegrees: seq<real> := [39.0, 68.0, 210.0]

  /** The reference curve: "LO" above 10 kOhm; otherwise the broken line
      through the factory points, flat beyond its ends. */
  function TemperatureCurve(r: real): real
  {
    if r > 10000.0 then LoTemperature
    else if r >= 7500.0 then 39.0
    else if r <= 185.0 then 210.0
    else if r >= 3400.0 then Lerp(7500.0, 39.0, 3400.0, 68.0, r)
    else Lerp(3400.0, 68.0, 185.0, 210.0, r)
  }

  /** `oilTemperatureFahrenheit` and `coolantTemperatureFahrenheit`: the two
      source functions are identical. The table walk returns on the first
      segment that contains the resistance; its fallback of 68 F is never
      reached. */
  method TemperatureFahrenheit(resistance: real) returns (t: real)
    ensures t == TemperatureCurve(resistance)
  {
    if resistance > 10000.0 {
      return LoTemperature;
    }
    if resistance >= TempResistances[0] {
      return TempDegrees[0];
    }
    if resistance <= TempResistances[2] {
      return TempDegrees[2];
    }
    for i := 0 to 2
      invariant resistance < TempResistances[i]
    {
      if resistance <= TempResistances[i] && resistance >= TempResistances[i + 1] {
        var r1, r2 := TempResistances[i], TempResistances[i + 1];
        var t1, t2 := TempDegrees[i], TempDegrees[i + 1];
        var ratio := (r1 - resistance) / (r1 - r2);
        t := t1 + ratio * (t2 - t1);
        assert t == Lerp(r1, t1, r2, t2, resistance);
        return;
      }
    }
    assert false;
    t := 68.0;
  }

  /** The "LO" sentinel appears exactly above 10 kOhm; every other reading
      lies between 39 F and 210 F. */
  lemma TemperatureRange(r: real)
    ensures TemperatureCurve(r) == LoTemperature <==> r > 10000.0
    ensures r <= 10000.0 ==> 39.0 <= TemperatureCurve(r) <= 210.0
  {
    if 185.0 < r < 3400.0 {
      LerpBetween(185.0, 210.0, 3400.0, 68.0, r);
      assert Lerp(3400.0, 68.0, 185.0, 210.0, r) == Lerp(185.0, 210.0, 3400.0, 68.0, r);
    } else if 3400.0 <= r < 7500.0 {
      LerpBetween(3400.0, 68.0, 7500.0, 39.0, r);
      assert Lerp(7500.0, 39.0, 3400.0, 68.0, r) == Lerp(3400.0, 68.0, 7500.0, 39.0, r);
    }
  }

  /** The curve passes through the three factory points. */
  lemma TemperatureFixedPoints()
    ensures TemperatureCurve(7500.0) == 39.0
    ensures TemperatureCurve(3400.0) == 68.0
    ensures TemperatureCurve(185.0) == 210.0
  {
  }

  /** A higher resistance never reads as a hotter temperature, up to the
      10 kOhm limit. */
  lemma TemperatureMonotone(a: real, b: real)
    requires a <= b <= 10000.0
    ensures TemperatureCurve(b) <= TemperatureCurve(a)
  {
    var lo := Lerp(3400.0, 68.0, 185.0, 210.0, a);
    assert Lerp(3400.0, 68.0, 185.0, 210.0, a) == Lerp(185.0, 210.0, 3400.0, 68.0, a);
    assert Lerp(3400.0, 68.0, 185.0, 210.0, b) == Lerp(185.0, 210.0, 3400.0, 68.0, b);
    assert Lerp(7500.0, 39.0, 3400.0, 68.0, a) == Lerp(3400.0, 68.0, 7500.0, 39.0, a);
    assert Lerp(7500.0, 39.0, 3400.0, 68.0, b) == Lerp(3400.0, 68.0, 7500.0, 39.0, b);
    TemperatureRange(a);
    TemperatureRange(b);
    if 185.0 < a && b < 3400.0 {
      LerpMonotone(185.0, 210.0, 3400.0, 68.0, a, b);
    } else if 3400.0 <= a && b < 7500.0 {
      LerpMonotone(3400.0, 68.0, 7500.0, 39.0, a, b);
    } else if 185.0 < a < 3400.0 && 3400.0 <= b < 7500.0 {
      LerpBetween(185.0, 210.0, 3400.0, 68.0, a);
      LerpBetween(3400.0, 68.0, 7500.0, 39.0, b);
    }
  }

  // ---------------------------------------------------------------------
  // Oil pressure sender
  // ---------------------------------------------------------------------

  /** The extended factory points: 1, 43, 86 and 120 Ohm at 0, 30, 60 and 80 psi. */
  const OilResistances: seq<real> := [1.0, 43.0, 86.0, 120.0]
  const OilPressures: seq<real> := [0.0, 30.0, 60.0, 80.0]

  /** The non-linear correction applied to an interpolated pressure. */
  function PressureCorrection(p: real): (q: real)
    ensures p < 10.0 ==> q == 4.0 * p
    ensures 10.0 <= p < 30.0 ==> q == 2.5 * p
    ensures p >= 30.0 ==> q == 1.5 * p
  {
    if p < 10.0 then p * 4.0 else if p < 30.0 then p * 2.5 else p * 1.5
  }

  /** The uncorrected broken line through the factory points, for a
      resistance strictly between the two ends of the table; each segment
      includes its upper end, as the first match of the table walk does. */
  function OilTable(r: real): real
  {
    if r <= 43.0 then Lerp(1.0, 0.0, 43.0, 30.0, r)
    else if r <= 86.0 then Lerp(43.0, 30.0, 86.0, 60.0, r)
    else Lerp(86.0, 60.0, 120.0, 80.0, r)
  }

  /** The reference curve of `oilPressurePSI`. */
  function OilPressureCurve(r: real): real
  {
    if r > 200.0 then 0.0
    else if r <= 1.0 then 0.0
    else if r >= 120.0 then 80.0
    else PressureCorrection(OilTable(r))
  }

  /** `oilPressurePSI`: a disconnected sender reads 0; the table walk
      returns on the first segment that contains the resistance and
      corrects the interpolated pressure; its fallback (0 psi) is never
      reached. */
  method OilPressurePsi(resistance: real) returns (p: real)
    ensures p == OilPressureCurve(resistance)
  {
    if resistance > 200.0 {
      return 0.0;
    }
    if resistance <= OilResistances[0] {
      return OilPressures[0];
    }
    if resistance >= OilResistances[3] {
      return OilPressures[3];
    }
    for i := 0 to 3
      invariant resistance > OilResistances[i]
    {
      if resistance >= OilResistances[i] && resistance <= OilResistances[i + 1] {
        var r1, r2 := OilResistances[i], OilResistances[i + 1];
        var p1, p2 := OilPressures[i], OilPressures[i + 1];
        var ratio := (resistance - r1) / (r2 - r1);
        var pressure := p1 + ratio * (p2 - p1);
        assert pressure == OilTable(resistance);
        if pressure < 10.0 {
          pressure := pressure * 4.0;
        } else if pressure < 30.0 {
          pressure := pressure * 2.5;
        } else {
          pressure := pressure * 1.5;
        }
        return pressure;
      }
    }
    assert false;
    p := 0.0;
  }

  /** The cases of the oil pressure curve: 0 psi above 200 Ohm or at 1 Ohm
      and below, 80 psi from 120 to 200 Ohm, and in between the table
      pressure times 4, 2.5 or 1.5 as it is below 10, below 30, or higher.
      Every reading lies in [0, 120]. */
  lemma OilPressureCases(r: real)
    ensures r > 200.0 || r <= 1.0 ==> OilPressureCurve(r) == 0.0
    ensures 120.0 <= r <= 200.0 ==> OilPressureCurve(r) == 80.0
    ensures 1.0 < r < 120.0 ==>
              0.0 < OilTable(r) < 80.0 && OilPressureCurve(r) == PressureCorrection(OilTable(r))
    ensures 0.0 <= OilPressureCurve(r) <= 120.0
  {
    if 1.0 < r < 120.0 {
      if r <= 43.0 {
        LerpBetween(1.0, 0.0, 43.0, 30.0, r);
      } else if r <= 86.0 {
        LerpBetween(43.0, 30.0, 86.0, 60.0, r);
      } else {
        LerpBetween(86.0, 60.0, 120.0, 80.0, r);
      }
    }
  }

  /** The correction makes the curve fall where the table pressure crosses
      10 psi: 13.6 Ohm reads 36 psi while the higher 15 Ohm reads 25 psi. */
  lemma OilPressureNotMonotone()
    ensures OilPressureCurve(13.6) == 36.0
    ensures OilPressureCurve(15.0) == 25.0
  {
    assert OilTable(13.6) == 9.0;
    assert OilTable(15.0) == 10.0;
  }

  // ---------------------------------------------------------------------
  // Fuel level, battery and dimmer
  // ---------------------------------------------------------------------

  /** `fuelLevelPercent` as a function of the fuel pin's voltage and the
      RPM of the previous tick: above 100 RPM the 0.40 V ground-loop rise is
      taken off first. */
  function FuelLevelPercent(voltage: real, rpm: real): (pct: real)
    ensures 0.0 <= pct <= 100.0
    ensures var v := if rpm > 100.0 then voltage - 0.40 else voltage;
            (v > 3.0 ==> pct == 100.0) &&
            (0.85 < v <= 3.0 ==> pct == 0.0) &&
            (0.78 <= v <= 0.85 ==> pct == 100.0) &&
            (v <= 0.05 ==> pct == 0.0)
  {
    var v := if rpm > 100.0 then voltage - 0.40 else voltage;
    if v > 3.0 then 100.0
    else if v > 0.85 then 0.0
    else
      var pct := if v >= 0.78 then 100.0
                 else if v <= 0.05 then 0.0
                 else if v >= 0.18 then 45.0 + ((v - 0.18) / (0.78 - 0.18)) * 55.0
                 else (v / 0.18) * 45.0;
      if pct < 0.0 then 0.0 else if pct > 100.0 then 100.0 else pct
  }

  /** Inside the calibrated band the reading rises with the voltage, and the
      measured calibration point (0.18 V is 45 %) holds with the engine
      stopped and, 0.40 V higher, with it running. */
  lemma FuelLevelCalibration(a: real, b: real, rpm: real)
    requires 0.05 < a <= b < 0.78 && rpm <= 100.0
    ensures FuelLevelPercent(a, rpm) <= FuelLevelPercent(b, rpm)
    ensures FuelLevelPercent(0.18, rpm) == 45.0
    ensures FuelLevelPercent(0.58, 101.0) == 45.0
  {
    if a < 0.18 <= b {
      assert a / 0.18 < 1.0;
    } else if 0.18 <= a {
      assert (a - 0.18) / 0.6 <= (b - 0.18) / 0.6;
    } else {
      assert a / 0.18 <= b / 0.18;
    }
    assert (b - 0.18) / 0.6 < 1.0;
  }

  /** `batteryVoltage`: undoing the measured divider. */
  function BatteryVoltage(v: real): (volts: real)
    ensures volts == 3.79 * v
    ensures 0.0 <= v <= Vcc ==> 0.0 <= volts <= 18.95
  {
    v * 3.79
  }

  /** `dimmerBrightness`: a floating input (under 3 V at the lamp circuit)
      gives the default 90 %; otherwise 6 V to 14.5 V maps linearly onto
      20 % to 100 %, clamped, so the screen never goes dark. */
  function DimmerBrightness(v: real): (pct: real)
    ensures 20.0 <= pct <= 100.0
    ensures v * 3.676 < 3.0 ==> pct == 90.0
    ensures 6.0 <= v * 3.676 <= 14.5 ==> pct == (v * 3.676 - 6.0) / 8.5 * 80.0 + 20.0
    ensures 3.0 <= v * 3.676 <= 6.0 ==> pct == 20.0
    ensures v * 3.676 >= 14.5 ==> pct == 100.0
  {
    var actual := v * 3.676;
    if actual < 3.0 then 90.0
    else
      var a := Constrain(actual, 6.0, 14.5);
      assert 0.0 <= (a - 6.0) / (14.5 - 6.0) <= 1.0 by {
        assert a - 6.0 <= 14.5 - 6.0;
      }
      ((a - 6.0) / (14.5 - 6.0)) * 80.0 + 20.0
  }

  // ---------------------------------------------------------------------
  // Tachometer and speedometer (frequency-to-voltage converters)
  // ---------------------------------------------------------------------

  /** The RPM correction factor above 1000 RPM: 1.17 falling to 0.92 over
      the next 200 RPM. */
  function RpmCorrection(rpm: real): (f: real)
    ensures 0.92 <= f <= 1.17
  {
    Constrain(1.17 - ((rpm - 1000.0) / 200.0) * 0.25, 0.92, 1.17)
  }

  /** The tachometer curve on the converter's voltage. */
  function TachometerCurve(voltage: real): (rpm: real)
    ensures 0.0 <= rpm <= 6500.0
    ensures voltage < 0.1 ==> rpm == 0.0
    ensures voltage >= 0.1 ==> rpm >= 50.0
  {
    if voltage < 0.1 then 0.0
    else
      var base := (voltage / 0.65) * 660.0;
      var corrected := if base < 1000.0 then base * 1.17 else base * RpmCorrection(base);
      var rpm := corrected + 50.0;
      var capped := if rpm > 6500.0 then 6500.0 else rpm;
      if capped < 0.0 then 0.0 else capped
  }

  /** `readTachometerRPM` on an ADC count. */
  function TachometerRpm(count: int): (rpm: real)
    ensures 0.0 <= rpm <= 6500.0
    ensures rpm == TachometerCurve(count as real * (5.0 / 1023.0))
  {
    TachometerCurve(count as real * (5.0 / 1023.0))
  }

  /** Below 1000 RPM of base reading the correction is +17 % and the offset
      50; the graduated correction makes the curve fall just above: a
      base reading of 1200 RPM displays lower than one of 990 RPM. */
  lemma TachometerShape(voltage: real)
    requires 0.1 <= voltage && (voltage / 0.65) * 660.0 < 1000.0
    ensures TachometerCurve(voltage) == (voltage / 0.65) * 660.0 * 1.17 + 50.0
    ensures TachometerCurve(0.65 * 990.0 / 660.0) > TachometerCurve(0.65 * 1200.0 / 660.0)
  {
    assert (0.65 * 990.0 / 660.0 / 0.65) * 660.0 == 990.0;
    assert (0.65 * 1200.0 / 660.0 / 0.65) * 660.0 == 1200.0;
  }

  /** `readSpeedometerMPH` on the converter's voltage: nothing below 0.15 V,
      otherwise 37.5 mph per volt up to 200 mph. The zener branch and the
      0.1 V test inside are dead: neither changes the result. */
  function SpeedometerCurve(voltage: real): (mph: real)
    ensures 0.0 <= mph <= 200.0
    ensures voltage < 0.15 ==> mph == 0.0
    ensures 0.15 <= voltage ==> mph == Min(voltage * 37.5, 200.0)
  {
    if voltage < 0.15 then 0.0
    else
      var mph := if voltage < 0.1 then 0.0 else voltage * 37.5;
      var capped := if mph > 200.0 then 200.0 else mph;
      if capped < 0.0 then 0.0 else capped
  }

  /** `readSpeedometerMPH` on an ADC count: a reading of the 5 V range
      never reaches the 200 mph cap, and a larger count never reads slower. */
  function SpeedometerMph(count: int): (mph: real)
    ensures 0 <= count <= 1023 ==> 0.0 <= mph <= 187.5
    ensures mph == SpeedometerCurve(count as real * (5.0 / 1023.0))
  {
    SpeedometerCurve(count as real * (5.0 / 1023.0))
  }

  lemma SpeedometerMonotone(a: int, b: int)
    requires a <= b
    ensures SpeedometerMph(a) <= SpeedometerMph(b)
  {
    assert a as real * (5.0 / 1023.0) <= b as real * (5.0 / 1023.0);
  }

  // ---------------------------------------------------------------------
  // Fuel flow estimated from RPM
  // ---------------------------------------------------------------------

  /** The unsmoothed estimate of `estimateFuelConsumptionFromRPM`, in lb/hr,
      for an engine at or above 500 RPM: idle, low cruise, speed-scaled
      cruise and highway bands, and a high-RPM band; clamped to [0, 120]. */
  function FuelEstimate(rpm: real, speed: real): (lbHr: real)
    ensures 0.0 <= lbHr <= 120.0
    ensures rpm < 800.0 ==> lbHr == 4.8
    ensures 800.0 <= rpm < 1500.0 ==> 4.8 <= lbHr < 12.0
  {
    var speedFactor := if speed > 0.0 then speed / 60.0 else 1.0;
    var est := if rpm < 800.0 then 4.8
               else if rpm < 1500.0 then 4.8 + ((rpm - 800.0) / 700.0) * 7.2
               else if rpm < 2500.0 then (12.0 + (rpm - 1500.0) * 0.006) * speedFactor
               else if rpm < 4000.0 then (18.0 + (rpm - 2500.0) * 0.012) * speedFactor
               else 48.0 + (rpm - 4000.0) * 0.018;
    assert 800.0 <= rpm < 1500.0 ==> 0.0 <= (rpm - 800.0) / 700.0 < 1.0;
    if est < 0.0 then 0.0 else if est > 120.0 then 120.0 else est
  }

  /** The new `currentFuelConsumptionLbHr`: 0 below 500 RPM, otherwise 80 %
      of the old value and 20 % of the estimate. */
  function EstimatedConsumption(current: real, rpm: real, speed: real): (lbHr: real)
    ensures rpm < 500.0 ==> lbHr == 0.0
    ensures rpm >= 500.0 ==> lbHr - FuelEstimate(rpm, speed) == 0.8 * (current - FuelEstimate(rpm, speed))
  {
    if rpm < 500.0 then 0.0
    else current * 0.8 + FuelEstimate(rpm, speed) * 0.2
  }

  /** The smoothed value stays within [0, 120] once it is there, and each
      step moves it a fifth of the way towards the estimate. */
  lemma ConsumptionBounded(current: real, rpm: real, speed: real)
    requires 0.0 <= current <= 120.0
    ensures 0.0 <= EstimatedConsumption(current, rpm, speed) <= 120.0
    ensures rpm >= 500.0 ==>
            Abs(EstimatedConsumption(current, rpm, speed) - FuelEstimate(rpm, speed)) ==
            0.8 * Abs(current - FuelEstimate(rpm, speed))
  {
  }
}
