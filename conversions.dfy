/** The unit conversions the dashboard applies in metric mode and the decoding
    of the instant-MPG value the firmware sends (`-1` engine off, `0` idling,
    otherwise miles per gallon). Floating point is idealised as `real`. */
module Conversions {

  /** Kilometres in one mile: the factor of `mph_to_kph` and `miles_to_km`. */
  const KmPerMile: real := 1.60934

  /** Litres per 100 km times miles per gallon (US): the `mpg_to_lp100km` constant. */
  const Lp100kmMpg: real := 235.214

  /** What `mpg_to_lp100km` returns for a non-positive consumption. */
  const InvalidLp100km: real := 999.9

  function MphToKph(mph: real): (kph: real)
  {
    mph * KmPerMile
  }

  function MilesToKm(miles: real): (km: real)
  {
    miles * KmPerMile
  }

  function FahrenheitToCelsius(f: real): (c: real)
  {
    (f - 32.0) * 5.0 / 9.0
  }

  function PsiToKpa(psi: real): (kpa: real)
  {
    psi * 6.89476
  }

  function MpgToLp100km(mpg: real): (l: real)
  {
    if mpg <= 0.0 then InvalidLp100km else Lp100kmMpg / mpg
  }

  /** The reverse of `FahrenheitToCelsius`; not in the dashboard, used as a
      reference definition. */
  function CelsiusToFahrenheit(c: real): real
  {
    c * 9.0 / 5.0 + 32.0
  }

  /** Celsius conversion is invertible and fixes water's freezing and
      boiling points. */
  lemma FahrenheitRoundTrip(f: real)
    ensures CelsiusToFahrenheit(FahrenheitToCelsius(f)) == f
    ensures FahrenheitToCelsius(32.0) == 0.0 && FahrenheitToCelsius(212.0) == 100.0
  {
  }

  /** Every conversion factor is positive, so each conversion preserves
      the order of its inputs. */
  lemma ConversionsMonotone(a: real, b: real)
    requires a <= b
    ensures MphToKph(a) <= MphToKph(b) && MilesToKm(a) <= MilesToKm(b)
    ensures FahrenheitToCelsius(a) <= FahrenheitToCelsius(b)
    ensures PsiToKpa(a) <= PsiToKpa(b)
  {
  }

  /** `mpg_to_lp100km`: 999.9 for a non-positive input, otherwise the litre
      figure whose product with the MPG is the conversion constant; better
      mileage never means more litres. */
  lemma Lp100kmMeaning(mpg: real, other: real)
    ensures mpg <= 0.0 ==> MpgToLp100km(mpg) == InvalidLp100km
    ensures mpg > 0.0 ==> MpgToLp100km(mpg) > 0.0 && MpgToLp100km(mpg) * mpg == Lp100kmMpg
    ensures 0.0 < mpg <= other ==> MpgToLp100km(other) <= MpgToLp100km(mpg)
  {
    if 0.0 < mpg <= other {
      assert Lp100kmMpg / other <= Lp100kmMpg / mpg by {
        assert Lp100kmMpg / other * other == Lp100kmMpg / mpg * mpg;
      }
    }
  }

  // ---------------------------------------------------------------------
  // Instant MPG gauge
  // ---------------------------------------------------------------------

  datatype GaugeKind = Gph | EngineOff | Mpg

  /** The dictionary `decode_instant_mpg_display` returns. */
  datatype GaugeReading = GaugeReading(kind: GaugeKind, value: real, unitLabel: string, decimals: nat)

  /** Fuel flow the idle gauge shows when the measured flow is 0.01 GPH or less. */
  const IdleFallbackGph: real := 0.8

  function DecodeInstantMpgDisplay(instantMpg: real, fuelFlowGph: real, compensate: bool): (g: GaugeReading)
    ensures g.kind == Gph <==> instantMpg == 0.0
    ensures g.kind == EngineOff <==> instantMpg == -1.0
    ensures g.kind == Mpg ==> g.value == instantMpg && g.unitLabel == "MPG" && g.decimals == 1
    ensures g.kind == EngineOff ==> g.value == 0.0 && g.unitLabel == "OFF" && g.decimals == 0
    ensures g.kind == Gph ==>
              g.unitLabel == "GPH" && g.decimals == 1 &&
              var gph := if fuelFlowGph > 0.01 then fuelFlowGph else IdleFallbackGph;
              g.value == if compensate then gph / 10.0 else gph
  {
    if instantMpg == 0.0 then
      var gph := if fuelFlowGph > 0.01 then fuelFlowGph else IdleFallbackGph;
      GaugeReading(Gph, if compensate then gph / 10.0 else gph, "GPH", 1)
    else if instantMpg == -1.0 then
      GaugeReading(EngineOff, 0.0, "OFF", 0)
    else
      GaugeReading(Mpg, instantMpg, "MPG", 1)
  }

  /** The idle gauge always shows a flow above 0.001: either the measured
      flow above 0.01 or the fallback, each possibly divided by ten. */
  lemma IdleGaugePositive(fuelFlowGph: real, compensate: bool)
    ensures DecodeInstantMpgDisplay(0.0, fuelFlowGph, compensate).value > 0.001
  {
  }
}
