# Corvette C4 dashboard: a Dafny model

This project models the data path of a digital instrument cluster for a
Corvette C4, written in three parts:

- **The Arduino firmware** (`arduino_code.cpp`) samples the senders and the
  LM2907N frequency-to-voltage converters. It turns ADC counts into
  resistances, temperatures, pressures, a fuel level, an RPM and a speed, and
  smooths each display value. It keeps the trip and fuel accounting, drives
  the odometer stepper, raises critical warnings and cuts the ECU byte stream
  into five-byte packets. It also exchanges the fuel totals with the
  Raspberry Pi over the serial line.
- **The Raspberry Pi dashboard** (`arduino_combined_dashboard.py`) polls that
  line and dispatches command lines by prefix. It decodes telemetry frames into
  a key/value dictionary, integrates distance from speed, smooths the RPM and
  runs the hold gestures of the two steering-column buttons. It keeps the
  odometer, trip and fuel totals in a JSON file and answers the
  firmware's initialisation request.
- **The stand-alone ALDL reader** (`ALDL_reading_final.cpp`) classifies 200
  bit periods of the ECU's 160-baud data line by their low time. It finds a
  9-bit sync and decodes the five start-bit-framed bytes that follow. It then
  derives the fuel flow in lb/hr from the advance of the fuel counter between
  two messages.

Floating point is idealised as `real`. `millis()` is a 32-bit counter, and
elapsed times are taken modulo 2^32 (`Common.Elapsed32`). Python ticks are
unbounded integers.

The modules follow the programs:

- Side-effect-free computations are functions with lemmas about them:
  - `Common` and `Text` (strings, number formatting and parsing on both sides of the link);
  - `Conversions` and `DigitDisplay`;
  - `Buttons`, `LineProtocol` and `Calibration`;
  - the pure parts of `Persistence`, `Dashboard`, `Firmware`, `EcuLink` and `Aldl`.
- State the source mutates is a class whose methods are proved equal to a
  step function of the old state:
  - `Persistence.PersistentDataManager` and `Dashboard.DashboardCore` on the Pi;
  - `Firmware.Firmware` and `EcuLink.EcuReader` in the firmware;
  - `Aldl.AldlMonitor` in the ALDL reader.
  The properties are then proved about those step functions.
- Loops of the source are loops here, carrying their invariants:
  - the odometer pulse loop;
  - the temperature and oil pressure table walks;
  - the leading-zero scan;
  - the frame decoder;
  - the ALDL capture scan and its bit loops;
  - the ECU byte loop.

The serial line is modelled as text in both directions. Firmware output is
a list of typed lines (`Firmware.ArduinoLine`). The exact text of each line is
given by `LineProtocol.SaveDataLine`, `Firmware.InitDataText` and
`Firmware.AvgMpgUpdateText`. The model proves that the text each side prints
is read back by the other side as the same values (`LineProtocol.SaveDataRoundTrip`,
`LineProtocol.FrameRoundTrip`, `Firmware.InitDataRestoresBoth`).

Reading both sides against each other showed two faults in the firmware.
They are described under "## Findings", and the model uses the corrected
behaviour:

- The reply to the initialisation request never restores the flow-based fuel total.
- The ECU reader stops accepting bytes after a five-second gap.

One observation is not a fault. The dashboard's RPM smoothing has a "medium"
branch that can only be reached at an exact difference of 50 RPM. Its contract
states that case (`LineProtocol.SmoothRpm`).

## Model

| member | source | states |
|---|---|---|
| Text.Strip | arduino_combined_dashboard.py:610 | `str.strip()` / `String::trim`: the result starts and ends outside the whitespace set, keeps every non-whitespace character of the input, adds none and is never longer |
| Text.StripIdempotent | arduino_code.cpp:608 | trimming a trimmed line changes nothing |
| Text.StripSurrounded | arduino_combined_dashboard.py:680 | whitespace added around a string does not change its strip |
| Text.IndexOf | arduino_code.cpp:621-623 | `String::indexOf(c, from)`: -1 exactly when `c` does not occur at or after `from`, otherwise the first such index |
| Text.Split | arduino_combined_dashboard.py:674 | `str.split(sep)`: at least one piece, and no piece contains the separator |
| Text.JoinSplit | arduino_combined_dashboard.py:657 | joining the pieces of a split with the separator gives the string back |
| Text.SplitJoin | arduino_combined_dashboard.py:674 | splitting a join of separator-free pieces gives the pieces back |
| Text.SplitFirst | arduino_combined_dashboard.py:678 | `split(":", 1)`: the head is free of the separator and head + separator + tail is the piece |
| Text.ParseUnsignedHasDigit | arduino_combined_dashboard.py:680 | `float()` accepts an unsigned literal only if it holds a digit |
| Text.NatToDigits | arduino_combined_dashboard.py:915 | `str(n)` is a non-empty string of digits without a leading zero |
| Text.NatToDigitsValue | arduino_combined_dashboard.py:915 | `str(n)` denotes `n` |
| Text.ZeroPad | arduino_combined_dashboard.py:1071 | `f"{n:0{w}d}"` is all digits, as long as the longer of `w` and `str(n)` |
| Text.ZeroPadValue | arduino_combined_dashboard.py:1071 | zero padding does not change the number denoted |
| Text.PyFloatFormatted | arduino_combined_dashboard.py:660-661 | Python's `float()` reads what `Serial.print(x, k)` prints for `x = n / 10^k` back as exactly `n / 10^k` |
| Text.AtofFormatted | arduino_code.cpp:627 | `String::toFloat` reads a printed number followed by a non-continuing character back as the number |
| Text.ContainsAt | arduino_combined_dashboard.py:671 | `needle in hay` holds when the needle occurs at some index |
| Conversions.FahrenheitRoundTrip | arduino_combined_dashboard.py:443-445 | the Celsius conversion is invertible and maps 32 F to 0 C and 212 F to 100 C |
| Conversions.ConversionsMonotone | arduino_combined_dashboard.py:439-453 | mph to km/h, miles to km, F to C and psi to kPa all preserve order |
| Conversions.Lp100kmMeaning | arduino_combined_dashboard.py:455-459 | non-positive MPG gives 999.9; otherwise the litres per 100 km times the MPG is 235.214, and better mileage never gives more litres |
| Conversions.DecodeInstantMpgDisplay | arduino_combined_dashboard.py:461-489 | 0 shows the fuel flow in GPH (0.8 fallback at or below 0.01, divided by ten when compensating), -1 shows OFF, any other value shows itself as MPG with one decimal, in both directions |
| Conversions.IdleGaugePositive | arduino_combined_dashboard.py:465 | the idle gauge always shows a positive flow |
| DigitDisplay.PyInt | arduino_combined_dashboard.py:915 | `int(x)` truncates toward zero: it is the floor for non-negative `x` and lies within one of `x` |
| DigitDisplay.LeadingZeroMask | arduino_combined_dashboard.py:911-937 | the digits are the zero-padded value, and a digit is dimmed exactly when it and all digits before it are zeros and it is not the last digit |
| DigitDisplay.OdometerSplit | arduino_combined_dashboard.py:1061-1068 | a missing or negative total shows zero; the whole miles are the floor and whole*10 + tenth is the floor of ten times the total, with the tenth a digit |
| DigitDisplay.OdometerDigits | arduino_combined_dashboard.py:1071-1072 | the six-digit string has at least six digits and denotes the whole miles |
| Persistence.Defaults | arduino_combined_dashboard.py:171-180 | the defaults hold odometer 89240.5, save count 0 and style 0 |
| Persistence.Merge | arduino_combined_dashboard.py:189 | `dict.update`: each key present in the loaded object replaces the in-memory value, every absent key keeps it |
| Persistence.MergeLaws | arduino_combined_dashboard.py:189 | loading a full record yields it whatever was in memory; re-applying the same update changes nothing; an empty object changes nothing |
| Persistence.SaveStepEffect | arduino_combined_dashboard.py:198-216 | one save raises the counter by exactly one and changes no other field but the time stamp, even when a file operation fails; a backup is added only when the new count is a multiple of 1000 and a file exists; the disk changes only with a write |
| Persistence.SaveThenLoad | arduino_combined_dashboard.py:212-213 | a completed write is read back by `load_data` as the record written |
| Persistence.SaveAllCounts | arduino_combined_dashboard.py:202-210 | over any run of saves the counter rises by the number of saves, and no more backups are added than multiples of 1000 are passed |
| Persistence.UpdateStepEffect | arduino_combined_dashboard.py:218-234 | the four values are always stored and the style kept; the counter rises by one exactly when some value moved by at least its threshold (0.1 mile, 0.01 gallon), else it is unchanged |
| Persistence.UpdateIdempotent | arduino_combined_dashboard.py:221-234 | repeating an update with the same values never saves again |
| Persistence.LoadStepEffect | arduino_combined_dashboard.py:171-196 | only a missing file causes a write, and then the record is the defaults with count 1; a corrupt file leaves the defaults; a file holding a full record loads back as that record |
| Persistence.AverageMpg | arduino_combined_dashboard.py:245-253 | the average lies in [0, 50]; it is positive exactly when both the fuel total and the trip exceed 0.01, and then times the fuel it gives the trip, or it is 50 when that would exceed 50 |
| Persistence.InitMessages | arduino_combined_dashboard.py:236-255 | a closed port gets nothing; an open one gets the two fuel totals and then the capped average MPG |
| Persistence.PersistentDataManager.SaveData | arduino_combined_dashboard.py:198-216 | the manager's new state is the save step of its old state |
| Persistence.PersistentDataManager.UpdateData | arduino_combined_dashboard.py:218-234 | the manager's new state is the update step of its old state |
| Persistence.PersistentDataManager.SendInitData | arduino_combined_dashboard.py:236-255 | the messages of `InitMessages` for the current record, with nothing changed |
| Buttons.NextStyle | arduino_combined_dashboard.py:285 | `(style + 1) % 5` is always a named style and cycles 0 to 4 |
| Buttons.SingleStep | arduino_combined_dashboard.py:305-330 | a button fires exactly when it has been held at least 1000 ms since a recorded start and has not fired in this hold; releasing clears the hold |
| Buttons.ButtonStepEffect | arduino_combined_dashboard.py:269-330 | with both buttons down the single timers are untouched and no single action fires; the style changes exactly when a recorded combo hold reaches 1000 ms unfired, to the next style; the combo hold is cleared only with both buttons up; a single action fires only after its own recorded hold, and a release resets that button |
| Buttons.TripFiresOncePerHold | arduino_combined_dashboard.py:305-317 | holding the trip button fires the trip reset at most once, and never if it already fired |
| Buttons.HoldFromStart | arduino_combined_dashboard.py:306-314 | a continuous hold from a recorded start fires exactly once if its last tick is 1000 ms later, and not at all otherwise |
| Buttons.HoldFromIdle | arduino_combined_dashboard.py:305-314 | a hold from rest fires once exactly when the last tick is at least 1000 ms after the first |
| Buttons.ComboSavesOncePerHold | arduino_combined_dashboard.py:278-294 | holding both buttons saves a new style at most once and never fires either single-button action |
| LineProtocol.ReadLine | arduino_combined_dashboard.py:610 | `readline()`: line and rest concatenate to the waiting text, and the line ends at its first newline (or takes everything) |
| LineProtocol.Poll | arduino_combined_dashboard.py:604-612 | nothing waiting, or more than 1000 characters waiting, yields the empty line and an emptied buffer; otherwise it yields the stripped first line |
| LineProtocol.PollConsumes | arduino_combined_dashboard.py:604-612 | each poll strictly shrinks a non-empty buffer, and what is left is exactly what follows the line |
| LineProtocol.Classify | arduino_combined_dashboard.py:622-671 | the prefixes are tested in order (init request, reset trip, style change, save data), each in both directions; a telemetry line mentions `SPEED:`, `FUELRNG:` or `AMPG_SW:` |
| LineProtocol.ParseSaveData | arduino_combined_dashboard.py:655-669 | after the prefix, a value exactly when the first field and (if present) the second field parse; a missing second field reads as 0 |
| LineProtocol.SaveDataRoundTrip | arduino_code.cpp:642-649 | the firmware's `SAVE_DATA:` line is read by the dashboard as exactly the two fuel totals printed |
| LineProtocol.FormatFixedNoComma | arduino_code.cpp:646-647 | a printed number holds no comma, colon or newline and ends in a digit |
| LineProtocol.ParsePairs | arduino_combined_dashboard.py:674-682 | the dictionary the loop builds is the reference dictionary of the comma pieces |
| LineProtocol.PairOf | arduino_combined_dashboard.py:677-682 | a piece contributes a pair only if it contains a colon |
| LineProtocol.StoreKeys | arduino_combined_dashboard.py:676-680 | a key is in the dictionary exactly when some piece decodes to a pair with that key |
| LineProtocol.StoreLastWins | arduino_combined_dashboard.py:680 | the value stored for a key is the one of the last piece carrying it |
| LineProtocol.PairsMapMeaning | arduino_combined_dashboard.py:674-682 | in the frame's dictionary a key maps to the value of its last well-formed piece |
| LineProtocol.PairsMapKeys | arduino_combined_dashboard.py:674-682 | a key is in the frame's dictionary exactly when some piece is a well-formed pair for it |
| LineProtocol.BadPieceIgnored | arduino_combined_dashboard.py:681-682 | a malformed piece (no colon, or a value that is not a number) changes nothing |
| LineProtocol.FieldDecodes | arduino_combined_dashboard.py:678-680 | one printed field `KEY:value` decodes to its key and value |
| LineProtocol.FrameRoundTrip | arduino_combined_dashboard.py:674-682 | every frame the firmware prints with plain keys is decoded to the dictionary of its fields, with the last field winning for repeated keys |
| LineProtocol.SmoothRpm | arduino_combined_dashboard.py:734-748 | a zero display snaps to the reading; a change under 50 RPM is ignored, one over 50 moves 90 % of the gap, and exactly 50 moves 30 % |
| LineProtocol.SmoothRpmBetween | arduino_combined_dashboard.py:734-748 | the smoothed display lies between the old display and the reading, unless it snapped from 0 |
| LineProtocol.SpeedWithoutReading | arduino_combined_dashboard.py:718-726 | without `SPEED` the display is kept for less than 500 ms, then zeroed |
| LineProtocol.RpmWithoutReading | arduino_combined_dashboard.py:752-761 | without `RPM` the reading and display are kept for less than 500 ms after a reading, then become N/A and 0 |
| LineProtocol.SwitchOn | arduino_combined_dashboard.py:798 | `bool(int(x))` is true exactly when the magnitude of `x` is at least 1 |
| Dashboard.Get | arduino_combined_dashboard.py:764-793 | a gauge takes the frame's value for its key when present, else keeps its value |
| Dashboard.Flag | arduino_combined_dashboard.py:797-814 | a switch takes `bool(int(value))` when its key is present, else keeps its state |
| Dashboard.ButtonEffect | arduino_combined_dashboard.py:269-330 | the button gesture leaves motion, gauges, switches, the port buffers and the link untouched |
| Dashboard.NotConnected | arduino_combined_dashboard.py:571-601 | once the link is down a poll changes nothing; a closed port drops the link |
| Dashboard.PollNothing | arduino_combined_dashboard.py:604-615 | an empty or overfull buffer ends the poll with the buffer cleared and nothing else changed |
| Dashboard.CommandsSkipFrames | arduino_combined_dashboard.py:622-669 | a command line never touches speed, RPM, gauges or switches |
| Dashboard.ResetTripEffect | arduino_combined_dashboard.py:628-639 | `RESET_TRIP:` zeroes the trip odometer, saves once and answers `AVG_MPG_UPDATE:0.0` |
| Dashboard.SaveDataEffect | arduino_combined_dashboard.py:655-669 | a malformed `SAVE_DATA:` changes nothing; a good one stores both fuel totals, saves once and leaves the odometers |
| Dashboard.DistanceIntegration | arduino_combined_dashboard.py:686-717 | each `SPEED` frame sets the display and the time; the first only seeds; later frames with dt > 0 and speed above 0.1 add the same speed * dt / 3600000 to both odometers, change nothing else in the record and set the average MPG; otherwise the record is untouched |
| Dashboard.FrameParts | arduino_combined_dashboard.py:686-814 | motion, gauges and switches after a frame are the speed, RPM, gauge and switch steps of the frame, untouched by the button gesture and the record update |
| Dashboard.Staleness | arduino_combined_dashboard.py:718-761 | a frame without `SPEED` or `RPM` blanks that display 500 ms after the last reading and keeps it before |
| Dashboard.FrameGauges | arduino_combined_dashboard.py:764-814 | gauges take the value their key carries and keep it otherwise; `AMPG` overrides the computed average; the metric switch follows `bool(int(x))` |
| Dashboard.FrameButtons | arduino_combined_dashboard.py:817-821 | a frame carrying both button states runs the gesture: a trip hold zeroes the trip and saves; an average hold changes no record; a combo from a named style saves the next style; from an unnamed style the name lookup raises, the save is skipped and the link is dropped |
| Dashboard.SaveDataEndToEnd | arduino_code.cpp:642-649 | the `SAVE_DATA:` line printed by the firmware, received whole, stores exactly the printed fuel totals in the dashboard's record |
| Dashboard.ClassifySaveData | arduino_combined_dashboard.py:655 | a line starting `SAVE_DATA:` is a save command, since no earlier prefix matches |
| Dashboard.PollPrinted | arduino_combined_dashboard.py:610 | a line the firmware ends with `println` is taken off the buffer whole |
| Dashboard.SaveDataLineShape | arduino_code.cpp:645-648 | the `SAVE_DATA:` line is a single line with no surrounding whitespace |
| Dashboard.DashboardCore.HandleButtonTiming | arduino_combined_dashboard.py:269-330 | the method's new state and result are the button effect on the old state |
| Dashboard.DashboardCore.UpdateSpeed | arduino_combined_dashboard.py:686-726 | the `SPEED` block updates motion, record and average as the speed step prescribes |
| Dashboard.DashboardCore.UpdateRpm | arduino_combined_dashboard.py:728-761 | the `RPM` block updates only the motion state, by the RPM step |
| Dashboard.DashboardCore.ProcessFrame | arduino_combined_dashboard.py:671-836 | a telemetry line is decoded into the pair dictionary and applied by the frame step |
| Dashboard.DashboardCore.HandleLine | arduino_combined_dashboard.py:622-841 | one line is dispatched by prefix as the line step prescribes |
| Dashboard.DashboardCore.ReadArduinoData | arduino_combined_dashboard.py:555-855 | one call of the reader is the read step of the old state |
| Calibration.AnalogToVoltage | arduino_code.cpp:166-172 | volts times 1023 is the count times 5, and a 10-bit count gives 0 to 5 V |
| Calibration.VoltageToResistance | arduino_code.cpp:187-205 | 0 at or below 5 mV, open circuit at or above 4.95 V, otherwise the positive divider solution with the 1.47 calibration factor |
| Calibration.VoltageToResistanceFuel | arduino_code.cpp:207-224 | 0 at or below 5 mV, 150 at or above 2.45 V, otherwise the positive divider solution |
| Calibration.VoltageToResistanceOilPressure | arduino_code.cpp:226-245 | 0 at or below 5 mV, open circuit at or above 4.95 V, otherwise the divider solution with the 0.8 factor |
| Calibration.DividerRoundTrip | arduino_code.cpp:187-245 | a sender in the solvable band is read back as its resistance times the calibration factor (1.47 temperature, 0.8 oil pressure, 1 fuel) |
| Calibration.ResistanceMonotone | arduino_code.cpp:187-205 | a higher voltage never reads as a lower temperature-sender resistance |
| Calibration.OilResistanceMonotone | arduino_code.cpp:226-245 | a higher voltage never reads as a lower oil-sender resistance |
| Calibration.FuelResistanceShape | arduino_code.cpp:207-224 | the fuel divider rises below 2.45 V but drops to 150 at 2.45 V |
| Calibration.LerpBetween | arduino_code.cpp:265-278 | the interpolation passes through both end points and stays between their values |
| Calibration.LerpMonotone | arduino_code.cpp:265-278 | the interpolation is monotone in the direction of its end points |
| Calibration.TemperatureFahrenheit | arduino_code.cpp:247-282 | the table walk of both temperature functions computes the reference broken-line curve |
| Calibration.TemperatureRange | arduino_code.cpp:251-263 | "LO" exactly above 10 kOhm, and every other reading lies in [39, 210] F |
| Calibration.TemperatureFixedPoints | arduino_code.cpp:256-259 | the curve passes through 7500 Ohm at 39 F, 3400 Ohm at 68 F, 185 Ohm at 210 F |
| Calibration.TemperatureMonotone | arduino_code.cpp:261-282 | a higher resistance never reads hotter, up to 10 kOhm |
| Calibration.PressureCorrection | arduino_code.cpp:403-425 | interpolated pressures under 10 psi are multiplied by 4, those under 30 by 2.5, the rest by 1.5 |
| Calibration.OilPressurePsi | arduino_code.cpp:378-440 | the table walk computes the reference oil pressure curve |
| Calibration.OilPressureCases | arduino_code.cpp:382-425 | 0 psi above 200 Ohm or at most 1 Ohm; 80 psi from 120 to 200 Ohm; the corrected line in between; always in [0, 120] |
| Calibration.OilPressureNotMonotone | arduino_code.cpp:403-425 | the correction makes the curve fall where the table pressure crosses 10 psi (13.6 Ohm reads 36 psi, 15 Ohm reads 25) |
| Calibration.FuelLevelPercent | arduino_code.cpp:321-376 | a percentage in [0, 100]; after taking 0.40 V off above 100 RPM, over 3 V reads 100, 0.85 to 3 V reads 0, 0.78 to 0.85 V reads 100 and 0.05 V or less reads 0 |
| Calibration.FuelLevelCalibration | arduino_code.cpp:331-370 | the level rises with the voltage inside the band; 0.18 V stopped and 0.58 V running both read 45 % |
| Calibration.BatteryVoltage | arduino_code.cpp:442-450 | the divider is undone with factor 3.79, and 0 to 5 V gives 0 to 18.95 V |
| Calibration.DimmerBrightness | arduino_code.cpp:452-469 | a floating input under 3 V gives 90 %, 3 to 6 V gives 20 %, 6 to 14.5 V is linear from 20 % to 100 %, and above gives 100 % |
| Calibration.RpmCorrection | arduino_code.cpp:716-723 | the correction factor lies in [0.92, 1.17] |
| Calibration.TachometerCurve | arduino_code.cpp:692-733 | under 0.1 V gives 0 RPM, otherwise at least 50, always at most 6500 |
| Calibration.TachometerRpm | arduino_code.cpp:692-695 | the count is scaled to volts and the result lies in [0, 6500] |
| Calibration.TachometerShape | arduino_code.cpp:710-726 | below 1000 base RPM the reading is +17 % plus 50; the curve is not monotone across 1000 RPM |
| Calibration.SpeedometerCurve | arduino_code.cpp:735-793 | under 0.15 V gives 0 mph, otherwise 37.5 mph per volt capped at 200 |
| Calibration.SpeedometerMph | arduino_code.cpp:738-739 | the count is scaled to volts, and a 10-bit count gives 0 to 187.5 mph |
| Calibration.SpeedometerMonotone | arduino_code.cpp:735-793 | a higher count never reads slower |
| Calibration.FuelEstimate | arduino_code.cpp:851-877 | the estimate lies in [0, 120] lb/hr, is 4.8 below 800 RPM and within [4.8, 12) below 1500 |
| Calibration.EstimatedConsumption | arduino_code.cpp:840-881 | 0 below 500 RPM; otherwise the value moves 20 % of the way to the estimate |
| Calibration.ConsumptionBounded | arduino_code.cpp:840-881 | the smoothed value stays within [0, 120] once there, and each step shrinks its distance to the estimate to 80 % |
| Firmware.Deadband | arduino_code.cpp:1066-1071 | a change within the deadband leaves the display; otherwise the display moves the smoothing fraction of the gap |
| Firmware.SensorStepEffect | arduino_code.cpp:1046-1114 | every display moves towards its reading without passing it (or jumps to 100 % or "LO"); changes within each deadband (fuel 1 or 1.5 when driving, oil 2, volts 0.1) leave it; the fuel display stays a percentage |
| Firmware.SpeedHysteresis | arduino_code.cpp:1197-1225 | off zero the display drops to 0 exactly under 2 mph; on zero it stays there exactly up to 4 mph |
| Firmware.SpeedStartValue | arduino_code.cpp:1214-1240 | leaving zero starts the display at min(0.3 * reading, 8) when the reading is within 2.5 mph of the last one, and at the reading itself after a jump of more than 10 |
| Firmware.RpmFilter | arduino_code.cpp:1262-1276 | gaps over 100 RPM move 80 %, gaps over 30 move 40 %, smaller ones are ignored |
| Firmware.RpmFilterTracks | arduino_code.cpp:1262-1276 | the display never passes the reading and gets strictly closer whenever it moves; it stays within [0, 6500] |
| Firmware.FuelRange | arduino_code.cpp:531-542 | the range is at most 500 and is non-negative for a non-negative level and average |
| Firmware.TripStepEffect | arduino_code.cpp:487-543 | the first call only seeds the level; drops over 0.1 % add the dropped share of 20 gallons; the instant MPG is -1 off, 0 idling, else speed/flow within [1, 50]; the flow total grows only while moving; the average is untouched |
| Firmware.OdometerFraction | arduino_code.cpp:569-578 | from a fraction of a pulse, a forward move requests the floor of the accumulated pulses and leaves a fraction |
| Firmware.OdometerAdditive | arduino_code.cpp:569-578 | two moves request as many pulses as one move of their sum |
| Firmware.WarningKind | arduino_code.cpp:652-672 | the code of the most severe violated threshold (oil, coolant, oil temperature, battery, fuel), each code in both directions, and 0 exactly when none is violated |
| Firmware.WarningStepEffect | arduino_code.cpp:675-688 | the warning is active exactly when some threshold is violated, carries its code, and restarts its clock only when it appears or changes code |
| Firmware.Commas | arduino_code.cpp:621-622 | the first position is -1 exactly when there is no comma, and otherwise holds a comma with none before it; the second is -1 exactly when no comma follows the first, and otherwise holds the next comma after it |
| Firmware.CommaFields | arduino_code.cpp:621-623 | two comma-free fields joined by a comma have one comma and no second one |
| Firmware.InitDataShape | arduino_combined_dashboard.py:240 | the dashboard's two-field `INIT_DATA:` reply needs no trimming and starts with the prefix |
| Firmware.InitDataAsWrittenDropsBpw | arduino_code.cpp:625-636 | as written, the dashboard's reply restores the fuel used but never the flow-based total |
| Firmware.InitDataRestoresBoth | arduino_code.cpp:625-636 | with the intended test, the reply restores both fuel totals exactly and marks the data initialised |
| Firmware.AvgMpgUpdateRead | arduino_code.cpp:610-615 | the `AVG_MPG_UPDATE:` reply sets the average MPG to the printed value and nothing else |
| Firmware.ResponseFrame | arduino_code.cpp:604-640 | any other reply, and an `INIT_DATA:` payload without a comma after its first character, changes nothing |
| Firmware.Firmware.UpdateOdometer | arduino_code.cpp:569-578 | the accumulator gains the distance in pulses; the loop requests its whole part and leaves a fraction below one |
| Firmware.Firmware.UpdateDistanceAndMpg | arduino_code.cpp:476-543 | the odometer moves by speed * dt / 3600000 miles and the trip state is the trip step |
| Firmware.Firmware.SendPersistentDataUpdate | arduino_code.cpp:642-649 | appends one `SAVE_DATA` line with the two fuel totals |
| Firmware.Firmware.ResetTripOdometer | arduino_code.cpp:545-555 | clears both fuel totals and the average, then prints the reset notice and a zero `SAVE_DATA` |
| Firmware.Firmware.ResetAverageFuel | arduino_code.cpp:557-566 | the same clearing without the notice |
| Firmware.Firmware.EstimateFuelConsumptionFromRpm | arduino_code.cpp:840-881 | the consumption becomes the smoothed estimate for the current RPM and speed |
| Firmware.Firmware.CheckCriticalWarnings | arduino_code.cpp:652-689 | the warning state is the warning step on the readings' code |
| Firmware.Firmware.ProcessPersistentDataResponse | arduino_code.cpp:604-640 | no reply changes nothing; a reply is handled by the corrected response function |
| Firmware.Firmware.FilterSensors | arduino_code.cpp:1046-1114 | the displays become the sensor step of the old displays |
| Firmware.Firmware.FilterSpeed | arduino_code.cpp:1166-1245 | the speedometer state becomes the speed step of its old value |
| Firmware.Firmware.FilterRpm | arduino_code.cpp:1262-1276 | the RPM display becomes the filtered value and the current RPM follows it |
| Firmware.Firmware.ReadSensors | arduino_code.cpp:1026-1040 | each reading is its calibration curve on its ADC count; the fuel level is a percentage and the oil pressure lies in [0, 120] |
| Firmware.Firmware.MeasureTick | arduino_code.cpp:1023-1284 | the displays are the sensor step on the calibrated readings, with the RPM of the previous tick; speed and RPM are their filter steps; the odometer moves by the distance driven; the trip is the trip step at the new speed, RPM and fuel display; the warning is the warning step on the new displays |
| Firmware.Firmware.Handshake | arduino_code.cpp:1286-1295 | once initialised nothing changes; until then an init request goes out and the request time is refreshed exactly when 5 s have passed, and a reply, if any, is handled |
| Firmware.Firmware.PrintTick | arduino_code.cpp:1023-1295 | the whole new state (`TickEffect`): every display, filter, odometer, trip and warning step of the tick, the request time, and the reply handled after the trip step until initialised; an init request is the only output, and only until initialised |
| Firmware.Firmware.Loop | arduino_code.cpp:1014-1364 | the print block runs exactly every 100 ms, leaving the whole state of `TickEffect`, and otherwise nothing filtered changes; every 10 s the fuel totals are sent last; output only grows; initialisation is never undone |
| EcuLink.ParsePacket | arduino_code.cpp:975-991 | overdrive is bit 0 and the shift light bit 7 of the status byte; the other four bytes are cylinders, fuel, distance and scale |
| EcuLink.FeedIsPacketsOf | arduino_code.cpp:953-967 | the byte loop cuts the partial packet followed by the new bytes into five-byte packets and a leftover shorter than five |
| EcuLink.PacketsSplit | arduino_code.cpp:953-967 | cutting a stream in two parts gives the packets of the first, then those of its leftover plus the second |
| EcuLink.ReadAsWritten | arduino_code.cpp:947-973 | as written, every call keeps the partial packet shorter than five |
| EcuLink.AsWrittenNeverResyncs | arduino_code.cpp:965-971 | as written, from an empty buffer more than 5 s after the last packet, bytes arriving one per pass are all dropped and no packet is ever produced |
| EcuLink.AsWrittenPowerUpExample | arduino_code.cpp:947-973 | from power-up, five bytes at 6.0 to 6.4 s give no packet as written but one packet with the corrected reader |
| EcuLink.Read | arduino_code.cpp:947-973 | the corrected reader keeps the partial packet shorter than five |
| EcuLink.RunOneByteEach | arduino_code.cpp:953-973 | with the corrected reader, bytes arriving one per pass are cut into exactly the packets of the whole stream |
| EcuLink.ReadDropsOnlyStale | arduino_code.cpp:953-972 | with the corrected reader, a pass without bytes drops the partial packet exactly when the last byte is more than 5 s old; a pass with bytes yields the packets of the partial packet plus the bytes, keeps their leftover and records the time |
| EcuLink.EcuReader.PushByte | arduino_code.cpp:954-966 | storing one byte either completes a packet, which is emitted and empties the buffer, or extends the partial packet; as in the corrected read, the time is refreshed on every byte |
| EcuLink.EcuReader.FeedBytes | arduino_code.cpp:953-967 | after the byte loop the packets emitted and the partial packet are exactly those of cutting the old partial packet followed by the new bytes into five-byte packets |
| EcuLink.FeedSnoc | arduino_code.cpp:953-967 | feeding one more byte after a stream is one buffer step after feeding the stream |
| EcuLink.EcuReader.ReadEcuData | arduino_code.cpp:947-973 | the static buffer, index and time after a call are those of the corrected read, and the new packets are appended in order |
| Aldl.ClassifyLowTime | ALDL_reading_final.cpp:97-105 | a 0 exactly for 0.1 to 1.5 ms low, a 1 exactly for 2.5 to 5.5 ms, otherwise unreadable |
| Aldl.Classified | ALDL_reading_final.cpp:72-108 | the capture classifies each of the bit periods in order |
| Aldl.SyncAt | ALDL_reading_final.cpp:112-118 | the scan finds a sync exactly when nine consecutive 1-bits start there |
| Aldl.HasQuestionMarks | ALDL_reading_final.cpp:122-128 | the scan reports an unreadable bit exactly when the 54-bit window holds one |
| Aldl.DecodeByte | ALDL_reading_final.cpp:148-153 | the bit loop builds the byte the eight bits denote most significant first |
| Aldl.BitsRoundTrip | ALDL_reading_final.cpp:148-153 | reading back the bits of a value below 2^n gives the value |
| Aldl.DecodeBytes | ALDL_reading_final.cpp:138-156 | valid exactly when all five start bits are 0, and then the bytes are the frame's bytes |
| Aldl.FrameRoundTrip | ALDL_reading_final.cpp:111-156 | wherever the bits the ECU sends for five bytes appear in the capture, the reader accepts that position and decodes those bytes |
| Aldl.CorrectFuelConstant | ALDL_reading_final.cpp:166-170 | 245 becomes 122 and any other byte is kept, so 245 never comes out |
| Aldl.MessageOf | ALDL_reading_final.cpp:132-170 | the timestamp is the capture start in whole milliseconds, bytes 0 to 3 map to mode word, cylinders, fuel and distance, and the fuel constant is corrected |
| Aldl.CaptureMessage | ALDL_reading_final.cpp:66-179 | a message exactly from the first position with a clean sync and valid start bits; none exactly when no position up to 146 holds one |
| Aldl.FirstValidUnique | ALDL_reading_final.cpp:111-176 | the capture's message is determined: at most one position is the first valid one |
| Aldl.FuelIncrement | ALDL_reading_final.cpp:185-188 | the counter's advance across its wrap at 256 lies in [0, 256) and takes the last count to the current one |
| Aldl.FuelConsumptionMeaning | ALDL_reading_final.cpp:181-210 | a flow is reported exactly when the advance is at most 128 and the interval is in (0, 10) s; the flow times the interval times 255*4 is the constant times the advance times 1000; it is 0 exactly when the advance or the constant is 0 |
| Aldl.AldlMonitor.Step | ALDL_reading_final.cpp:46-64 | a failed capture changes nothing; a message becomes the last one and, when a previous one exists and a flow is defined, its flow is appended |

## Left out

- Sensor sampling is not modelled: `analogRead`, `analogReadAverage`, `digitalRead` and the pull-up switches. Readings are parameters as ADC counts (`Firmware.Readings`). Switches and buttons on the firmware side only feed prints.
- `fuelLevelPercent` takes its own ADC sample of the fuel pin; the model uses the same count as the resistance path.
- The second `millis()` read inside the initialisation block of `loop`, and the ones inside `readECUData`, are taken as the pass's `now`.
- `tryALDLReading` and the ALDL state machine in the firmware are not modelled. The ESP32 side that feeds them is not part of this model. As a result `fuelConsumptionLbHr` changes only through `EstimateFuelConsumptionFromRpm`, which `loop` never calls.
- `resetTripOdometer` and `resetAverageFuel` are modelled as methods, but `loop` never calls them; the source's loop does not either.
- `generateOdometerPulse` pin toggling and its 5 ms pulse timing: the model counts pulse requests (`odometerPulses`).
- The acceleration detection of the speed block only feeds code that is commented out, so it is left out.
- The frame, switch, debug and `ECU_DATA` prints of the firmware are left out, including HEX formatting. Only the protocol lines the dashboard acts on are modelled.
- `dimmerBrightness` is computed and only printed; it is modelled as a function.
- Firmware.SpeedStartValue: the gentle start value of the speed hysteresis is overwritten in the same tick whenever the reading differs from the last raw reading by more than 2.5 mph. The contract states both outcomes but not a "start at 30 %" promise.
- The micro-second capture loop of the ALDL reader (`micros`, `digitalRead`, `delayMicroseconds`): the capture takes each period's low time as input. The `delay` calls, the infinite monitoring loop and `setup` are also left out.
- Floating point is `real`: no IEEE rounding, overflow, `inf` or `nan`. Python's `float()` is modelled for plain decimal literals only, with no exponent, `inf` or `nan`. `toFloat` is modelled for the same grammar.
- Python's `%.4f` and `%.1f` formatting of the dashboard's replies is replaced by exact fixed-point texts of integers scaled by 10^k.
- Strings are characters; the UTF-8 decoding with `errors='ignore'` is not modelled.
- Demo mode, rendering (every `draw_*` function), the screen brightness via sysfs, `find_arduino_port` and serial port discovery are left out. So are `tools/debug_timing_analysis.py`, signal handling and the pygame event loop.
- JSON value types are not modelled: a loaded key holds a value of the record's type. A half-written file, and exceptions other than a failed backup copy or a failed write, are not modelled.
- Python-side time is a parameter of each call (`ticks`), as is wall-clock time for saves.
- Firmware.Firmware.ProcessPersistentDataResponse: runs the corrected reply handling (`Firmware.Response`, which reads the second field whenever text follows the first comma), not the `secondComma > firstComma` test of arduino_code.cpp:628-630. The as-written handling is `Firmware.ResponseAsWritten`, and the difference is the first finding below.
- Firmware.Firmware.PrintTick: through `Handshake`, it inherits the corrected reply handling of `ProcessPersistentDataResponse`.
- Firmware.Firmware.Loop: its print branch inherits the same corrected reply handling.
- Firmware.Firmware.Handshake: it handles the reply with the corrected `ProcessPersistentDataResponse`.
- EcuLink.EcuReader.PushByte: refreshes `lastEcuData` on every byte, the corrected behaviour. arduino_code.cpp:961-966 refreshes it only when the fifth byte completes a packet. The as-written reader is `EcuLink.ReadAsWritten`, and the difference is the second finding below.
- EcuLink.EcuReader.FeedBytes: its loop runs `PushByte`, so it also refreshes the time on every byte, unlike arduino_code.cpp:953-967.
- EcuLink.EcuReader.ReadEcuData: its contract ties it to the corrected `EcuLink.Read`, not to `EcuLink.ReadAsWritten`, the reader of arduino_code.cpp:947-973 as written.

## Findings

| source | as written | input that shows it | evidently intended | confidence | as-written member | corrected member |
|---|---|---|---|---|---|---|
| arduino_code.cpp:621-632 | the flow-based fuel total is read only if a second comma follows the first | the dashboard's reply `INIT_DATA:1.2500,0.7500` has one comma, so `fuelUsedBPW` is never restored after a restart | read the second field whenever text follows the first comma | high (not executed) | Firmware.InitDataAsWrittenDropsBpw | Firmware.InitDataRestoresBoth |
| arduino_code.cpp:961-971 | `lastECUData` is refreshed only when a packet completes, and a partial packet older than 5 s is dropped | from power-up, five bytes arriving one per loop pass at 6.0, 6.1, 6.2, 6.3 and 6.4 s: each is dropped after it is stored, so no packet is ever produced | refresh the time whenever a byte is received, so only a stalled partial packet is dropped | medium (not executed) | EcuLink.AsWrittenNeverResyncs | EcuLink.RunOneByteEach |
