/** One poll of the dashboard's serial reader (`read_arduino_data`) and the
    button gestures it drives (`handle_button_timing`), over the globals they
    rewrite: the persistent record, the style, the button timers, the
    connection flags, the waiting input, the messages written back, the
    speed and RPM conditioning state, the gauge values and the gauge
    switches. Time is the pygame tick count `ticks`; the wall clock and the
    outcome of the file operations of any save in the poll are `io`. */
module Dashboard {
  import opened Common
  import opened Text
  import opened LineProtocol
  import opened Persistence
  import opened Buttons

  /** The speed, RPM and distance globals. */
  datatype Motion = Motion(
    speed: real, lastSpeedTime: int, displaySpeed: real,
    lastSpeedUpdateTime: int, distanceInitialized: bool,
    rpm: Option<real>, displayRpm: real, lastRpmTime: int)

  /** The sensor and trip values shown on the third screen. */
  datatype Gauges = Gauges(
    fuelLevel: real, oilPressure: real, coolantTemp: real, oilTemp: real,
    batteryVoltage: real, brightness: real,
    fuelRange: real, instMpg: real, avgMpg: real, fuelFlowGph: real)

  /** The gauge-selection switches reported by the firmware. */
  datatype Switches = Switches(
    oilPressure: bool, oilTemp: bool, coolantTemp: bool, volts: bool,
    fuelRange: bool, tripOdo: bool, instMpg: bool, avgMpg: bool, metric: bool)

  /** Everything a poll can change. */
  datatype Dash = Dash(
    store: Store, style: int, timers: Timers,
    connected: bool, everConnected: bool, portOpen: bool,
    rx: string, outbox: seq<PiMessage>,
    motion: Motion, gauges: Gauges, switches: Switches)

  const InitialMotion: Motion := Motion(0.0, 0, 0.0, 0, false, Some(0.0), 0.0, 0)
  const InitialGauges: Gauges := Gauges(50.0, 40.0, 185.0, 200.0, 12.6, 75.0, 0.0, 0.0, 0.0, 0.0)
  const InitialSwitches: Switches := Switches(false, false, false, false, false, false, false, false, false)

  /** Milliseconds in an hour: speed (mph) times elapsed ms over this is miles. */
  const MsPerHour: real := 3600000.0

  /** Speeds at or below this do not count as moving. */
  const MovingSpeed: real := 0.1

  // ---------------------------------------------------------------------
  // The step functions
  // ---------------------------------------------------------------------

  function Save(s: Store, io: SaveIo): Store
  {
    SaveStep(s, io.now, io.copyOk, io.writeOk)
  }

  /** The value a frame carries for `key`, or the old one. */
  function Get(m: map<string, real>, key: string, old_: real): (v: real)
    ensures key in m ==> v == m[key]
    ensures key !in m ==> v == old_
  {
    if key in m then m[key] else old_
  }

  /** The switch state a frame carries for `key` (`bool(int(x))`), or the old one. */
  function Flag(m: map<string, real>, key: string, old_: bool): (b: bool)
    ensures key in m ==> (b <==> SwitchOn(m[key]))
    ensures key !in m ==> b == old_
  {
    if key in m then SwitchOn(m[key]) else old_
  }

  /** The distance travelled between two `SPEED` frames: counted only once a
      first frame has seeded the timestamp, when time moved forward and the
      car is moving. */
  function DistanceIncrement(mo: Motion, speed: real, ticks: int): Option<real>
  {
    if mo.distanceInitialized && mo.lastSpeedUpdateTime > 0 &&
       ticks - mo.lastSpeedUpdateTime > 0 && speed > MovingSpeed
    then Some(speed * (ticks - mo.lastSpeedUpdateTime) as real / MsPerHour)
    else None
  }

  /** The `SPEED` block: the new motion state, record and average MPG. */
  function SpeedStep(mo: Motion, data: Record, avgMpg: real, m: map<string, real>, ticks: int): (Motion, Record, real)
  {
    if "SPEED" in m then
      var v := m["SPEED"];
      var mo' := mo.(speed := v, lastSpeedTime := ticks, lastSpeedUpdateTime := ticks,
                     distanceInitialized := true, displaySpeed := v);
      match DistanceIncrement(mo, v, ticks)
      case Some(inc) =>
        var d := data.(totalOdometer := data.totalOdometer + inc, tripOdometer := data.tripOdometer + inc);
        (mo', d, AverageMpg(d.tripOdometer, d.fuelUsed, d.fuelUsedBpw))
      case None => (mo', data, avgMpg)
    else
      (mo.(displaySpeed := SpeedWithoutReading(mo.displaySpeed, mo.lastSpeedTime, ticks)), data, avgMpg)
  }

  /** The `RPM` block. */
  function RpmStep(mo: Motion, m: map<string, real>, ticks: int): Motion
  {
    if "RPM" in m then
      mo.(rpm := Some(m["RPM"]), lastRpmTime := ticks, displayRpm := SmoothRpm(mo.displayRpm, m["RPM"]))
    else
      var (r, dr) := RpmWithoutReading(mo.rpm, mo.displayRpm, mo.lastRpmTime, ticks);
      mo.(rpm := r, displayRpm := dr)
  }

  function GaugeStep(g: Gauges, m: map<string, real>): Gauges
  {
    Gauges(Get(m, "FUEL", g.fuelLevel), Get(m, "OIL", g.oilPressure),
           Get(m, "COOLANT", g.coolantTemp), Get(m, "OILTEMP", g.oilTemp),
           Get(m, "BATTERY", g.batteryVoltage), Get(m, "BRIGHTNESS", g.brightness),
           Get(m, "FUELRNG", g.fuelRange), Get(m, "IMPG", g.instMpg),
           Get(m, "AMPG", g.avgMpg), Get(m, "FLOW", g.fuelFlowGph))
  }

  function SwitchStep(s: Switches, m: map<string, real>): Switches
  {
    Switches(Flag(m, "OIL_P_SW", s.oilPressure), Flag(m, "OIL_T_SW", s.oilTemp),
             Flag(m, "COOL_SW", s.coolantTemp), Flag(m, "VOLT_SW", s.volts),
             Flag(m, "FUELR_SW", s.fuelRange), Flag(m, "TRIP_SW", s.tripOdo),
             Flag(m, "IMPG_SW", s.instMpg), Flag(m, "AMPG_SW", s.avgMpg),
             Flag(m, "METR_SW", s.metric))
  }

  /** An exception inside the reader: the connection is dropped and the port
      closed. */
  function Disconnect(d: Dash): Dash
  {
    d.(connected := false, portOpen := false)
  }

  /** `handle_button_timing` with its effects on the record: the new state,
      and whether the style-name lookup raised. */
  function ButtonEffect(d: Dash, trip: bool, avg: bool, ticks: int, io: SaveIo): (r: (Dash, bool))
    ensures r.0.motion == d.motion && r.0.gauges == d.gauges && r.0.switches == d.switches
    ensures r.0.rx == d.rx && r.0.outbox == d.outbox && r.0.connected == d.connected && r.0.portOpen == d.portOpen
  {
    var t := ButtonStep(d.timers, d.style, trip, avg, ticks);
    var d1 := d.(timers := t.timers, style := t.style);
    match t.action
    case TripReset => (d1.(store := Save(d1.store.(data := d1.store.data.(tripOdometer := 0.0)), io)), false)
    case StyleSaved => (d1.(store := Save(d1.store.(data := d1.store.data.(dashboardStyle := t.style)), io)), false)
    case StyleRaised => (d1, true)
    case AvgReset => (d1, false)
    case NoAction => (d1, false)
  }

  /** The signal part of a frame: speed and distance, RPM, gauges, switches. */
  function SignalStep(d: Dash, m: map<string, real>, ticks: int): Dash
  {
    var (mo, data, avg) := SpeedStep(d.motion, d.store.data, d.gauges.avgMpg, m, ticks);
    d.(motion := RpmStep(mo, m, ticks), store := d.store.(data := data),
       gauges := GaugeStep(d.gauges.(avgMpg := avg), m),
       switches := SwitchStep(d.switches, m))
  }

  /** The end of a frame: the button gesture, then the record update from
      odometer fields, which an exception in the gesture skips. */
  function FrameTail(d: Dash, m: map<string, real>, ticks: int, io: SaveIo): Dash
  {
    var (d2, raised) :=
      if "TRIP_BTN" in m && "AVG_BTN" in m
      then ButtonEffect(d, SwitchOn(m["TRIP_BTN"]), SwitchOn(m["AVG_BTN"]), ticks, io)
      else (d, false);
    if raised then Disconnect(d2)
    else if "TOTAL_ODO" in m && "TRIP_ODO" in m && "FUEL_USED" in m then
      d2.(store := UpdateStep(d2.store, m["TOTAL_ODO"], m["TRIP_ODO"], m["FUEL_USED"], 0.0,
                              io.now, io.copyOk, io.writeOk))
    else d2
  }

  /** The processing of one telemetry frame's dictionary. */
  function FrameStep(d: Dash, m: map<string, real>, ticks: int, io: SaveIo): Dash
  {
    FrameTail(SignalStep(d, m, ticks), m, ticks, io)
  }

  /** The handling of one non-empty received line. */
  function LineStep(d: Dash, line: string, ticks: int, io: SaveIo): Dash
  {
    match Classify(line)
    case InitRequest => d.(outbox := d.outbox + InitMessages(d.store.data, true))
    case ResetTrip =>
      d.(store := Save(d.store.(data := d.store.data.(tripOdometer := 0.0)), io),
         outbox := d.outbox + [AvgMpgUpdate(0.0)])
    case StyleChange =>
      var s := NextStyle(d.style);
      d.(style := s, store := Save(d.store.(data := d.store.data.(dashboardStyle := s)), io))
    case SaveData =>
      (match ParseSaveData(line)
       case Some(f) => d.(store := Save(d.store.(data := d.store.data.(fuelUsed := f.0, fuelUsedBpw := f.1)), io))
       case None => d)
    case Telemetry => FrameStep(d, PairsMap(Split(line, ',')), ticks, io)
    case Ignored => d
  }

  /** One call of `read_arduino_data`. */
  function ReadStep(d: Dash, ticks: int, io: SaveIo): Dash
  {
    if !d.connected then d
    else if !d.portOpen then Disconnect(d)
    else
      var (line, rest) := Poll(d.rx);
      var d1 := d.(rx := rest);
      if line == [] then d1 else LineStep(d1, line, ticks, io)
  }

  // ---------------------------------------------------------------------
  // What a poll guarantees
  // ---------------------------------------------------------------------

  /** Once the link is down nothing changes; a closed port drops the link. */
  lemma NotConnected(d: Dash, ticks: int, io: SaveIo)
    ensures !d.connected ==> ReadStep(d, ticks, io) == d
    ensures d.connected && !d.portOpen ==>
              var e := ReadStep(d, ticks, io);
              !e.connected && !e.portOpen && e == d.(connected := false, portOpen := false)
  {
  }

  /** Nothing waiting, or more than 1000 characters waiting, ends the poll
      with an empty buffer and no other change. */
  lemma PollNothing(d: Dash, ticks: int, io: SaveIo)
    requires d.connected && d.portOpen
    requires d.rx == [] || |d.rx| > BufferLimit
    ensures ReadStep(d, ticks, io) == d.(rx := [])
  {
  }

  /** The parts of the state only telemetry frames touch. */
  predicate FrameStateSame(d: Dash, e: Dash)
  {
    e.motion == d.motion && e.gauges == d.gauges && e.switches == d.switches &&
    e.timers == d.timers && e.connected == d.connected && e.portOpen == d.portOpen
  }

  /** A command line is handled before, and instead of, any key/value
      parsing: motion, gauges, switches, timers and the link are untouched. */
  lemma CommandsSkipFrames(d: Dash, line: string, ticks: int, io: SaveIo)
    requires Classify(line) != Telemetry
    ensures FrameStateSame(d, LineStep(d, line, ticks, io))
  {
  }

  /** `RESET_TRIP:` zeroes the trip, counts one save and answers with an
      average of 0. */
  lemma ResetTripEffect(d: Dash, line: string, ticks: int, io: SaveIo)
    requires StartsWith(line, ResetTripPrefix)
    ensures var e := LineStep(d, line, ticks, io);
            e.store.data.tripOdometer == 0.0 &&
            e.store.data.totalOdometer == d.store.data.totalOdometer &&
            e.store.data.saveCount == d.store.data.saveCount + 1 &&
            e.outbox == d.outbox + [AvgMpgUpdate(0.0)] && e.style == d.style
  {
    assert line[0] == line[..|ResetTripPrefix|][0];
  }

  /** A `SAVE_DATA:` line with a field that is not a number changes
      nothing at all, and a well-formed one sets exactly the two fuel
      fields and saves. */
  lemma SaveDataEffect(d: Dash, line: string, ticks: int, io: SaveIo)
    requires Classify(line) == SaveData
    ensures ParseSaveData(line).None? ==> LineStep(d, line, ticks, io) == d
    ensures ParseSaveData(line).Some? ==>
              var e := LineStep(d, line, ticks, io);
              var f := ParseSaveData(line).value;
              e.store.data.fuelUsed == f.0 && e.store.data.fuelUsedBpw == f.1 &&
              e.store.data.tripOdometer == d.store.data.tripOdometer &&
              e.store.data.totalOdometer == d.store.data.totalOdometer &&
              e.store.data.saveCount == d.store.data.saveCount + 1
  {
  }

  /** The first `SPEED` frame only seeds the timestamp; afterwards a frame
      with time moving forward and a speed above 0.1 adds the same distance
      `speed * dt / 3600000` to both odometers and recomputes the average;
      otherwise neither odometer moves. */
  lemma DistanceIntegration(mo: Motion, data: Record, avgMpg: real, m: map<string, real>, ticks: int)
    requires "SPEED" in m
    ensures var (mo', data', avg') := SpeedStep(mo, data, avgMpg, m, ticks);
            mo'.distanceInitialized && mo'.lastSpeedUpdateTime == ticks && mo'.displaySpeed == m["SPEED"]
    ensures var (mo', data', avg') := SpeedStep(mo, data, avgMpg, m, ticks);
            !mo.distanceInitialized || mo.lastSpeedUpdateTime <= 0 ==> data' == data && avg' == avgMpg
    ensures var (mo', data', avg') := SpeedStep(mo, data, avgMpg, m, ticks);
            var v := m["SPEED"];
            var dt := ticks - mo.lastSpeedUpdateTime;
            mo.distanceInitialized && mo.lastSpeedUpdateTime > 0 && dt > 0 && v > MovingSpeed ==>
              data'.totalOdometer - data.totalOdometer == data'.tripOdometer - data.tripOdometer &&
              (data'.tripOdometer - data.tripOdometer) * MsPerHour == v * dt as real &&
              data'.tripOdometer > data.tripOdometer &&
              avg' == AverageMpg(data'.tripOdometer, data.fuelUsed, data.fuelUsedBpw) &&
              data' == data.(totalOdometer := data'.totalOdometer, tripOdometer := data'.tripOdometer)
    ensures var (mo', data', avg') := SpeedStep(mo, data, avgMpg, m, ticks);
            (ticks - mo.lastSpeedUpdateTime <= 0 || m["SPEED"] <= MovingSpeed) ==> data' == data && avg' == avgMpg
  {
    var v := m["SPEED"];
    var dt := ticks - mo.lastSpeedUpdateTime;
    if mo.distanceInitialized && mo.lastSpeedUpdateTime > 0 && dt > 0 && v > MovingSpeed {
      var inc := v * dt as real / MsPerHour;
      assert inc * MsPerHour == v * dt as real;
      assert inc > 0.0;
    }
  }

  /** Motion, gauges and switches of a frame depend only on the frame's
      dictionary: the button gesture and the record update touch neither. */
  lemma FrameParts(d: Dash, m: map<string, real>, ticks: int, io: SaveIo)
    ensures var e := FrameStep(d, m, ticks, io);
            var sp := SpeedStep(d.motion, d.store.data, d.gauges.avgMpg, m, ticks);
            e.motion == RpmStep(sp.0, m, ticks) && e.gauges == GaugeStep(d.gauges.(avgMpg := sp.2), m) &&
            e.switches == SwitchStep(d.switches, m) && e.rx == d.rx && e.outbox == d.outbox
  {
  }

  /** A frame without `SPEED` 500 ms or more after the last one blanks the
      speed display; a frame without `RPM` under the same condition forgets
      the RPM reading and blanks its display. Younger readings are kept. */
  lemma Staleness(d: Dash, m: map<string, real>, ticks: int, io: SaveIo)
    ensures var e := FrameStep(d, m, ticks, io);
            "SPEED" !in m ==>
              (ticks - d.motion.lastSpeedTime >= StaleMs ==> e.motion.displaySpeed == 0.0) &&
              (ticks - d.motion.lastSpeedTime < StaleMs ==> e.motion.displaySpeed == d.motion.displaySpeed)
    ensures var e := FrameStep(d, m, ticks, io);
            "RPM" !in m ==>
              (d.motion.rpm.None? || ticks - d.motion.lastRpmTime >= StaleMs ==>
                 e.motion.rpm.None? && e.motion.displayRpm == 0.0) &&
              (d.motion.rpm.Some? && ticks - d.motion.lastRpmTime < StaleMs ==>
                 e.motion.rpm == d.motion.rpm && e.motion.displayRpm == d.motion.displayRpm)
    ensures var e := FrameStep(d, m, ticks, io);
            "RPM" in m ==> e.motion.rpm == Some(m["RPM"]) && e.motion.lastRpmTime == ticks &&
                           e.motion.displayRpm == SmoothRpm(d.motion.displayRpm, m["RPM"])
  {
    FrameParts(d, m, ticks, io);
  }

  /** Gauges and switches take the values the frame carries and keep the
      others; an `AMPG` value overrides the average computed from distance. */
  lemma FrameGauges(d: Dash, m: map<string, real>, ticks: int, io: SaveIo)
    ensures var e := FrameStep(d, m, ticks, io);
            e.gauges.fuelLevel == Get(m, "FUEL", d.gauges.fuelLevel) &&
            e.gauges.coolantTemp == Get(m, "COOLANT", d.gauges.coolantTemp) &&
            e.gauges.instMpg == Get(m, "IMPG", d.gauges.instMpg) &&
            ("AMPG" in m ==> e.gauges.avgMpg == m["AMPG"]) &&
            ("SPEED" !in m && "AMPG" !in m ==> e.gauges.avgMpg == d.gauges.avgMpg) &&
            (e.switches.metric <==> if "METR_SW" in m then m["METR_SW"] >= 1.0 || m["METR_SW"] <= -1.0 else d.switches.metric)
  {
    FrameParts(d, m, ticks, io);
  }

  /** The button gesture of a frame carrying both button states: a trip hold
      zeroes the trip and saves; an average hold changes no persistent data;
      a combo hold from a named style saves the next style; a combo hold from
      an unnamed style advances it, skips the save and drops the link. */
  lemma FrameButtons(d: Dash, m: map<string, real>, ticks: int, io: SaveIo)
    requires "TRIP_BTN" in m && "AVG_BTN" in m
    requires !("TOTAL_ODO" in m && "TRIP_ODO" in m && "FUEL_USED" in m)
    ensures var e := FrameStep(d, m, ticks, io);
            var mid := SpeedStep(d.motion, d.store.data, d.gauges.avgMpg, m, ticks).1;
            var t := ButtonStep(d.timers, d.style, SwitchOn(m["TRIP_BTN"]), SwitchOn(m["AVG_BTN"]), ticks);
            e.timers == t.timers && e.style == t.style &&
            (t.action == TripReset ==> e.store.data.tripOdometer == 0.0 && e.store.data.saveCount == mid.saveCount + 1) &&
            (t.action == AvgReset || t.action == NoAction ==> e.store.data == mid && e.connected == d.connected) &&
            (t.action == StyleSaved ==> e.store.data.dashboardStyle == e.style && NamedStyle(e.style) &&
                                        e.store.data.saveCount == mid.saveCount + 1) &&
            (t.action == StyleRaised ==> !e.connected && !e.portOpen && e.store.data == mid)
  {
  }

  /** The firmware prints `SAVE_DATA:` with `println`: when that line is all
      that waits, one poll stores exactly the two fuel totals it carries. */
  lemma SaveDataEndToEnd(d: Dash, fuel: int, bpw: int, ticks: int, io: SaveIo)
    requires d.connected && d.portOpen
    requires d.rx == SaveDataLine(fuel, bpw) + "\r\n" && |d.rx| <= BufferLimit
    ensures var e := ReadStep(d, ticks, io);
            e.rx == [] &&
            e.store.data.fuelUsed == FixedValue(fuel, 4) && e.store.data.fuelUsedBpw == FixedValue(bpw, 4) &&
            e.store.data.tripOdometer == d.store.data.tripOdometer &&
            e.store.data.saveCount == d.store.data.saveCount + 1 &&
            FrameStateSame(d, e)
  {
    var line := SaveDataLine(fuel, bpw);
    SaveDataLineShape(fuel, bpw);
    PollPrinted(line);
    SaveDataRoundTrip(fuel, bpw);
    ClassifySaveData(line);
    SaveDataEffect(d.(rx := []), line, ticks, io);
  }

  /** A line starting `SAVE_DATA:` is a save command: no earlier prefix
      matches it. */
  lemma ClassifySaveData(line: string)
    requires StartsWith(line, SaveDataPrefix)
    ensures Classify(line) == SaveData
  {
    var p := line[..|SaveDataPrefix|];
    assert line[0] == p[0] == 'S' && line[1] == p[1] == 'A';
    assert !StartsWith(line, InitRequestPrefix) by {
      assert |InitRequestPrefix| > 0 && InitRequestPrefix[0] == 'I';
    }
    assert !StartsWith(line, ResetTripPrefix) by {
      assert ResetTripPrefix[0] == 'R';
    }
    assert !StartsWith(line, StyleChangePrefix) by {
      assert StyleChangePrefix[1] == 'T';
    }
  }

  /** A line the firmware ends with `println` is taken off the buffer whole. */
  lemma PollPrinted(line: string)
    requires line != [] && line[0] !in PyWhitespace && line[|line| - 1] !in PyWhitespace
    requires '\n' !in line && |line| + 2 <= BufferLimit
    ensures Poll(line + "\r\n") == (line, [])
  {
    var rx := line + "\r\n";
    assert rx[|line| + 1] == '\n';
    var i := FirstIndex(rx, '\n');
    assert forall k :: 0 <= k < |line| ==> rx[k] == line[k];
    assert rx[|line|] == '\r';
    assert i >= |line| + 1;
    assert forall k :: 0 <= k < i ==> rx[..i][k] == rx[k];
    assert i == |line| + 1;
    assert rx[..i + 1] == [] + line + "\r\n";
    StripSurrounded([], line, "\r\n", PyWhitespace);
  }

  /** The `SAVE_DATA:` line is a single line starting and ending outside
      the whitespace `strip` removes. */
  lemma SaveDataLineShape(fuel: int, bpw: int)
    ensures var line := SaveDataLine(fuel, bpw);
            line[0] !in PyWhitespace && line[|line| - 1] !in PyWhitespace && '\n' !in line
  {
    FormatFixedNoComma(fuel, 4);
    FormatFixedNoComma(bpw, 4);
    SaveDataBodyLine(FormatFixed(fuel, 4), FormatFixed(bpw, 4));
  }

  /** `SAVE_DATA:a,b` is one line when `a` and `b` are, and it ends outside
      the whitespace when `b` ends in a digit. */
  lemma SaveDataBodyLine(a: string, b: string)
    requires '\n' !in a && '\n' !in b && b != [] && IsDigit(b[|b| - 1])
    ensures var line := SaveDataPrefix + (a + "," + b);
            line[0] !in PyWhitespace && line[|line| - 1] !in PyWhitespace && '\n' !in line
  {
    DigitNotWhitespace(b[|b| - 1]);
    var line := SaveDataPrefix + (a + "," + b);
    assert line[|line| - 1] == b[|b| - 1];
  }

  // ---------------------------------------------------------------------
  // The reader object
  // ---------------------------------------------------------------------

  class DashboardCore {
    /** `persistent_data`. */
    const persistent: PersistentDataManager
    /** `current_style_index`. */
    var style: int
    /** The six button-timing globals. */
    var timers: Timers
    /** `serial_connected`, `was_ever_connected` and `ser.is_open`. */
    var connected: bool
    var everConnected: bool
    var portOpen: bool
    /** The characters waiting on the port. */
    var rx: string
    /** The messages written to the port, oldest first. */
    var outbox: seq<PiMessage>
    var motion: Motion
    var gauges: Gauges
    var switches: Switches

    function Snapshot(): Dash
      reads this, persistent
    {
      Dash(persistent.Snapshot(), style, timers, connected, everConnected, portOpen, rx, outbox,
           motion, gauges, switches)
    }

    /** Start-up: load the record, take the saved style, open the port and,
        when it opened, send the initial data. */
    constructor (file: StoredFile, now: int, copyOk: bool, writeOk: bool, atStart: bool)
      ensures Snapshot() == Dash(LoadStep(file, now, copyOk, writeOk), LoadStep(file, now, copyOk, writeOk).data.dashboardStyle,
                                 Idle, atStart, atStart, atStart, [],
                                 InitMessages(LoadStep(file, now, copyOk, writeOk).data, atStart),
                                 InitialMotion, InitialGauges, InitialSwitches)
    {
      var manager := new PersistentDataManager(file, now, copyOk, writeOk);
      persistent := manager;
      style := manager.data.dashboardStyle;
      timers := Idle;
      connected := atStart;
      everConnected := atStart;
      portOpen := atStart;
      rx := [];
      motion := InitialMotion;
      gauges := InitialGauges;
      switches := InitialSwitches;
      outbox := [];
      new;
      var msgs := persistent.SendInitData(atStart);
      outbox := outbox + msgs;
    }

    /** `handle_button_timing`, with the record changes it makes; `raised`
        reports the style-name lookup failing. */
    method HandleButtonTiming(tripPressed: bool, avgPressed: bool, ticks: int, io: SaveIo) returns (raised: bool)
      modifies this, persistent
      ensures (Snapshot(), raised) == ButtonEffect(old(Snapshot()), tripPressed, avgPressed, ticks, io)
    {
      raised := false;
      if tripPressed && avgPressed {
        if timers.comboStart == 0 {
          timers := timers.(comboStart := ticks, comboTriggered := false);
        } else if ticks - timers.comboStart >= HoldTime && !timers.comboTriggered {
          var oldStyle := style;
          style := (style + 1) % StyleCount;
          if !NamedStyle(oldStyle) {
            raised := true;
            return;
          }
          persistent.data := persistent.data.(dashboardStyle := style);
          persistent.SaveData(io.now, io.copyOk, io.writeOk);
          timers := timers.(comboTriggered := true);
        }
      } else {
        if !tripPressed && !avgPressed && timers.comboStart > 0 {
          timers := timers.(comboStart := 0, comboTriggered := false);
        }
        var fired := false;
        if tripPressed {
          if timers.tripStart == 0 {
            timers := timers.(tripStart := ticks, tripTriggered := false);
          } else if ticks - timers.tripStart >= HoldTime && !timers.tripTriggered {
            persistent.data := persistent.data.(tripOdometer := 0.0);
            persistent.SaveData(io.now, io.copyOk, io.writeOk);
            timers := timers.(tripTriggered := true);
            fired := true;
          }
        } else {
          timers := timers.(tripStart := 0, tripTriggered := false);
        }
        if avgPressed {
          if timers.avgStart == 0 {
            timers := timers.(avgStart := ticks, avgTriggered := false);
          } else if ticks - timers.avgStart >= HoldTime && !timers.avgTriggered {
            timers := timers.(avgTriggered := true);
          }
        } else {
          timers := timers.(avgStart := 0, avgTriggered := false);
        }
      }
    }

    /** The `SPEED` block of a frame: speed, distance and average MPG. */
    method UpdateSpeed(data: map<string, real>, ticks: int)
      modifies this, persistent
      ensures var (mo, rec, avg) := SpeedStep(old(motion), old(persistent.data), old(gauges.avgMpg), data, ticks);
              Snapshot() == old(Snapshot()).(motion := mo, store := old(persistent.Snapshot()).(data := rec),
                                             gauges := old(gauges).(avgMpg := avg))
    {
      if "SPEED" in data {
        var v := data["SPEED"];
        var inc := DistanceIncrement(motion, v, ticks);
        motion := motion.(speed := v, lastSpeedTime := ticks);
        if inc.Some? {
          persistent.data := persistent.data.(totalOdometer := persistent.data.totalOdometer + inc.value);
          persistent.data := persistent.data.(tripOdometer := persistent.data.tripOdometer + inc.value);
          var totalFuelUsed := persistent.data.fuelUsed + persistent.data.fuelUsedBpw;
          if totalFuelUsed > 0.01 && persistent.data.tripOdometer > 0.01 {
            var avg := persistent.data.tripOdometer / totalFuelUsed;
            if avg > 50.0 {
              avg := 50.0;
            }
            gauges := gauges.(avgMpg := avg);
          } else {
            gauges := gauges.(avgMpg := 0.0);
          }
        }
        motion := motion.(lastSpeedUpdateTime := ticks, distanceInitialized := true, displaySpeed := v);
      } else if !(ticks - motion.lastSpeedTime < StaleMs) {
        motion := motion.(displaySpeed := 0.0);
      }
    }

    /** The `RPM` block of a frame: the reading, its time and the smoothed display. */
    method UpdateRpm(data: map<string, real>, ticks: int)
      modifies this
      ensures Snapshot() == old(Snapshot()).(motion := RpmStep(old(motion), data, ticks))
    {
      if "RPM" in data {
        var raw := data["RPM"];
        motion := motion.(rpm := Some(raw), lastRpmTime := ticks);
        if motion.displayRpm == 0.0 {
          motion := motion.(displayRpm := raw);
        } else {
          var diff := Abs(raw - motion.displayRpm);
          if diff < RpmDeadband {
          } else if diff > 50.0 {
            motion := motion.(displayRpm := motion.displayRpm + (raw - motion.displayRpm) * RpmFastSmoothing);
          } else {
            motion := motion.(displayRpm := motion.displayRpm + (raw - motion.displayRpm) * RpmSlowSmoothing);
          }
        }
      } else if !(motion.rpm.Some? && ticks - motion.lastRpmTime < StaleMs) {
        motion := motion.(rpm := None, displayRpm := 0.0);
      }
    }

    /** The signal part of a frame. */
    method ApplySignals(data: map<string, real>, ticks: int)
      modifies this, persistent
      ensures Snapshot() == SignalStep(old(Snapshot()), data, ticks)
    {
      UpdateSpeed(data, ticks);
      UpdateRpm(data, ticks);
      gauges := GaugeStep(gauges, data);
      switches := SwitchStep(switches, data);
    }

    /** The button gesture and the record update of a frame. */
    method ApplyTail(data: map<string, real>, ticks: int, io: SaveIo)
      modifies this, persistent
      ensures Snapshot() == FrameTail(old(Snapshot()), data, ticks, io)
    {
      if "TRIP_BTN" in data && "AVG_BTN" in data {
        var raised := HandleButtonTiming(SwitchOn(data["TRIP_BTN"]), SwitchOn(data["AVG_BTN"]), ticks, io);
        if raised {
          connected := false;
          portOpen := false;
          return;
        }
      }
      if "TOTAL_ODO" in data && "TRIP_ODO" in data && "FUEL_USED" in data {
        persistent.UpdateData(data["TOTAL_ODO"], data["TRIP_ODO"], data["FUEL_USED"], 0.0,
                              io.now, io.copyOk, io.writeOk);
      }
    }

    /** One telemetry frame: decode the pairs, then act on them. */
    method ProcessFrame(line: string, ticks: int, io: SaveIo)
      modifies this, persistent
      ensures Snapshot() == FrameStep(old(Snapshot()), PairsMap(Split(line, ',')), ticks, io)
    {
      var data := ParsePairs(line);
      ApplySignals(data, ticks);
      ApplyTail(data, ticks, io);
    }

    /** The dispatch of one non-empty line, by prefix. */
    method HandleLine(line: string, ticks: int, io: SaveIo)
      modifies this, persistent
      ensures Snapshot() == LineStep(old(Snapshot()), line, ticks, io)
    {
      if StartsWith(line, InitRequestPrefix) {
        var msgs := persistent.SendInitData(true);
        outbox := outbox + msgs;
      } else if StartsWith(line, ResetTripPrefix) {
        persistent.data := persistent.data.(tripOdometer := 0.0);
        persistent.SaveData(io.now, io.copyOk, io.writeOk);
        outbox := outbox + [AvgMpgUpdate(0.0)];
      } else if StartsWith(line, StyleChangePrefix) {
        style := (style + 1) % StyleCount;
        persistent.data := persistent.data.(dashboardStyle := style);
        persistent.SaveData(io.now, io.copyOk, io.writeOk);
      } else if StartsWith(line, SaveDataPrefix) {
        var parsed := ParseSaveData(line);
        if parsed.Some? {
          persistent.data := persistent.data.(fuelUsed := parsed.value.0, fuelUsedBpw := parsed.value.1);
          persistent.SaveData(io.now, io.copyOk, io.writeOk);
        }
      } else if IsTelemetry(line) {
        ProcessFrame(line, ticks, io);
      }
    }

    /** `read_arduino_data`. */
    method ReadArduinoData(ticks: int, io: SaveIo)
      modifies this, persistent
      ensures Snapshot() == ReadStep(old(Snapshot()), ticks, io)
    {
      if !connected {
        return;
      }
      if !portOpen {
        connected := false;
        portOpen := false;
        return;
      }
      var polled := Poll(rx);
      var line := polled.0;
      rx := polled.1;
      if line != [] {
        HandleLine(line, ticks, io);
      }
    }
  }
}
