/** The dashboard's side of the serial line protocol: taking one line off
    the receive buffer, recognising command lines by prefix, and decoding
    telemetry frames of comma-separated `KEY:VALUE` pairs into a map, with
    the two signal-conditioning rules applied to what a frame carries (the
    RPM deadband and the 500 ms staleness timeout). */
module LineProtocol {
  import opened Common
  import opened Text

  // ---------------------------------------------------------------------
  // Polling the receive buffer
  // ---------------------------------------------------------------------

  /** More bytes than this waiting means the reader has fallen behind. */
  const BufferLimit: int := 1000

  /** `readline()` on what is waiting: everything up to and including the
      first newline, or everything when no newline arrives before the
      timeout. Returns the line and what stays waiting. */
  function ReadLine(rx: string): (r: (string, string))
    ensures r.0 + r.1 == rx
    ensures '\n' in rx ==> r.0 != [] && r.0[|r.0| - 1] == '\n' && '\n' !in r.0[..|r.0| - 1]
    ensures '\n' !in rx ==> r == (rx, [])
  {
    if '\n' in rx then
      var i := FirstIndex(rx, '\n');
      assert rx[..i + 1][..i] == rx[..i];
      assert rx[..i + 1] + rx[i + 1..] == rx;
      (rx[..i + 1], rx[i + 1..])
    else (rx, [])
  }

  /** One poll of the port: nothing when nothing is waiting; the buffer is
      discarded when more than 1000 characters wait; otherwise one line is
      read and stripped. Returns the line and what is left waiting. */
  function Poll(rx: string): (r: (string, string))
    ensures rx == [] || |rx| > BufferLimit ==> r == ([], [])
    ensures 0 < |rx| <= BufferLimit ==> r == (Strip(ReadLine(rx).0, PyWhitespace), ReadLine(rx).1)
  {
    if rx == [] || |rx| > BufferLimit then ([], [])
    else
      var (line, rest) := ReadLine(rx);
      (Strip(line, PyWhitespace), rest)
  }

  /** Polling consumes: the waiting text only ever shrinks, and it empties
      unless a complete line was taken off its front. */
  lemma PollConsumes(rx: string)
    ensures |Poll(rx).1| < |rx| || rx == []
    ensures Poll(rx).1 != [] ==> '\n' in rx && rx == ReadLine(rx).0 + Poll(rx).1
  {
  }

  // ---------------------------------------------------------------------
  // Command lines
  // ---------------------------------------------------------------------

  const InitRequestPrefix: string := "INIT_REQUEST:PERSISTENT_DATA"
  const ResetTripPrefix: string := "RESET_TRIP:"
  const StyleChangePrefix: string := "STYLE_CHANGE:"
  const SaveDataPrefix: string := "SAVE_DATA:"

  /** What a received line asks for. */
  datatype LineKind = InitRequest | ResetTrip | StyleChange | SaveData | Telemetry | Ignored

  /** A line is a telemetry frame when it mentions one of the keys that open
      the two frame kinds the firmware sends. */
  predicate IsTelemetry(line: string)
  {
    Contains(line, "SPEED:") || Contains(line, "FUELRNG:") || Contains(line, "AMPG_SW:")
  }

  /** The prefix tests, in the order the reader applies them. */
  function Classify(line: string): (k: LineKind)
    ensures k == InitRequest <==> StartsWith(line, InitRequestPrefix)
    ensures k == ResetTrip <==> !StartsWith(line, InitRequestPrefix) && StartsWith(line, ResetTripPrefix)
    ensures k == StyleChange <==>
              !StartsWith(line, InitRequestPrefix) && !StartsWith(line, ResetTripPrefix) &&
              StartsWith(line, StyleChangePrefix)
    ensures k == SaveData <==>
              !StartsWith(line, InitRequestPrefix) && !StartsWith(line, ResetTripPrefix) &&
              !StartsWith(line, StyleChangePrefix) && StartsWith(line, SaveDataPrefix)
    ensures k == Telemetry ==> IsTelemetry(line)
  {
    if StartsWith(line, InitRequestPrefix) then InitRequest
    else if StartsWith(line, ResetTripPrefix) then ResetTrip
    else if StartsWith(line, StyleChangePrefix) then StyleChange
    else if StartsWith(line, SaveDataPrefix) then SaveData
    else if IsTelemetry(line) then Telemetry
    else Ignored
  }

  /** The two fuel fields of a `SAVE_DATA:` line: `None` when either field
      present is not a number (the `ValueError`); a missing second field
      reads as 0. */
  function ParseSaveData(line: string): (r: Option<(real, real)>)
    requires StartsWith(line, SaveDataPrefix)
    ensures var parts := Split(line[|SaveDataPrefix|..], ',');
            r.Some? <==> PyFloat(parts[0]).Some? && (|parts| > 1 ==> PyFloat(parts[1]).Some?)
    ensures var parts := Split(line[|SaveDataPrefix|..], ',');
            r.Some? ==> r.value.0 == PyFloat(parts[0]).value &&
                        r.value.1 == (if |parts| > 1 then PyFloat(parts[1]).value else 0.0)
  {
    var parts := Split(line[|SaveDataPrefix|..], ',');
    match PyFloat(parts[0])
    case None => None
    case Some(fuel) =>
      if |parts| > 1 then
        match PyFloat(parts[1])
        case None => None
        case Some(bpw) => Some((fuel, bpw))
      else Some((fuel, 0.0))
  }

  /** The line `sendPersistentDataUpdate` prints, for fuel totals that are
      exactly representable with four decimals. */
  function SaveDataLine(fuel: int, bpw: int): string
  {
    SaveDataPrefix + (FormatFixed(fuel, 4) + "," + FormatFixed(bpw, 4))
  }

  /** A printed number holds only digits, a point and a minus sign, and
      ends in a digit. */
  lemma FormatFixedNoComma(n: int, k: nat)
    ensures ',' !in FormatFixed(n, k) && ':' !in FormatFixed(n, k) && '\n' !in FormatFixed(n, k)
    ensures var s := FormatFixed(n, k); s != [] && IsDigit(s[|s| - 1])
  {
    FormatFixedChars(n, k);
    var m: nat := if n < 0 then -n else n;
    UnsignedTextEnds(m, k);
  }

  /** The firmware's `SAVE_DATA:` line is read back by the dashboard as the
      two totals it carries. */
  lemma SaveDataRoundTrip(fuel: int, bpw: int)
    ensures StartsWith(SaveDataLine(fuel, bpw), SaveDataPrefix)
    ensures ParseSaveData(SaveDataLine(fuel, bpw)) == Some((FixedValue(fuel, 4), FixedValue(bpw, 4)))
  {
    FormatFixedNoComma(fuel, 4);
    FormatFixedNoComma(bpw, 4);
    PyFloatFormatted(fuel, 4);
    PyFloatFormatted(bpw, 4);
    ParseSaveDataOf(FormatFixed(fuel, 4), FormatFixed(bpw, 4));
  }

  /** A `SAVE_DATA:` line with two comma-free numbers is read as those two. */
  lemma ParseSaveDataOf(a: string, b: string)
    requires ',' !in a && ',' !in b && PyFloat(a).Some? && PyFloat(b).Some?
    ensures StartsWith(SaveDataPrefix + (a + "," + b), SaveDataPrefix)
    ensures ParseSaveData(SaveDataPrefix + (a + "," + b)) == Some((PyFloat(a).value, PyFloat(b).value))
  {
    StartsWithConcat(SaveDataPrefix, a + "," + b);
    SplitTwo(a, b, ',');
  }

  // ---------------------------------------------------------------------
  // Telemetry frames
  // ---------------------------------------------------------------------

  /** What one comma-separated piece contributes: its trimmed key and value
      when it holds a ':' and the text after the first ':' is a number. */
  function PairOf(piece: string): (r: Option<(string, real)>)
    ensures r.Some? ==> ':' in piece
  {
    if ':' in piece then
      var (key, value) := SplitFirst(piece, ':');
      match PyFloat(Strip(value, PyWhitespace))
      case Some(v) => Some((Strip(key, PyWhitespace), v))
      case None => None
    else None
  }

  /** What each piece of a frame contributes, in order. */
  function Decoded(pieces: seq<string>): (ps: seq<Option<(string, real)>>)
    ensures |ps| == |pieces|
    ensures forall i :: 0 <= i < |pieces| ==> ps[i] == PairOf(pieces[i])
  {
    seq(|pieces|, i requires 0 <= i < |pieces| => PairOf(pieces[i]))
  }

  /** Storing decoded pairs into a dictionary one after the other. */
  function Store(ps: seq<Option<(string, real)>>): map<string, real>
    decreases |ps|
  {
    if ps == [] then map[]
    else
      var m := Store(ps[..|ps| - 1]);
      var p := ps[|ps| - 1];
      if p.Some? then m[p.value.0 := p.value.1] else m
  }

  /** The `data` dictionary built from the pieces of a frame, in order:
      each well-formed pair is stored, later keys overwriting earlier ones. */
  function PairsMap(pieces: seq<string>): map<string, real>
  {
    Store(Decoded(pieces))
  }

  /** The frame decoder of `read_arduino_data`: split on commas and fill the
      dictionary one piece at a time. */
  method ParsePairs(line: string) returns (data: map<string, real>)
    ensures data == PairsMap(Split(line, ','))
  {
    var pieces := Split(line, ',');
    data := map[];
    var i := 0;
    while i < |pieces|
      invariant 0 <= i <= |pieces|
      invariant data == Store(Decoded(pieces)[..i])
    {
      assert Decoded(pieces)[..i + 1][..i] == Decoded(pieces)[..i];
      var piece := pieces[i];
      if ':' in piece {
        var (key, value) := SplitFirst(piece, ':');
        var v := PyFloat(Strip(value, PyWhitespace));
        if v.Some? {
          data := data[Strip(key, PyWhitespace) := v.value];
        }
      }
      i := i + 1;
    }
    assert Decoded(pieces)[..|pieces|] == Decoded(pieces);
  }

  /** The decoded piece is a well-formed pair with key `key`. */
  predicate HasKey(p: Option<(string, real)>, key: string)
  {
    p.Some? && p.value.0 == key
  }

  /** A key is in the dictionary exactly when some piece decodes to a pair
      with that key: bad pieces are skipped without losing the rest of the
      frame. */
  lemma {:induction false} StoreKeys(ps: seq<Option<(string, real)>>, key: string)
    ensures key in Store(ps) <==> exists i :: 0 <= i < |ps| && HasKey(ps[i], key)
    decreases |ps|
  {
    if ps != [] {
      var n := |ps| - 1;
      var init := ps[..n];
      StoreKeys(init, key);
      assert forall i :: 0 <= i < n ==> init[i] == ps[i];
    }
  }

  /** The value stored for a key is the one of the LAST piece carrying it. */
  lemma {:induction false} StoreLastWins(ps: seq<Option<(string, real)>>, key: string, i: nat)
    requires i < |ps| && HasKey(ps[i], key)
    requires forall j :: i < j < |ps| ==> !HasKey(ps[j], key)
    ensures key in Store(ps) && Store(ps)[key] == ps[i].value.1
    decreases |ps|
  {
    var n := |ps| - 1;
    var init := ps[..n];
    if i < n {
      forall j | i < j < |init| ensures !HasKey(init[j], key) {
        assert init[j] == ps[j];
      }
      assert init[i] == ps[i];
      StoreLastWins(init, key, i);
      assert !HasKey(ps[n], key);
    }
  }

  /** The frame's dictionary holds a key exactly when some piece is a
      well-formed pair with that key, with the value of the last such piece. */
  lemma PairsMapMeaning(pieces: seq<string>, key: string, i: nat)
    requires i < |pieces| && HasKey(PairOf(pieces[i]), key)
    requires forall j :: i < j < |pieces| ==> !HasKey(PairOf(pieces[j]), key)
    ensures key in PairsMap(pieces) && PairsMap(pieces)[key] == PairOf(pieces[i]).value.1
  {
    StoreLastWins(Decoded(pieces), key, i);
  }

  lemma PairsMapKeys(pieces: seq<string>, key: string)
    ensures key in PairsMap(pieces) <==> exists i :: 0 <= i < |pieces| && HasKey(PairOf(pieces[i]), key)
  {
    StoreKeys(Decoded(pieces), key);
  }

  /** A malformed piece at the end of a frame changes nothing. */
  lemma BadPieceIgnored(pieces: seq<string>, bad: string)
    requires PairOf(bad).None?
    ensures PairsMap(pieces + [bad]) == PairsMap(pieces)
  {
    assert Decoded(pieces + [bad])[..|pieces|] == Decoded(pieces);
  }

  // ---------------------------------------------------------------------
  // The frames the firmware prints
  // ---------------------------------------------------------------------

  /** A field `KEY:value` as the firmware prints it, for a value exactly
      representable with `decimals` decimals (`value * 10^decimals`). */
  datatype Field = Field(key: string, scaled: int, decimals: nat)

  /** A key the firmware uses: upper-case letters and underscores. */
  predicate PlainKey(key: string)
  {
    key != [] && forall i :: 0 <= i < |key| ==> ('A' <= key[i] <= 'Z' || key[i] == '_')
  }

  function FieldText(f: Field): string
  {
    f.key + ":" + FormatFixed(f.scaled, f.decimals)
  }

  function FieldTexts(fs: seq<Field>): (ts: seq<string>)
    ensures |ts| == |fs|
    ensures forall i :: 0 <= i < |fs| ==> ts[i] == FieldText(fs[i])
  {
    seq(|fs|, i requires 0 <= i < |fs| => FieldText(fs[i]))
  }

  /** The line of a frame: its fields joined with commas. */
  function FrameLine(fs: seq<Field>): string
  {
    Join(FieldTexts(fs), ',')
  }

  /** The dictionary a frame is meant to deliver: each key with its value,
      later fields overwriting earlier ones. */
  function FieldsMap(fs: seq<Field>): map<string, real>
    decreases |fs|
  {
    if fs == [] then map[]
    else FieldsMap(fs[..|fs| - 1])[fs[|fs| - 1].key := FixedValue(fs[|fs| - 1].scaled, fs[|fs| - 1].decimals)]
  }

  lemma PlainKeyPieces(key: string)
    requires PlainKey(key)
    ensures ',' !in key && ':' !in key
    ensures key[0] !in PyWhitespace && key[|key| - 1] !in PyWhitespace
  {
  }

  /** One printed field decodes to its key and value. */
  lemma FieldDecodes(f: Field)
    requires PlainKey(f.key)
    ensures PairOf(FieldText(f)) == Some((f.key, FixedValue(f.scaled, f.decimals)))
  {
    var v := FormatFixed(f.scaled, f.decimals);
    PlainKeyPieces(f.key);
    assert FieldText(f) == f.key + [':'] + v;
    SplitFirstOf(f.key, ':', v);
    StripNoOp(f.key, PyWhitespace);
    PyFloatFormatted(f.scaled, f.decimals);
    StripIdempotent(v, PyWhitespace);
  }

  /** Every frame line the firmware prints with plain keys is decoded by the
      dashboard into exactly the keys and values it carries. */
  lemma {:induction false} FrameRoundTrip(fs: seq<Field>)
    requires fs != []
    requires forall i :: 0 <= i < |fs| ==> PlainKey(fs[i].key)
    ensures PairsMap(Split(FrameLine(fs), ',')) == FieldsMap(fs)
  {
    var ts := FieldTexts(fs);
    forall i | 0 <= i < |ts| ensures ',' !in ts[i] {
      PlainKeyPieces(fs[i].key);
      FormatFixedNoComma(fs[i].scaled, fs[i].decimals);
    }
    SplitJoin(ts, ',');
    PiecesDecode(fs);
  }

  /** Appending a piece stores its pair, when it has one. */
  lemma PairsMapSnoc(pieces: seq<string>, piece: string)
    ensures var p := PairOf(piece);
            PairsMap(pieces + [piece]) == if p.Some? then PairsMap(pieces)[p.value.0 := p.value.1] else PairsMap(pieces)
  {
    var ds := Decoded(pieces + [piece]);
    assert ds == Decoded(pieces) + [PairOf(piece)];
    StoreSnoc(Decoded(pieces), PairOf(piece));
  }

  lemma StoreSnoc(ps: seq<Option<(string, real)>>, p: Option<(string, real)>)
    ensures Store(ps + [p]) == if p.Some? then Store(ps)[p.value.0 := p.value.1] else Store(ps)
  {
    assert (ps + [p])[..|ps|] == ps;
  }

  lemma FieldTextsSnoc(fs: seq<Field>)
    requires fs != []
    ensures FieldTexts(fs) == FieldTexts(fs[..|fs| - 1]) + [FieldText(fs[|fs| - 1])]
  {
    var n := |fs| - 1;
    assert forall i :: 0 <= i < n ==> fs[..n][i] == fs[i];
  }

  lemma {:induction false} PiecesDecode(fs: seq<Field>)
    requires forall i :: 0 <= i < |fs| ==> PlainKey(fs[i].key)
    ensures PairsMap(FieldTexts(fs)) == FieldsMap(fs)
    decreases |fs|
  {
    if fs != [] {
      var n := |fs| - 1;
      var init := fs[..n];
      FieldTextsSnoc(fs);
      PiecesDecode(init);
      FieldDecodes(fs[n]);
      PairsMapSnoc(FieldTexts(init), FieldText(fs[n]));
    }
  }

  // ---------------------------------------------------------------------
  // Signal conditioning
  // ---------------------------------------------------------------------

  /** Changes of the RPM reading below this are not shown. */
  const RpmDeadband: real := 50.0
  const RpmFastSmoothing: real := 0.9
  const RpmSlowSmoothing: real := 0.3

  /** The displayed RPM after a frame carrying `raw`: a display of 0 snaps to
      the reading; a change below the deadband is ignored; a change above 50
      moves 0.9 of the way; a change of exactly 50 moves 0.3 of the way. */
  function SmoothRpm(display: real, raw: real): (r: real)
    ensures display == 0.0 ==> r == raw
    ensures display != 0.0 && Abs(raw - display) < RpmDeadband ==> r == display
    ensures display != 0.0 && Abs(raw - display) > 50.0 ==> r - display == RpmFastSmoothing * (raw - display)
    ensures display != 0.0 && Abs(raw - display) == 50.0 ==> r - display == RpmSlowSmoothing * (raw - display)
  {
    if display == 0.0 then raw
    else
      var diff := Abs(raw - display);
      if diff < RpmDeadband then display
      else if diff > 50.0 then display + (raw - display) * RpmFastSmoothing
      else display + (raw - display) * RpmSlowSmoothing
  }

  /** The smoothed display never overshoots: it stays between its old value
      and the reading, and only a display of 0 or a change of 50 or more
      moves it at all. */
  lemma SmoothRpmBetween(display: real, raw: real)
    ensures var r := SmoothRpm(display, raw);
            (Min(display, raw) <= r && r <= display + raw - Min(display, raw)) &&
            (r != display ==> display == 0.0 || Abs(raw - display) >= RpmDeadband)
  {
  }

  /** A reading older than this is stale. */
  const StaleMs: int := 500

  /** The displayed speed after a frame without `SPEED`: kept while the last
      reading is younger than 500 ms, otherwise 0. */
  function SpeedWithoutReading(displaySpeed: real, lastSpeedTime: int, now: int): (r: real)
    ensures now - lastSpeedTime < StaleMs ==> r == displaySpeed
    ensures now - lastSpeedTime >= StaleMs ==> r == 0.0
  {
    if now - lastSpeedTime < StaleMs then displaySpeed else 0.0
  }

  /** The RPM state after a frame without `RPM`: kept while there is a
      reading younger than 500 ms, otherwise no reading and a display of 0. */
  function RpmWithoutReading(currentRpm: Option<real>, displayRpm: real, lastRpmTime: int, now: int): (r: (Option<real>, real))
    ensures currentRpm.Some? && now - lastRpmTime < StaleMs ==> r == (currentRpm, displayRpm)
    ensures currentRpm.None? || now - lastRpmTime >= StaleMs ==> r == (None, 0.0)
  {
    if currentRpm.Some? && now - lastRpmTime < StaleMs then (currentRpm, displayRpm) else (None, 0.0)
  }

  /** Python's `bool(int(x))` on a float: `int` truncates toward zero, so a
      switch reads as on exactly when its value is at least 1 in size. */
  function SwitchOn(x: real): (b: bool)
    ensures b <==> x >= 1.0 || x <= -1.0
  {
    var n := if x >= 0.0 then x.Floor else -((-x).Floor);
    n != 0
  }
}
