/** The stand-alone ALDL reader (`ALDL_reading_final.cpp`): each of 200 bit
    periods of the ECU's data line is classified by how long the line was
    low, the first clean frame — nine 1-bits of sync followed by five bytes,
    each a 0 start bit and eight data bits sent most significant first — is
    decoded into a message, and consecutive messages give the fuel flow in
    lb/hr from the ECU's fuel counter. */
module Aldl {
  import opened Common

  /** Symbols per capture, and symbols per frame (9 sync + 5 x 9). */
  const CaptureBits: int := 200
  const FrameBits: int := 54
  const SyncBits: int := 9

  // ---------------------------------------------------------------------
  // Bit classification
  // ---------------------------------------------------------------------

  /** A bit period is a 0 when the line was low 0.1 to 1.5 ms, a 1 when low
      2.5 to 5.5 ms, and unreadable otherwise. The low time is measured in
      microseconds. */
  function ClassifyLowTime(lowTimeUs: nat): (c: char)
    ensures c == '0' <==> 100 <= lowTimeUs <= 1500
    ensures c == '1' <==> 2500 <= lowTimeUs <= 5500
    ensures c in {'0', '1', '?'}
  {
    var lowTimeMs := lowTimeUs as real / 1000.0;
    if lowTimeMs >= 0.1 && lowTimeMs <= 1.5 then '0'
    else if lowTimeMs >= 2.5 && lowTimeMs <= 5.5 then '1'
    else '?'
  }

  // ---------------------------------------------------------------------
  // Frames
  // ---------------------------------------------------------------------

  function Pow2(k: nat): (p: nat)
    ensures p >= 1
  {
    if k == 0 then 1 else 2 * Pow2(k - 1)
  }

  /** The value of bits sent most significant first. */
  function BitsValue(bits: seq<char>): (v: nat)
    ensures v < Pow2(|bits|)
    decreases |bits|
  {
    if bits == [] then 0
    else 2 * BitsValue(bits[..|bits| - 1]) + (if bits[|bits| - 1] == '1' then 1 else 0)
  }

  /** The low `n` bits of `v`, most significant first: the inverse of
      `BitsValue`. */
  function BitsOf(v: nat, n: nat): (bits: seq<char>)
    ensures |bits| == n && forall k :: 0 <= k < n ==> bits[k] in {'0', '1'}
  {
    if n == 0 then [] else BitsOf(v / 2, n - 1) + [if v % 2 == 1 then '1' else '0']
  }

  lemma {:induction false} BitsRoundTrip(v: nat, n: nat)
    requires v < Pow2(n)
    ensures BitsValue(BitsOf(v, n)) == v
  {
    if n > 0 {
      var bits := BitsOf(v, n);
      assert bits[..n - 1] == BitsOf(v / 2, n - 1);
      BitsRoundTrip(v / 2, n - 1);
    }
  }

  /** A sync starts at `i`: nine 1-bits. */
  predicate IsSync(s: seq<char>, i: int)
    requires 0 <= i && i + SyncBits <= |s|
  {
    forall k :: i <= k < i + SyncBits ==> s[k] == '1'
  }

  /** The frame window starting at `i` holds no unreadable bit. */
  predicate Clean(s: seq<char>, i: int)
    requires 0 <= i && i + FrameBits <= |s|
  {
    forall k :: i <= k < i + FrameBits ==> s[k] != '?'
  }

  /** Where the start bit of byte `n` of a frame at `i` lies. */
  function BytePos(i: int, n: int): int
  {
    i + SyncBits + 9 * n
  }

  /** All five start bits of the frame at `i` are 0. */
  predicate StartBitsOk(s: seq<char>, i: int)
    requires 0 <= i && i + FrameBits <= |s|
  {
    forall n :: 0 <= n < 5 ==> s[BytePos(i, n)] == '0'
  }

  /** A frame the reader accepts starts at `i`. */
  predicate ValidAt(s: seq<char>, i: int)
  {
    0 <= i && i + FrameBits <= |s| && IsSync(s, i) && Clean(s, i) && StartBitsOk(s, i)
  }

  /** The data byte whose start bit is at `pos`. */
  function DataByte(s: seq<char>, pos: int): byte
    requires 0 <= pos && pos + 9 <= |s|
  {
    assert Pow2(8) == 256;
    BitsValue(s[pos + 1..pos + 9]) as byte
  }

  /** The five bytes of the frame at `i`. */
  function FrameBytes(s: seq<char>, i: int): (bytes: seq<byte>)
    requires 0 <= i && i + FrameBits <= |s|
    ensures |bytes| == 5
  {
    [DataByte(s, BytePos(i, 0)), DataByte(s, BytePos(i, 1)), DataByte(s, BytePos(i, 2)),
     DataByte(s, BytePos(i, 3)), DataByte(s, BytePos(i, 4))]
  }

  /** The bits the ECU sends for a byte: a 0 start bit and the byte. */
  function ByteBits(b: byte): seq<char>
  {
    "0" + BitsOf(b as nat, 8)
  }

  /** The bits of a whole frame. */
  function Frame(bytes: seq<byte>): (bits: seq<char>)
    requires |bytes| == 5
    ensures |bits| == FrameBits
  {
    "111111111" + ByteBits(bytes[0]) + ByteBits(bytes[1]) + ByteBits(bytes[2]) +
    ByteBits(bytes[3]) + ByteBits(bytes[4])
  }

  /** A byte's bits read back as the byte. */
  lemma ByteBitsRead(s: seq<char>, pos: int, b: byte)
    requires 0 <= pos && pos + 9 <= |s|
    requires forall k :: 0 <= k < 9 ==> s[pos + k] == ByteBits(b)[k]
    ensures s[pos] == '0' && DataByte(s, pos) == b
    ensures forall k :: pos <= k < pos + 9 ==> s[k] != '?'
  {
    var bits := BitsOf(b as nat, 8);
    assert s[pos] == ByteBits(b)[0];
    forall k | 0 <= k < 8 ensures s[pos + 1..pos + 9][k] == bits[k] {
      assert s[pos + 1 + k] == ByteBits(b)[k + 1];
    }
    assert s[pos + 1..pos + 9] == bits;
    assert Pow2(8) == 256;
    BitsRoundTrip(b as nat, 8);
    forall k | pos <= k < pos + 9 ensures s[k] != '?' {
      assert s[k] == ByteBits(b)[k - pos];
    }
  }

  /** Wherever a frame of five bytes appears in the bit stream, the reader
      accepts a frame at that position and decodes exactly those bytes. */
  lemma FrameRoundTrip(s: seq<char>, i: int, bytes: seq<byte>)
    requires |bytes| == 5 && 0 <= i && i + FrameBits <= |s| && s[i..i + FrameBits] == Frame(bytes)
    ensures ValidAt(s, i) && FrameBytes(s, i) == bytes
  {
    forall n | 0 <= n < 5
      ensures s[BytePos(i, n)] == '0' && DataByte(s, BytePos(i, n)) == bytes[n]
      ensures forall k :: BytePos(i, n) <= k < BytePos(i, n) + 9 ==> s[k] != '?'
    {
      FrameByteAt(s, i, bytes, n);
    }
    FrameSync(bytes);
    forall k | i <= k < i + SyncBits ensures s[k] == '1' {
      assert s[k] == s[i..i + FrameBits][k - i];
    }
    forall k | i + SyncBits <= k < i + FrameBits ensures s[k] != '?' {
      var n := (k - i - SyncBits) / 9;
      assert BytePos(i, n) <= k < BytePos(i, n) + 9;
    }
  }

  /** The frame's bits open with the sync. */
  lemma FrameSync(bytes: seq<byte>)
    requires |bytes| == 5
    ensures forall k :: 0 <= k < SyncBits ==> Frame(bytes)[k] == '1'
  {
  }

  /** Byte `n` of the frame sits nine bits after byte `n - 1`. */
  lemma FrameLayout(bytes: seq<byte>, n: int)
    requires |bytes| == 5 && 0 <= n < 5
    ensures Frame(bytes)[SyncBits + 9 * n..SyncBits + 9 * n + 9] == ByteBits(bytes[n])
  {
  }

  /** Byte `n` of a frame found in the stream at `i` is read back. */
  lemma FrameByteAt(s: seq<char>, i: int, bytes: seq<byte>, n: int)
    requires |bytes| == 5 && 0 <= i && i + FrameBits <= |s| && s[i..i + FrameBits] == Frame(bytes)
    requires 0 <= n < 5
    ensures s[BytePos(i, n)] == '0' && DataByte(s, BytePos(i, n)) == bytes[n]
    ensures forall k :: BytePos(i, n) <= k < BytePos(i, n) + 9 ==> s[k] != '?'
  {
    var f := Frame(bytes);
    var lo := SyncBits + 9 * n;
    FrameLayout(bytes, n);
    forall k | 0 <= k < 9 ensures s[BytePos(i, n) + k] == ByteBits(bytes[n])[k] {
      assert s[BytePos(i, n) + k] == s[i..i + FrameBits][lo + k];
      assert f[lo + k] == f[lo..lo + 9][k];
    }
    ByteBitsRead(s, BytePos(i, n), bytes[n]);
  }

  // ---------------------------------------------------------------------
  // Messages
  // ---------------------------------------------------------------------

  /** `ALDLMessage`; `timestamp` is the capture start in milliseconds. */
  datatype AldlMessage = AldlMessage(timestamp: Clock32, modeWord2: byte, fuelCounter: byte,
                                     distanceCounter: byte, fuelConstant: byte, reserved: byte)

  /** The fuel constant read one bit late (245) is taken as 122. */
  function CorrectFuelConstant(b: byte): (c: byte)
    ensures c == (if b == 245 then 122 else b)
    ensures c != 245 && (c != 122 ==> c == b)
  {
    if b == 245 then 122 else b
  }

  /** The message of a decoded frame. */
  function MessageOf(bytes: seq<byte>, captureStart: Clock32): (m: AldlMessage)
    requires |bytes| == 5
    ensures m.timestamp * 1000 <= captureStart < m.timestamp * 1000 + 1000
    ensures [m.modeWord2, m.reserved, m.fuelCounter, m.distanceCounter] == bytes[..4]
    ensures m.fuelConstant == CorrectFuelConstant(bytes[4])
  {
    AldlMessage(captureStart / 1000, bytes[0], bytes[2], bytes[3], CorrectFuelConstant(bytes[4]), bytes[1])
  }

  // ---------------------------------------------------------------------
  // Capture
  // ---------------------------------------------------------------------

  /** The scan test for a sync at `i`. */
  method SyncAt(bitStream: array<char>, i: int) returns (isSync: bool)
    requires 0 <= i && i + SyncBits <= bitStream.Length
    ensures isSync == IsSync(bitStream[..], i)
  {
    isSync := true;
    var j := 0;
    while j < SyncBits
      invariant 0 <= j <= SyncBits
      invariant forall q :: i <= q < i + j ==> bitStream[q] == '1'
    {
      if bitStream[i + j] != '1' {
        isSync := false;
        break;
      }
      j := j + 1;
    }
  }

  /** The scan test for an unreadable bit in the frame window at `i`. */
  method HasQuestionMarks(bitStream: array<char>, i: int) returns (found: bool)
    requires 0 <= i && i + FrameBits <= bitStream.Length
    ensures found == !Clean(bitStream[..], i)
  {
    found := false;
    var k := i;
    while k < i + FrameBits
      invariant i <= k <= i + FrameBits
      invariant forall q :: i <= q < k ==> bitStream[q] != '?'
    {
      if bitStream[k] == '?' {
        found := true;
        break;
      }
      k := k + 1;
    }
  }

  /** The eight data bits after the start bit at `pos`, most significant
      first, set into a byte one bit at a time. */
  method DecodeByte(bitStream: array<char>, pos: int) returns (b: byte)
    requires 0 <= pos && pos + 9 <= bitStream.Length
    ensures b == DataByte(bitStream[..], pos)
  {
    ghost var bits := bitStream[pos + 1..pos + 9];
    var dataByte: bv8 := 0;
    for bit := 0 to 8
      invariant dataByte == Placed(bits, bit)
    {
      assert bits[bit] == bitStream[pos + 1 + bit];
      MsbStep(bits, bit);
      if bitStream[pos + 1 + bit] == '1' {
        dataByte := dataByte | Mask(bit);
      }
    }
    PlacedAll(bits);
    MsbValue(bits);
    b := dataByte as int as byte;
  }

  /** The bit `1 << (7 - i)` the loop sets for data bit `i`. */
  function Mask(i: nat): bv8
    requires i < 8
  {
    1 << (7 - i) as bv8
  }

  /** The first `n` bits, most significant first, in the top `n` places. */
  function Placed(bits: seq<char>, n: nat): bv8
    requires n <= |bits| <= 8
  {
    Msb(bits[..n]) << (8 - n) as bv8
  }

  lemma PlacedAll(bits: seq<char>)
    requires |bits| == 8
    ensures Placed(bits, 8) == Msb(bits)
  {
    assert bits[..8] == bits;
  }

  /** The bits most significant first, as the byte the loop builds. */
  function Msb(bits: seq<char>): bv8
    requires |bits| <= 8
    decreases |bits|
  {
    if bits == [] then 0
    else (Msb(bits[..|bits| - 1]) << 1) | (if bits[|bits| - 1] == '1' then 1 else 0)
  }

  /** One pass of the bit loop: the next bit, when set, is or-ed in at its
      place below the bits already set. */
  lemma MsbStep(bits: seq<char>, i: nat)
    requires i < |bits| <= 8
    ensures Placed(bits, i + 1) == if bits[i] == '1' then Placed(bits, i) | Mask(i) else Placed(bits, i)
  {
    assert bits[..i + 1][..i] == bits[..i];
    var k := (7 - i) as bv8;
    ShiftAmounts(i);
    ShiftStep(Msb(bits[..i]), bits[i] == '1', k);
  }

  lemma ShiftAmounts(i: nat)
    requires i < 8
    ensures (7 - i) as bv8 < 8 && (8 - i) as bv8 == (7 - i) as bv8 + 1
  {
  }

  /** Setting the next bit in place is shifting the prefix value. */
  lemma ShiftStep(m: bv8, bit: bool, k: bv8)
    requires k < 8
    ensures (m << (k + 1)) | ((if bit then 1 else 0) << k) == ((m << 1) | (if bit then 1 else 0)) << k
    ensures !bit ==> m << (k + 1) == ((m << 1) | 0) << k
  {
  }

  lemma ShiftOr(m: bv8, bit: bool)
    requires m as int < 128
    ensures ((m << 1) | (if bit then 1 else 0)) as int == 2 * (m as int) + (if bit then 1 else 0)
  {
  }

  lemma {:induction false} MsbValue(bits: seq<char>)
    requires |bits| <= 8
    ensures Msb(bits) as int == BitsValue(bits)
    decreases |bits|
  {
    if bits != [] {
      var init := bits[..|bits| - 1];
      MsbValue(init);
      assert Pow2(7) == 128;
      Pow2Monotone(|init|, 7);
      ShiftOr(Msb(init), bits[|bits| - 1] == '1');
    }
  }

  lemma {:induction false} Pow2Monotone(a: nat, b: nat)
    requires a <= b
    ensures Pow2(a) <= Pow2(b)
    decreases b
  {
    if a < b {
      Pow2Monotone(a, b - 1);
    }
  }

  /** The five bytes of the frame at `i`, or none when a start bit is not 0. */
  method DecodeBytes(bitStream: array<char>, i: int) returns (validMessage: bool, bytes: seq<byte>)
    requires 0 <= i && i + FrameBits <= bitStream.Length
    ensures validMessage == StartBitsOk(bitStream[..], i)
    ensures validMessage ==> bytes == FrameBytes(bitStream[..], i)
  {
    ghost var s := bitStream[..];
    validMessage := true;
    bytes := [];
    var byteNum := 0;
    while byteNum < 5
      invariant 0 <= byteNum <= 5 && |bytes| == byteNum
      invariant forall n :: 0 <= n < byteNum ==> s[BytePos(i, n)] == '0'
      invariant forall n :: 0 <= n < byteNum ==> bytes[n] == DataByte(s, BytePos(i, n))
    {
      var bitPos := i + 9 + byteNum * 9;
      assert bitPos == BytePos(i, byteNum);
      if bitStream[bitPos] != '0' {
        validMessage := false;
        break;
      }
      var dataByte := DecodeByte(bitStream, bitPos);
      bytes := bytes + [dataByte];
      byteNum := byteNum + 1;
    }
    if validMessage {
      FrameBytesOf(s, i, bytes);
    }
  }

  lemma FrameBytesOf(s: seq<char>, i: int, bytes: seq<byte>)
    requires 0 <= i && i + FrameBits <= |s| && |bytes| == 5
    requires forall n :: 0 <= n < 5 ==> bytes[n] == DataByte(s, BytePos(i, n))
    ensures bytes == FrameBytes(s, i)
  {
  }

  /** `captureALDLMessage` on the low time of each of the 200 bit periods,
      measured from `captureStart` (`micros()`): the message of the first
      position holding an accepted frame, or none. */
  method CaptureMessage(lowTimes: seq<nat>, captureStart: Clock32) returns (msg: Option<AldlMessage>)
    requires |lowTimes| == CaptureBits
    ensures var s := Classified(lowTimes);
            msg.Some? ==> exists i :: FirstValid(s, i) && msg.value == MessageOf(FrameBytes(s, i), captureStart)
    ensures var s := Classified(lowTimes);
            msg.None? ==> forall i :: 0 <= i <= CaptureBits - FrameBits ==> !ValidAt(s, i)
  {
    var bitStream := new char[CaptureBits];
    var bitCount := 0;
    while bitCount < CaptureBits
      invariant 0 <= bitCount <= CaptureBits
      invariant forall k :: 0 <= k < bitCount ==> bitStream[k] == ClassifyLowTime(lowTimes[k])
    {
      bitStream[bitCount] := ClassifyLowTime(lowTimes[bitCount]);
      bitCount := bitCount + 1;
    }
    assert bitStream[..] == Classified(lowTimes);
    ghost var s := bitStream[..];
    for i := 0 to bitCount - FrameBits + 1
      invariant bitStream[..] == s
      invariant forall j :: 0 <= j < i ==> !ValidAt(s, j)
    {
      var isSync := SyncAt(bitStream, i);
      if isSync {
        var hasQuestionMarks := HasQuestionMarks(bitStream, i);
        if !hasQuestionMarks {
          var validMessage, bytes := DecodeBytes(bitStream, i);
          if validMessage {
            msg := Some(MessageOf(bytes, captureStart));
            assert FirstValid(s, i);
            return;
          }
        }
      }
    }
    msg := None;
  }

  /** The classified bit periods. */
  function Classified(lowTimes: seq<nat>): (s: seq<char>)
    ensures |s| == |lowTimes|
    ensures forall k :: 0 <= k < |s| ==> s[k] == ClassifyLowTime(lowTimes[k])
  {
    seq(|lowTimes|, k requires 0 <= k < |lowTimes| => ClassifyLowTime(lowTimes[k]))
  }

  /** `i` is the first position holding an accepted frame. */
  predicate FirstValid(s: seq<char>, i: int)
  {
    ValidAt(s, i) && forall j :: 0 <= j < i ==> !ValidAt(s, j)
  }

  /** At most one position is the first: the capture's message is
      determined by the bit periods. */
  lemma FirstValidUnique(s: seq<char>, i: int, j: int)
    requires FirstValid(s, i) && FirstValid(s, j)
    ensures i == j
  {
  }

  // ---------------------------------------------------------------------
  // Fuel consumption
  // ---------------------------------------------------------------------

  /** The fuel counter's advance between two messages, across its wrap
      from 255 to 0. */
  function FuelIncrement(last: byte, current: byte): (inc: int)
    ensures 0 <= inc < 256
    ensures (last as int + inc) % 256 == current as int
  {
    var d := current as int - last as int;
    if d < 0 then d + 256 else d
  }

  /** Largest credible advance between two messages. */
  const MaxIncrement: int := 128

  /** `calculateFuelConsumption`: the flow in lb/hr printed for two
      consecutive messages, or none when the counter jumped more than 128
      or the interval between them is not between 0 and 10 s. */
  function FuelConsumption(last: AldlMessage, current: AldlMessage): (r: Option<real>)
  {
    var timeInterval := Elapsed32(current.timestamp, last.timestamp) as real / 1000.0;
    var fuelIncrement := FuelIncrement(last.fuelCounter, current.fuelCounter);
    if fuelIncrement > MaxIncrement then None
    else if timeInterval > 0.0 && timeInterval < 10.0 then
      var unitsRate := fuelIncrement as real / timeInterval;
      var maxInjectorFlow := 8.0 * (current.fuelConstant as real / 32.0);
      Some(if unitsRate > 0.0 then maxInjectorFlow * (unitsRate / 255.0) else 0.0)
    else None
  }

  /** A flow is reported exactly when the counter advance is credible and
      the messages are 1 ms to 9.999 s apart; the flow is the counter rate
      as a share of 255 counts per second of the injector's full flow of
      `fuelConstant / 4` lb/hr, so it is zero exactly when the counter did
      not move. */
  lemma FuelConsumptionMeaning(last: AldlMessage, current: AldlMessage)
    ensures var ms := Elapsed32(current.timestamp, last.timestamp);
            var inc := FuelIncrement(last.fuelCounter, current.fuelCounter);
            FuelConsumption(last, current).Some? <==> inc <= MaxIncrement && 0 < ms < 10000
    ensures var ms := Elapsed32(current.timestamp, last.timestamp);
            var inc := FuelIncrement(last.fuelCounter, current.fuelCounter);
            var r := FuelConsumption(last, current);
            r.Some? ==>
              r.value * ms as real * 255.0 * 4.0 == current.fuelConstant as real * inc as real * 1000.0 &&
              0.0 <= r.value &&
              (r.value == 0.0 <==> inc == 0 || current.fuelConstant == 0)
  {
    var ms := Elapsed32(current.timestamp, last.timestamp);
    var inc := FuelIncrement(last.fuelCounter, current.fuelCounter);
    var t := ms as real / 1000.0;
    if inc <= MaxIncrement && 0 < ms < 10000 {
      var u := inc as real / t;
      var flow := 8.0 * (current.fuelConstant as real / 32.0);
      assert u * t == inc as real;
      assert t * 1000.0 == ms as real;
      if inc > 0 {
        assert u > 0.0;
        RateIdentity(flow, u, t, ms as real, current.fuelConstant as real, inc as real);
      }
    }
  }

  /** The algebra behind the flow: with `u = inc / t` and `t` the interval
      in seconds, `flow * u / 255` scaled by the interval is the counted
      fuel. */
  lemma RateIdentity(flow: real, u: real, t: real, ms: real, fc: real, inc: real)
    requires flow == 8.0 * (fc / 32.0) && u * t == inc && t * 1000.0 == ms
    ensures flow * (u / 255.0) * ms * 255.0 * 4.0 == fc * inc * 1000.0
  {
    calc {
      flow * (u / 255.0) * ms * 255.0 * 4.0;
      == fc * u * ms;
      == fc * u * (t * 1000.0);
      == fc * (u * t) * 1000.0;
      == fc * inc * 1000.0;
    }
  }

  // ---------------------------------------------------------------------
  // The monitoring loop
  // ---------------------------------------------------------------------

  /** The globals of `continuousMonitoring`, and the flows printed so far. */
  class AldlMonitor {
    var lastMessage: AldlMessage
    var hasLastMessage: bool
    var outputs: seq<real>

    constructor ()
      ensures !hasLastMessage && outputs == []
    {
      lastMessage := AldlMessage(0, 0, 0, 0, 0, 0);
      hasLastMessage := false;
      outputs := [];
    }

    /** One pass of the monitoring loop on the result of a capture. */
    method Step(captured: Option<AldlMessage>)
      modifies this
      ensures captured.None? ==>
                lastMessage == old(lastMessage) && hasLastMessage == old(hasLastMessage) && outputs == old(outputs)
      ensures captured.Some? ==> lastMessage == captured.value && hasLastMessage
      ensures captured.Some? ==>
                outputs == old(outputs) +
                  (if old(hasLastMessage) && FuelConsumption(old(lastMessage), captured.value).Some?
                   then [FuelConsumption(old(lastMessage), captured.value).value] else [])
    {
      if captured.Some? {
        if hasLastMessage {
          var flow := FuelConsumption(lastMessage, captured.value);
          if flow.Some? {
            outputs := outputs + [flow.value];
          }
        }
        lastMessage := captured.value;
        hasLastMessage := true;
      }
    }
  }
}
