/** The firmware's reader for the ECU's serial data stream (`readECUData`,
    `parseECUPacket`): bytes are gathered into five-byte packets, each
    complete packet is decoded into its status bits and four data bytes, and
    a partial packet is dropped when the stream has been silent for more
    than five seconds. */
module EcuLink {
  import opened Common

  /** A packet is five bytes. */
  const PacketSize: int := 5

  /** A partial packet older than this is dropped. */
  const StaleTimeout: int := 5000

  /** A decoded packet: the two status bits of the first byte and the four
      data bytes that follow it. */
  datatype EcuPacket = EcuPacket(overdrive: bool, shiftLight: bool, cylinders: byte,
                                 fuel: byte, distance: byte, scale: byte)

  /** `parseECUPacket`: bit 0 of the status byte is the overdrive, bit 7 the
      shift light. */
  function ParsePacket(p: seq<byte>): (r: EcuPacket)
    requires |p| == PacketSize
    ensures r.overdrive <==> p[0] % 2 == 1
    ensures r.shiftLight <==> p[0] >= 128
    ensures [r.cylinders, r.fuel, r.distance, r.scale] == p[1..]
  {
    var status := p[0] as bv8;
    EcuPacket(status & 0x01 != 0, status & 0x80 != 0, p[1], p[2], p[3], p[4])
  }

  // ---------------------------------------------------------------------
  // Reference: a stream cut into packets
  // ---------------------------------------------------------------------

  /** The packets of a byte stream read five bytes at a time. */
  function PacketsOf(s: seq<byte>): seq<EcuPacket>
    decreases |s|
  {
    if |s| < PacketSize then [] else [ParsePacket(s[..PacketSize])] + PacketsOf(s[PacketSize..])
  }

  /** The bytes of a stream after its last complete packet. */
  function Leftover(s: seq<byte>): (rest: seq<byte>)
    ensures |rest| < PacketSize
    decreases |s|
  {
    if |s| < PacketSize then s else Leftover(s[PacketSize..])
  }

  /** One more byte either completes a packet or joins the leftover. */
  lemma {:induction false} PacketsSnoc(s: seq<byte>, x: byte)
    ensures |Leftover(s)| == PacketSize - 1 ==>
              PacketsOf(s + [x]) == PacketsOf(s) + [ParsePacket(Leftover(s) + [x])] &&
              Leftover(s + [x]) == []
    ensures |Leftover(s)| < PacketSize - 1 ==>
              PacketsOf(s + [x]) == PacketsOf(s) && Leftover(s + [x]) == Leftover(s) + [x]
    decreases |s|
  {
    if |s| >= PacketSize {
      assert (s + [x])[..PacketSize] == s[..PacketSize];
      assert (s + [x])[PacketSize..] == s[PacketSize..] + [x];
      PacketsSnoc(s[PacketSize..], x);
    } else if |s| == PacketSize - 1 {
      assert (s + [x])[..PacketSize] == s + [x];
      assert (s + [x])[PacketSize..] == [];
    }
  }

  // ---------------------------------------------------------------------
  // The byte loop of `readECUData`
  // ---------------------------------------------------------------------

  /** The inner `while` loop on the bytes waiting in the serial buffer:
      the packets completed and the partial packet left over. */
  function Feed(pending: seq<byte>, bytes: seq<byte>): (r: (seq<EcuPacket>, seq<byte>))
    requires |pending| < PacketSize
    ensures |r.1| < PacketSize
    decreases |bytes|
  {
    if bytes == [] then ([], pending)
    else
      var prev := Feed(pending, bytes[..|bytes| - 1]);
      var buf := prev.1 + [bytes[|bytes| - 1]];
      if |buf| >= PacketSize then (prev.0 + [ParsePacket(buf)], []) else (prev.0, buf)
  }

  /** What one byte does to the partial packet: the packet it completes, if
      any, and the new partial packet. */
  function PushStep(pending: seq<byte>, x: byte): (r: (seq<EcuPacket>, seq<byte>))
    requires |pending| < PacketSize
    ensures |r.1| < PacketSize
  {
    var buf := pending + [x];
    if |buf| >= PacketSize then ([ParsePacket(buf)], []) else ([], buf)
  }

  /** Feeding one byte after a stream is one step after feeding the stream. */
  lemma FeedSnoc(pending: seq<byte>, init: seq<byte>, x: byte, b1: seq<byte>)
    requires |pending| < PacketSize && b1 == init + [x]
    ensures var prev := Feed(pending, init);
            var step := PushStep(prev.1, x);
            Feed(pending, b1) == (prev.0 + step.0, step.1)
  {
    assert b1[..|b1| - 1] == init && b1[|b1| - 1] == x;
    var prev := Feed(pending, init);
    var buf := prev.1 + [x];
    if |buf| >= PacketSize {
      assert Feed(pending, b1) == (prev.0 + [ParsePacket(buf)], []);
    } else {
      assert Feed(pending, b1) == (prev.0, buf);
      assert prev.0 + [] == prev.0;
    }
  }

  /** The byte loop cuts the stream — the partial packet followed by the new
      bytes — into packets exactly as the reference does. */
  lemma {:induction false} FeedIsPacketsOf(pending: seq<byte>, bytes: seq<byte>)
    requires |pending| < PacketSize
    ensures Feed(pending, bytes) == (PacketsOf(pending + bytes), Leftover(pending + bytes))
    decreases |bytes|
  {
    if bytes == [] {
      assert pending + bytes == pending;
    } else {
      var init := bytes[..|bytes| - 1];
      var x := bytes[|bytes| - 1];
      var s := pending + init;
      FeedIsPacketsOf(pending, init);
      var prev := Feed(pending, init);
      assert prev.0 == PacketsOf(s) && prev.1 == Leftover(s);
      PacketsSnoc(s, x);
      assert pending + bytes == s + [x];
      if |Leftover(s)| == PacketSize - 1 {
        assert Feed(pending, bytes) == (prev.0 + [ParsePacket(prev.1 + [x])], []);
      } else {
        assert Feed(pending, bytes) == (prev.0, prev.1 + [x]);
      }
    }
  }

  // ---------------------------------------------------------------------
  // One call of `readECUData`
  // ---------------------------------------------------------------------

  /** The reader's static state: the partial packet and the time of
      `lastECUData`. */
  datatype Reader = Reader(pending: seq<byte>, last: Clock32)

  const PowerUp: Reader := Reader([], 0)

  predicate ReaderOk(r: Reader)
  {
    |r.pending| < PacketSize
  }

  /** The stale-buffer test after the byte loop. */
  function DropStale(rest: seq<byte>, last: Clock32, now: Clock32): seq<byte>
  {
    if Elapsed32(now, last) > StaleTimeout && |rest| > 0 then [] else rest
  }

  /** `readECUData` as written: the time is recorded only when a packet
      completes, and the stale test runs once after the byte loop. */
  function ReadAsWritten(r: Reader, incoming: seq<byte>, now: Clock32): (out: (seq<EcuPacket>, Reader))
    requires ReaderOk(r)
    ensures ReaderOk(out.1)
  {
    var fed := Feed(r.pending, incoming);
    var last := if fed.0 != [] then now else r.last;
    (fed.0, Reader(DropStale(fed.1, last, now), last))
  }

  /** `readECUData` with the evident intent: every byte received refreshes
      the time, so only a silence of more than five seconds drops a partial
      packet. */
  function Read(r: Reader, incoming: seq<byte>, now: Clock32): (out: (seq<EcuPacket>, Reader))
    requires ReaderOk(r)
    ensures ReaderOk(out.1)
  {
    var fed := Feed(r.pending, incoming);
    var last := if incoming != [] then now else r.last;
    (fed.0, Reader(DropStale(fed.1, last, now), last))
  }

  /** A run of loop passes, each reading the bytes waiting then. */
  datatype Call = Call(bytes: seq<byte>, now: Clock32)

  function RunAsWritten(r: Reader, calls: seq<Call>): (out: (seq<EcuPacket>, Reader))
    requires ReaderOk(r)
    ensures ReaderOk(out.1)
    decreases |calls|
  {
    if calls == [] then ([], r)
    else
      var step := ReadAsWritten(r, calls[0].bytes, calls[0].now);
      var rest := RunAsWritten(step.1, calls[1..]);
      (step.0 + rest.0, rest.1)
  }

  function Run(r: Reader, calls: seq<Call>): (out: (seq<EcuPacket>, Reader))
    requires ReaderOk(r)
    ensures ReaderOk(out.1)
    decreases |calls|
  {
    if calls == [] then ([], r)
    else
      var step := Read(r, calls[0].bytes, calls[0].now);
      var rest := Run(step.1, calls[1..]);
      (step.0 + rest.0, rest.1)
  }

  /** Each pass receives a single byte (the link runs at 160 baud, far
      slower than the loop). */
  predicate OneByteEach(calls: seq<Call>)
  {
    forall i :: 0 <= i < |calls| ==> |calls[i].bytes| == 1
  }

  /** All the bytes of a run, in order. */
  function Stream(calls: seq<Call>): seq<byte>
    decreases |calls|
  {
    if calls == [] then [] else calls[0].bytes + Stream(calls[1..])
  }

  /** A single byte from an empty buffer is only stored. */
  lemma FeedSingle(bytes: seq<byte>)
    requires |bytes| == 1
    ensures Feed([], bytes) == ([], bytes)
  {
    assert bytes[..0] == [];
    assert Feed([], bytes[..0]) == ([], []);
    assert [] + [bytes[0]] == bytes;
  }

  /** As written, once more than five seconds have passed since the last
      complete packet (from power-up on, if the first packet did not arrive
      in one burst), bytes arriving one per pass are each dropped by the
      stale test: no packet is ever produced again. */
  lemma {:induction false} AsWrittenNeverResyncs(r: Reader, calls: seq<Call>)
    requires r.pending == []
    requires OneByteEach(calls)
    requires forall i :: 0 <= i < |calls| ==> Elapsed32(calls[i].now, r.last) > StaleTimeout
    ensures RunAsWritten(r, calls) == ([], r)
    decreases |calls|
  {
    if calls != [] {
      var c := calls[0];
      FeedSingle(c.bytes);
      assert ReadAsWritten(r, c.bytes, c.now) == ([], r);
      assert OneByteEach(calls[1..]);
      assert forall i :: 0 <= i < |calls[1..]| ==> Elapsed32(calls[1..][i].now, r.last) > StaleTimeout by {
        forall i | 0 <= i < |calls[1..]| ensures Elapsed32(calls[1..][i].now, r.last) > StaleTimeout {
          assert calls[1..][i] == calls[i + 1];
        }
      }
      AsWrittenNeverResyncs(r, calls[1..]);
      var step := ReadAsWritten(r, calls[0].bytes, calls[0].now);
      var rest := RunAsWritten(step.1, calls[1..]);
      assert step.0 + rest.0 == [];
    }
  }

  /** The five passes of the power-up example: one byte each at 6.0, 6.1,
      ... 6.4 s. */
  function PowerUpCalls(b: seq<byte>): (calls: seq<Call>)
    requires |b| == PacketSize
    ensures OneByteEach(calls) && Stream(calls) == b
  {
    var calls := [Call([b[0]], 6000), Call([b[1]], 6100), Call([b[2]], 6200),
                  Call([b[3]], 6300), Call([b[4]], 6400)];
    assert Stream(calls[4..]) == [b[4]];
    assert Stream(calls[3..]) == [b[3], b[4]];
    assert Stream(calls[2..]) == [b[2], b[3], b[4]];
    assert Stream(calls[1..]) == [b[1], b[2], b[3], b[4]];
    calls
  }

  /** The concrete case: from power-up, five bytes arrive one per pass at
      6.0, 6.1, ... 6.4 s; as written no packet comes out, while the
      intended reader yields the packet. */
  lemma AsWrittenPowerUpExample(b: seq<byte>)
    requires |b| == PacketSize
    ensures RunAsWritten(PowerUp, PowerUpCalls(b)).0 == []
    ensures Run(PowerUp, PowerUpCalls(b)).0 == [ParsePacket(b)]
  {
    var calls := PowerUpCalls(b);
    assert forall i :: 0 <= i < |calls| ==> Elapsed32(calls[i].now, PowerUp.last) > StaleTimeout;
    AsWrittenNeverResyncs(PowerUp, calls);
    RunOneByteEach(PowerUp, calls);
    assert PowerUp.pending + Stream(calls) == b;
    assert b[..PacketSize] == b && |b[PacketSize..]| == 0;
  }

  lemma AppendAssoc(a: seq<byte>, b: seq<byte>, c: seq<byte>)
    ensures a + (b + c) == (a + b) + c
  {
  }

  /** A pass that receives bytes keeps its leftover: the clock restarts at
      that pass. */
  lemma ReadOneByte(r: Reader, bytes: seq<byte>, now: Clock32)
    requires ReaderOk(r) && bytes != []
    ensures Read(r, bytes, now) == (PacketsOf(r.pending + bytes), Reader(Leftover(r.pending + bytes), now))
  {
    FeedIsPacketsOf(r.pending, bytes);
    assert Elapsed32(now, now) == 0;
  }

  /** With the intended reader, bytes arriving one per pass are cut into
      packets exactly as the whole stream would be, however long the gaps. */
  lemma {:induction false} RunOneByteEach(r: Reader, calls: seq<Call>)
    requires ReaderOk(r) && OneByteEach(calls)
    ensures Run(r, calls).0 == PacketsOf(r.pending + Stream(calls))
    ensures Run(r, calls).1.pending == Leftover(r.pending + Stream(calls))
    decreases |calls|
  {
    if calls == [] {
      assert r.pending + [] == r.pending;
      LeftoverShort(r.pending);
    } else {
      var c := calls[0];
      var p1 := r.pending + c.bytes;
      var next := Reader(Leftover(p1), c.now);
      assert Run(r, calls) == (PacketsOf(p1) + Run(next, calls[1..]).0, Run(next, calls[1..]).1) by {
        ReadOneByte(r, c.bytes, c.now);
      }
      assert OneByteEach(calls[1..]);
      RunOneByteEach(next, calls[1..]);
      var tail := Stream(calls[1..]);
      assert r.pending + Stream(calls) == p1 + tail by {
        AppendAssoc(r.pending, c.bytes, tail);
      }
      PacketsSplit(p1, tail);
    }
  }

  /** A short stream is its own leftover. */
  lemma LeftoverShort(s: seq<byte>)
    requires |s| < PacketSize
    ensures Leftover(s) == s && PacketsOf(s) == []
  {
  }

  /** Cutting a stream in two at any point: the packets of the first part,
      then those of its leftover followed by the second part. */
  lemma {:induction false} PacketsSplit(s: seq<byte>, t: seq<byte>)
    ensures PacketsOf(s + t) == PacketsOf(s) + PacketsOf(Leftover(s) + t)
    ensures Leftover(s + t) == Leftover(Leftover(s) + t)
    decreases |s|
  {
    if |s| >= PacketSize {
      assert (s + t)[..PacketSize] == s[..PacketSize];
      assert (s + t)[PacketSize..] == s[PacketSize..] + t;
      PacketsSplit(s[PacketSize..], t);
    }
  }

  /** With the intended reader, a pass with no bytes drops a partial packet
      exactly when the last byte is more than five seconds old, and a pass
      with bytes never drops what it just received. */
  lemma ReadDropsOnlyStale(r: Reader, incoming: seq<byte>, now: Clock32)
    requires ReaderOk(r)
    ensures incoming == [] ==>
              Read(r, incoming, now) ==
              ([], Reader(if Elapsed32(now, r.last) > StaleTimeout then [] else r.pending, r.last))
    ensures incoming != [] ==>
              Read(r, incoming, now) ==
              (PacketsOf(r.pending + incoming), Reader(Leftover(r.pending + incoming), now))
  {
    FeedIsPacketsOf(r.pending, incoming);
  }

  // ---------------------------------------------------------------------
  // The reader object
  // ---------------------------------------------------------------------

  /** The three statics of `readECUData`, and the packets decoded so far. */
  class EcuReader {
    var buffer: array<byte>
    var bufferIndex: int
    var lastEcuData: Clock32
    var packets: seq<EcuPacket>

    predicate Valid()
      reads this
    {
      buffer.Length == PacketSize && 0 <= bufferIndex < PacketSize
    }

    /** The state as the pure model sees it. */
    function State(): (r: Reader)
      requires Valid()
      reads this, buffer
      ensures ReaderOk(r)
    {
      Reader(buffer[..bufferIndex], lastEcuData)
    }

    constructor ()
      ensures Valid() && State() == PowerUp && packets == []
    {
      buffer := new byte[PacketSize];
      bufferIndex := 0;
      lastEcuData := 0;
      packets := [];
    }

    /** One pass of the byte loop: store the byte, refresh the time, and
        hand on a packet when the buffer is full. */
    method PushByte(x: byte, now: Clock32)
      requires Valid()
      modifies this, buffer
      ensures Valid() && buffer == old(buffer) && lastEcuData == now
      ensures var step := PushStep(old(buffer[..bufferIndex]), x);
              packets == old(packets) + step.0 && buffer[..bufferIndex] == step.1
    {
      ghost var pending := buffer[..bufferIndex];
      buffer[bufferIndex] := x;
      assert buffer[..bufferIndex + 1] == pending + [x];
      bufferIndex := bufferIndex + 1;
      lastEcuData := now;
      if bufferIndex >= PacketSize {
        packets := packets + [ParsePacket(buffer[..])];
        bufferIndex := 0;
      }
    }

    /** The byte loop of `readECUData`: every byte goes into the buffer and
        refreshes the time. */
    method FeedBytes(incoming: seq<byte>, now: Clock32)
      requires Valid()
      modifies this, buffer
      ensures Valid() && buffer == old(buffer)
      ensures lastEcuData == if incoming != [] then now else old(lastEcuData)
      ensures var fed := Feed(old(buffer[..bufferIndex]), incoming);
              packets == old(packets) + fed.0 && buffer[..bufferIndex] == fed.1
    {
      ghost var pending := buffer[..bufferIndex];
      ghost var last := lastEcuData;
      ghost var packets0 := packets;
      var k := 0;
      ghost var seen: seq<byte> := [];
      while k < |incoming|
        invariant 0 <= k <= |incoming| && seen == incoming[..k]
        invariant Valid() && buffer == old(buffer) && |pending| < PacketSize
        invariant lastEcuData == (if k > 0 then now else last)
        invariant var fed := Feed(pending, seen);
                  packets == packets0 + fed.0 && buffer[..bufferIndex] == fed.1
      {
        FeedSnoc(pending, seen, incoming[k], seen + [incoming[k]]);
        PushByte(incoming[k], now);
        assert incoming[..k + 1] == seen + [incoming[k]];
        seen := seen + [incoming[k]];
        k := k + 1;
      }
      assert seen == incoming;
    }

    /** One call of `readECUData` (with the time refreshed on every byte)
        on the bytes waiting in the serial buffer. */
    method ReadEcuData(incoming: seq<byte>, now: Clock32)
      requires Valid()
      modifies this, buffer
      ensures Valid() && buffer == old(buffer)
      ensures var out := Read(old(State()), incoming, now);
              packets == old(packets) + out.0 && State() == out.1
    {
      FeedBytes(incoming, now);
      if Elapsed32(now, lastEcuData) > StaleTimeout && bufferIndex > 0 {
        bufferIndex := 0;
      }
    }
  }
}
