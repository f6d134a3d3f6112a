/** The byte-exact wire rules of the acquisition link (CompassWorker.cs):
    the bulk "select sensors 1..4" command frame, the single-byte commands
    sent by `Write`, and the 6-byte big-endian data frame decoded by `Read`. */
module Wire {
  import opened Vectors

  /** A C# `byte`. */
  type Byte = x: int | 0 <= x < 0x100

  /** A C# `Int16` (two's complement, 16 bits). */
  type Int16 = x: int | -0x8000 <= x < 0x8000

  /** `_writeDelay`: zero padding bytes between two select commands. */
  const WriteDelay: nat := 10

  /** ASCII '1': the command that selects sensor 1; sensors 2..4 follow. */
  const SelectFirst: Byte := 49

  const StartStreaming: Byte := 53
  const StopStreaming: Byte := 54

  /** `_bulkWriteLength`: four command bytes and three gaps of `delay` zeros. */
  function BulkLength(delay: nat): nat
  {
    4 + 3 * delay
  }

  /** The byte the constructor's loop leaves at offset `k` of the bulk
      buffer: it writes `49 + i` at `i * (delay + 1)` for i = 0..3 and the
      array's default zero stays everywhere else. */
  function BulkByte(delay: nat, k: nat): Byte
  {
    var period := delay + 1;
    if k == 0 then SelectFirst
    else if k == period then SelectFirst + 1
    else if k == 2 * period then SelectFirst + 2
    else if k == 3 * period then SelectFirst + 3
    else 0
  }

  function BulkCommand(delay: nat): (r: seq<Byte>)
    ensures |r| == BulkLength(delay)
  {
    seq(BulkLength(delay), k requires 0 <= k => BulkByte(delay, k))
  }

  function Zeros(n: nat): (r: seq<Byte>)
    ensures |r| == n && forall k | 0 <= k < n :: r[k] == 0
  {
    seq(n, _ => 0)
  }

  /** The bytes `Write(sensor)` puts on the link, given the bulk buffer.
      `sensor` is a `byte`, so the source's `sensor < 0` test never holds. */
  function WriteBytes(sensor: Byte, bulk: seq<Byte>): seq<Byte>
  {
    if sensor > 6 then []
    else if sensor > 0 then [48 + sensor]
    else bulk
  }

  /** The ASCII code of decimal digit `d`. */
  function DigitByte(d: nat): Byte
    requires d < 10
  {
    "0123456789"[d] as int
  }

  // ---------------------------------------------------------------------
  // Bulk command frame

  /** Offset of the `i`-th select command in the bulk buffer. */
  function Slot(delay: nat, i: nat): nat
  {
    i * (delay + 1)
  }

  /** The bulk buffer holds '1'..'4' at offsets `i * (delay + 1)`, i = 0..3,
      and zero at every other offset. */
  lemma {:induction false} BulkCommandLayout(delay: nat)
    ensures |BulkCommand(delay)| == 4 + 3 * delay
    ensures forall i | 0 <= i < 4 ::
      Slot(delay, i) < |BulkCommand(delay)| && BulkCommand(delay)[Slot(delay, i)] == SelectFirst + i
    ensures forall k | 0 <= k < |BulkCommand(delay)| ::
      (k != 0 && k != delay + 1 && k != 2 * (delay + 1) && k != 3 * (delay + 1)) ==> BulkCommand(delay)[k] == 0
  {
    var period := delay + 1;
    var r := BulkCommand(delay);
    forall i | 0 <= i < 4
      ensures Slot(delay, i) < |r| && r[Slot(delay, i)] == SelectFirst + i
    {
      assert i == 0 || i == 1 || i == 2 || i == 3;
    }
  }

  /** The bulk buffer is the four single-byte select commands that `Write`
      sends for sensors 1..4, each pair separated by `delay` zero bytes. */
  lemma {:induction false} BulkCommandIsPaddedSelects(delay: nat, bulk: seq<Byte>)
    ensures BulkCommand(delay) ==
      WriteBytes(1, bulk) + Zeros(delay) + WriteBytes(2, bulk) + Zeros(delay)
      + WriteBytes(3, bulk) + Zeros(delay) + WriteBytes(4, bulk)
  {
    var period := delay + 1;
    var r := BulkCommand(delay);
    var z := Zeros(delay);
    var p := [49] + z + [50] + z + [51] + z + [52];
    BulkCommandLayout(delay);
    assert |p| == |r|;
    forall k | 0 <= k < |r| ensures r[k] == p[k] {
      if k == 0 || k == period || k == 2 * period || k == 3 * period {
        assert Slot(delay, 0) == 0 && Slot(delay, 1) == period;
        assert Slot(delay, 2) == 2 * period && Slot(delay, 3) == 3 * period;
      }
    }
    assert r == p;
  }

  /** The length and contents with the source's delay of 10: 34 bytes. */
  lemma DefaultBulkCommand()
    ensures |BulkCommand(WriteDelay)| == 34
    ensures BulkCommand(WriteDelay)[0] == 49 && BulkCommand(WriteDelay)[11] == 50
    ensures BulkCommand(WriteDelay)[22] == 51 && BulkCommand(WriteDelay)[33] == 52
  {
    BulkCommandLayout(WriteDelay);
    assert Slot(WriteDelay, 1) == 11 && Slot(WriteDelay, 2) == 22 && Slot(WriteDelay, 3) == 33;
  }

  // ---------------------------------------------------------------------
  // Single-byte commands

  /** For 1..6 `Write` sends exactly one byte, the ASCII digit of the
      command: '1'..'4' select a sensor, '5' starts and '6' stops streaming. */
  lemma WriteSendsDigit(sensor: Byte, bulk: seq<Byte>)
    requires 1 <= sensor <= 6
    ensures WriteBytes(sensor, bulk) == [DigitByte(sensor)]
    ensures sensor == 5 ==> WriteBytes(sensor, bulk) == [StartStreaming]
    ensures sensor == 6 ==> WriteBytes(sensor, bulk) == [StopStreaming]
  {
  }

  /** 0 sends the whole bulk buffer and anything above 6 sends nothing. */
  lemma WriteBulkOrNothing(sensor: Byte, delay: nat)
    ensures sensor == 0 ==> WriteBytes(sensor, BulkCommand(delay)) == BulkCommand(delay)
    ensures sensor > 6 ==> WriteBytes(sensor, BulkCommand(delay)) == []
    ensures |WriteBytes(sensor, BulkCommand(delay))| ==
      if sensor == 0 then 4 + 3 * delay else if sensor <= 6 then 1 else 0
  {
  }

  // ---------------------------------------------------------------------
  // Data frame

  /** `(hi << 8) | lo` on two bytes; since `lo < 256` the `|` adds. */
  function Word(hi: Byte, lo: Byte): (w: int)
    ensures 0 <= w < 0x1_0000
  {
    hi * 0x100 + lo
  }

  /** The `(Int16)` cast of a 16-bit value: two's-complement reinterpretation. */
  function AsInt16(w: int): (v: Int16)
    requires 0 <= w < 0x1_0000
    ensures (v < 0) == (w >= 0x8000)
  {
    if w < 0x8000 then w else w - 0x1_0000
  }

  /** The cast keeps the value modulo 2^16: it only reinterprets the bits. */
  lemma AsInt16Wraps(w: int)
    requires 0 <= w < 0x1_0000
    ensures AsInt16(w) % 0x1_0000 == w
  {
  }

  /** The three big-endian signed 16-bit values of one 6-byte frame. */
  function DecodeInts(frame: seq<Byte>): (Int16, Int16, Int16)
    requires |frame| == 6
  {
    (AsInt16(Word(frame[0], frame[1])),
     AsInt16(Word(frame[2], frame[3])),
     AsInt16(Word(frame[4], frame[5])))
  }

  /** `Read`'s result: the decoded values as a `Vector3D`. */
  function DecodeFrame(frame: seq<Byte>): Vec3
    requires |frame| == 6
  {
    var (x, y, z) := DecodeInts(frame);
    Vec3(x as real, y as real, z as real)
  }

  /** Every decoded coordinate is a signed 16-bit value. */
  lemma DecodeFrameRange(frame: seq<Byte>)
    requires |frame| == 6
    ensures var v := DecodeFrame(frame);
      -32768.0 <= v.x < 32768.0 && -32768.0 <= v.y < 32768.0 && -32768.0 <= v.z < 32768.0
  {
  }

  /** Big-endian two's-complement bytes of one value: the device's side. */
  function EncodeInt16(v: Int16): (r: seq<Byte>)
    ensures |r| == 2
  {
    var u := v % 0x1_0000;
    [u / 0x100, u % 0x100]
  }

  function EncodeFrame(x: Int16, y: Int16, z: Int16): (r: seq<Byte>)
    ensures |r| == 6
  {
    EncodeInt16(x) + EncodeInt16(y) + EncodeInt16(z)
  }

  /** Decoding a frame the device encoded gives back its three values,
      negative ones included. */
  lemma DecodeEncode(x: Int16, y: Int16, z: Int16)
    ensures DecodeInts(EncodeFrame(x, y, z)) == (x, y, z)
    ensures DecodeFrame(EncodeFrame(x, y, z)) == Vec3(x as real, y as real, z as real)
  {
    var f := EncodeFrame(x, y, z);
    assert f[0..2] == EncodeInt16(x) && f[2..4] == EncodeInt16(y) && f[4..6] == EncodeInt16(z);
  }

  /** Every 6-byte frame is the encoding of what it decodes to: decoding
      loses nothing. */
  lemma EncodeDecode(frame: seq<Byte>)
    requires |frame| == 6
    ensures var (x, y, z) := DecodeInts(frame); EncodeFrame(x, y, z) == frame
  {
    WordRoundTrip(frame[0], frame[1]);
    WordRoundTrip(frame[2], frame[3]);
    WordRoundTrip(frame[4], frame[5]);
    assert frame == [frame[0], frame[1]] + [frame[2], frame[3]] + [frame[4], frame[5]];
  }

  /** Encoding the value two bytes decode to gives back those bytes. */
  lemma WordRoundTrip(hi: Byte, lo: Byte)
    ensures EncodeInt16(AsInt16(Word(hi, lo))) == [hi, lo]
  {
    AsInt16Wraps(Word(hi, lo));
  }

  /** 0xFF 0xFF is -1 and 0x80 0x00 is the most negative value. */
  lemma DecodeExamples()
    ensures DecodeFrame([0xFF, 0xFF, 0x00, 0x01, 0x80, 0x00]) == Vec3(-1.0, 1.0, -32768.0)
    ensures EncodeInt16(-1) == [0xFF, 0xFF]
  {
  }
}
