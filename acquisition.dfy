/** The acquisition engine of CompassWorker.cs after a port has been found:
    priming the four sliding windows, capturing the offsets, and the
    steady-state ticks that emit `Filter(window) - offset` for sensors 1..4
    and then advance each window by one sample. The serial port is a
    scripted link: the bytes the device will answer with are given up front,
    and a read past their end is the read timeout that ends the session. */
module Acquisition {
  import opened Vectors
  import opened Wire
  import opened Filtering

  /** CompassEventArgs: the sensor number and its calibrated vector. */
  datatype CompassEvent = CompassEvent(sensor: Byte, data: Vec3)

  // ---------------------------------------------------------------------
  // The reply stream

  /** The samples a reply stream carries, one per 6-byte frame in reply
      order; a trailing partial frame carries none. */
  function Frames(bytes: seq<Byte>): (r: seq<Vec3>)
    ensures 6 * |r| <= |bytes| < 6 * |r| + 6
    decreases |bytes|
  {
    if |bytes| < 6 then [] else [DecodeFrame(bytes[..6])] + Frames(bytes[6..])
  }

  /** The `m`-th sample is what `Read` decodes from the six bytes at `offset`. */
  lemma FrameAt(bytes: seq<Byte>, m: nat, offset: nat)
    requires offset == 6 * m && offset + 6 <= |bytes|
    ensures m < |Frames(bytes)| && Frames(bytes)[m] == DecodeFrame(bytes[offset..][..6])
  {
    FramesSuffix(bytes, m, offset);
    var rest := bytes[offset..];
    assert Frames(rest) == [DecodeFrame(rest[..6])] + Frames(rest[6..]);
  }

  /** Skipping `m` whole frames of the replies skips `m` samples. */
  lemma {:induction false} FramesSuffix(bytes: seq<Byte>, m: nat, offset: nat)
    requires offset == 6 * m && offset <= |bytes|
    ensures Frames(bytes[offset..]) == Frames(bytes)[m..]
  {
    if m == 0 {
      assert bytes[offset..] == bytes;
    } else {
      FramesSuffix(bytes[6..], m - 1, offset - 6);
      assert bytes[6..][offset - 6..] == bytes[offset..];
    }
  }

  /** In every tick the device answers sensors 1..4 in turn: the sample of
      sensor `i` in tick `j`. */
  function Sample(frames: seq<Vec3>, j: nat, i: nat): Vec3
    requires 1 <= i <= 4 && 4 * j + i <= |frames|
  {
    frames[4 * j + i - 1]
  }

  /** The first `n` samples of sensor `i`, in the order they are read. */
  function SensorSamples(frames: seq<Vec3>, i: nat, n: nat): (r: seq<Vec3>)
    requires 1 <= i <= 4 && 4 * n <= |frames|
    ensures |r| == n
  {
    if n == 0 then [] else SensorSamples(frames, i, n - 1) + [Sample(frames, n - 1, i)]
  }

  function Repeat(s: seq<Byte>, n: nat): seq<Byte>
  {
    if n == 0 then [] else Repeat(s, n - 1) + s
  }

  /** Sending `s` once more after `n` times extends the log by one copy. */
  lemma RepeatOnceMore(log: seq<Byte>, s: seq<Byte>, n: nat)
    ensures log + Repeat(s, n) + s == log + Repeat(s, n + 1)
  {
    assert log + Repeat(s, n) + s == log + (Repeat(s, n) + s);
  }

  /** One `Dequeue` followed by one `Enqueue`. */
  function Slide(w: seq<Vec3>, v: Vec3): seq<Vec3>
    requires |w| > 0
  {
    w[1..] + [v]
  }

  /** A stream of `r` bytes that runs out within block `c` of 24 (blocks
      counted from 1) holds `c - 1` whole blocks. */
  lemma BlockIndex(r: nat, c: nat)
    requires 0 < c && 24 * (c - 1) <= r < 24 * c
    ensures r / 24 == c - 1
  {
  }

  /** Position of sensor `i`'s event of tick `k` among all emitted events. */
  function EventIndex(k: nat, i: nat): nat
    requires 1 <= i
  {
    4 * k + i - 1
  }

  /** Sample `j` of the series is the sensor's sample of tick `j`. */
  lemma {:induction false} SensorSamplesIndex(frames: seq<Vec3>, i: nat, n: nat, j: nat)
    requires 1 <= i <= 4 && 4 * n <= |frames| && j < n
    ensures SensorSamples(frames, i, n)[j] == Sample(frames, j, i)
  {
    if j < n - 1 {
      SensorSamplesIndex(frames, i, n - 1, j);
    }
  }

  /** Samples read after skipping `skip` ticks continue the sensor's series. */
  lemma {:induction false} SensorSamplesConcat(frames: seq<Vec3>, i: nat, skip: nat, k: nat)
    requires 1 <= i <= 4 && 4 * (skip + k) <= |frames|
    ensures SensorSamples(frames, i, skip) + SensorSamples(frames[4 * skip..], i, k)
         == SensorSamples(frames, i, skip + k)
  {
    if k > 0 {
      SensorSamplesConcat(frames, i, skip, k - 1);
      var last := Sample(frames, skip + k - 1, i);
      assert Sample(frames[4 * skip..], k - 1, i) == last;
      assert SensorSamples(frames, i, skip) + (SensorSamples(frames[4 * skip..], i, k - 1) + [last])
          == (SensorSamples(frames, i, skip) + SensorSamples(frames[4 * skip..], i, k - 1)) + [last];
    }
  }

  /** The sliding window after one more tick is the suffix one step further on. */
  lemma SlideNewest(a: seq<Vec3>, t: nat, x: Vec3)
    requires t < |a|
    ensures Slide(a[t..], x) == (a + [x])[t + 1..]
  {
  }

  lemma {:induction false} SlideKeepsNewest(w: seq<Vec3>, xs: seq<Vec3>, t: nat, x: Vec3)
    requires t < |w| + |xs|
    ensures Slide((w + xs)[t..], x) == (w + (xs + [x]))[t + 1..]
  {
    SlideNewest(w + xs, t, x);
    assert w + xs + [x] == w + (xs + [x]);
  }

  // ---------------------------------------------------------------------
  // Window states: slot 0 of `_filterBuffer` is unused and never changes

  /** Bulk read `j` of priming: every sensor's window takes its sample of
      that tick. */
  function Enqueued(w: seq<seq<Vec3>>, frames: seq<Vec3>, j: nat): (r: seq<seq<Vec3>>)
    requires |w| == 5 && 4 * j + 4 <= |frames|
    ensures |r| == 5 && forall i | 1 <= i <= 4 :: |r[i]| == |w[i]| + 1
  {
    [w[0], w[1] + [Sample(frames, j, 1)], w[2] + [Sample(frames, j, 2)],
     w[3] + [Sample(frames, j, 3)], w[4] + [Sample(frames, j, 4)]]
  }

  /** The windows after `j` bulk reads of priming from emptied windows. */
  function PrimedAfter(slot0: seq<Vec3>, frames: seq<Vec3>, j: nat): (w: seq<seq<Vec3>>)
    requires 4 * j <= |frames|
    ensures |w| == 5 && forall i | 1 <= i <= 4 :: |w[i]| == j
  {
    if j == 0 then [slot0, [], [], [], []]
    else Enqueued(PrimedAfter(slot0, frames, j - 1), frames, j - 1)
  }

  /** After `j` bulk reads, sensors 1..4 hold their first `j` samples in
      read order. */
  lemma {:induction false} PrimedAfterSamples(slot0: seq<Vec3>, frames: seq<Vec3>, j: nat, i: nat)
    requires 4 * j <= |frames| && 1 <= i <= 4
    ensures PrimedAfter(slot0, frames, j)[0] == slot0
    ensures PrimedAfter(slot0, frames, j)[i] == SensorSamples(frames, i, j)
  {
    if j > 0 {
      PrimedAfterSamples(slot0, frames, j - 1, i);
    }
  }

  /** Sensor `i`'s window part way through a bulk read, once the sensors
      below `n` have been read from `frames`. */
  function EnqueuingWindow(w: seq<Vec3>, frames: seq<Vec3>, n: nat, i: nat): seq<Vec3>
    requires 1 <= i <= 4 && (i < n ==> i <= |frames|)
  {
    if i < n then w + [Sample(frames, 0, i)] else w
  }

  function PartlyEnqueued(w: seq<seq<Vec3>>, frames: seq<Vec3>, n: nat): (r: seq<seq<Vec3>>)
    requires |w| == 5 && 1 <= n <= 5 && n - 1 <= |frames|
    ensures |r| == 5
  {
    [w[0], EnqueuingWindow(w[1], frames, n, 1), EnqueuingWindow(w[2], frames, n, 2),
     EnqueuingWindow(w[3], frames, n, 3), EnqueuingWindow(w[4], frames, n, 4)]
  }

  lemma PartlyEnqueuedStart(w: seq<seq<Vec3>>, frames: seq<Vec3>)
    requires |w| == 5
    ensures PartlyEnqueued(w, frames, 1) == w
  {
  }

  lemma PartlyEnqueuedStep(w: seq<seq<Vec3>>, frames: seq<Vec3>, n: nat)
    requires |w| == 5 && 1 <= n <= 4 && n <= |frames|
    ensures var p := PartlyEnqueued(w, frames, n);
      p[n := p[n] + [frames[n - 1]]] == PartlyEnqueued(w, frames, n + 1)
  {
  }

  lemma PartlyEnqueuedDone(w: seq<seq<Vec3>>, frames: seq<Vec3>)
    requires |w| == 5 && 4 <= |frames|
    ensures PartlyEnqueued(w, frames, 5) == Enqueued(w, frames, 0)
  {
  }

  /** A bulk read of the replies left after `j` bulk reads enqueues the
      samples of tick `j`. */
  lemma EnqueuedSuffix(w: seq<seq<Vec3>>, bytes: seq<Byte>, j: nat)
    requires |w| == 5 && 24 * j + 24 <= |bytes|
    ensures Enqueued(w, Frames(bytes[24 * j..]), 0) == Enqueued(w, Frames(bytes), j)
  {
    FramesSuffix(bytes, 4 * j, 24 * j);
  }

  /** Every sensor's window after tick `t`: the oldest sample dropped, the
      sample of that tick appended. */
  function Advance(w: seq<seq<Vec3>>, frames: seq<Vec3>, t: nat): (r: seq<seq<Vec3>>)
    requires |w| == 5 && 4 * t + 4 <= |frames| && forall i | 1 <= i <= 4 :: |w[i]| > 0
    ensures |r| == 5 && forall i | 1 <= i <= 4 :: |r[i]| == |w[i]|
  {
    [w[0], Slide(w[1], Sample(frames, t, 1)), Slide(w[2], Sample(frames, t, 2)),
     Slide(w[3], Sample(frames, t, 3)), Slide(w[4], Sample(frames, t, 4))]
  }

  /** Sensor `i`'s window part way through the sliding phase of a tick,
      once the sensors below `n` have slid. */
  function AdvancingWindow(w: seq<Vec3>, frames: seq<Vec3>, n: nat, i: nat): seq<Vec3>
    requires 1 <= i <= 4 && |w| > 0 && (i < n ==> i <= |frames|)
  {
    if i < n then Slide(w, Sample(frames, 0, i)) else w
  }

  function PartlyAdvanced(w: seq<seq<Vec3>>, frames: seq<Vec3>, n: nat): (r: seq<seq<Vec3>>)
    requires |w| == 5 && 1 <= n <= 5 && n - 1 <= |frames|
    requires forall i | 1 <= i <= 4 :: |w[i]| > 0
    ensures |r| == 5
  {
    [w[0], AdvancingWindow(w[1], frames, n, 1), AdvancingWindow(w[2], frames, n, 2),
     AdvancingWindow(w[3], frames, n, 3), AdvancingWindow(w[4], frames, n, 4)]
  }

  lemma PartlyAdvancedStart(w: seq<seq<Vec3>>, frames: seq<Vec3>)
    requires |w| == 5 && forall i | 1 <= i <= 4 :: |w[i]| > 0
    ensures PartlyAdvanced(w, frames, 1) == w
  {
  }

  lemma PartlyAdvancedStep(w: seq<seq<Vec3>>, frames: seq<Vec3>, n: nat)
    requires |w| == 5 && 1 <= n <= 4 && n <= |frames| && forall i | 1 <= i <= 4 :: |w[i]| > 0
    ensures var p := PartlyAdvanced(w, frames, n);
      p[n := w[n][1..]][n := w[n][1..] + [frames[n - 1]]] == PartlyAdvanced(w, frames, n + 1)
  {
  }

  lemma PartlyAdvancedDone(w: seq<seq<Vec3>>, frames: seq<Vec3>)
    requires |w| == 5 && 4 <= |frames| && forall i | 1 <= i <= 4 :: |w[i]| > 0
    ensures PartlyAdvanced(w, frames, 5) == Advance(w, frames, 0)
  {
  }

  /** A tick that reads the replies left after `t` ticks advances the
      windows by the samples of tick `t`. */
  lemma AdvanceSuffix(w: seq<seq<Vec3>>, bytes: seq<Byte>, t: nat)
    requires |w| == 5 && 24 * t + 24 <= |bytes| && forall i | 1 <= i <= 4 :: |w[i]| > 0
    ensures Advance(w, Frames(bytes[24 * t..]), 0) == Advance(w, Frames(bytes), t)
  {
    FramesSuffix(bytes, 4 * t, 24 * t);
  }

  /** The windows after `t` steady-state ticks from `start`. */
  function WindowsAfter(start: seq<seq<Vec3>>, frames: seq<Vec3>, t: nat): (w: seq<seq<Vec3>>)
    requires |start| == 5 && 4 * t <= |frames| && forall i | 1 <= i <= 4 :: |start[i]| > 0
    ensures |w| == 5 && forall i | 1 <= i <= 4 :: |w[i]| == |start[i]|
  {
    if t == 0 then start
    else Advance(WindowsAfter(start, frames, t - 1), frames, t - 1)
  }

  /** Sensor `i`'s window after `t` ticks from `w`: `w` followed by the
      sensor's first `t` samples, less its `t` oldest entries. */
  function Newest(w: seq<Vec3>, frames: seq<Vec3>, i: nat, t: nat): (r: seq<Vec3>)
    requires 1 <= i <= 4 && 4 * t <= |frames|
    ensures |r| == |w|
  {
    (w + SensorSamples(frames, i, t))[t..]
  }

  /** One more tick slides each window by that tick's sample. */
  lemma NewestStep(w: seq<Vec3>, frames: seq<Vec3>, i: nat, t: nat)
    requires 1 <= i <= 4 && 4 * t + 4 <= |frames| && |w| > 0
    ensures Slide(Newest(w, frames, i, t), Sample(frames, t, i)) == Newest(w, frames, i, t + 1)
  {
    SlideKeepsNewest(w, SensorSamples(frames, i, t), t, Sample(frames, t, i));
  }

  /** After `t` ticks every window holds the newest samples of its sensor:
      as many as it started with, the oldest of them from `start`. */
  lemma {:induction false} WindowsAfterNewest(start: seq<seq<Vec3>>, frames: seq<Vec3>, t: nat, i: nat)
    requires |start| == 5 && 4 * t <= |frames| && forall i | 1 <= i <= 4 :: |start[i]| > 0
    requires 1 <= i <= 4
    ensures WindowsAfter(start, frames, t)[i] == Newest(start[i], frames, i, t)
  {
    if t == 0 {
      assert start[i] + [] == start[i];
    } else {
      WindowsAfterNewest(start, frames, t - 1, i);
      NewestStep(start[i], frames, i, t - 1);
    }
  }

  ghost function TickEvent(w: seq<seq<Vec3>>, offsets: seq<Vec3>, i: nat): CompassEvent
    requires |w| == 5 && |offsets| == 5 && 1 <= i <= 4 && |w[i]| >= 3
  {
    CompassEvent(i, Sub(TrimmedMean(w[i]), offsets[i]))
  }

  /** The four events of one tick, in sensor order. */
  ghost function TickEvents(w: seq<seq<Vec3>>, offsets: seq<Vec3>): (r: seq<CompassEvent>)
    requires |w| == 5 && |offsets| == 5 && forall i | 1 <= i <= 4 :: |w[i]| >= 3
    ensures |r| == 4
  {
    seq(4, n requires 0 <= n < 4 => TickEvent(w, offsets, n + 1))
  }

  /** The events of the first `t` ticks from the windows `start`: tick
      `n / 4`, sensor `n % 4 + 1` at position `n`. */
  ghost function EventsUpTo(start: seq<seq<Vec3>>, frames: seq<Vec3>, offsets: seq<Vec3>, t: nat): (r: seq<CompassEvent>)
    requires |start| == 5 && |offsets| == 5 && forall i | 1 <= i <= 4 :: |start[i]| >= 3
    requires t == 0 || 4 * (t - 1) <= |frames|
    ensures |r| == 4 * t
  {
    seq(4 * t, n requires 0 <= n < 4 * t => TickEvent(WindowsAfter(start, frames, n / 4), offsets, n % 4 + 1))
  }

  /** One more tick appends the four events of the windows after `t` ticks. */
  lemma EventsUpToNext(start: seq<seq<Vec3>>, frames: seq<Vec3>, offsets: seq<Vec3>, t: nat)
    requires |start| == 5 && |offsets| == 5 && forall i | 1 <= i <= 4 :: |start[i]| >= 3
    requires 4 * t <= |frames|
    ensures EventsUpTo(start, frames, offsets, t + 1) ==
      EventsUpTo(start, frames, offsets, t) + TickEvents(WindowsAfter(start, frames, t), offsets)
  {
    var before, tick := EventsUpTo(start, frames, offsets, t), TickEvents(WindowsAfter(start, frames, t), offsets);
    forall n | 4 * t <= n < 4 * t + 4
      ensures EventsUpTo(start, frames, offsets, t + 1)[n] == (before + tick)[n]
    {
      assert n / 4 == t && n % 4 == n - 4 * t;
    }
  }

  /** Tick `k` reports, for sensor `i`, the trimmed mean of its window in
      that tick minus its offset. */
  lemma EventsUpToIndex(start: seq<seq<Vec3>>, frames: seq<Vec3>, offsets: seq<Vec3>, t: nat, k: nat, i: nat)
    requires |start| == 5 && |offsets| == 5 && forall i | 1 <= i <= 4 :: |start[i]| >= 3
    requires t == 0 || 4 * (t - 1) <= |frames|
    requires k < t && 1 <= i <= 4
    ensures 4 * k <= |frames|
    ensures EventsUpTo(start, frames, offsets, t)[EventIndex(k, i)] ==
      TickEvent(WindowsAfter(start, frames, k), offsets, i)
  {
    assert EventIndex(k, i) / 4 == k && EventIndex(k, i) % 4 == i - 1;
  }

  /** What a session reports: in tick `k` the event of sensor `i` is the
      trimmed mean of that sensor's samples `k .. filterLength + k - 1`, its
      newest `filterLength`, minus the trimmed mean of its first
      `filterLength`, the primed window. `primed` and `offsets` are the
      windows and offsets priming leaves; the streamed events are read from
      the replies after priming. */
  lemma SessionEvents(input: seq<Byte>, filterLength: nat, primed: seq<seq<Vec3>>, offsets: seq<Vec3>,
                      count: nat, events: seq<CompassEvent>)
    requires filterLength >= 3 && 24 * filterLength <= |input|
    requires |primed| == 5 && forall i | 1 <= i <= 4 :: |primed[i]| == filterLength && primed[i] == SensorSamples(Frames(input), i, filterLength)
    requires |offsets| == 5 && forall i | 1 <= i <= 4 :: offsets[i] == TrimmedMean(primed[i])
    requires count == 0 || 4 * (count - 1) <= |Frames(input[24 * filterLength..])|
    requires events == EventsUpTo(primed, Frames(input[24 * filterLength..]), offsets, count)
    ensures forall k: nat, i | 1 <= i <= 4 && EventIndex(k, i) < |events| ::
      4 * (filterLength + k) <= |Frames(input)| &&
      events[EventIndex(k, i)] == CompassEvent(i, Sub(
        TrimmedMean(SensorSamples(Frames(input), i, filterLength + k)[k..]),
        TrimmedMean(SensorSamples(Frames(input), i, filterLength))))
    ensures count > 0 ==> forall i | 1 <= i <= 4 :: events[i - 1] == CompassEvent(i, Zero)
  {
    var frames, rest := Frames(input), Frames(input[24 * filterLength..]);
    FramesSuffix(input, 4 * filterLength, 24 * filterLength);
    forall k: nat, i | 1 <= i <= 4 && EventIndex(k, i) < |events|
      ensures 4 * (filterLength + k) <= |frames|
      ensures events[EventIndex(k, i)] == CompassEvent(i, Sub(
        TrimmedMean(SensorSamples(frames, i, filterLength + k)[k..]),
        TrimmedMean(SensorSamples(frames, i, filterLength))))
    {
      EventsUpToIndex(primed, rest, offsets, count, k, i);
      WindowsAfterNewest(primed, rest, k, i);
      SensorSamplesConcat(frames, i, filterLength, k);
    }
    if count > 0 {
      forall i | 1 <= i <= 4
        ensures events[i - 1] == CompassEvent(i, Zero)
      {
        assert EventIndex(0, i) == i - 1;
        assert SensorSamples(frames, i, filterLength + 0)[0..] == SensorSamples(frames, i, filterLength);
      }
    }
  }

  // ---------------------------------------------------------------------
  // The serial link

  /** The open serial port, as far as the engine sees it: the replies the
      device has still to deliver and everything written to it. */
  class SerialLink {
    var unread: seq<Byte>
    var written: seq<Byte>

    constructor (replies: seq<Byte>)
      ensures unread == replies && written == []
    {
      unread, written := replies, [];
    }

    /** `ReadByte`; `None` is the read timeout (past the end of the replies). */
    method ReadByte() returns (b: Option<Byte>)
      modifies this
      ensures written == old(written)
      ensures old(unread) == [] ==> b == None && unread == []
      ensures old(unread) != [] ==> b == Some(old(unread)[0]) && unread == old(unread)[1..]
    {
      if unread == [] {
        b := None;
      } else {
        b := Some(unread[0]);
        unread := unread[1..];
      }
    }

    method Write(bytes: seq<Byte>)
      modifies this
      ensures written == old(written) + bytes && unread == old(unread)
    {
      written := written + bytes;
    }
  }

  // ---------------------------------------------------------------------
  // The worker

  class CompassWorker {
    const serialPort: SerialLink
    const inputBuffer: array<Byte>
    /** `_filterBuffer`: one FIFO window per sensor; slot 0 is unused. */
    const filterBuffer: array<seq<Vec3>>
    /** `_offset`: the filtered primed window per sensor; slot 0 is unused. */
    const offset: array<Vec3>
    /** `_writeDelay`: zero bytes between two select commands of the bulk buffer. */
    const writeDelay: nat
    const bulkWriteLength: nat
    const bulkWrite: array<Byte>

    ghost predicate Valid()
      reads bulkWrite
    {
      && bulkWrite.Length == bulkWriteLength == BulkLength(writeDelay)
      && bulkWrite[..] == BulkCommand(writeDelay)
      && inputBuffer.Length == 6 && inputBuffer != bulkWrite
      && filterBuffer.Length == 5 && offset.Length == 5
    }

    /** Every sensor's window holds enough samples to be filtered. */
    ghost predicate Windowed()
      reads filterBuffer
    {
      filterBuffer.Length == 5 && forall i | 1 <= i <= 4 :: |filterBuffer[i]| >= 3
    }

    /** Builds the bulk command buffer. `port` is the link that discovery
        settled on (discovery itself is not part of this model). */
    constructor (port: SerialLink)
      ensures Valid() && serialPort == port && writeDelay == WriteDelay
      ensures fresh(inputBuffer) && fresh(filterBuffer) && fresh(offset) && fresh(bulkWrite)
    {
      serialPort := port;
      inputBuffer := new Byte[6](_ => 0);
      filterBuffer := new seq<Vec3>[5](_ => []);
      offset := new Vec3[5](_ => Zero);
      writeDelay := WriteDelay;
      var length := 4 + WriteDelay * 3;
      bulkWriteLength := length;
      var buffer := new Byte[length](_ => 0);
      var period := WriteDelay + 1;
      for i := 0 to 4
        invariant forall k | 0 <= k < buffer.Length ::
          buffer[k] == if k < i * period then BulkByte(WriteDelay, k) else 0
      {
        buffer[i * period] := 49 + i;
      }
      assert buffer[..] == BulkCommand(WriteDelay);
      bulkWrite := buffer;
    }

    /** `Write(sensor)`: a single command byte for 1..6, the bulk buffer for
        0, nothing above 6. */
    method Write(sensor: Byte)
      requires Valid()
      modifies serialPort
      ensures serialPort.written == old(serialPort.written) + WriteBytes(sensor, BulkCommand(writeDelay))
      ensures serialPort.unread == old(serialPort.unread)
    {
      if sensor > 6 {
        return;
      }
      if sensor > 0 {
        serialPort.Write([48 + sensor]);
      } else {
        serialPort.Write(bulkWrite[..bulkWriteLength]);
      }
    }

    /** `Read()`: six bytes into `_inputBuffer`, decoded. `None` is the
        timeout exception of a short reply. */
    method Read() returns (v: Option<Vec3>)
      requires Valid()
      modifies inputBuffer, serialPort
      ensures serialPort.written == old(serialPort.written)
      ensures |old(serialPort.unread)| >= 6 ==>
        && v == Some(DecodeFrame(old(serialPort.unread)[..6]))
        && inputBuffer[..] == old(serialPort.unread)[..6]
        && serialPort.unread == old(serialPort.unread)[6..]
      ensures |old(serialPort.unread)| < 6 ==> v == None
    {
      ghost var input := serialPort.unread;
      var b := serialPort.ReadByte();
      if b.None? { return None; }
      inputBuffer[0] := b.value;
      b := serialPort.ReadByte();
      if b.None? { return None; }
      inputBuffer[1] := b.value;
      b := serialPort.ReadByte();
      if b.None? { return None; }
      inputBuffer[2] := b.value;
      b := serialPort.ReadByte();
      if b.None? { return None; }
      inputBuffer[3] := b.value;
      b := serialPort.ReadByte();
      if b.None? { return None; }
      inputBuffer[4] := b.value;
      b := serialPort.ReadByte();
      if b.None? { return None; }
      inputBuffer[5] := b.value;
      assert serialPort.unread == input[6..];
      assert inputBuffer[..] == input[..6];
      v := Some(DecodeFrame(inputBuffer[..]));
    }

    /** `Filter(data)`: per axis, sort, drop the lowest and highest, average
        the remaining samples. */
    method Filter(data: seq<Vec3>) returns (r: Vec3)
      requires |data| >= 3
      ensures r == TrimmedMean(data)
    {
      var dataX, dataY, dataZ := SplitAxes(data);
      dataX, dataY, dataZ := Sorting.Sort(dataX), Sorting.Sort(dataY), Sorting.Sort(dataZ);
      var sampleCount := |dataX| - 2;
      var averageX, averageY, averageZ := SumInner(dataX, dataY, dataZ);
      TrimmedMeanOfSorted(Column(data, X), dataX);
      TrimmedMeanOfSorted(Column(data, Y), dataY);
      TrimmedMeanOfSorted(Column(data, Z), dataZ);
      r := Vec3(averageX / sampleCount as real, averageY / sampleCount as real, averageZ / sampleCount as real);
    }

    /** `Filter`'s first loop: the window's values per axis, in window order. */
    static method SplitAxes(data: seq<Vec3>) returns (dataX: seq<real>, dataY: seq<real>, dataZ: seq<real>)
      ensures dataX == Column(data, X) && dataY == Column(data, Y) && dataZ == Column(data, Z)
    {
      dataX, dataY, dataZ := [], [], [];
      for k := 0 to |data|
        invariant |dataX| == |dataY| == |dataZ| == k
        invariant forall j | 0 <= j < k :: dataX[j] == data[j].x && dataY[j] == data[j].y && dataZ[j] == data[j].z
      {
        dataX, dataY, dataZ := dataX + [data[k].x], dataY + [data[k].y], dataZ + [data[k].z];
      }
    }

    /** `Filter`'s second loop: the sums of the sorted values without the
        first and the last. */
    static method SumInner(dataX: seq<real>, dataY: seq<real>, dataZ: seq<real>)
      returns (averageX: real, averageY: real, averageZ: real)
      requires |dataX| == |dataY| == |dataZ| >= 2
      ensures averageX == SumRange(dataX, 1, |dataX| - 1)
      ensures averageY == SumRange(dataY, 1, |dataY| - 1)
      ensures averageZ == SumRange(dataZ, 1, |dataZ| - 1)
    {
      var sampleCount := |dataX| - 2;
      averageX, averageY, averageZ := 0.0, 0.0, 0.0;
      for i := 1 to sampleCount + 1
        invariant averageX == SumRange(dataX, 1, i)
        invariant averageY == SumRange(dataY, 1, i)
        invariant averageZ == SumRange(dataZ, 1, i)
      {
        averageX, averageY, averageZ := averageX + dataX[i], averageY + dataY[i], averageZ + dataZ[i];
      }
    }

    /** `_filterBuffer[i] = new Queue<Vector3D>()` for sensors 1..4. */
    method ClearWindows()
      requires Valid()
      modifies filterBuffer
      ensures filterBuffer[..] == [old(filterBuffer[0]), [], [], [], []]
    {
      for i := 1 to 5
        invariant filterBuffer[0] == old(filterBuffer[0])
        invariant forall k | 1 <= k < i :: filterBuffer[k] == []
      {
        filterBuffer[i] := [];
      }
    }

    /** One priming iteration: the bulk command, then one sample read and
        enqueued for each of sensors 1..4. `ok == false` is the read
        timeout. */
    method BulkRead() returns (ok: bool)
      requires Valid()
      modifies filterBuffer, inputBuffer, serialPort
      ensures Valid()
      ensures serialPort.written == old(serialPort.written) + BulkCommand(writeDelay)
      ensures ok <==> |old(serialPort.unread)| >= 24
      ensures ok ==> filterBuffer[..] == Enqueued(old(filterBuffer[..]), Frames(old(serialPort.unread)), 0)
      ensures ok ==> serialPort.unread == old(serialPort.unread)[24..]
    {
      ghost var input := serialPort.unread;
      ghost var frames := Frames(input);
      ghost var windows := filterBuffer[..];
      Write(0);
      PartlyEnqueuedStart(windows, frames);
      for i := 1 to 5
        invariant Valid() && 6 * (i - 1) <= |input|
        invariant filterBuffer[..] == PartlyEnqueued(windows, frames, i)
        invariant serialPort.unread == input[6 * (i - 1)..]
        invariant serialPort.written == old(serialPort.written) + BulkCommand(writeDelay)
      {
        ghost var current := filterBuffer[..];
        var v := Read();
        if v.None? {
          return false;
        }
        FrameAt(input, i - 1, 6 * (i - 1));
        PartlyEnqueuedStep(windows, frames, i);
        filterBuffer[i] := filterBuffer[i] + [v.value];
        assert filterBuffer[..] == current[i := current[i] + [frames[i - 1]]];
        assert input[6 * (i - 1)..][6..] == input[6 * i..];
      }
      PartlyEnqueuedDone(windows, frames);
      ok := true;
    }

    /** `_offset[i] = Filter(_filterBuffer[i])` for sensors 1..4. */
    method CaptureOffsets()
      requires Valid() && Windowed()
      modifies offset
      ensures offset[0] == old(offset[0])
      ensures forall i | 1 <= i <= 4 :: offset[i] == TrimmedMean(filterBuffer[i])
    {
      for i := 1 to 5
        invariant offset[0] == old(offset[0])
        invariant forall k | 1 <= k < i :: offset[k] == TrimmedMean(filterBuffer[k])
      {
        offset[i] := Filter(filterBuffer[i]);
      }
    }

    /** The priming loop of `Work`: `filterLength` bulk reads into emptied
        windows, each window taking its own sensor's samples in read order.
        `ok == false` is the read timeout, which comes after the bulk
        command of the read that timed out. */
    method Fill(filterLength: nat) returns (ok: bool)
      requires Valid() && filterBuffer[..] == [filterBuffer[0], [], [], [], []]
      modifies filterBuffer, inputBuffer, serialPort
      ensures Valid()
      ensures ok <==> |old(serialPort.unread)| >= 24 * filterLength
      ensures ok ==> filterBuffer[..] == PrimedAfter(old(filterBuffer[0]), Frames(old(serialPort.unread)), filterLength)
      ensures ok ==> serialPort.unread == old(serialPort.unread)[24 * filterLength..]
      ensures ok ==> serialPort.written == old(serialPort.written) + Repeat(BulkCommand(writeDelay), filterLength)
      ensures !ok ==> (serialPort.written == old(serialPort.written)
        + Repeat(BulkCommand(writeDelay), |old(serialPort.unread)| / 24 + 1))
    {
      ghost var input := serialPort.unread;
      ghost var frames := Frames(input);
      ghost var log := serialPort.written;
      ghost var slot0 := filterBuffer[0];
      for j := 0 to filterLength
        invariant Valid() && 24 * j <= |input|
        invariant filterBuffer[..] == PrimedAfter(slot0, frames, j)
        invariant serialPort.unread == input[24 * j..]
        invariant serialPort.written == log + Repeat(BulkCommand(writeDelay), j)
      {
        ghost var windows := filterBuffer[..];
        ok := BulkRead();
        RepeatOnceMore(log, BulkCommand(writeDelay), j);
        if !ok {
          BlockIndex(|input|, j + 1);
          return;
        }
        EnqueuedSuffix(windows, input, j);
        assert input[24 * j..][24..] == input[24 * (j + 1)..];
      }
      ok := true;
    }

    /** Priming: the stop-streaming command, fresh windows for sensors
        1..4, `filterLength` bulk reads enqueued in read order, the offsets
        captured from the primed windows, then the start-streaming command.
        `ok == false` is the read timeout. */
    method Prime(filterLength: nat) returns (ok: bool)
      requires Valid() && filterLength >= 3
      modifies filterBuffer, offset, inputBuffer, serialPort
      ensures Valid()
      ensures ok <==> |old(serialPort.unread)| >= 24 * filterLength
      ensures ok ==> forall i | 1 <= i <= 4 ::
        filterBuffer[i] == SensorSamples(Frames(old(serialPort.unread)), i, filterLength)
      ensures ok ==> Windowed() && forall i | 1 <= i <= 4 :: offset[i] == TrimmedMean(filterBuffer[i])
      ensures ok ==> serialPort.unread == old(serialPort.unread)[24 * filterLength..]
      ensures ok ==> (serialPort.written == old(serialPort.written) + [StopStreaming]
        + Repeat(BulkCommand(writeDelay), filterLength) + [StartStreaming])
      ensures !ok ==> (serialPort.written == old(serialPort.written) + [StopStreaming]
        + Repeat(BulkCommand(writeDelay), |old(serialPort.unread)| / 24 + 1))
    {
      ghost var frames := Frames(serialPort.unread);
      Write(6);
      ghost var slot0 := filterBuffer[0];
      ClearWindows();
      ok := Fill(filterLength);
      if !ok {
        return;
      }
      CaptureOffsets();
      forall i | 1 <= i <= 4 ensures filterBuffer[i] == SensorSamples(frames, i, filterLength) {
        PrimedAfterSamples(slot0, frames, filterLength, i);
      }
      Write(5);
    }

    /** The four events of a tick, `Filter(window) - offset` in sensor order. */
    method Emit() returns (events: seq<CompassEvent>)
      requires Valid() && Windowed()
      ensures events == TickEvents(filterBuffer[..], offset[..])
    {
      events := [];
      for i := 1 to 5
        invariant |events| == i - 1
        invariant forall n | 0 <= n < i - 1 :: events[n] == TickEvent(filterBuffer[..], offset[..], n + 1)
      {
        var filtered := Filter(filterBuffer[i]);
        events := events + [CompassEvent(i, Sub(filtered, offset[i]))];
      }
    }

    /** The sliding phase of a tick: each window drops its oldest sample and
        takes the newly read one. `ok == false` is the read timeout. */
    method SlideWindows() returns (ok: bool)
      requires Valid() && Windowed()
      modifies filterBuffer, inputBuffer, serialPort
      ensures Valid()
      ensures serialPort.written == old(serialPort.written)
      ensures ok <==> |old(serialPort.unread)| >= 24
      ensures ok ==> filterBuffer[..] == Advance(old(filterBuffer[..]), Frames(old(serialPort.unread)), 0)
      ensures ok ==> serialPort.unread == old(serialPort.unread)[24..]
    {
      ghost var input := serialPort.unread;
      ghost var frames := Frames(input);
      ghost var windows := filterBuffer[..];
      PartlyAdvancedStart(windows, frames);
      for i := 1 to 5
        invariant Valid() && 6 * (i - 1) <= |input|
        invariant filterBuffer[..] == PartlyAdvanced(windows, frames, i)
        invariant serialPort.unread == input[6 * (i - 1)..]
        invariant serialPort.written == old(serialPort.written)
      {
        ghost var current := filterBuffer[..];
        filterBuffer[i] := filterBuffer[i][1..];
        var v := Read();
        if v.None? {
          return false;
        }
        FrameAt(input, i - 1, 6 * (i - 1));
        PartlyAdvancedStep(windows, frames, i);
        filterBuffer[i] := filterBuffer[i] + [v.value];
        assert filterBuffer[..] == current[i := windows[i][1..]][i := windows[i][1..] + [frames[i - 1]]];
        assert input[6 * (i - 1)..][6..] == input[6 * i..];
      }
      PartlyAdvancedDone(windows, frames);
      ok := true;
    }

    /** Tick `t` of the steady state that started from the windows `start`
        and reads the replies `input`: the bulk command, the four events of
        the windows after `t` ticks, then each window slides by the sample
        its sensor answered in this tick. `ok == false` is the read
        timeout of a reply stream that ends within this tick. */
    method Step(ghost start: seq<seq<Vec3>>, ghost input: seq<Byte>, ghost log: seq<Byte>, ghost t: nat)
      returns (events: seq<CompassEvent>, ok: bool)
      requires Valid() && |start| == 5 && forall i | 1 <= i <= 4 :: |start[i]| >= 3
      requires 24 * t <= |input| && filterBuffer[..] == WindowsAfter(start, Frames(input), t)
      requires serialPort.unread == input[24 * t..]
      requires serialPort.written == log + Repeat(BulkCommand(writeDelay), t)
      modifies filterBuffer, inputBuffer, serialPort
      ensures Valid() && offset[..] == old(offset[..])
      ensures events == TickEvents(WindowsAfter(start, Frames(input), t), offset[..])
      ensures ok <==> 24 * t + 24 <= |input|
      ensures serialPort.written == log + Repeat(BulkCommand(writeDelay), t + 1)
      ensures ok ==> filterBuffer[..] == WindowsAfter(start, Frames(input), t + 1)
      ensures ok ==> serialPort.unread == input[24 * (t + 1)..]
    {
      ghost var windows := filterBuffer[..];
      assert Windowed();
      Write(0);
      RepeatOnceMore(log, BulkCommand(writeDelay), t);
      events := Emit();
      ok := SlideWindows();
      if ok {
        AdvanceSuffix(windows, input, t);
        assert input[24 * t..][24..] == input[24 * (t + 1)..];
      }
    }

    /** The steady-state loop of `Work`, run until the stop flag is seen
        after `ticks` ticks. On a read timeout the loop ends after
        emitting the events of the tick that timed out. `count` is the
        number of ticks that emitted events. */
    method Ticks(ticks: nat) returns (events: seq<CompassEvent>, count: nat, ok: bool)
      requires Valid() && Windowed()
      modifies filterBuffer, inputBuffer, serialPort
      ensures Valid()
      ensures ok <==> |old(serialPort.unread)| >= 24 * ticks
      ensures ok ==> count == ticks
      ensures !ok ==> 0 < count <= ticks && 24 * (count - 1) <= |old(serialPort.unread)| < 24 * count
      ensures events == EventsUpTo(old(filterBuffer[..]), Frames(old(serialPort.unread)), offset[..], count)
      ensures ok ==> filterBuffer[..] == WindowsAfter(old(filterBuffer[..]), Frames(old(serialPort.unread)), ticks)
      ensures ok ==> serialPort.unread == old(serialPort.unread)[24 * ticks..]
      ensures serialPort.written == old(serialPort.written) + Repeat(BulkCommand(writeDelay), count)
    {
      ghost var input := serialPort.unread;
      ghost var frames := Frames(input);
      ghost var log := serialPort.written;
      ghost var start := filterBuffer[..];
      ghost var offsets := offset[..];
      events, count, ok := [], 0, true;
      while count < ticks
        invariant ok && count <= ticks && 24 * count <= |input|
        invariant Valid() && filterBuffer[..] == WindowsAfter(start, frames, count)
        invariant serialPort.unread == input[24 * count..]
        invariant serialPort.written == log + Repeat(BulkCommand(writeDelay), count)
        invariant offset[..] == offsets
        invariant events == EventsUpTo(start, frames, offsets, count)
      {
        var tick, tickOk := Step(start, input, log, count);
        EventsUpToNext(start, frames, offsets, count);
        events := events + tick;
        count := count + 1;
        if !tickOk {
          ok := false;
          assert serialPort.written == log + Repeat(BulkCommand(writeDelay), count);
          assert events == EventsUpTo(start, frames, offsets, count);
          assert 24 * (count - 1) <= |input| < 24 * count;
          break;
        }
      }
    }


    /** `Work`'s streaming phase: the ticks, then the stop-streaming
        command unless a read timed out. */
    method Stream(ticks: nat) returns (events: seq<CompassEvent>, count: nat, ok: bool)
      requires Valid() && Windowed()
      modifies filterBuffer, inputBuffer, serialPort
      ensures Valid()
      ensures ok <==> |old(serialPort.unread)| >= 24 * ticks
      ensures ok ==> count == ticks
      ensures !ok ==> 0 < count <= ticks && 24 * (count - 1) <= |old(serialPort.unread)| < 24 * count
      ensures events == EventsUpTo(old(filterBuffer[..]), Frames(old(serialPort.unread)), offset[..], count)
      ensures ok ==> filterBuffer[..] == WindowsAfter(old(filterBuffer[..]), Frames(old(serialPort.unread)), ticks)
      ensures ok ==> serialPort.unread == old(serialPort.unread)[24 * ticks..]
      ensures ok ==> (serialPort.written ==
        old(serialPort.written) + Repeat(BulkCommand(writeDelay), ticks) + [StopStreaming])
      ensures !ok ==> count == |old(serialPort.unread)| / 24 + 1
      ensures !ok ==> serialPort.written == old(serialPort.written) + Repeat(BulkCommand(writeDelay), count)
    {
      events, count, ok := Ticks(ticks);
      if ok {
        Write(6);
      } else {
        BlockIndex(|old(serialPort.unread)|, count);
      }
    }

    /** The part of `Work` after discovery: priming, then streaming. The
        offset is the filtered primed window and the event of sensor `i`
        in tick `k` is the filtered newest `filterLength` samples of that
        sensor minus it, so the first tick reports (0, 0, 0) for every
        sensor. */
    method Session(filterLength: nat, ticks: nat) returns (events: seq<CompassEvent>, ok: bool)
      requires Valid() && filterLength >= 3
      modifies filterBuffer, offset, inputBuffer, serialPort
      ensures Valid()
      ensures ok <==> |old(serialPort.unread)| >= 24 * (filterLength + ticks)
      ensures ok ==> |events| == 4 * ticks
      ensures forall k: nat, i | 1 <= i <= 4 && EventIndex(k, i) < |events| ::
        4 * (filterLength + k) <= |Frames(old(serialPort.unread))| &&
        events[EventIndex(k, i)] == CompassEvent(i, Sub(
          TrimmedMean(SensorSamples(Frames(old(serialPort.unread)), i, filterLength + k)[k..]),
          TrimmedMean(SensorSamples(Frames(old(serialPort.unread)), i, filterLength))))
      ensures ok && ticks > 0 ==> forall i | 1 <= i <= 4 :: events[i - 1] == CompassEvent(i, Zero)
      ensures !ok && |old(serialPort.unread)| < 24 * filterLength ==> events == []
      ensures !ok && |old(serialPort.unread)| < 24 * filterLength ==>
        (serialPort.written == old(serialPort.written) + [StopStreaming]
          + Repeat(BulkCommand(writeDelay), |old(serialPort.unread)| / 24 + 1))
      ensures !ok && |old(serialPort.unread)| >= 24 * filterLength ==>
        |events| == 4 * ((|old(serialPort.unread)| - 24 * filterLength) / 24 + 1)
      ensures ok ==> (serialPort.written == old(serialPort.written) + [StopStreaming]
        + Repeat(BulkCommand(writeDelay), filterLength) + [StartStreaming]
        + Repeat(BulkCommand(writeDelay), ticks) + [StopStreaming])
      ensures !ok && |old(serialPort.unread)| >= 24 * filterLength ==>
        (serialPort.written == old(serialPort.written) + [StopStreaming]
          + Repeat(BulkCommand(writeDelay), filterLength) + [StartStreaming]
          + Repeat(BulkCommand(writeDelay), (|old(serialPort.unread)| - 24 * filterLength) / 24 + 1))
    {
      ghost var input := serialPort.unread;
      events := [];
      ok := Prime(filterLength);
      if !ok {
        return;
      }
      events, ok := StreamPrimed(input, filterLength, ticks);
    }

    /** The streaming half of `Session`, once priming has filled the windows
        from the first `filterLength` replies of `input` and captured the
        offsets: the events are those `Session` reports, and the log grows
        by one bulk command per tick run, then the stop-streaming command
        unless a read timed out. */
    method StreamPrimed(ghost input: seq<Byte>, filterLength: nat, ticks: nat)
      returns (events: seq<CompassEvent>, ok: bool)
      requires Valid() && Windowed() && filterLength >= 3 && |input| >= 24 * filterLength
      requires forall i | 1 <= i <= 4 :: filterBuffer[i] == SensorSamples(Frames(input), i, filterLength)
      requires forall i | 1 <= i <= 4 :: offset[i] == TrimmedMean(filterBuffer[i])
      requires serialPort.unread == input[24 * filterLength..]
      modifies filterBuffer, inputBuffer, serialPort
      ensures Valid()
      ensures ok <==> |old(serialPort.unread)| >= 24 * ticks
      ensures ok ==> |events| == 4 * ticks
      ensures forall k: nat, i | 1 <= i <= 4 && EventIndex(k, i) < |events| ::
        4 * (filterLength + k) <= |Frames(input)| &&
        events[EventIndex(k, i)] == CompassEvent(i, Sub(
          TrimmedMean(SensorSamples(Frames(input), i, filterLength + k)[k..]),
          TrimmedMean(SensorSamples(Frames(input), i, filterLength))))
      ensures ok && ticks > 0 ==> forall i | 1 <= i <= 4 :: events[i - 1] == CompassEvent(i, Zero)
      ensures !ok ==> |events| == 4 * (|old(serialPort.unread)| / 24 + 1)
      ensures ok ==> serialPort.written == old(serialPort.written) + Repeat(BulkCommand(writeDelay), ticks) + [StopStreaming]
      ensures !ok ==> serialPort.written == old(serialPort.written) + Repeat(BulkCommand(writeDelay), |old(serialPort.unread)| / 24 + 1)
    {
      ghost var primed := filterBuffer[..];
      var count;
      events, count, ok := Stream(ticks);
      SessionEvents(input, filterLength, primed, offset[..], count, events);
    }
  }
}
