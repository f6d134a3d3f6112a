# MagnetField: a Dafny model of the compass rig

MagnetField (C#/WPF) locates a magnet on a 720 × 720 pixel board. Four
three-axis compass sensors sit near the board's corners, 640 pixels apart.
A background worker (`CompassWorker`) handles the serial link to the rig in
three stages. First it finds the rig's serial port. It then primes one
filter window per sensor and captures a zero offset for each sensor. In
the steady state it sends one bulk command per tick. For each tick it
reports, per sensor, the trimmed mean of its window minus its offset. It
then slides every window by the new 6-byte big-endian reading. The window
(`MainWindow`) hands each report to its `Sensor`. The sensor turns the
reading's pixel length into the width of a circle, `cbrt(ratio / length)`;
the circle's radius is half that width. The window then trilaterates the
magnet from the four radii, using two opposing sensor pairs per axis.

The model is split into these modules:

- `Vectors`: `Vec3`, `Point`, `Option`.
- `Wire`: the bytes on the link. This covers the bulk command buffer, the
  single command bytes, and the big-endian 16-bit frame decoding with its
  wrap-around.
- `Sorting` and `Filtering`: the trimmed mean that `Filter` computes.
- `Acquisition`: the worker after discovery, as a `CompassWorker` class.
  Its fields are the worker's buffers: `_serialPort`, `_inputBuffer`,
  `_filterBuffer`, `_offset` and `_bulkWrite`. `Work`'s priming and
  streaming phases are methods on those fields. The serial port is a small
  `SerialLink` class: the reply bytes still unread, and the bytes written.
- `Discovery`: the port search at the start of `Work`.
- `Sensors`: the `Sensor` class, with its reading, pixel scaling,
  calibration ratio and circle.
- `Board`: the sensor layout, the trilateration, the click-to-sensor
  choice of `Calibrate`, the `+`/`-` keys of the units box, and a
  `MainWindow` class holding the four sensors and the magnet position.

Values are exact: `double` is `real` and the bytes are integers 0..255.
The 16-bit wrap of `(Int16)` is written out. `Math.Sqrt` and
`Math.Pow(x, 1/3)` are function values, with the property `Sensors.Sound`
(a root is non-negative and powers back to its argument). The mutating
members that need them require that property. The stop flag becomes the
number of ticks the streaming loop runs. A read timeout, which makes the
source's `Work` throw, becomes an `ok == false` result.

## Model

| member | source | states |
|---|---|---|
| Wire.BulkCommand | CompassWorker.cs:30-35 | definition: the bulk buffer, byte by byte, with its length `4 + 3·delay` |
| Wire.BulkByte | CompassWorker.cs:31-35 | definition: byte `k` of the bulk buffer, `'1' + i` at index `i·(delay + 1)` and zero elsewhere |
| Wire.WriteBytes | CompassWorker.cs:121-127 | definition: what `Write(sensor)` sends, the bulk buffer for 0, the digit `48 + sensor` for 1..6, nothing above 6 |
| Wire.DecodeFrame | CompassWorker.cs:139-142 | definition: the three big-endian `(Int16)` words of a frame, as a vector |
| Wire.BulkCommandLayout | CompassWorker.cs:28-36 | the bulk buffer is `4 + 3·delay` bytes long; the select byte `'1' + i` sits at index `i·(delay + 1)` and every other byte is zero |
| Wire.BulkCommandIsPaddedSelects | CompassWorker.cs:28-36 | the bulk buffer is the four single select commands, separated by `delay` zero bytes each |
| Wire.DefaultBulkCommand | CompassWorker.cs:21-36 | with the default delay of 10 the buffer is 34 bytes, with 49, 50, 51, 52 at 0, 11, 22, 33 |
| Wire.WriteSendsDigit | CompassWorker.cs:119-128 | `Write(1..6)` sends the single ASCII digit; 5 is start-streaming and 6 is stop-streaming |
| Wire.WriteBulkOrNothing | CompassWorker.cs:119-128 | `Write(0)` sends the whole bulk buffer; a sensor number above 6 sends nothing |
| Wire.Word | CompassWorker.cs:140-142 | `(hi << 8) \| lo` of two bytes is a 16-bit word |
| Wire.AsInt16 | CompassWorker.cs:140-142 | the `(Int16)` cast is negative exactly when the top bit of the word is set |
| Wire.AsInt16Wraps | CompassWorker.cs:140-142 | the cast is the wrap-around: the value agrees with the word modulo 2^16 |
| Wire.DecodeFrameRange | CompassWorker.cs:139-142 | every decoded axis lies in [-32768, 32767] |
| Wire.DecodeEncode | CompassWorker.cs:139-142 | decoding the big-endian encoding of three 16-bit values gives them back |
| Wire.EncodeDecode | CompassWorker.cs:139-142 | every 6-byte frame is the encoding of what it decodes to, so decoding is a bijection |
| Wire.WordRoundTrip | CompassWorker.cs:140-142 | the high and low bytes of a word are recovered from it |
| Wire.DecodeExamples | CompassWorker.cs:139-142 | the frame FF FF 00 01 80 00 decodes to (-1, 1, -32768), and -1 encodes as FF FF |
| Sorting.Insert | CompassWorker.cs:158-160 | inserting into a sorted list keeps it sorted and permutes the list plus the new value |
| Sorting.Sort | CompassWorker.cs:158-160 | `List.Sort` of the axis values: same length, same multiset, sorted |
| Sorting.SortedUnique | CompassWorker.cs:158-160 | two sorted lists with the same multiset are equal, so the sorted order of a window is unique |
| Sorting.SortPermutation | CompassWorker.cs:158-160 | permuted inputs sort to the same list |
| Sorting.SortIsSortedOf | CompassWorker.cs:158-160 | the insertion sort gives the unique sorted permutation |
| Filtering.TrimmedMeanOf | CompassWorker.cs:158-172 | definition: the mean of the sorted values without the first and the last |
| Filtering.TrimmedMean | CompassWorker.cs:145-172 | definition: the trimmed mean of each axis of the window |
| Filtering.TrimmedMeanOfSorted | CompassWorker.cs:158-172 | the sum of the sorted values without the first and last, divided by `N - 2`, is the trimmed mean |
| Filtering.SumBounds | CompassWorker.cs:162-170 | the accumulated sum of values in [min, max] lies between count·min and count·max |
| Filtering.TrimmedMeanPermutation | CompassWorker.cs:145-172 | `Filter` depends only on the multiset of the window, not on the queue's order |
| Filtering.TrimmedMeanOfConstant | CompassWorker.cs:145-172 | a list of equal values filters to that value |
| Filtering.TrimmedMeanConstantAxis | CompassWorker.cs:145-172 | an axis on which every sample is `c` filters to `c` |
| Filtering.TrimmedMeanOfBounds | CompassWorker.cs:158-172 | the trimmed mean lies between some sample below it and some sample above it |
| Filtering.TrimmedMeanBounds | CompassWorker.cs:145-172 | each filtered axis lies between that axis's least and greatest sample in the window |
| Filtering.TrimmedMeanExample | CompassWorker.cs:145-172 | the values 30, 10, 40, 20 filter to (20 + 30) / 2 = 25 |
| Acquisition.Frames | CompassWorker.cs:130-143 | a reply stream of `n` bytes carries `n / 6` whole samples |
| Acquisition.SensorSamples | CompassWorker.cs:83-84 | definition: the first `n` samples of sensor `i`, in the order they are read |
| Acquisition.Slide | CompassWorker.cs:101-102 | definition: one `Dequeue` followed by one `Enqueue` |
| Acquisition.TickEvent | CompassWorker.cs:96-97 | definition: sensor `i`'s event, its filtered window minus its offset |
| Acquisition.FrameAt | CompassWorker.cs:130-143 | sample `m` is the decoding of bytes `6m .. 6m + 5` |
| Acquisition.FramesSuffix | CompassWorker.cs:130-143 | reading past `m` whole frames leaves exactly the samples after the first `m` |
| Acquisition.SensorSamplesIndex | CompassWorker.cs:83-84 | the `j`-th sample of sensor `i` is frame `4j + i - 1`: the sensors reply in the order 1..4 |
| Acquisition.SensorSamplesConcat | CompassWorker.cs:99-103 | the samples of a sensor after skipping whole ticks continue its series |
| Acquisition.PrimedAfterSamples | CompassWorker.cs:76-85 | after `j` priming reads from emptied windows, window `i` holds sensor `i`'s first `j` samples in order |
| Acquisition.EnqueuedSuffix | CompassWorker.cs:81-84 | a bulk read of the replies left after `j` bulk reads enqueues the samples of read `j` |
| Acquisition.AdvanceSuffix | CompassWorker.cs:99-103 | a sliding phase on the replies left after `t` ticks slides by the samples of tick `t` |
| Acquisition.SlideKeepsNewest | CompassWorker.cs:101-102 | one `Dequeue` plus `Enqueue` turns the newest-`n` window into the newest `n` of one more sample |
| Acquisition.NewestStep | CompassWorker.cs:99-103 | one tick slides a window onto the newest samples one tick further on |
| Acquisition.WindowsAfterNewest | CompassWorker.cs:99-103 | after `t` ticks a window holds the newest samples of its sensor, at its primed length |
| Acquisition.EventsUpToNext | CompassWorker.cs:92-97 | each tick appends the four events of the current windows to what was reported before |
| Acquisition.EventsUpToIndex | CompassWorker.cs:96-97 | event `4k + i - 1` is sensor `i`'s filtered window of tick `k` minus its offset |
| Acquisition.SessionEvents | CompassWorker.cs:76-104 | tick `k`, sensor `i` reports the trimmed mean of samples `k .. k + FL - 1` minus the trimmed mean of samples `0 .. FL - 1`; the first tick reports (0, 0, 0) |
| Acquisition.SerialLink.ReadByte | CompassWorker.cs:132-137 | one byte is consumed, or a timeout once no reply byte is left |
| Acquisition.SerialLink.Write | CompassWorker.cs:125-127 | the bytes are appended to what the link has sent |
| Acquisition.CompassWorker.constructor | CompassWorker.cs:28-36 | the write delay is 10, and the bulk buffer holds `BulkCommand(10)` with length `4 + 3·10` |
| Acquisition.CompassWorker.Write | CompassWorker.cs:119-128 | exactly `WriteBytes(sensor, bulk)` is sent, and nothing is read |
| Acquisition.CompassWorker.Read | CompassWorker.cs:130-143 | with six bytes waiting, those six are consumed and decoded; with fewer, the read times out |
| Acquisition.CompassWorker.Filter | CompassWorker.cs:145-173 | the result is the trimmed mean of the window |
| Acquisition.CompassWorker.SplitAxes | CompassWorker.cs:151-156 | the three lists are the window's X, Y and Z values in queue order |
| Acquisition.CompassWorker.SumInner | CompassWorker.cs:162-170 | the accumulators are the sums of indices `1 .. N - 2` of the sorted lists |
| Acquisition.CompassWorker.ClearWindows | CompassWorker.cs:76-77 | the windows of sensors 1..4 are empty and slot 0 is untouched |
| Acquisition.CompassWorker.BulkRead | CompassWorker.cs:81-84 | one bulk command; it succeeds iff 24 bytes wait, and then each window takes its own sensor's sample |
| Acquisition.CompassWorker.CaptureOffsets | CompassWorker.cs:87-88 | each sensor's offset is the filter of its window |
| Acquisition.CompassWorker.Fill | CompassWorker.cs:79-85 | succeeds iff `24·FL` bytes wait; then each emptied window holds its own sensor's first FL samples in read order, `24·FL` bytes are consumed and FL bulk commands are sent; on a timeout the log ends with the bulk command of the read that timed out |
| Acquisition.CompassWorker.Prime | CompassWorker.cs:73-90 | succeeds iff `24·FL` bytes wait; then window `i` is sensor `i`'s first FL samples, each offset is its filtered window, and the link has sent stop, FL bulk commands, start; on a timeout it has sent stop and one bulk command per read attempted |
| Acquisition.CompassWorker.Emit | CompassWorker.cs:96-97 | the four events of sensors 1..4, each the filtered window minus its offset |
| Acquisition.CompassWorker.SlideWindows | CompassWorker.cs:99-103 | succeeds iff 24 bytes wait; then each window drops its oldest sample and takes its sensor's new one |
| Acquisition.CompassWorker.Step | CompassWorker.cs:94-103 | tick `t` reports the events of the windows after `t` ticks and leaves the windows after `t + 1` ticks |
| Acquisition.CompassWorker.Ticks | CompassWorker.cs:92-104 | the steady-state loop: the events are those of the ticks run, including the one that timed out; it fails exactly at the first tick whose replies are short; one bulk command per tick run |
| Acquisition.CompassWorker.Stream | CompassWorker.cs:92-106 | the ticks, then the stop-streaming byte when no read timed out; on a timeout the log ends with the bulk command of the tick that timed out |
| Acquisition.CompassWorker.StreamPrimed | CompassWorker.cs:92-106 | after priming over replies `input`: every event is the filtered newest-FL window minus the filtered primed window, the first tick reports zero, it succeeds iff every tick's replies arrive; the log gains one bulk command per tick run and a final stop on success |
| Acquisition.CompassWorker.Session | CompassWorker.cs:73-106 | priming then streaming: succeeds iff all replies arrive; every event is the filtered newest-FL window minus the filtered primed window; the first tick reports zero. A timeout in priming reports nothing; a timeout in tick `k` (counted from 0) reports the `4(k + 1)` events up to that tick. The log is stop, FL bulk commands, start, one bulk command per tick run, and a final stop on success; after a priming timeout it is stop and one bulk command per priming read attempted |
| Discovery.DiscoverAsWritten | CompassWorker.cs:44-71 | the loop as written leaves every answering port open; it ends with the last enumerated port, and uses it only if that port answered |
| Discovery.FirstAnswering | CompassWorker.cs:44-71 | the first port with 24 bytes waiting, with no earlier one; none iff no port answers |
| Discovery.Discover | CompassWorker.cs:44-71 | the corrected loop uses the first answering port and leaves only that port open |
| Discovery.RigOnFirstOfTwoPorts | CompassWorker.cs:44-71 | with the rig on the first of two ports, the loop as written ends with no port |
| Discovery.AgreeOnlyWhenLastAnswersAlone | CompassWorker.cs:44-71 | the two loops agree (same port, no port leaked) iff no port answers or only the last one does |
| Sensors.Sensor.constructor | Sensor.cs:72-75 | the sensor stores its location, a zero reading, ratio 1 and the pixel scaling of the settings |
| Sensors.Sensor.Update | Sensor.cs:150-156 | the scaling is re-read only for changed settings; the circle's width is `cbrt(ratio / length)` above one pixel, 1 otherwise; height equals width |
| Sensors.Sensor.SetOrientation | Sensor.cs:21-25 | the reading is stored and the circle resized; scaling and ratio are kept |
| Sensors.Sensor.SetUX | Sensor.cs:26-30 | only the x of the reading changes, then the circle is resized |
| Sensors.Sensor.SetUY | Sensor.cs:31-35 | only the y of the reading changes, then the circle is resized |
| Sensors.Sensor.SetUZ | Sensor.cs:36-40 | only the z of the reading changes, then the circle is resized |
| Sensors.Sensor.Calibrate | Sensor.cs:225-229 | the ratio becomes `640³ ·` the current pixel length; when that length is above 1 the circle becomes 640 wide, radius 320 |
| Sensors.ToPixels | Sensor.cs:49-51 | definition: `PX`, `PY`, `PZ`, the reading times the scaling, with y mirrored |
| Sensors.EllipseWidth | Sensor.cs:155 | definition: the circle's width, `cbrt(ratio / length)` above one pixel and 1 otherwise |
| Sensors.GuardBySquaredLength | Sensor.cs:155 | `PLengthXYZ > 1` exactly when the squared pixel length is above 1 |
| Sensors.GuardedWidth | Sensor.cs:155 | a reading of at most one pixel draws width 1, radius 0.5, for any ratio |
| Sensors.UnguardedWidth | Sensor.cs:155 | above one pixel, the cube of the width is the ratio over the length |
| Sensors.CalibratedWidth | Sensor.cs:227-228 | a ratio calibrated on the current length gives width 640 |
| Sensors.PixelsFromMeters | Sensor.cs:43-51 | `PX`, `PY` and `PZ` are the reading in meters times `PixelsPerMeter`, with y mirrored |
| Sensors.PixelLengthSquared | Sensor.cs:49-53 | the squared pixel length is the squared reading length times the square of the scaling |
| Board.SensorLocation | MainWindow.xaml.cs:40-43 | definition: each sensor's location, 40 pixels inside its corner of the board |
| Board.BoardOffset | MainWindow.xaml.cs:36 | definition: the board centred in the board image |
| Board.PairEstimate | MainWindow.xaml.cs:154-159 | definition: one pair's estimate of one axis, `ref + (r² - rOther² + 640²) / 1280` |
| Board.Trilaterate | MainWindow.xaml.cs:154-160 | definition: each axis is the mean of its two pair estimates, (3, 4) and (2, 1) for x, (3, 2) and (4, 1) for y |
| Board.CalibrationTarget | MainWindow.xaml.cs:253-269 | definition: the sensor of the click's quadrant, both coordinates compared with half the canvas width |
| Board.KeyUp | MainWindow.xaml.cs:103-135 | definition: `+` and `-` step the parsed value by 10, other keys leave the text alone |
| Board.StepValue | MainWindow.xaml.cs:123-135 | definition: the step clamped to at least 10, or `UnitsPerMeter` when the text does not parse |
| Board.LayoutInside | MainWindow.xaml.cs:40-43 | every sensor is 40 pixels inside the board on both axes |
| Board.LayoutNeighbours | MainWindow.xaml.cs:40-43 | going round sensors 1..4, neighbours are 640 apart along one axis and level on the other |
| Board.PairEstimateEqualRadii | MainWindow.xaml.cs:154-159 | equal radii of a pair put the estimate half way between the two sensors |
| Board.PairEstimateExact | MainWindow.xaml.cs:154-159 | when the radii are true distances to a point, one pair's estimate is that point's coordinate |
| Board.TrilaterateExact | MainWindow.xaml.cs:152-160 | when every radius is the true distance to a point, the solve returns that point |
| Board.TrilaterateEqualRadii | MainWindow.xaml.cs:152-160 | four equal radii put the magnet at the board's centre |
| Board.CalibrationTargetQuadrant | MainWindow.xaml.cs:251-270 | on a square image, a click in the same quadrant as sensor `i` calibrates sensor `i` |
| Board.KeyUpClamp | MainWindow.xaml.cs:98-138 | only `+` and `-` change the text; a parsed value steps to at least 10; unparsable text becomes `UnitsPerMeter` |
| Board.KeyUpInverse | MainWindow.xaml.cs:109-130 | `-` undoes `+` from 10 up, and `+` undoes `-` from 20 up |
| Board.MainWindow.constructor | MainWindow.xaml.cs:36-43 | the board is centred in the image; the four sensors are fresh and at their corners, each with a zero reading, the scaling of the settings, ratio 1 and a 1 × 1 circle |
| Board.MainWindow.CalibratedBoardCentre | MainWindow.xaml.cs:148-160 | four sensors calibrated on readings of more than one pixel that they still hold draw radius 320 each, so the solve puts the magnet at the board's centre |
| Board.MainWindow.SensorChangedSync | MainWindow.xaml.cs:148-160 | only the named sensor takes the reading; it keeps its scaling and ratio and its circle is resized (`Update`'s width, height equal to width); the magnet is the trilateration of the four radii after it |
| Board.MainWindow.Calibrate | MainWindow.xaml.cs:251-270 | only the sensor of the click's quadrant is calibrated: ratio `640³ ·` its old pixel length, reading and scaling kept, circle resized as `Update` does (height equal to width); its radius becomes 320 when its reading is above one pixel |

## Left out

- Serial I/O: opening the port, the port settings, `ReadExisting` (CompassWorker.cs:58, 74), `BytesToRead` and `Close` are not modelled. Replies are a byte sequence given in advance. The model assumes no stale bytes are waiting when priming starts.
- Timing: `Thread.Sleep` and the 200 ms `ReadTimeout` are not modelled. A timeout is the reply sequence running out.
- Concurrency: the worker thread, the volatile `_stop` flag and `Dispatcher.BeginInvoke` are not modelled. The stop flag becomes the number of ticks; each event is delivered in order, and none is dropped.
- The `catch` and the retry of the outer `Work` loop (CompassWorker.cs:108-116) are not modelled. A short reply ends the session with `ok == false`, and the port is not reopened.
- `ToggleMagnet` and `_useMagnet` are left out: the flag is never read in the worker.
- Discovery with no serial port at all is not modelled. There `_serialPort` is still null, so line 67 throws and the catch retries at once. The model returns no port, which is the case where the worker sleeps.
- Rendering: the canvas positions, lines, texts, angles and `ZIndex` of `Sensor` and `MainWindow`, and the marker's size offset (MainWindow.xaml.cs:210-211), are left out. `magnet` is the centre that the marker's position is computed from.
- Floating point: `double` rounding, NaN and infinities are not modelled. `UnitsPerMeter` must be non-zero, where the source would divide by zero.
- Settings persistence, `double.Parse`, `ToString`, `TextBoxGotFocus`, `TextBoxLostFocus` and `UpdateSensors` are left out. Their only model-relevant effect is the settings `Update` receives.
- The demo readings that the window constructor assigns (MainWindow.xaml.cs:45-48) are left out. The sensors start from a zero reading.
- The circle's width before the first `Update` comes from a WPF style. The model starts it at 1, the width that `Update` gives a zero reading.
- `CompassEventArgs` is a datatype (`Acquisition.CompassEvent`); the `Changed` event is the returned sequence of events.
- `Acquisition.CompassWorker.Filter`: requires at least three samples. With fewer, the source divides by zero or a negative count. `Prime` and `Session` require `FilterLength >= 3` because of this.
- `Board.CalibrationTargetQuadrant`: proved for a square board image only, because the source compares the click's y with half the canvas width. `Board.CalibrationTarget` itself models the comparison as written for any image.
- `Sensors.Sensor.Calibrate` and `Board.MainWindow.Calibrate`: require the library roots to be exact (`Sound`).
- `Board.MainWindow.SensorChangedSync`: requires a sensor number 1..4. The worker only sends those; index 0 would be a null sensor in the source.
- `Acquisition.CompassWorker.constructor`: takes the port that discovery opened, so the fields are fixed for the session. This replaces the source's reassigned `_serialPort` field.

## Findings

| source | as written | input that shows it | evidently intended | confidence | as-written member | corrected member |
|---|---|---|---|---|---|---|
| CompassWorker.cs:44-67 | The port loop never stops at a port that answers with 24 bytes. `_serialPort` ends as the last enumerated port, and every answering port stays open. | ports whose waiting byte counts are [24, 0]: the rig is on the first port, the last port is closed at line 64, and line 67 then finds no open port | use the first port that answers, and close every other port: an answering port is never closed and its `SerialPort` reference is overwritten by the next port's, while line 67 tests `IsOpen` on the last port only, so a rig on any port but the last is never used | not executed | Discovery.DiscoverAsWritten, Discovery.RigOnFirstOfTwoPorts | Discovery.Discover |
