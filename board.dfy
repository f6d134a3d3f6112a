/** The board window (MainWindow.xaml.cs): where the four sensors sit on
    the 720 by 720 board, how a new reading moves the magnet marker by
    trilateration from the sensors' circle radii, which sensor a click
    calibrates, and the +/- step rule of the units-per-meter box. */
module Board {
  import opened Vectors
  import opened Sensors

  /** `BoardSize`: the board is 720 pixels square. */
  const BoardSize: real := 720.0

  /** Each sensor sits 40 pixels inside both edges of its corner. */
  const Inset: real := 40.0

  /** The distance between neighbouring sensors the solve assumes. */
  const Spacing: real := 640.0

  /** `_sensors[i].PLocation`: 1 bottom-right, 2 bottom-left, 3 top-left,
      4 top-right, offset by the board's position in the canvas. */
  function SensorLocation(boardOffset: Point, i: nat): Point
    requires 1 <= i <= 4
  {
    match i
    case 1 => Point(boardOffset.x + BoardSize - Inset, boardOffset.y + BoardSize - Inset)
    case 2 => Point(boardOffset.x + Inset, boardOffset.y + BoardSize - Inset)
    case 3 => Point(boardOffset.x + Inset, boardOffset.y + Inset)
    case 4 => Point(boardOffset.x + BoardSize - Inset, boardOffset.y + Inset)
  }

  /** `_boardOffset`: the board centred in the board image. */
  function BoardOffset(imageWidth: real, imageHeight: real): Point
  {
    Point((imageWidth - BoardSize) / 2.0, (imageHeight - BoardSize) / 2.0)
  }

  /** The solve for one axis from one opposing pair: `reference` is the
      coordinate of the sensor whose radius is `r`, the other sensor lies
      `Spacing` further along the axis with radius `rOther`. */
  function PairEstimate(reference: real, r: real, rOther: real): real
  {
    reference + (r * r - rOther * rOther + Spacing * Spacing) / 1280.0
  }

  /** The marker position `SensorChangedSync` computes: each axis is the
      mean of the estimates of its two pairs, (3, 4) and (2, 1) for x,
      (3, 2) and (4, 1) for y. `r[i]` is `_sensors[i].ZEllipseR`. */
  function Trilaterate(boardOffset: Point, r: seq<real>): Point
    requires |r| == 5
  {
    var p2, p3, p4 := SensorLocation(boardOffset, 2), SensorLocation(boardOffset, 3), SensorLocation(boardOffset, 4);
    Point((PairEstimate(p3.x, r[3], r[4]) + PairEstimate(p2.x, r[2], r[1])) / 2.0,
          (PairEstimate(p3.y, r[3], r[2]) + PairEstimate(p4.y, r[4], r[1])) / 2.0)
  }

  /** The sensor `Calibrate` picks for a click at `p`: both coordinates are
      compared with half the canvas width. */
  function CalibrationTarget(p: Point, half: real): (i: nat)
    ensures 1 <= i <= 4
  {
    if p.x < half then (if p.y < half then 3 else 2)
    else (if p.y < half then 4 else 1)
  }

  /** The keys `TextBoxKeyUp` tells apart. */
  datatype Key = Enter | OemPlus | OemMinus | Other

  /** The new text of the box after a key, or `None` for a key that
      leaves it alone. `parsed` is `double.Parse` of the text, `None` when
      it does not parse; the box then shows the stored `UnitsPerMeter`. */
  function KeyUp(key: Key, parsed: Option<real>, unitsPerMeter: real): Option<real>
  {
    match key
    case OemPlus => Some(StepValue(parsed, 10.0, unitsPerMeter))
    case OemMinus => Some(StepValue(parsed, -10.0, unitsPerMeter))
    case _ => None
  }

  function StepValue(parsed: Option<real>, delta: real, unitsPerMeter: real): real
  {
    if parsed.None? then unitsPerMeter
    else if delta + parsed.value < 10.0 then 10.0
    else delta + parsed.value
  }

  // ---------------------------------------------------------------------
  // Layout

  /** Every sensor is 40 inside the board on both axes. */
  lemma LayoutInside(boardOffset: Point, i: nat)
    requires 1 <= i <= 4
    ensures var p := SensorLocation(boardOffset, i);
      && (p.x - boardOffset.x == Inset || boardOffset.x + BoardSize - p.x == Inset)
      && (p.y - boardOffset.y == Inset || boardOffset.y + BoardSize - p.y == Inset)
  {
  }

  /** Going round 1, 2, 3, 4, neighbours are `Spacing` apart along one axis
      and level on the other. */
  lemma LayoutNeighbours(boardOffset: Point)
    ensures var p1, p2, p3, p4 := SensorLocation(boardOffset, 1), SensorLocation(boardOffset, 2),
                                  SensorLocation(boardOffset, 3), SensorLocation(boardOffset, 4);
      && p1.y == p2.y && p1.x - p2.x == Spacing
      && p2.x == p3.x && p2.y - p3.y == Spacing
      && p3.y == p4.y && p4.x - p3.x == Spacing
      && p4.x == p1.x && p1.y - p4.y == Spacing
  {
  }

  // ---------------------------------------------------------------------
  // Trilateration

  /** Two equal radii put the point halfway between the pair. */
  lemma PairEstimateEqualRadii(reference: real, r: real)
    ensures PairEstimate(reference, r, r) == reference + Spacing / 2.0
  {
  }

  /** The pair solve is exact: when the radii are the distances from a
      point to two sensors `Spacing` apart along the axis, and level on
      the other axis, the estimate is the point's coordinate. */
  lemma PairEstimateExact(a: real, x: real, other: real, r: real, rOther: real)
    requires r * r == (x - a) * (x - a) + other
    requires rOther * rOther == (x - (a + Spacing)) * (x - (a + Spacing)) + other
    ensures PairEstimate(a, r, rOther) == x
  {
    var d := x - a;
    assert (x - (a + Spacing)) * (x - (a + Spacing)) == d * d - 2.0 * Spacing * d + Spacing * Spacing;
    assert r * r - rOther * rOther + Spacing * Spacing == 2.0 * Spacing * d;
  }

  /** Radii that are the exact distances from a point to the four sensors
      give back that point. */
  lemma TrilaterateExact(boardOffset: Point, r: seq<real>, m: Point)
    requires |r| == 5
    requires forall i | 1 <= i <= 4 :: r[i] * r[i] == DistanceSquared(m, SensorLocation(boardOffset, i))
    ensures Trilaterate(boardOffset, r) == m
  {
    var p1, p2, p3, p4 := SensorLocation(boardOffset, 1), SensorLocation(boardOffset, 2),
                          SensorLocation(boardOffset, 3), SensorLocation(boardOffset, 4);
    assert r[1] * r[1] == DistanceSquared(m, p1) && r[2] * r[2] == DistanceSquared(m, p2);
    assert r[3] * r[3] == DistanceSquared(m, p3) && r[4] * r[4] == DistanceSquared(m, p4);
    var dy3, dy1 := (m.y - p3.y) * (m.y - p3.y), (m.y - p1.y) * (m.y - p1.y);
    var dx3, dx1 := (m.x - p3.x) * (m.x - p3.x), (m.x - p1.x) * (m.x - p1.x);
    PairEstimateExact(p3.x, m.x, dy3, r[3], r[4]);
    PairEstimateExact(p2.x, m.x, dy1, r[2], r[1]);
    PairEstimateExact(p3.y, m.y, dx3, r[3], r[2]);
    PairEstimateExact(p4.y, m.y, dx1, r[4], r[1]);
  }

  /** Four equal radii put the marker at the centre of the board. */
  lemma TrilaterateEqualRadii(boardOffset: Point, r: seq<real>)
    requires |r| == 5 && r[1] == r[2] == r[3] == r[4]
    ensures Trilaterate(boardOffset, r) == Point(boardOffset.x + BoardSize / 2.0, boardOffset.y + BoardSize / 2.0)
  {
    PairEstimateEqualRadii(boardOffset.x + Inset, r[3]);
    PairEstimateEqualRadii(boardOffset.y + Inset, r[3]);
  }

  // ---------------------------------------------------------------------
  // Calibration dispatch

  /** For a square image with the board centred in it, the click on a
      sensor calibrates that sensor, and so does any click in the same
      quadrant of the image. */
  lemma CalibrationTargetQuadrant(imageWidth: real, p: Point, i: nat)
    requires imageWidth >= BoardSize && 1 <= i <= 4
    requires var s := SensorLocation(BoardOffset(imageWidth, imageWidth), i);
      (p.x < imageWidth / 2.0 <==> s.x < imageWidth / 2.0) && (p.y < imageWidth / 2.0 <==> s.y < imageWidth / 2.0)
    ensures CalibrationTarget(p, imageWidth / 2.0) == i
  {
  }

  // ---------------------------------------------------------------------
  // The +/- rule

  /** `+` and `-` give a value of at least 10; Enter and other keys leave
      the text as it is. */
  lemma KeyUpClamp(key: Key, parsed: Option<real>, unitsPerMeter: real)
    ensures (key == Enter || key == Other) <==> KeyUp(key, parsed, unitsPerMeter).None?
    ensures KeyUp(key, parsed, unitsPerMeter).Some? && parsed.Some? ==> KeyUp(key, parsed, unitsPerMeter).value >= 10.0
    ensures parsed.None? && KeyUp(key, parsed, unitsPerMeter).Some? ==> KeyUp(key, parsed, unitsPerMeter).value == unitsPerMeter
  {
  }

  /** From a value of at least 10, `+` then `-` comes back to it; from at
      least 20, `-` then `+` does. */
  lemma KeyUpInverse(v: real, unitsPerMeter: real)
    ensures v >= 10.0 ==> KeyUp(OemMinus, KeyUp(OemPlus, Some(v), unitsPerMeter), unitsPerMeter) == Some(v)
    ensures v >= 20.0 ==> KeyUp(OemPlus, KeyUp(OemMinus, Some(v), unitsPerMeter), unitsPerMeter) == Some(v)
  {
  }

  // ---------------------------------------------------------------------
  // The window

  class MainWindow {
    /** `_boardOffset`. */
    const boardOffset: Point
    /** `TheCanvas.Width`, the width of the board image. */
    const canvasWidth: real
    /** `_sensors`: sensors 1..4; slot 0 is unused. */
    const sensors: array<Sensor?>
    /** The centre of the magnet marker `TheMagnet`. */
    var magnet: Point

    ghost predicate Valid()
      reads sensors
    {
      && sensors.Length == 5
      && (forall i | 1 <= i <= 4 :: sensors[i] != null && sensors[i].location == SensorLocation(boardOffset, i))
      && (forall i, j | 1 <= i < j <= 4 :: sensors[i] != sensors[j])
    }

    /** The window as its constructor lays it out: the board centred in an
        image of the given size, with the four sensors at their corners,
        each fresh from its own constructor. */
    constructor (imageWidth: real, imageHeight: real, settings: Settings, roots: Roots)
      requires settings.unitsPerMeter != 0.0
      ensures Valid() && fresh(sensors)
      ensures boardOffset == BoardOffset(imageWidth, imageHeight) && canvasWidth == imageWidth
      ensures forall i | 1 <= i <= 4 ::
                && fresh(sensors[i]) && sensors[i].roots == roots
                && sensors[i].orientation == Zero && sensors[i].pixelsPerUnit == PixelsPerUnit(settings)
                && sensors[i].calibrationRatio == 1.0 && sensors[i].width == 1.0 && sensors[i].height == 1.0
    {
      var offset := BoardOffset(imageWidth, imageHeight);
      var a := new Sensor?[5];
      var s1 := new Sensor(SensorLocation(offset, 1), settings, roots);
      var s2 := new Sensor(SensorLocation(offset, 2), settings, roots);
      var s3 := new Sensor(SensorLocation(offset, 3), settings, roots);
      var s4 := new Sensor(SensorLocation(offset, 4), settings, roots);
      a[1], a[2], a[3], a[4] := s1, s2, s3, s4;
      boardOffset := offset;
      canvasWidth := imageWidth;
      sensors := a;
      magnet := Point(0.0, 0.0);
    }

    /** The radii the solve reads, `_sensors[i].ZEllipseR`. */
    function Radii(): (r: seq<real>)
      requires Valid()
      reads sensors, sensors[1], sensors[2], sensors[3], sensors[4]
      ensures |r| == 5 && forall i | 1 <= i <= 4 :: r[i] == sensors[i].ZEllipseR()
    {
      [0.0, sensors[1].ZEllipseR(), sensors[2].ZEllipseR(), sensors[3].ZEllipseR(), sensors[4].ZEllipseR()]
    }

    /** Four sensors each calibrated on the reading it still holds, every
        reading above one pixel, as `Calibrate` leaves them: every circle
        has radius 320 and the solve puts the magnet at the board's centre. */
    lemma CalibratedBoardCentre()
      requires Valid()
      requires forall i | 1 <= i <= 4 ::
        && Sound(sensors[i].roots) && sensors[i].PLengthXYZ() > 1.0
        && sensors[i].calibrationRatio == CalibrationCube * sensors[i].PLengthXYZ()
        && sensors[i].width == EllipseWidth(sensors[i].roots, sensors[i].calibrationRatio, sensors[i].PLengthXYZ())
      ensures forall i | 1 <= i <= 4 :: Radii()[i] == 320.0
      ensures Trilaterate(boardOffset, Radii()) == Point(boardOffset.x + BoardSize / 2.0, boardOffset.y + BoardSize / 2.0)
    {
      forall i | 1 <= i <= 4
        ensures sensors[i].ZEllipseR() == 320.0
      {
        CalibratedWidth(sensors[i].roots, sensors[i].PLengthXYZ());
      }
      TrilaterateEqualRadii(boardOffset, Radii());
    }

    /** `SensorChangedSync(sensor, data)`: the addressed sensor takes the
        reading and resizes its circle, the other three are untouched, and
        the marker moves to the trilaterated point. */
    method SensorChangedSync(sensor: nat, data: Vec3)
      requires Valid() && 1 <= sensor <= 4
      modifies this, sensors[sensor]
      ensures Valid()
      ensures var s := sensors[sensor];
        && s.orientation == data
        && s.calibrationRatio == old(s.calibrationRatio) && s.pixelsPerUnit == old(s.pixelsPerUnit)
        && s.width == EllipseWidth(s.roots, s.calibrationRatio, s.PLengthXYZ()) && s.height == s.width
      ensures forall i | 1 <= i <= 4 && i != sensor :: unchanged(sensors[i])
      ensures magnet == Trilaterate(boardOffset, Radii())
    {
      sensors[sensor].SetOrientation(data);
      magnet := Trilaterate(boardOffset, Radii());
    }

    /** `Calibrate()` for a click at `click`: exactly the sensor of the
        click's quadrant is calibrated. */
    method Calibrate(click: Point)
      requires Valid() && forall i | 1 <= i <= 4 :: Sound(sensors[i].roots)
      modifies sensors[1], sensors[2], sensors[3], sensors[4]
      ensures Valid()
      ensures var t := CalibrationTarget(click, canvasWidth / 2.0);
        && sensors[t].calibrationRatio == CalibrationCube * old(sensors[t].PLengthXYZ())
        && sensors[t].orientation == old(sensors[t].orientation)
        && sensors[t].pixelsPerUnit == old(sensors[t].pixelsPerUnit)
        && sensors[t].width == EllipseWidth(sensors[t].roots, sensors[t].calibrationRatio, sensors[t].PLengthXYZ())
        && sensors[t].height == sensors[t].width
        && (old(sensors[t].PLengthXYZ()) > 1.0 ==> sensors[t].ZEllipseR() == 320.0)
        && forall i | 1 <= i <= 4 && i != t :: unchanged(sensors[i])
    {
      var half := canvasWidth / 2.0;
      var target := if click.x < half then (if click.y < half then 3 else 2)
                    else (if click.y < half then 4 else 1);
      sensors[target].Calibrate();
    }
  }
}
