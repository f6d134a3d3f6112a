/** One sensor on the board (Sensor.cs): the reading it last received, its
    pixel scaling, its calibration ratio and the radius of the circle it
    draws, which trilateration reads back as the distance to the magnet. */
module Sensors {
  import opened Vectors

  /** `Math.Sqrt` and the cube root `Math.Pow(x, 1d / 3d)`: library calls
      the model receives as values, with the properties `Sound` names. */
  datatype Roots = Roots(sqrt: real -> real, cbrt: real -> real)

  /** Both roots of a non-negative real are non-negative and square
      (respectively cube) back to it. */
  ghost predicate Sound(roots: Roots)
  {
    && (forall x: real | x >= 0.0 :: roots.sqrt(x) >= 0.0 && roots.sqrt(x) * roots.sqrt(x) == x)
    && (forall x: real | x >= 0.0 :: roots.cbrt(x) >= 0.0 && roots.cbrt(x) * roots.cbrt(x) * roots.cbrt(x) == x)
  }

  /** The two entries of `Settings.Default` the sensor reads. */
  datatype Settings = Settings(pixelsPerMeter: real, unitsPerMeter: real)

  /** `_pixelsPerUnit`: `PixelsPerMeter / UnitsPerMeter`. */
  function PixelsPerUnit(settings: Settings): real
    requires settings.unitsPerMeter != 0.0
  {
    settings.pixelsPerMeter / settings.unitsPerMeter
  }

  /** `Math.Pow(640, 3)`: the ratio that makes a calibrated sensor draw a
      circle 640 pixels wide, the spacing of neighbouring sensors. */
  const CalibrationCube: real := 640.0 * 640.0 * 640.0

  /** `PX`, `PY`, `PZ`: a reading in pixels; the screen's y axis points
      down, so `PY` is mirrored. */
  function ToPixels(u: Vec3, pixelsPerUnit: real): Vec3
  {
    Vec3(u.x * pixelsPerUnit, u.y * pixelsPerUnit * -1.0, u.z * pixelsPerUnit)
  }

  /** `_zEllipse.Width` as `Update` sets it from the ratio and the pixel
      length of the reading. */
  function EllipseWidth(roots: Roots, ratio: real, length: real): real
  {
    if length > 1.0 then roots.cbrt(ratio / length) else 1.0
  }

  class Sensor {
    /** `_pLocation`, in pixels. */
    const location: Point
    const roots: Roots
    /** `_pOrientation`: the reading, in units. */
    var orientation: Vec3
    /** `_pixelsPerUnit`: recomputed only by `Update(true)`. */
    var pixelsPerUnit: real
    var calibrationRatio: real
    /** `_zEllipse.Width` and `_zEllipse.Height`. */
    var width: real
    var height: real

    function PX(): real
      reads this`orientation, this`pixelsPerUnit
    {
      ToPixels(orientation, pixelsPerUnit).x
    }

    function PY(): real
      reads this`orientation, this`pixelsPerUnit
    {
      ToPixels(orientation, pixelsPerUnit).y
    }

    function PZ(): real
      reads this`orientation, this`pixelsPerUnit
    {
      ToPixels(orientation, pixelsPerUnit).z
    }

    /** `PLengthXYZ`: the length of the reading in pixels,
        `Sqrt(PX^2 + PY^2 + PZ^2)`. */
    function PLengthXYZ(): real
      reads this`orientation, this`pixelsPerUnit
    {
      roots.sqrt(LengthSquared(ToPixels(orientation, pixelsPerUnit)))
    }

    /** `ZEllipseR`: half the circle's width. */
    function ZEllipseR(): real
      reads this`width
    {
      width / 2.0
    }

    /** A zero reading, ratio 1 and the scaling of the current settings.
        The circle starts at width 1, the width `Update` gives a zero
        reading; the style's width before the first update is not part of
        this model. */
    constructor (location: Point, settings: Settings, roots: Roots)
      requires settings.unitsPerMeter != 0.0
      ensures this.location == location && this.roots == roots
      ensures orientation == Zero && pixelsPerUnit == PixelsPerUnit(settings)
      ensures calibrationRatio == 1.0 && width == 1.0 && height == 1.0
    {
      this.location := location;
      this.roots := roots;
      orientation := Zero;
      pixelsPerUnit := PixelsPerUnit(settings);
      calibrationRatio := 1.0;
      width, height := 1.0, 1.0;
    }

    /** `Update(settingsChanged)`: `Some(settings)` re-reads the pixel
        scaling, `None` keeps it; then the circle is resized with the
        guard on the pixel length. */
    method Update(changed: Option<Settings>)
      requires changed.Some? ==> changed.value.unitsPerMeter != 0.0
      modifies this
      ensures orientation == old(orientation) && calibrationRatio == old(calibrationRatio)
      ensures pixelsPerUnit == if changed.Some? then PixelsPerUnit(changed.value) else old(pixelsPerUnit)
      ensures width == EllipseWidth(roots, calibrationRatio, PLengthXYZ()) && height == width
    {
      if changed.Some? {
        pixelsPerUnit := PixelsPerUnit(changed.value);
      }
      var length := PLengthXYZ();
      width := if length > 1.0 then roots.cbrt(calibrationRatio / length) else 1.0;
      height := width;
    }

    /** The `UOrientation` setter: store the reading, then `Update()`. */
    method SetOrientation(value: Vec3)
      modifies this
      ensures orientation == value
      ensures pixelsPerUnit == old(pixelsPerUnit) && calibrationRatio == old(calibrationRatio)
      ensures width == EllipseWidth(roots, calibrationRatio, PLengthXYZ()) && height == width
    {
      orientation := value;
      Update(None);
    }

    /** The `UX` setter: a new x, the old y and z. */
    method SetUX(value: real)
      modifies this
      ensures orientation == Vec3(value, old(orientation.y), old(orientation.z))
      ensures pixelsPerUnit == old(pixelsPerUnit) && calibrationRatio == old(calibrationRatio)
      ensures width == EllipseWidth(roots, calibrationRatio, PLengthXYZ()) && height == width
    {
      SetOrientation(Vec3(value, orientation.y, orientation.z));
    }

    method SetUY(value: real)
      modifies this
      ensures orientation == Vec3(old(orientation.x), value, old(orientation.z))
      ensures pixelsPerUnit == old(pixelsPerUnit) && calibrationRatio == old(calibrationRatio)
      ensures width == EllipseWidth(roots, calibrationRatio, PLengthXYZ()) && height == width
    {
      SetOrientation(Vec3(orientation.x, value, orientation.z));
    }

    method SetUZ(value: real)
      modifies this
      ensures orientation == Vec3(old(orientation.x), old(orientation.y), value)
      ensures pixelsPerUnit == old(pixelsPerUnit) && calibrationRatio == old(calibrationRatio)
      ensures width == EllipseWidth(roots, calibrationRatio, PLengthXYZ()) && height == width
    {
      SetOrientation(Vec3(orientation.x, orientation.y, value));
    }

    /** `Calibrate()`: the ratio becomes `640^3 * PLengthXYZ`, then
        `Update()`. With the magnet where it is, the circle is then 640
        pixels wide, its radius 320. */
    method Calibrate()
      requires Sound(roots)
      modifies this
      ensures orientation == old(orientation) && pixelsPerUnit == old(pixelsPerUnit)
      ensures calibrationRatio == CalibrationCube * old(PLengthXYZ())
      ensures width == EllipseWidth(roots, calibrationRatio, PLengthXYZ()) && height == width
      ensures old(PLengthXYZ()) > 1.0 ==> width == 640.0 && ZEllipseR() == 320.0
    {
      calibrationRatio := CalibrationCube * PLengthXYZ();
      Update(None);
      if PLengthXYZ() > 1.0 {
        CalibratedWidth(roots, PLengthXYZ());
      }
    }
  }

  // ---------------------------------------------------------------------
  // Roots

  lemma CubeStrict(a: real, b: real)
    requires 0.0 <= a < b
    ensures a * a * a < b * b * b
  {
    assert a * a <= a * b <= b * b;
    assert a * a * a <= a * a * b;
    assert a * a * b <= b * b * b - (b - a) * b * b by {
      assert b * b * b - (b - a) * b * b == a * b * b;
      assert a * a * b <= a * b * b;
    }
    assert (b - a) * b * b > 0.0;
  }

  /** A non-negative real has one non-negative cube root. */
  lemma CubeRootUnique(c: real, y: real)
    requires c >= 0.0 && y >= 0.0 && c * c * c == y * y * y
    ensures c == y
  {
    if c < y {
      CubeStrict(c, y);
    } else if y < c {
      CubeStrict(y, c);
    }
  }

  /** `PLengthXYZ > 1` exactly when the squared pixel length is above 1. */
  lemma GuardBySquaredLength(roots: Roots, squared: real)
    requires Sound(roots) && squared >= 0.0
    ensures roots.sqrt(squared) > 1.0 <==> squared > 1.0
  {
    var l := roots.sqrt(squared);
    assert l >= 0.0 && l * l == squared;
    if l > 1.0 {
      assert l * l > l * 1.0;
    } else {
      assert l * l <= l * 1.0;
    }
  }

  /** A reading of at most one pixel draws the unit circle, radius one
      half, whatever the ratio. */
  lemma GuardedWidth(roots: Roots, ratio: real, length: real)
    requires length <= 1.0
    ensures EllipseWidth(roots, ratio, length) == 1.0
    ensures EllipseWidth(roots, ratio, length) / 2.0 == 0.5
  {
  }

  /** A calibrated sensor, reading unchanged, draws a circle 640 wide. */
  lemma CalibratedWidth(roots: Roots, length: real)
    requires Sound(roots) && length > 1.0
    ensures EllipseWidth(roots, CalibrationCube * length, length) == 640.0
  {
    assert CalibrationCube * length / length == CalibrationCube;
    var c := roots.cbrt(CalibrationCube);
    assert c >= 0.0 && c * c * c == CalibrationCube;
    CubeRootUnique(c, 640.0);
  }

  /** Outside the guard the cube of the width is the ratio over the length. */
  lemma UnguardedWidth(roots: Roots, ratio: real, length: real)
    requires Sound(roots) && length > 1.0 && ratio >= 0.0
    ensures var w := EllipseWidth(roots, ratio, length); w >= 0.0 && w * w * w == ratio / length
  {
  }

  // ---------------------------------------------------------------------
  // Pixel scaling

  /** `PX`, `PY` and `PZ` are the reading in meters times `PixelsPerMeter`
      (`PY` mirrored), for the scaling the current settings give. */
  lemma PixelsFromMeters(u: Vec3, settings: Settings)
    requires settings.unitsPerMeter != 0.0
    ensures var p := ToPixels(u, PixelsPerUnit(settings));
      && p.x == (u.x / settings.unitsPerMeter) * settings.pixelsPerMeter
      && p.y == -(u.y / settings.unitsPerMeter) * settings.pixelsPerMeter
      && p.z == (u.z / settings.unitsPerMeter) * settings.pixelsPerMeter
  {
    var k := settings.unitsPerMeter;
    var m := settings.pixelsPerMeter;
    assert u.x * (m / k) == (u.x / k) * m;
    assert u.y * (m / k) == (u.y / k) * m;
    assert u.z * (m / k) == (u.z / k) * m;
  }

  /** Mirroring the y axis keeps the length: the squared pixel length is
      the squared reading length scaled by the square of the scaling. */
  lemma PixelLengthSquared(u: Vec3, pixelsPerUnit: real)
    ensures LengthSquared(ToPixels(u, pixelsPerUnit)) == pixelsPerUnit * pixelsPerUnit * LengthSquared(u)
  {
    var k := pixelsPerUnit;
    assert (u.y * k * -1.0) * (u.y * k * -1.0) == k * k * (u.y * u.y);
    assert (u.x * k) * (u.x * k) == k * k * (u.x * u.x);
    assert (u.z * k) * (u.z * k) == k * k * (u.z * u.z);
  }
}
