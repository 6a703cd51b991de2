/** Geometry of the confusion axes in the u'v' plane: the neutral point (line 330-332),
    the axis azimuths set up by `readPlatePointsFromCSV` (lines 168-178), the two
    end points of an axis (`vectorCCT`, lines 507-517) and the interpolated stimulus
    colour (`ColorInterp`, lines 555-562). Cosine, sine and the random luminance draw
    are supplied by the caller. */
module ConfusionAxis {
  import opened ColorSpace
  import Staircase

  /** Unreal's single-precision PI, as a real. */
  const PI: real := 3.1415926535897932

  /** Radii of the near (achromatic) and far (saturated) ends of an axis. */
  const NearRadius: real := 0.002
  const FarRadius: real := 1.002

  /** The neutral background point u' = 0.1977, v' = 0.4689. Its luminance is never
      read (vectorCCT and ColorInterp replace it) and is set to 0 here. */
  function NeutralPoint(): (n: Luv)
    ensures UcsDenominator(n) != 0.0
  {
    Luv(0.0, 0.1977, 0.4689)
  }

  /** The neutral point is the D65 white point (x = 0.3127, y = 0.3290) to within 0.001. */
  lemma NeutralIsD65()
    ensures var w := LuvToLxy(NeutralPoint());
            0.3117 < w.x < 0.3137 && 0.3280 < w.y < 0.3300
  {
  }

  /** The azimuth of axis `i` out of `axes`: the protan, deuteran and tritan literals
      when there are three axes, otherwise evenly spaced angles. */
  function Azimuth(axes: nat, i: nat): (a: real)
    requires i < axes
    ensures 0.0 <= a < 2.0 * PI
  {
    if axes == 3 then
      (if i == 0 then 0.07 else if i == 1 then 5.98 else 4.83)
    else
      FractionOfTurn(i, axes);
      (i * 2) as real * PI / axes as real
  }

  /** i / n of a full turn is less than a full turn when i < n. */
  lemma FractionOfTurn(i: nat, n: nat)
    requires i < n
    ensures 0.0 <= (i * 2) as real * PI / n as real < 2.0 * PI
  {
    var q := (i * 2) as real * PI / n as real;
    assert q * n as real == (i * 2) as real * PI;
    assert (i * 2) as real * PI < (n * 2) as real * PI;
  }

  /** No two axes share an azimuth. */
  lemma AzimuthsDistinct(axes: nat, i: nat, j: nat)
    requires i < axes && j < axes && i != j
    ensures Azimuth(axes, i) != Azimuth(axes, j)
  {
    if axes != 3 {
      var n := axes as real;
      assert Azimuth(axes, i) * n == (i * 2) as real * PI;
      assert Azimuth(axes, j) * n == (j * 2) as real * PI;
    }
  }

  /** The two end points of an axis. */
  datatype Segment = Segment(start: Luv, end: Luv)

  /** vectorCCT: the points at radius 0.002 and 1.002 from `neutral` in the direction
      (cosAz, sinAz); `cosAz` and `sinAz` are the cosine and sine of the azimuth. */
  function VectorCct(neutral: Luv, cosAz: real, sinAz: real): (s: Segment)
    ensures s.start.L == 1.0 && s.end.L == 1.0
    ensures s.start.u - neutral.u == NearRadius * cosAz && s.start.v - neutral.v == NearRadius * sinAz
    ensures s.end.u - s.start.u == cosAz && s.end.v - s.start.v == sinAz
  {
    Segment(Luv(1.0, neutral.u + NearRadius * cosAz, neutral.v + NearRadius * sinAz),
            Luv(1.0, neutral.u + FarRadius * cosAz, neutral.v + FarRadius * sinAz))
  }

  /** The chromaticity part of ColorInterp: linear interpolation from `start` towards
      `end` by `magnitude / steps`, with luminance 16 * jitter + 6 drawn per call
      (jitter is FMath::FRand(), taken in [0, 1] with both ends allowed). */
  function InterpLuv(start: Luv, end: Luv, magnitude: real, steps: int, jitter: real): (c: Luv)
    requires steps != 0
    requires 0.0 <= jitter <= 1.0
    ensures 6.0 <= c.L <= 22.0
    ensures magnitude == 0.0 ==> c.u == start.u && c.v == start.v
    ensures magnitude == steps as real ==> c.u == end.u && c.v == end.v
  {
    Luv(jitter * 16.0 + 6.0,
        start.u + magnitude * (end.u - start.u) / steps as real,
        start.v + magnitude * (end.v - start.v) / steps as real)
  }

  /** ColorInterp: the interpolated u'v' point converted to display RGB. */
  function ColorInterp(start: Luv, end: Luv, magnitude: real, steps: int, jitter: real,
                       maxLum: real, toRgb: Mat3): Rgb
    requires steps != 0 && 0.0 <= jitter <= 1.0 && maxLum != 0.0
    requires UcsDenominator(InterpLuv(start, end, magnitude, steps, jitter)) != 0.0
  {
    LuvToRgb(InterpLuv(start, end, magnitude, steps, jitter), maxLum, toRgb)
  }

  /** With an exact inverse matrix, the plate colour converts back to the interpolated
      chromaticity and drawn luminance whenever v' is non-zero. */
  lemma ColorInterpRecoverable(start: Luv, end: Luv, magnitude: real, steps: int, jitter: real,
                               maxLum: real, toRgb: Mat3, toXyz: Mat3)
    requires steps != 0 && 0.0 <= jitter <= 1.0 && maxLum != 0.0
    requires UcsDenominator(InterpLuv(start, end, magnitude, steps, jitter)) != 0.0
    requires InterpLuv(start, end, magnitude, steps, jitter).v != 0.0
    requires MatMul(toRgb, toXyz) == Identity
    ensures var c := InterpLuv(start, end, magnitude, steps, jitter);
            XyzToLxy(RgbToXyz(ColorInterp(start, end, magnitude, steps, jitter, maxLum, toRgb), toXyz), maxLum)
              == LuvToLxy(c)
  {
    var c := InterpLuv(start, end, magnitude, steps, jitter);
    var p := LuvToLxy(c);
    assert p.y * UcsDenominator(c) == 4.0 * c.v;
    assert p.y != 0.0 && p.l != 0.0;
    MatrixRoundTrip(LuvToXyz(c, maxLum), toRgb, toXyz);
    LxyRoundTrip(p, maxLum);
  }

  /** A unit direction has both components in [-1, 1]. */
  lemma UnitComponents(cosAz: real, sinAz: real)
    requires cosAz * cosAz + sinAz * sinAz == 1.0
    ensures -1.0 <= cosAz <= 1.0 && -1.0 <= sinAz <= 1.0
  {
    assert cosAz * cosAz <= 1.0 && sinAz * sinAz <= 1.0;
  }

  /** Every stimulus AlterPlateColors can draw converts: for a threshold the staircase
      can hold and any unit direction, the u'v' -> xy denominator stays above 3, so
      ColorInterp's precondition holds; the background's does too. */
  lemma StimulusConvertible(cosAz: real, sinAz: real, threshold: real, jitter: real)
    requires 0.0 <= jitter <= 1.0
    requires cosAz * cosAz + sinAz * sinAz == 1.0
    requires Staircase.Floor <= threshold <= Staircase.Ceiling
    ensures var n := NeutralPoint();
            var s := VectorCct(n, cosAz, sinAz);
            UcsDenominator(InterpLuv(s.start, s.end, threshold, 1, jitter)) > 3.0 &&
            UcsDenominator(InterpLuv(n, n, 1.0, 1, jitter)) > 3.0
  {
    var n := NeutralPoint();
    var s := VectorCct(n, cosAz, sinAz);
    var c := InterpLuv(s.start, s.end, threshold, 1, jitter);
    var k := NearRadius + threshold;
    UnitComponents(cosAz, sinAz);
    StimulusOffset(cosAz, sinAz, threshold, jitter);
    var w := 6.0 * cosAz - 16.0 * sinAz;
    assert -22.0 <= w;
    assert UcsDenominator(c) == UcsDenominator(n) + k * w;
    assert k * w >= k * -22.0;
  }

  /** The stimulus AlterPlateColors draws (one step, magnitude = the axis threshold)
      lies on the axis at distance 0.002 + threshold from the neutral point. */
  lemma StimulusOffset(cosAz: real, sinAz: real, threshold: real, jitter: real)
    requires 0.0 <= jitter <= 1.0
    requires cosAz * cosAz + sinAz * sinAz == 1.0
    ensures var n := NeutralPoint();
            var s := VectorCct(n, cosAz, sinAz);
            var c := InterpLuv(s.start, s.end, threshold, 1, jitter);
            c.u - n.u == (NearRadius + threshold) * cosAz &&
            c.v - n.v == (NearRadius + threshold) * sinAz &&
            (c.u - n.u) * (c.u - n.u) + (c.v - n.v) * (c.v - n.v)
              == (NearRadius + threshold) * (NearRadius + threshold)
  {
    var n := NeutralPoint();
    var s := VectorCct(n, cosAz, sinAz);
    var c := InterpLuv(s.start, s.end, threshold, 1, jitter);
    var k := NearRadius + threshold;
    assert c.u - n.u == k * cosAz;
    assert c.v - n.v == k * sinAz;
    calc {
      (k * cosAz) * (k * cosAz) + (k * sinAz) * (k * sinAz);
      k * k * (cosAz * cosAz + sinAz * sinAz);
      k * k;
    }
  }

  /** The background colour (neutral interpolated to itself) is the neutral chromaticity. */
  lemma BackgroundIsNeutral(jitter: real)
    requires 0.0 <= jitter <= 1.0
    ensures var n := NeutralPoint();
            var c := InterpLuv(n, n, 1.0, 1, jitter);
            c.u == n.u && c.v == n.v
  {
  }
}
