/** Calibration set-up (`solve`, ColorCalibration.cpp lines 564-590, and the choice of
    `max_lum` at line 139). The least-squares solve and the pseudo-inverse are library
    calls; they are passed in as functions of the set-up matrices. */
module Calibration {
  import opened ColorSpace

  /** The four measured reference colours (`FColor_primaries_lxy`). */
  datatype Primaries = Primaries(red: Lxy, green: Lxy, blue: Lxy, white: Lxy)

  /** A 4x3 matrix, stored row by row. */
  datatype Mat43 = Mat43(r0: Row, r1: Row, r2: Row, r3: Row)

  /** What calibration leaves behind: the maximum luminance and the two matrices. */
  datatype Transform = Transform(maxLum: real, xyzToRgb: Mat3, rgbToXyz: Mat3)

  function AsRow(c: Xyz): Row
  {
    Row(c.X, c.Y, c.Z)
  }

  /** The display's maximum luminance is the White measurement's luminance. */
  function MaxLum(p: Primaries): real
  {
    p.white.l
  }

  /** The four measurements as XYZ rows, luminance normalised by the White entry
      (`src1`, lines 566-580). */
  function SourceMatrix(p: Primaries): (m: Mat43)
    requires MaxLum(p) != 0.0
    ensures p.white.y != 0.0 ==> m.r3.c1 == 1.0
    ensures p.red.y == 0.0 ==> m.r0 == Row(0.0, 0.0, 0.0)
    ensures p.green.y == 0.0 ==> m.r1 == Row(0.0, 0.0, 0.0)
    ensures p.blue.y == 0.0 ==> m.r2 == Row(0.0, 0.0, 0.0)
  {
    var ml := MaxLum(p);
    Mat43(AsRow(LxyToXyz(p.red, ml)), AsRow(LxyToXyz(p.green, ml)),
          AsRow(LxyToXyz(p.blue, ml)), AsRow(LxyToXyz(p.white, ml)))
  }

  /** The target channel values (`src2`, lines 582-585): each primary drives its own
      channel alone, and white drives all three at full scale. */
  const Target: Mat43 :=
    Mat43(Row(1.0, 0.0, 0.0), Row(0.0, 1.0, 0.0), Row(0.0, 0.0, 1.0), Row(1.0, 1.0, 1.0))

  function Times43(a: Mat43, m: Mat3): Mat43
  {
    Mat43(RowTimes(a.r0.c0, a.r0.c1, a.r0.c2, m), RowTimes(a.r1.c0, a.r1.c1, a.r1.c2, m),
          RowTimes(a.r2.c0, a.r2.c1, a.r2.c2, m), RowTimes(a.r3.c0, a.r3.c1, a.r3.c2, m))
  }

  /** `m` solves the four-colour system exactly (the least-squares residual is zero). */
  predicate ExactFit(p: Primaries, m: Mat3)
    requires MaxLum(p) != 0.0
  {
    Times43(SourceMatrix(p), m) == Target
  }

  /** solve: XYZ -> RGB is the least-squares solution of Source * M = Target, and
      RGB -> XYZ is its pseudo-inverse. When the fit is exact, every measured
      reference colour is reproduced on its intended channels. */
  function Calibrate(p: Primaries, lstsq: (Mat43, Mat43) -> Mat3, pinv: Mat3 -> Mat3): (t: Transform)
    requires MaxLum(p) != 0.0
    ensures t.maxLum == p.white.l
    ensures t.xyzToRgb == lstsq(SourceMatrix(p), Target) && t.rgbToXyz == pinv(t.xyzToRgb)
    ensures ExactFit(p, t.xyzToRgb) ==>
              XyzToRgb(LxyToXyz(p.red, t.maxLum), t.xyzToRgb) == Rgb(1.0, 0.0, 0.0) &&
              XyzToRgb(LxyToXyz(p.green, t.maxLum), t.xyzToRgb) == Rgb(0.0, 1.0, 0.0) &&
              XyzToRgb(LxyToXyz(p.blue, t.maxLum), t.xyzToRgb) == Rgb(0.0, 0.0, 1.0) &&
              XyzToRgb(LxyToXyz(p.white, t.maxLum), t.xyzToRgb) == Rgb(1.0, 1.0, 1.0)
  {
    var m := lstsq(SourceMatrix(p), Target);
    Transform(MaxLum(p), m, pinv(m))
  }

  /** The White measurement converts to XYZ with Y = 1: luminance is expressed as a
      fraction of the display's maximum. */
  lemma WhiteIsUnitLuminance(p: Primaries)
    requires MaxLum(p) != 0.0 && p.white.y != 0.0
    ensures LxyToXyz(p.white, MaxLum(p)).Y == 1.0
  {
  }

  /** Under an exact fit, the White row and the sum of the three primary rows have the
      same image under the solved matrix: the target's white row (1, 1, 1) is the sum
      of its primary rows, and the product is linear. */
  lemma ExactFitWhiteMatchesSum(p: Primaries, m: Mat3)
    requires MaxLum(p) != 0.0 && ExactFit(p, m)
    ensures var s := SourceMatrix(p);
            RowTimes(s.r3.c0, s.r3.c1, s.r3.c2, m) ==
            RowTimes(s.r0.c0 + s.r1.c0 + s.r2.c0, s.r0.c1 + s.r1.c1 + s.r2.c1, s.r0.c2 + s.r1.c2 + s.r2.c2, m)
  {
    var s := SourceMatrix(p);
    var t := Times43(s, m);
    assert t.r0 == Row(1.0, 0.0, 0.0) && t.r1 == Row(0.0, 1.0, 0.0) && t.r2 == Row(0.0, 0.0, 1.0);
    assert t.r3 == Row(1.0, 1.0, 1.0);
  }

  /** With an exact fit and an exact inverse, full-scale white (1, 1, 1) is displayed
      as the measured white point. */
  lemma WhiteRoundTrip(p: Primaries, lstsq: (Mat43, Mat43) -> Mat3, pinv: Mat3 -> Mat3)
    requires MaxLum(p) != 0.0
    requires ExactFit(p, Calibrate(p, lstsq, pinv).xyzToRgb)
    requires var t := Calibrate(p, lstsq, pinv); MatMul(t.xyzToRgb, t.rgbToXyz) == Identity
    ensures var t := Calibrate(p, lstsq, pinv);
            RgbToXyz(Rgb(1.0, 1.0, 1.0), t.rgbToXyz) == LxyToXyz(p.white, MaxLum(p))
  {
    var t := Calibrate(p, lstsq, pinv);
    MatrixRoundTrip(LxyToXyz(p.white, MaxLum(p)), t.xyzToRgb, t.rgbToXyz);
  }
}
