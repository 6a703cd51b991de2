/** Colour representations and the conversions between them, as `UColorCalibration`
    performs them (ColorCalibration.cpp, lines 7-97). Every value is a `real`; the
    display's maximum luminance (`max_lum`) is passed in explicitly. */
module ColorSpace {

  /** Luminance plus 1931 (x, y) chromaticity (`FColor_lxy`). */
  datatype Lxy = Lxy(l: real, x: real, y: real)

  /** Luminance plus 1976 (u', v') chromaticity (`FColor_Luv`). */
  datatype Luv = Luv(L: real, u: real, v: real)

  /** CIE tristimulus values (`FColor_XYZ`). */
  datatype Xyz = Xyz(X: real, Y: real, Z: real)

  /** The displayable channel triplet (`FLinearColor` without alpha). */
  datatype Rgb = Rgb(R: real, G: real, B: real)

  /** A 3x3 matrix, stored row by row. */
  datatype Row = Row(c0: real, c1: real, c2: real)
  datatype Mat3 = Mat3(r0: Row, r1: Row, r2: Row)

  const Identity: Mat3 := Mat3(Row(1.0, 0.0, 0.0), Row(0.0, 1.0, 0.0), Row(0.0, 0.0, 1.0))

  /** The row vector (a, b, c) multiplied by `m` on the right. */
  function RowTimes(a: real, b: real, c: real, m: Mat3): Row
  {
    Row(a * m.r0.c0 + b * m.r1.c0 + c * m.r2.c0,
        a * m.r0.c1 + b * m.r1.c1 + c * m.r2.c1,
        a * m.r0.c2 + b * m.r1.c2 + c * m.r2.c2)
  }

  function MatMul(m: Mat3, n: Mat3): Mat3
  {
    Mat3(RowTimes(m.r0.c0, m.r0.c1, m.r0.c2, n),
         RowTimes(m.r1.c0, m.r1.c1, m.r1.c2, n),
         RowTimes(m.r2.c0, m.r2.c1, m.r2.c2, n))
  }

  /** Multiplying by `m` and then by `n` is multiplying by `m * n`. */
  lemma RowTimesMatMul(a: real, b: real, c: real, m: Mat3, n: Mat3)
    ensures var p := RowTimes(a, b, c, m);
            RowTimes(p.c0, p.c1, p.c2, n) == RowTimes(a, b, c, MatMul(m, n))
  {
    Column(a, b, c, m.r0.c0, m.r1.c0, m.r2.c0, m.r0.c1, m.r1.c1, m.r2.c1,
           m.r0.c2, m.r1.c2, m.r2.c2, n.r0.c0, n.r1.c0, n.r2.c0);
    Column(a, b, c, m.r0.c0, m.r1.c0, m.r2.c0, m.r0.c1, m.r1.c1, m.r2.c1,
           m.r0.c2, m.r1.c2, m.r2.c2, n.r0.c1, n.r1.c1, n.r2.c1);
    Column(a, b, c, m.r0.c0, m.r1.c0, m.r2.c0, m.r0.c1, m.r1.c1, m.r2.c1,
           m.r0.c2, m.r1.c2, m.r2.c2, n.r0.c2, n.r1.c2, n.r2.c2);
    var p := RowTimes(a, b, c, m);
    var mn := MatMul(m, n);
    assert mn.r0 == RowTimes(m.r0.c0, m.r0.c1, m.r0.c2, n);
    assert mn.r1 == RowTimes(m.r1.c0, m.r1.c1, m.r1.c2, n);
    assert mn.r2 == RowTimes(m.r2.c0, m.r2.c1, m.r2.c2, n);
    var q := RowTimes(p.c0, p.c1, p.c2, n);
    var r := RowTimes(a, b, c, mn);
    assert q.c0 == r.c0;
    assert q.c1 == r.c1;
    assert q.c2 == r.c2;
  }

  /** One entry of a row-vector-times-matrix-times-matrix product, regrouped. */
  lemma Column(a: real, b: real, c: real, m0: real, m1: real, m2: real, k0: real, k1: real, k2: real,
               j0: real, j1: real, j2: real, n0: real, n1: real, n2: real)
    ensures (a * m0 + b * m1 + c * m2) * n0 + (a * k0 + b * k1 + c * k2) * n1 + (a * j0 + b * j1 + c * j2) * n2
         == a * (m0 * n0 + k0 * n1 + j0 * n2) + b * (m1 * n0 + k1 * n1 + j1 * n2) + c * (m2 * n0 + k2 * n1 + j2 * n2)
  {
  }

  /** Dividing two quotients over the same nonzero denominator cancels it. */
  lemma RatioCancel(p: real, q: real, d: real, y: real)
    requires d != 0.0 && q != 0.0
    ensures (p / d) * y / (q / d) == y * p / q
  {
    var s := p / d;
    var t := q / d;
    assert s * d == p;
    assert t * d == q;
    calc {
      s * y / t;
      (s * y * d) / (t * d);
      (p * y) / q;
    }
  }

  const Black: Xyz := Xyz(0.0, 0.0, 0.0)

  /** convertFromlxyToXYZ: luminance is normalised by `maxLum`; a chromaticity with
      y = 0 yields black instead of dividing by zero. */
  function LxyToXyz(c: Lxy, maxLum: real): (r: Xyz)
    requires maxLum != 0.0
    ensures c.y == 0.0 ==> r == Black
    ensures c.y != 0.0 ==> r.Y == c.l / maxLum
    ensures c.y != 0.0 ==> r.X + r.Y + r.Z == r.Y / c.y
    ensures c.y != 0.0 ==> r.X * c.y == c.x * r.Y
  {
    var Y := c.l / maxLum;
    if c.y == 0.0 then Black
    else Xyz(c.x * Y / c.y, Y, (1.0 - c.x - c.y) * Y / c.y)
  }

  /** convertFromXYZtolxy: chromaticity is each component's share of X + Y + Z;
      a zero sum yields the all-zero triple. */
  function XyzToLxy(c: Xyz, maxLum: real): (r: Lxy)
    ensures c.X + c.Y + c.Z == 0.0 ==> r == Lxy(0.0, 0.0, 0.0)
    ensures c.X + c.Y + c.Z != 0.0 ==> r.l == c.Y * maxLum
    ensures c.X + c.Y + c.Z != 0.0 ==>
              r.x * (c.X + c.Y + c.Z) == c.X && r.y * (c.X + c.Y + c.Z) == c.Y
  {
    var d := c.X + c.Y + c.Z;
    if d == 0.0 then Lxy(0.0, 0.0, 0.0)
    else Lxy(c.Y * maxLum, c.X / d, c.Y / d)
  }

  /** lxy -> XYZ -> lxy gives the measurement back when it is neither of zero
      luminance nor on the y = 0 line. */
  lemma LxyRoundTrip(c: Lxy, maxLum: real)
    requires maxLum != 0.0 && c.y != 0.0 && c.l != 0.0
    ensures XyzToLxy(LxyToXyz(c, maxLum), maxLum) == c
  {
    var t := LxyToXyz(c, maxLum);
    var Y := c.l / maxLum;
    assert Y != 0.0;
    var d := t.X + t.Y + t.Z;
    assert d == Y / c.y;
    assert d != 0.0;
    calc {
      t.X / d;
      (c.x * Y / c.y) / (Y / c.y);
      c.x;
    }
    calc {
      t.Y / d;
      Y / (Y / c.y);
      c.y;
    }
    assert t.Y * maxLum == c.l;
  }

  /** Why the round trip needs l != 0: a zero-luminance colour loses its chromaticity. */
  lemma LxyZeroLuminanceCollapses(c: Lxy, maxLum: real)
    requires maxLum != 0.0 && c.l == 0.0
    ensures XyzToLxy(LxyToXyz(c, maxLum), maxLum) == Lxy(0.0, 0.0, 0.0)
  {
  }

  /** XYZ -> lxy -> XYZ gives the tristimulus values back when X + Y + Z != 0 and Y != 0. */
  lemma XyzRoundTrip(c: Xyz, maxLum: real)
    requires maxLum != 0.0 && c.X + c.Y + c.Z != 0.0 && c.Y != 0.0
    ensures LxyToXyz(XyzToLxy(c, maxLum), maxLum) == c
  {
    var d := c.X + c.Y + c.Z;
    var p := XyzToLxy(c, maxLum);
    assert p.l / maxLum == c.Y;
    assert p.y == c.Y / d && p.y != 0.0;
    var r := LxyToXyz(p, maxLum);
    calc {
      r.X;
      p.x * c.Y / p.y;
      (c.X / d) * c.Y / (c.Y / d);
      c.X;
    }
    calc {
      r.Z;
      (1.0 - p.x - p.y) * c.Y / p.y;
      (1.0 - c.X / d - c.Y / d) * c.Y / (c.Y / d);
      (1.0 - c.X / d - c.Y / d) * d;
      d - c.X - c.Y;
      c.Z;
    }
  }

  /** The denominator 6u' - 16v' + 12 of the CIE 1976 u'v' -> xy formula. */
  function UcsDenominator(c: Luv): real
  {
    6.0 * c.u - 16.0 * c.v + 12.0
  }

  /** convertFromLuvtolxy: x = 9u' / d, y = 4v' / d. The source has no guard, so a
      point on the line d = 0 is excluded here. */
  function LuvToLxy(c: Luv): (r: Lxy)
    requires UcsDenominator(c) != 0.0
    ensures r.l == c.L
    ensures r.x * UcsDenominator(c) == 9.0 * c.u && r.y * UcsDenominator(c) == 4.0 * c.v
  {
    var d := UcsDenominator(c);
    Lxy(c.L, 9.0 * c.u / d, 4.0 * c.v / d)
  }

  /** The textbook CIE 1976 xy -> u'v' map, an independent reference for LuvToLxy. */
  function XyToUv(l: real, x: real, y: real): Luv
    requires -2.0 * x + 12.0 * y + 3.0 != 0.0
  {
    var e := -2.0 * x + 12.0 * y + 3.0;
    Luv(l, 4.0 * x / e, 9.0 * y / e)
  }

  /** LuvToLxy is inverted by the textbook xy -> u'v' map. */
  lemma LuvToLxyInverse(c: Luv)
    requires UcsDenominator(c) != 0.0
    ensures var p := LuvToLxy(c);
            -2.0 * p.x + 12.0 * p.y + 3.0 != 0.0 && XyToUv(p.l, p.x, p.y) == c
  {
    var d := UcsDenominator(c);
    var p := LuvToLxy(c);
    calc {
      -2.0 * p.x + 12.0 * p.y + 3.0;
      (-18.0 * c.u + 48.0 * c.v + 3.0 * d) / d;
      36.0 / d;
    }
    var e := 36.0 / d;
    calc {
      4.0 * p.x / e;
      (36.0 * c.u / d) / (36.0 / d);
      c.u;
    }
    calc {
      9.0 * p.y / e;
      (36.0 * c.v / d) / (36.0 / d);
      c.v;
    }
  }

  /** ... and LuvToLxy inverts the textbook map, so the two are mutually inverse. */
  lemma XyToUvInverse(l: real, x: real, y: real)
    requires -2.0 * x + 12.0 * y + 3.0 != 0.0
    ensures UcsDenominator(XyToUv(l, x, y)) != 0.0 && LuvToLxy(XyToUv(l, x, y)) == Lxy(l, x, y)
  {
    var e := -2.0 * x + 12.0 * y + 3.0;
    var c := XyToUv(l, x, y);
    calc {
      UcsDenominator(c);
      (24.0 * x - 144.0 * y + 12.0 * e) / e;
      36.0 / e;
    }
    var d := 36.0 / e;
    calc {
      9.0 * c.u / d;
      (36.0 * x / e) / (36.0 / e);
      x;
    }
    calc {
      4.0 * c.v / d;
      (36.0 * y / e) / (36.0 / e);
      y;
    }
  }

  /** convertFromLuvToXYZ: the u'v' point taken to xy, then to XYZ. */
  function LuvToXyz(c: Luv, maxLum: real): (r: Xyz)
    requires maxLum != 0.0 && UcsDenominator(c) != 0.0
  {
    LxyToXyz(LuvToLxy(c), maxLum)
  }

  /** LuvToXyz agrees with the textbook u'v' -> XYZ formula
      X = Y 9u' / 4v', Z = Y (12 - 3u' - 20v') / 4v', and gives black when v' = 0. */
  lemma LuvToXyzTextbook(c: Luv, maxLum: real)
    requires maxLum != 0.0 && UcsDenominator(c) != 0.0
    ensures c.v == 0.0 ==> LuvToXyz(c, maxLum) == Black
    ensures c.v != 0.0 ==>
              var r := LuvToXyz(c, maxLum);
              r.Y == c.L / maxLum &&
              r.X == r.Y * (9.0 * c.u) / (4.0 * c.v) &&
              r.Z == r.Y * (12.0 - 3.0 * c.u - 20.0 * c.v) / (4.0 * c.v)
  {
    var d := UcsDenominator(c);
    var p := LuvToLxy(c);
    if c.v != 0.0 {
      assert p.y != 0.0;
      var Y := c.L / maxLum;
      RatioCancel(9.0 * c.u, 4.0 * c.v, d, Y);
      assert 1.0 - p.x - p.y == (12.0 - 3.0 * c.u - 20.0 * c.v) / d;
      RatioCancel(12.0 - 3.0 * c.u - 20.0 * c.v, 4.0 * c.v, d, Y);
    }
  }

  /** convertFromXYZtoRGB: the row vector (X, Y, Z) times the XYZ -> RGB matrix. */
  function XyzToRgb(c: Xyz, m: Mat3): (r: Rgb)
    ensures m == Identity ==> r == Rgb(c.X, c.Y, c.Z)
  {
    var p := RowTimes(c.X, c.Y, c.Z, m);
    Rgb(p.c0, p.c1, p.c2)
  }

  /** convertFromRGBtoXYZ: the row vector (R, G, B) times the RGB -> XYZ matrix. */
  function RgbToXyz(c: Rgb, m: Mat3): (r: Xyz)
    ensures m == Identity ==> r == Xyz(c.R, c.G, c.B)
  {
    var p := RowTimes(c.R, c.G, c.B, m);
    Xyz(p.c0, p.c1, p.c2)
  }

  /** When the RGB -> XYZ matrix is a right inverse of the XYZ -> RGB matrix, the
      two conversions round-trip. */
  lemma MatrixRoundTrip(c: Xyz, toRgb: Mat3, toXyz: Mat3)
    requires MatMul(toRgb, toXyz) == Identity
    ensures RgbToXyz(XyzToRgb(c, toRgb), toXyz) == c
  {
    RowTimesMatMul(c.X, c.Y, c.Z, toRgb, toXyz);
  }

  /** convertFromLuvtoRGB: u'v' -> XYZ -> RGB. */
  function LuvToRgb(c: Luv, maxLum: real, toRgb: Mat3): (r: Rgb)
    requires maxLum != 0.0 && UcsDenominator(c) != 0.0
  {
    XyzToRgb(LuvToXyz(c, maxLum), toRgb)
  }

  /** With an exact inverse matrix, the displayed colour of a u'v' point converts back
      to the XYZ value it was computed from. */
  lemma LuvToRgbRecoverable(c: Luv, maxLum: real, toRgb: Mat3, toXyz: Mat3)
    requires maxLum != 0.0 && UcsDenominator(c) != 0.0
    requires MatMul(toRgb, toXyz) == Identity
    ensures RgbToXyz(LuvToRgb(c, maxLum, toRgb), toXyz) == LuvToXyz(c, maxLum)
  {
    MatrixRoundTrip(LuvToXyz(c, maxLum), toRgb, toXyz);
  }

  /** The matrix conversions are linear: scaling and adding colours before the
      conversion is scaling and adding their images. */
  lemma ConversionsLinear(a: Xyz, b: Xyz, k: real, m: Mat3)
    ensures var r := XyzToRgb(Xyz(k * a.X + b.X, k * a.Y + b.Y, k * a.Z + b.Z), m);
            var p := XyzToRgb(a, m);
            var q := XyzToRgb(b, m);
            r == Rgb(k * p.R + q.R, k * p.G + q.G, k * p.B + q.B)
    ensures var r := RgbToXyz(Rgb(k * a.X + b.X, k * a.Y + b.Y, k * a.Z + b.Z), m);
            var p := RgbToXyz(Rgb(a.X, a.Y, a.Z), m);
            var q := RgbToXyz(Rgb(b.X, b.Y, b.Z), m);
            r == Xyz(k * p.X + q.X, k * p.Y + q.Y, k * p.Z + q.Z)
  {
    RowTimesLinear(a.X, a.Y, a.Z, b.X, b.Y, b.Z, k, m);
  }

  /** The row-vector product distributes over scaling and addition. */
  lemma RowTimesLinear(a0: real, a1: real, a2: real, b0: real, b1: real, b2: real, k: real, m: Mat3)
    ensures var r := RowTimes(k * a0 + b0, k * a1 + b1, k * a2 + b2, m);
            var p := RowTimes(a0, a1, a2, m);
            var q := RowTimes(b0, b1, b2, m);
            r == Row(k * p.c0 + q.c0, k * p.c1 + q.c1, k * p.c2 + q.c2)
  {
    LinearColumn(a0, a1, a2, b0, b1, b2, k, m.r0.c0, m.r1.c0, m.r2.c0);
    LinearColumn(a0, a1, a2, b0, b1, b2, k, m.r0.c1, m.r1.c1, m.r2.c1);
    LinearColumn(a0, a1, a2, b0, b1, b2, k, m.r0.c2, m.r1.c2, m.r2.c2);
  }

  lemma LinearColumn(a0: real, a1: real, a2: real, b0: real, b1: real, b2: real, k: real,
                     m0: real, m1: real, m2: real)
    ensures (k * a0 + b0) * m0 + (k * a1 + b1) * m1 + (k * a2 + b2) * m2
            == k * (a0 * m0 + a1 * m1 + a2 * m2) + (b0 * m0 + b1 * m1 + b2 * m2)
  {
  }

  /** convertFromlxytoRGB as written: it converts into a local XYZ and never writes
      its output, so the caller's colour comes back as it went in. */
  function LxyToRgbAsWritten(c: Lxy, retColor: Rgb, maxLum: real): Rgb
    requires maxLum != 0.0
  {
    var unused := LxyToXyz(c, maxLum);
    retColor
  }

  /** convertFromlxytoRGB as evidently intended: lxy -> XYZ -> RGB. */
  function LxyToRgb(c: Lxy, maxLum: real, toRgb: Mat3): Rgb
    requires maxLum != 0.0
  {
    XyzToRgb(LxyToXyz(c, maxLum), toRgb)
  }

  /** The as-written conversion ignores its input: the D65 white measured at full
      luminance, through the identity matrix, comes back as the caller's black. */
  lemma LxyToRgbAsWrittenIgnoresInput()
    ensures var white := Lxy(100.0, 0.3127, 0.3290);
            LxyToRgbAsWritten(white, Rgb(0.0, 0.0, 0.0), 100.0) == Rgb(0.0, 0.0, 0.0) &&
            LxyToRgb(white, 100.0, Identity) != Rgb(0.0, 0.0, 0.0)
  {
    var white := Lxy(100.0, 0.3127, 0.3290);
    assert LxyToXyz(white, 100.0).Y == 1.0;
  }

  /** The corrected conversion loses nothing: with an exact inverse matrix, RGB can be
      taken back to the original lxy measurement. */
  lemma LxyToRgbRecoverable(c: Lxy, maxLum: real, toRgb: Mat3, toXyz: Mat3)
    requires maxLum != 0.0 && c.y != 0.0 && c.l != 0.0
    requires MatMul(toRgb, toXyz) == Identity
    ensures XyzToLxy(RgbToXyz(LxyToRgb(c, maxLum, toRgb), toXyz), maxLum) == c
  {
    MatrixRoundTrip(LxyToXyz(c, maxLum), toRgb, toXyz);
    LxyRoundTrip(c, maxLum);
  }
}
