/**
 * The suction-cup fixture contours: closed five-vertex outlines of a square
 * (145 x 145) or a rectangular (145 x 55) cup anchored at its lower-left corner,
 * returned, as the source does with zip, as a sequence of x coordinates and a
 * sequence of y coordinates.
 */
module Fixtures {
  import opened Wrappers
  import opened Inertia

  const SquareCupDim: real := 145.0
  const RectangularCupDimX: real := 145.0
  const RectangularCupDimY: real := 55.0

  /** A contour as two coordinate columns, the transposed form zip(*coords) returns. */
  datatype Contour = Contour(xs: seq<real>, ys: seq<real>)

  /** Split a vertex list into its x column and its y column. */
  function Unzip(vs: seq<Point>): (c: Contour)
    ensures |c.xs| == |vs| && |c.ys| == |vs|
  {
    Contour(seq(|vs|, k requires 0 <= k < |vs| => vs[k].x), seq(|vs|, k requires 0 <= k < |vs| => vs[k].y))
  }

  /** Pair the two columns back into vertices, as list(zip(xs, ys)) does; the longer column is cut short. */
  function Zip(c: Contour): (vs: seq<Point>)
    ensures |vs| == if |c.xs| <= |c.ys| then |c.xs| else |c.ys|
  {
    var n := if |c.xs| <= |c.ys| then |c.xs| else |c.ys|;
    seq(n, k requires 0 <= k < n => Point(c.xs[k], c.ys[k]))
  }

  /** Zipping undoes unzipping. */
  lemma ZipUnzip(vs: seq<Point>)
    ensures Zip(Unzip(vs)) == vs
  {
    var back := Zip(Unzip(vs));
    assert |back| == |vs|;
    forall k | 0 <= k < |vs|
      ensures back[k] == vs[k]
    {
    }
  }

  /** Unzipping undoes zipping when the two columns have the same length. */
  lemma UnzipZip(c: Contour)
    requires |c.xs| == |c.ys|
    ensures Unzip(Zip(c)) == c
  {
    var back := Unzip(Zip(c));
    assert back.xs == c.xs;
    assert back.ys == c.ys;
  }

  /** The outline of a w x h box anchored at (lbX, lbY): lower-left, upper-left, upper-right,
      lower-right, and the lower-left corner again to close it. */
  function CupCorners(lbX: real, lbY: real, w: real, h: real): (vs: seq<Point>)
    ensures |vs| == 5 && vs[4] == vs[0]
  {
    [Point(lbX, lbY), Point(lbX, lbY + h), Point(lbX + w, lbY + h), Point(lbX + w, lbY), Point(lbX, lbY)]
  }

  function SquareSuctionCup(lbX: real, lbY: real): (c: Contour)
    ensures |c.xs| == 5 && |c.ys| == 5
    ensures c.xs[4] == c.xs[0] && c.ys[4] == c.ys[0]
  {
    Unzip(CupCorners(lbX, lbY, SquareCupDim, SquareCupDim))
  }

  function RectangleSuctionCup(lbX: real, lbY: real): (c: Contour)
    ensures |c.xs| == 5 && |c.ys| == 5
    ensures c.xs[4] == c.xs[0] && c.ys[4] == c.ys[0]
  {
    Unzip(CupCorners(lbX, lbY, RectangularCupDimX, RectangularCupDimY))
  }

  /** The contour of a fixture type: 1 is the square cup, 2 the rectangular cup, anything else is refused. */
  function CreateFixture(cupType: int, lbX: real, lbY: real): (r: Result<Contour>)
    ensures r.Ok? <==> cupType == 1 || cupType == 2
    ensures r.Err? ==> r.error == InvalidCupType
    ensures r.Ok? ==> |r.value.xs| == 5 && |r.value.ys| == 5
  {
    if cupType == 1 then Ok(SquareSuctionCup(lbX, lbY))
    else if cupType == 2 then Ok(RectangleSuctionCup(lbX, lbY))
    else Err(InvalidCupType)
  }

  // ---------------------------------------------------------------------------
  // Shape of the contours
  // ---------------------------------------------------------------------------

  /** The vertices of a cup contour are exactly the four corners of its box, the first repeated last. */
  lemma CupCornersOfBox(lbX: real, lbY: real, w: real, h: real)
    requires w > 0.0 && h > 0.0
    ensures var vs := CupCorners(lbX, lbY, w, h);
            (forall k :: 0 <= k < 5 ==> lbX <= vs[k].x <= lbX + w && lbY <= vs[k].y <= lbY + h)
            && (set k | 0 <= k < 5 :: vs[k]) ==
               {Point(lbX, lbY), Point(lbX, lbY + h), Point(lbX + w, lbY + h), Point(lbX + w, lbY)}
  {
    var vs := CupCorners(lbX, lbY, w, h);
    var corners := {Point(lbX, lbY), Point(lbX, lbY + h), Point(lbX + w, lbY + h), Point(lbX + w, lbY)};
    assert forall p :: p in corners ==> p == vs[0] || p == vs[1] || p == vs[2] || p == vs[3];
  }

  lemma EdgeSumOfFive(vs: seq<Point>, f: (Point, Point) -> real)
    requires |vs| == 5
    ensures EdgeSum(vs, f) == f(vs[0], vs[1]) + f(vs[1], vs[2]) + f(vs[2], vs[3]) + f(vs[3], vs[4])
  {
    EdgeSumStep(vs, 0, f);
    EdgeSumStep(vs, 1, f);
    EdgeSumStep(vs, 2, f);
    EdgeSumStep(vs, 3, f);
    assert vs[..5] == vs;
  }

  /** The signed shoelace sum of a cup contour is -2 w h: the corners are visited clockwise. */
  lemma CupShoelace(lbX: real, lbY: real, w: real, h: real)
    ensures RollSum(CupCorners(lbX, lbY, w, h), 5, Cross) == -2.0 * (w * h)
    ensures PolygonArea(CupCorners(lbX, lbY, w, h)) == 0.5 * Abs(-2.0 * (w * h))
  {
    var vs := CupCorners(lbX, lbY, w, h);
    RollSumSplit(vs, Cross);
    EdgeSumOfFive(vs, Cross);
    CrossSelf(vs[0]);
    assert Cross(vs[0], vs[1]) == lbX * h;
    assert Cross(vs[1], vs[2]) == -(w * lbY) - w * h;
    assert Cross(vs[2], vs[3]) == -(lbX * h) - w * h;
    assert Cross(vs[3], vs[4]) == w * lbY;
  }

  /** Whatever its anchor, the square cup contour encloses 145 * 145 = 21025 and runs clockwise. */
  lemma SquareCupArea(lbX: real, lbY: real)
    ensures Zip(SquareSuctionCup(lbX, lbY)) == CupCorners(lbX, lbY, SquareCupDim, SquareCupDim)
    ensures RollSum(Zip(SquareSuctionCup(lbX, lbY)), 5, Cross) < 0.0
    ensures PolygonArea(Zip(SquareSuctionCup(lbX, lbY))) == SquareCupDim * SquareCupDim == 21025.0
  {
    ZipUnzip(CupCorners(lbX, lbY, SquareCupDim, SquareCupDim));
    CupShoelace(lbX, lbY, SquareCupDim, SquareCupDim);
  }

  /** Whatever its anchor, the rectangular cup contour encloses 145 * 55 = 7975 and runs clockwise. */
  lemma RectangleCupArea(lbX: real, lbY: real)
    ensures Zip(RectangleSuctionCup(lbX, lbY)) == CupCorners(lbX, lbY, RectangularCupDimX, RectangularCupDimY)
    ensures RollSum(Zip(RectangleSuctionCup(lbX, lbY)), 5, Cross) < 0.0
    ensures PolygonArea(Zip(RectangleSuctionCup(lbX, lbY))) == RectangularCupDimX * RectangularCupDimY == 7975.0
  {
    ZipUnzip(CupCorners(lbX, lbY, RectangularCupDimX, RectangularCupDimY));
    CupShoelace(lbX, lbY, RectangularCupDimX, RectangularCupDimY);
  }

  /** The area of a created fixture is the one its type code stands for. */
  lemma CreatedFixtureArea(cupType: int, lbX: real, lbY: real)
    requires CreateFixture(cupType, lbX, lbY).Ok?
    ensures PolygonArea(Zip(CreateFixture(cupType, lbX, lbY).value)) == if cupType == 1 then 21025.0 else 7975.0
  {
    if cupType == 1 {
      SquareCupArea(lbX, lbY);
    } else {
      RectangleCupArea(lbX, lbY);
    }
  }

  // ---------------------------------------------------------------------------
  // Second moments of the cup contours
  // ---------------------------------------------------------------------------

  /** (b + h)^3 - b^3, expanded. */
  function CubeDiff(b: real, h: real): real
  {
    3.0 * b * b * h + 3.0 * b * h * h + h * h * h
  }

  lemma MulNonNegative(x: real, y: real)
    requires x >= 0.0 && y >= 0.0
    ensures x * y >= 0.0
  {
  }

  lemma CubeDiffFactored(b: real, h: real)
    ensures CubeDiff(b, h) == h * (3.0 * ((b + h / 2.0) * (b + h / 2.0)) + 0.25 * (h * h))
  {
  }

  /** (b + h)^3 - b^3 >= 0 for h >= 0: the cube is increasing. */
  lemma CubeDiffNonNegative(b: real, h: real)
    requires h >= 0.0
    ensures CubeDiff(b, h) >= 0.0
  {
    var c := b + h / 2.0;
    assert 3.0 * (c * c) + 0.25 * (h * h) >= 0.0;
    CubeDiffFactored(b, h);
    MulNonNegative(h, 3.0 * (c * c) + 0.25 * (h * h));
  }

  // The three identities below are the boundary sums of a cup contour written out term by term
  // (edges A-B, B-C, C-D, D-A with A = (a, b), B = (a, b + h), C = (a + w, b + h), D = (a + w, b)).

  lemma JxCupIdentity(a: real, b: real, w: real, h: real)
    ensures (b * b + b * (b + h) + (b + h) * (b + h)) * (a * (b + h) - a * b)
          + ((b + h) * (b + h) + (b + h) * (b + h) + (b + h) * (b + h)) * (a * (b + h) - (a + w) * (b + h))
          + ((b + h) * (b + h) + (b + h) * b + b * b) * ((a + w) * b - (a + w) * (b + h))
          + (b * b + b * b + b * b) * ((a + w) * b - a * b)
         == -4.0 * (w * CubeDiff(b, h))
  {
  }

  lemma JyCupIdentity(a: real, b: real, w: real, h: real)
    ensures (a * a + a * a + a * a) * (a * (b + h) - a * b)
          + (a * a + a * (a + w) + (a + w) * (a + w)) * (a * (b + h) - (a + w) * (b + h))
          + ((a + w) * (a + w) + (a + w) * (a + w) + (a + w) * (a + w)) * ((a + w) * b - (a + w) * (b + h))
          + ((a + w) * (a + w) + (a + w) * a + a * a) * ((a + w) * b - a * b)
         == -4.0 * (h * CubeDiff(a, w))
  {
  }

  lemma JxyCupIdentity(a: real, b: real, w: real, h: real)
    ensures (a * (b + h) + 2.0 * a * b + 2.0 * a * (b + h) + a * b) * (a * (b + h) - a * b)
          + (a * (b + h) + 2.0 * a * (b + h) + 2.0 * (a + w) * (b + h) + (a + w) * (b + h))
            * (a * (b + h) - (a + w) * (b + h))
          + ((a + w) * b + 2.0 * (a + w) * (b + h) + 2.0 * (a + w) * b + (a + w) * (b + h))
            * ((a + w) * b - (a + w) * (b + h))
          + ((a + w) * b + 2.0 * (a + w) * b + 2.0 * a * b + a * b) * ((a + w) * b - a * b)
         == -6.0 * (w * h * ((2.0 * a + w) * (2.0 * b + h)))
  {
  }

  /** The raw Jx boundary sum of a cup contour: -4 w ((b + h)^3 - b^3). */
  lemma CupJxSum(a: real, b: real, w: real, h: real)
    ensures EdgeSum(CupCorners(a, b, w, h), JxTerm) == -4.0 * (w * CubeDiff(b, h))
  {
    EdgeSumOfFive(CupCorners(a, b, w, h), JxTerm);
    JxCupIdentity(a, b, w, h);
  }

  /** The raw Jy boundary sum of a cup contour: -4 h ((a + w)^3 - a^3). */
  lemma CupJySum(a: real, b: real, w: real, h: real)
    ensures EdgeSum(CupCorners(a, b, w, h), JyTerm) == -4.0 * (h * CubeDiff(a, w))
  {
    EdgeSumOfFive(CupCorners(a, b, w, h), JyTerm);
    JyCupIdentity(a, b, w, h);
  }

  /** The raw Jxy boundary sum of a cup contour: -6 w h (2a + w)(2b + h). */
  lemma CupJxySum(a: real, b: real, w: real, h: real)
    ensures EdgeSum(CupCorners(a, b, w, h), JxyTerm) == -6.0 * (w * h * ((2.0 * a + w) * (2.0 * b + h)))
  {
    EdgeSumOfFive(CupCorners(a, b, w, h), JxyTerm);
    JxyCupIdentity(a, b, w, h);
  }

  /** The absolute moments of a w x h cup anchored at (a, b): Jx = w ((b+h)^3 - b^3) / 3,
      Jy = h ((a+w)^3 - a^3) / 3 and Jxy = |w h (2a + w)(2b + h)| / 4. */
  lemma CupAbsoluteMoments(a: real, b: real, w: real, h: real)
    requires w > 0.0 && h > 0.0
    ensures AbsoluteMomentsOf(CupCorners(a, b, w, h))
         == Moments(w * CubeDiff(b, h) / 3.0, h * CubeDiff(a, w) / 3.0,
                    Abs(w * h * ((2.0 * a + w) * (2.0 * b + h))) / 4.0)
  {
    CupJxSum(a, b, w, h);
    CupJySum(a, b, w, h);
    CupJxySum(a, b, w, h);
    CubeDiffNonNegative(b, h);
    CubeDiffNonNegative(a, w);
    MulNonNegative(w, CubeDiff(b, h));
    MulNonNegative(h, CubeDiff(a, w));
  }

  /** An axis-aligned square of side s with its corner at the origin: Jx = Jy = s^4 / 3 and Jxy = s^4 / 4. */
  lemma SquareMomentsAtOrigin(s: real)
    requires s > 0.0
    ensures AbsoluteMomentsOf(CupCorners(0.0, 0.0, s, s))
         == Moments(s * s * s * s / 3.0, s * s * s * s / 3.0, s * s * s * s / 4.0)
  {
    CupAbsoluteMoments(0.0, 0.0, s, s);
    assert CubeDiff(0.0, s) == s * s * s;
    var s4 := s * s * s * s;
    assert s * s * (s * s) == s4;
  }

  /** The descriptor the result display builds for a cup centred in its box, at angle 0. */
  function CupDescriptor(a: real, b: real, w: real, h: real): Polygon
  {
    Polygon(w * h, Point(a + w / 2.0, b + h / 2.0), AbsoluteMomentsOf(CupCorners(a, b, w, h)), Rotation(1.0, 0.0))
  }

  /** Jx shifted to the centre of a cup is w h^3 / 12. */
  lemma CupShiftedJx(a: real, b: real, w: real, h: real, m: Moments)
    requires m.jx == w * CubeDiff(b, h) / 3.0
    ensures ParallelAxisShift(m, w * h, Point(a + w / 2.0, b + h / 2.0)).jx == w * (h * h * h) / 12.0
  {
  }

  /** Jy shifted to the centre of a cup is h w^3 / 12. */
  lemma CupShiftedJy(a: real, b: real, w: real, h: real, m: Moments)
    requires m.jy == h * CubeDiff(a, w) / 3.0
    ensures ParallelAxisShift(m, w * h, Point(a + w / 2.0, b + h / 2.0)).jy == h * (w * w * w) / 12.0
  {
  }

  /** Jxy shifted to the centre of a cup is (|P| - P) / 4 with P = w h (2a + w)(2b + h). */
  lemma CupShiftedJxy(a: real, b: real, w: real, h: real, m: Moments)
    requires m.jxy == Abs(w * h * ((2.0 * a + w) * (2.0 * b + h))) / 4.0
    ensures ParallelAxisShift(m, w * h, Point(a + w / 2.0, b + h / 2.0)).jxy
         == (Abs(w * h * ((2.0 * a + w) * (2.0 * b + h))) - w * h * ((2.0 * a + w) * (2.0 * b + h))) / 4.0
  {
  }

  /** The moments about its centre of a w by h box whose lower left corner is (a, b), as the engine
      computes them: w h^3 / 12, h w^3 / 12 and, for the product, (|P| - P) / 4 with
      P = w h (2a + w)(2b + h). */
  function BoxCentroidalMoments(a: real, b: real, w: real, h: real): Moments
  {
    var p := w * h * ((2.0 * a + w) * (2.0 * b + h));
    Moments(w * (h * h * h) / 12.0, h * (w * w * w) / 12.0, (Abs(p) - p) / 4.0)
  }

  /** Shifted to the centre of the cup, Jx and Jy become the centroidal values w h^3 / 12 and h w^3 / 12
      wherever the cup is; Jxy becomes (|P| - P) / 4 with P = w h (2a + w)(2b + h), which is 0 only
      when the centre (a + w/2, b + h/2) has coordinates of equal sign (or one of them 0). */
  lemma CupCentroidalMoments(a: real, b: real, w: real, h: real)
    requires w > 0.0 && h > 0.0
    ensures BaricentricMoments(CupDescriptor(a, b, w, h)) == BoxCentroidalMoments(a, b, w, h)
  {
    var d := CupDescriptor(a, b, w, h);
    CupAbsoluteMoments(a, b, w, h);
    CupShiftedJx(a, b, w, h, d.absolute);
    CupShiftedJy(a, b, w, h, d.absolute);
    CupShiftedJxy(a, b, w, h, d.absolute);
    BaricentricAtZeroAngle(d);
    assert BaricentricMoments(d) == ParallelAxisShift(d.absolute, d.area, d.barycenter);
  }
}
