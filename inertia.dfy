/**
 * The moment-of-inertia engine (class InertiaAnalysis): area, absolute and
 * barycentric second moments of one polygon, and their aggregation over a
 * collection of polygon descriptors, ending in the principal moments.
 *
 * All quantities are exact reals. The cosine and sine of a polygon's angle are
 * carried in the descriptor, and the square root is a function passed in by the
 * caller; the lemmas that need it require it to be a square root (IsSqrt).
 */
module Inertia {
  import opened Wrappers

  datatype Point = Point(x: real, y: real)

  /** Second moments of area (Jx, Jy, Jxy). */
  datatype Moments = Moments(jx: real, jy: real, jxy: real)

  /** The cosine and the sine of a polygon's orientation angle. */
  datatype Rotation = Rotation(cos: real, sin: real)

  /** A polygon descriptor: its area, its barycenter, its absolute moments and its orientation. */
  datatype Polygon = Polygon(area: real, barycenter: Point, absolute: Moments, angle: Rotation)

  /** A pair of principal moments, the smaller one first. */
  datatype Principal = Principal(i: real, j: real)

  function Abs(r: real): real
  {
    if r < 0.0 then -r else r
  }

  /** The cross term x_p * y_q - x_q * y_p of an edge from p to q. */
  function Cross(p: Point, q: Point): real
  {
    p.x * q.y - q.x * p.y
  }

  // ---------------------------------------------------------------------------
  // Area (shoelace formula)
  // ---------------------------------------------------------------------------

  /** The sum over k < m of f(vs[k], vs[(k + 1) % |vs|]): with f = Cross, the difference of
      the two dot products of the coordinates with the coordinates rolled by one. */
  function RollSum(vs: seq<Point>, m: nat, f: (Point, Point) -> real): real
    requires m <= |vs|
  {
    if m == 0 then 0.0 else RollSum(vs, m - 1, f) + f(vs[m - 1], vs[m % |vs|])
  }

  /** The unsigned shoelace area of a vertex list, wrapping around from the last vertex to the first. */
  function PolygonArea(vs: seq<Point>): (a: real)
    ensures a >= 0.0
  {
    0.5 * Abs(RollSum(vs, |vs|, Cross))
  }

  /** f summed over the consecutive vertex pairs (vs[k], vs[k + 1]), without wrap-around. */
  function EdgeSum(vs: seq<Point>, f: (Point, Point) -> real): real
  {
    if |vs| < 2 then 0.0 else EdgeSum(vs[..|vs| - 1], f) + f(vs[|vs| - 2], vs[|vs| - 1])
  }

  /** Extending a prefix by one vertex adds the term of its new edge. */
  lemma EdgeSumStep(vs: seq<Point>, i: nat, f: (Point, Point) -> real)
    requires i + 1 < |vs|
    ensures EdgeSum(vs[..i + 2], f) == EdgeSum(vs[..i + 1], f) + f(vs[i], vs[i + 1])
  {
    assert vs[..i + 2][..i + 1] == vs[..i + 1];
  }

  lemma ModSmall(m: int, n: int)
    requires 0 <= m < n
    ensures m % n == m
  {
  }

  /** Before the wrap-around, the rolled sum is the sum over the open chain of edges. */
  lemma {:induction false} RollSumIsEdgeSum(vs: seq<Point>, m: nat, f: (Point, Point) -> real)
    requires m < |vs|
    ensures RollSum(vs, m, f) == EdgeSum(vs[..m + 1], f)
  {
    if m > 0 {
      RollSumIsEdgeSum(vs, m - 1, f);
      ModSmall(m, |vs|);
      EdgeSumStep(vs, m - 1, f);
    }
  }

  /** The rolled sum is the open chain of edges plus the closing edge from the last vertex to the first. */
  lemma RollSumSplit(vs: seq<Point>, f: (Point, Point) -> real)
    requires vs != []
    ensures RollSum(vs, |vs|, f) == EdgeSum(vs, f) + f(vs[|vs| - 1], vs[0])
  {
    RollSumIsEdgeSum(vs, |vs| - 1, f);
    assert vs[..|vs|] == vs;
  }

  lemma CrossSelf(p: Point)
    ensures Cross(p, p) == 0.0
  {
  }

  lemma CrossAntisymmetric(p: Point, q: Point)
    ensures Cross(q, p) == -Cross(p, q)
  {
  }

  /** On a closed contour the wrap-around term vanishes: the area is that of its open chain of edges. */
  lemma ClosedContourArea(vs: seq<Point>)
    requires vs != [] && vs[|vs| - 1] == vs[0]
    ensures PolygonArea(vs) == 0.5 * Abs(EdgeSum(vs, Cross))
  {
    RollSumSplit(vs, Cross);
    CrossSelf(vs[0]);
  }

  /** Repeating the first vertex at the end (closing the contour) does not change the area. */
  lemma ClosingVertexKeepsArea(vs: seq<Point>)
    requires vs != []
    ensures PolygonArea(vs + [vs[0]]) == PolygonArea(vs)
  {
    var c := vs + [vs[0]];
    RollSumSplit(c, Cross);
    RollSumSplit(vs, Cross);
    assert c[..|c| - 1] == vs;
    CrossSelf(vs[0]);
  }

  function Reverse(vs: seq<Point>): (r: seq<Point>)
    ensures |r| == |vs|
    ensures forall k :: 0 <= k < |vs| ==> r[k] == vs[|vs| - 1 - k]
  {
    if vs == [] then [] else [vs[|vs| - 1]] + Reverse(vs[..|vs| - 1])
  }

  lemma {:induction false} EdgeSumPrepend(p: Point, vs: seq<Point>, f: (Point, Point) -> real)
    requires vs != []
    ensures EdgeSum([p] + vs, f) == f(p, vs[0]) + EdgeSum(vs, f)
  {
    if |vs| >= 2 {
      var init := vs[..|vs| - 1];
      EdgeSumPrepend(p, init, f);
      assert ([p] + vs)[..|vs|] == [p] + init;
    } else {
      assert ([p] + vs)[..1] == [p];
    }
  }

  /** f changes sign when its two arguments are swapped. */
  ghost predicate Antisymmetric(f: (Point, Point) -> real)
  {
    forall p, q :: f(q, p) == -f(p, q)
  }

  /** Walking the edges backwards negates every term of an antisymmetric edge function. */
  lemma {:induction false} EdgeSumReverse(vs: seq<Point>, f: (Point, Point) -> real)
    requires Antisymmetric(f)
    ensures EdgeSum(Reverse(vs), f) == -EdgeSum(vs, f)
  {
    if |vs| >= 2 {
      var init := vs[..|vs| - 1];
      EdgeSumReverse(init, f);
      EdgeSumPrepend(vs[|vs| - 1], Reverse(init), f);
      assert f(vs[|vs| - 1], vs[|vs| - 2]) == -f(vs[|vs| - 2], vs[|vs| - 1]);
    }
  }

  /** Reversing the winding order negates the signed shoelace sum. */
  lemma ReverseNegatesRollSum(vs: seq<Point>, f: (Point, Point) -> real)
    requires Antisymmetric(f)
    ensures RollSum(Reverse(vs), |vs|, f) == -RollSum(vs, |vs|, f)
  {
    if vs != [] {
      var r, n := Reverse(vs), |vs|;
      RollSumSplit(vs, f);
      RollSumSplit(r, f);
      EdgeSumReverse(vs, f);
      assert r[n - 1] == vs[0] && r[0] == vs[n - 1];
      assert f(r[n - 1], r[0]) == -f(vs[n - 1], vs[0]);
    }
  }

  /** Reversing the winding order leaves the area unchanged. */
  lemma AreaUnderReversal(vs: seq<Point>)
    ensures PolygonArea(Reverse(vs)) == PolygonArea(vs)
  {
    forall p, q ensures Cross(q, p) == -Cross(p, q) {
      CrossAntisymmetric(p, q);
    }
    ReverseNegatesRollSum(vs, Cross);
  }

  // ---------------------------------------------------------------------------
  // Absolute moments of inertia
  // ---------------------------------------------------------------------------

  function JxTerm(p: Point, q: Point): real
  {
    (p.y * p.y + p.y * q.y + q.y * q.y) * Cross(p, q)
  }

  function JyTerm(p: Point, q: Point): real
  {
    (p.x * p.x + p.x * q.x + q.x * q.x) * Cross(p, q)
  }

  function JxyTerm(p: Point, q: Point): real
  {
    (p.x * q.y + 2.0 * p.x * p.y + 2.0 * q.x * q.y + q.x * p.y) * Cross(p, q)
  }

  /** The origin-referenced moments of a closed contour: boundary sums over its
      consecutive vertex pairs, made unsigned and scaled by 1/12, 1/12 and 1/24. */
  function AbsoluteMomentsOf(vs: seq<Point>): (m: Moments)
    ensures m.jx >= 0.0 && m.jy >= 0.0 && m.jxy >= 0.0
  {
    Moments(Abs(EdgeSum(vs, JxTerm)) / 12.0, Abs(EdgeSum(vs, JyTerm)) / 12.0, Abs(EdgeSum(vs, JxyTerm)) / 24.0)
  }

  method ComputeAbsoluteMoments(vs: seq<Point>) returns (m: Moments)
    ensures m == AbsoluteMomentsOf(vs)
  {
    var n := |vs| - 1;
    var jx, jy, jxy := 0.0, 0.0, 0.0;
    var i := 0;
    while i < n
      invariant 0 <= i && (vs != [] ==> i <= n)
      invariant vs != [] ==> jx == EdgeSum(vs[..i + 1], JxTerm)
      invariant vs != [] ==> jy == EdgeSum(vs[..i + 1], JyTerm)
      invariant vs != [] ==> jxy == EdgeSum(vs[..i + 1], JxyTerm)
      invariant vs == [] ==> jx == 0.0 && jy == 0.0 && jxy == 0.0
    {
      var xi, yi := vs[i].x, vs[i].y;
      var xNext, yNext := vs[i + 1].x, vs[i + 1].y;
      var common := xi * yNext - xNext * yi;
      jx := jx + (yi * yi + yi * yNext + yNext * yNext) * common;
      jy := jy + (xi * xi + xi * xNext + xNext * xNext) * common;
      jxy := jxy + (xi * yNext + 2.0 * xi * yi + 2.0 * xNext * yNext + xNext * yi) * common;
      EdgeSumStep(vs, i, JxTerm);
      EdgeSumStep(vs, i, JyTerm);
      EdgeSumStep(vs, i, JxyTerm);
      i := i + 1;
    }
    assert vs != [] ==> vs[..i + 1] == vs;
    m := Moments(Abs(jx) / 12.0, Abs(jy) / 12.0, Abs(jxy) / 24.0);
  }

  // ---------------------------------------------------------------------------
  // Barycentric moments of one polygon
  // ---------------------------------------------------------------------------

  /** Parallel-axis shift of origin-referenced moments to axes through g, for a region of the given area. */
  function ParallelAxisShift(m: Moments, area: real, g: Point): (r: Moments)
    ensures g == Point(0.0, 0.0) ==> r == m
    ensures Trace(r) == Trace(m) - area * (g.x * g.x + g.y * g.y)
  {
    Moments(m.jx - g.y * g.y * area, m.jy - g.x * g.x * area, m.jxy - g.y * g.x * area)
  }

  /** Rotation of the inertia tensor by the angle whose cosine and sine r carries. */
  function Rotate(m: Moments, r: Rotation): (rotated: Moments)
    ensures r == Rotation(1.0, 0.0) ==> rotated == m
  {
    var c, s := r.cos, r.sin;
    Moments(m.jx * c * c + m.jy * s * s - m.jxy * 2.0 * s * c,
            m.jx * s * s + m.jy * c * c + m.jxy * 2.0 * s * c,
            (m.jx - m.jy) * s * c + m.jxy * (c * c - s * s))
  }

  /** The moments about axes through the barycenter, turned by the polygon's angle: at angle 0 they are the
      parallel-axis shift itself, and any proper rotation keeps the shift's trace and determinant. */
  function BaricentricMoments(p: Polygon): (m: Moments)
    ensures p.angle == Rotation(1.0, 0.0) ==> m == ParallelAxisShift(p.absolute, p.area, p.barycenter)
    ensures p.angle.cos * p.angle.cos + p.angle.sin * p.angle.sin == 1.0 ==>
              Trace(m) == Trace(ParallelAxisShift(p.absolute, p.area, p.barycenter))
              && Determinant(m) == Determinant(ParallelAxisShift(p.absolute, p.area, p.barycenter))
  {
    var shifted := ParallelAxisShift(p.absolute, p.area, p.barycenter);
    if p.angle.cos * p.angle.cos + p.angle.sin * p.angle.sin == 1.0 then
      RotationKeepsTrace(shifted, p.angle);
      RotationKeepsDeterminant(shifted, p.angle);
      Rotate(shifted, p.angle)
    else
      Rotate(shifted, p.angle)
  }

  /** With angle 0 the barycentric moments are exactly the parallel-axis shift. */
  lemma BaricentricAtZeroAngle(p: Polygon)
    requires p.angle == Rotation(1.0, 0.0)
    ensures BaricentricMoments(p) == Moments(p.absolute.jx - p.barycenter.y * p.barycenter.y * p.area,
                                             p.absolute.jy - p.barycenter.x * p.barycenter.x * p.area,
                                             p.absolute.jxy - p.barycenter.y * p.barycenter.x * p.area)
  {
  }

  function Trace(m: Moments): real
  {
    m.jx + m.jy
  }

  function Determinant(m: Moments): real
  {
    m.jx * m.jy - m.jxy * m.jxy
  }

  /** (Jx - Jy)^2 + 4 Jxy^2, the quantity under the square root of the principal moments. */
  function Discriminant(m: Moments): (d: real)
    ensures d >= 0.0
  {
    (m.jx - m.jy) * (m.jx - m.jy) + 4.0 * (m.jxy * m.jxy)
  }

  /** A proper rotation keeps the trace of the tensor. */
  lemma RotationKeepsTrace(m: Moments, r: Rotation)
    requires r.cos * r.cos + r.sin * r.sin == 1.0
    ensures Trace(Rotate(m, r)) == Trace(m)
  {
    var c, s := r.cos, r.sin;
    calc {
      Trace(Rotate(m, r));
      m.jx * (c * c + s * s) + m.jy * (s * s + c * c);
      m.jx + m.jy;
    }
  }

  /** A rotation by angle t written in the double angle: mean +/- (half * cos 2t - k * sin 2t) on the diagonal. */
  lemma RotateInDoubleAngle(m: Moments, r: Rotation)
    requires r.cos * r.cos + r.sin * r.sin == 1.0
    ensures var u, v := r.cos * r.cos - r.sin * r.sin, 2.0 * r.sin * r.cos;
            var p := (m.jx - m.jy) / 2.0 * u - m.jxy * v;
            Rotate(m, r) == Moments((m.jx + m.jy) / 2.0 + p, (m.jx + m.jy) / 2.0 - p,
                                    (m.jx - m.jy) / 2.0 * v + m.jxy * u)
  {
    var c, s := r.cos, r.sin;
    var mean, half := (m.jx + m.jy) / 2.0, (m.jx - m.jy) / 2.0;
    assert m.jx * c * c + m.jy * s * s == mean * (c * c + s * s) + half * (c * c - s * s);
    assert m.jx * s * s + m.jy * c * c == mean * (c * c + s * s) - half * (c * c - s * s);
  }

  /** cos^2 2t + sin^2 2t = (cos^2 t + sin^2 t)^2. */
  lemma DoubleAngleUnit(c: real, s: real)
    requires c * c + s * s == 1.0
    ensures (c * c - s * s) * (c * c - s * s) + (2.0 * s * c) * (2.0 * s * c) == 1.0
  {
    assert (c * c - s * s) * (c * c - s * s) + (2.0 * s * c) * (2.0 * s * c) == (c * c + s * s) * (c * c + s * s);
  }

  /** The rotated deviatoric part keeps its magnitude when (u, v) is a unit vector. */
  lemma RotatedNorm(h: real, k: real, u: real, v: real)
    requires u * u + v * v == 1.0
    ensures (h * u - k * v) * (h * u - k * v) + (h * v + k * u) * (h * v + k * u) == h * h + k * k
  {
    assert (h * u - k * v) * (h * u - k * v) + (h * v + k * u) * (h * v + k * u) == (h * h + k * k) * (u * u + v * v);
  }

  /** Determinant and discriminant of a tensor in mean / deviator form. */
  lemma InvariantsOfForm(mean: real, p: real, q: real)
    ensures Determinant(Moments(mean + p, mean - p, q)) == mean * mean - (p * p + q * q)
    ensures Discriminant(Moments(mean + p, mean - p, q)) == 4.0 * (p * p + q * q)
  {
  }

  /** A proper rotation keeps the determinant and the discriminant of the tensor. */
  lemma RotationKeepsDeterminant(m: Moments, r: Rotation)
    requires r.cos * r.cos + r.sin * r.sin == 1.0
    ensures Determinant(Rotate(m, r)) == Determinant(m)
    ensures Discriminant(Rotate(m, r)) == Discriminant(m)
  {
    var u, v := r.cos * r.cos - r.sin * r.sin, 2.0 * r.sin * r.cos;
    var mean, half, k := (m.jx + m.jy) / 2.0, (m.jx - m.jy) / 2.0, m.jxy;
    var p, q := half * u - k * v, half * v + k * u;
    RotateInDoubleAngle(m, r);
    var form := Moments(mean + p, mean - p, q);
    assert Rotate(m, r) == form;
    DoubleAngleUnit(r.cos, r.sin);
    RotatedNorm(half, k, u, v);
    var norm := p * p + q * q;
    assert norm == half * half + k * k;
    InvariantsOfForm(mean, p, q);
    InvariantsOfForm(mean, half, k);
    assert m == Moments(mean + half, mean - half, k);
  }

  // ---------------------------------------------------------------------------
  // Principal moments
  // ---------------------------------------------------------------------------

  /** sqrt returns the non-negative square root of every non-negative real. */
  ghost predicate IsSqrt(sqrt: real -> real)
  {
    forall x :: 0.0 <= x ==> 0.0 <= sqrt(x) && sqrt(x) * sqrt(x) == x
  }

  /** The eigenvalues of the symmetric tensor [[Jx, Jxy], [Jxy, Jy]]: mean minus and plus the radius. */
  function PrincipalMoments(m: Moments, sqrt: real -> real): (pm: Principal)
    ensures pm.i + pm.j == Trace(m)
    ensures IsSqrt(sqrt) ==> pm.i <= pm.j
  {
    var root := sqrt(Discriminant(m));
    Principal((m.jx + m.jy) / 2.0 - 0.5 * root, (m.jx + m.jy) / 2.0 + 0.5 * root)
  }

  /** The product of the principal moments is the determinant of the tensor. */
  lemma PrincipalProduct(m: Moments, sqrt: real -> real)
    requires IsSqrt(sqrt)
    ensures PrincipalMoments(m, sqrt).i * PrincipalMoments(m, sqrt).j == Determinant(m)
  {
    var d := Discriminant(m);
    var root := sqrt(d);
    var mean := (m.jx + m.jy) / 2.0;
    assert root * root == d;
    calc {
      PrincipalMoments(m, sqrt).i * PrincipalMoments(m, sqrt).j;
      (mean - 0.5 * root) * (mean + 0.5 * root);
      mean * mean - 0.25 * (root * root);
      mean * mean - 0.25 * d;
      Determinant(m);
    }
  }

  /** The principal moments coincide exactly when the tensor is isotropic (Jxy = 0 and Jx = Jy). */
  lemma PrincipalEqualIffIsotropic(m: Moments, sqrt: real -> real)
    requires IsSqrt(sqrt)
    ensures PrincipalMoments(m, sqrt).i == PrincipalMoments(m, sqrt).j <==> m.jxy == 0.0 && m.jx == m.jy
  {
    var d := Discriminant(m);
    var root := sqrt(d);
    assert 0.0 <= d;
    assert root >= 0.0 && root * root == d;
    if m.jxy == 0.0 && m.jx == m.jy {
      assert d == 0.0;
      ZeroProduct(root, root);
    }
    if PrincipalMoments(m, sqrt).i == PrincipalMoments(m, sqrt).j {
      assert root == 0.0;
      SumOfSquaresZero(m.jx - m.jy, m.jxy);
    }
  }

  lemma ZeroProduct(a: real, b: real)
    requires a * b == 0.0
    ensures a == 0.0 || b == 0.0
  {
  }

  lemma SquareNonNegative(r: real)
    ensures r * r >= 0.0
  {
  }

  lemma SumOfSquaresZero(e: real, k: real)
    requires e * e + 4.0 * (k * k) == 0.0
    ensures e == 0.0 && k == 0.0
  {
    SquareNonNegative(e);
    SquareNonNegative(k);
    ZeroProduct(e, e);
    ZeroProduct(k, k);
  }

  /** Principal moments do not depend on the orientation of the axes they are computed from. */
  lemma PrincipalRotationInvariant(m: Moments, r: Rotation, sqrt: real -> real)
    requires r.cos * r.cos + r.sin * r.sin == 1.0
    ensures PrincipalMoments(Rotate(m, r), sqrt) == PrincipalMoments(m, sqrt)
  {
    RotationKeepsTrace(m, r);
    RotationKeepsDeterminant(m, r);
  }

  // ---------------------------------------------------------------------------
  // Aggregation over a collection of polygons
  // ---------------------------------------------------------------------------

  /** f summed over the polygons of ps, in order. */
  function Sum(ps: seq<Polygon>, f: Polygon -> real): real
  {
    if ps == [] then 0.0 else Sum(ps[..|ps| - 1], f) + f(ps[|ps| - 1])
  }

  function AreaOf(p: Polygon): real { p.area }
  function WeightedX(p: Polygon): real { p.area * p.barycenter.x }
  function WeightedY(p: Polygon): real { p.area * p.barycenter.y }
  function JxOf(p: Polygon): real { p.absolute.jx }
  function JyOf(p: Polygon): real { p.absolute.jy }
  function JxyOf(p: Polygon): real { p.absolute.jxy }

  function TotalArea(ps: seq<Polygon>): real
  {
    Sum(ps, AreaOf)
  }

  lemma {:induction false} SumAppend(a: seq<Polygon>, b: seq<Polygon>, f: Polygon -> real)
    ensures Sum(a + b, f) == Sum(a, f) + Sum(b, f)
  {
    if b == [] {
      assert a + b == a;
    } else {
      SumAppend(a, b[..|b| - 1], f);
      assert (a + b)[..|a + b| - 1] == a + b[..|b| - 1];
    }
  }

  lemma SumSingleton(x: Polygon, f: Polygon -> real)
    ensures Sum([x], f) == f(x)
  {
    assert [x][..0] == [];
  }

  /** Taking the polygon at index k out of a collection takes its term out of the sum. */
  lemma {:induction false} SumRemoveAt(b: seq<Polygon>, k: nat, f: Polygon -> real)
    requires k < |b|
    ensures Sum(b, f) == Sum(b[..k] + b[k + 1..], f) + f(b[k])
  {
    var front, x, back := b[..k], b[k], b[k + 1..];
    assert b == (front + [x]) + back;
    SumAppend(front, [x], f);
    SumAppend(front + [x], back, f);
    SumAppend(front, back, f);
    SumSingleton(x, f);
  }

  /** Removing the element at index k removes one occurrence of it from the multiset. */
  lemma MultisetRemoveAt(b: seq<Polygon>, k: nat)
    requires k < |b|
    ensures multiset(b[..k] + b[k + 1..]) == multiset(b) - multiset{b[k]}
  {
    assert b == b[..k] + [b[k]] + b[k + 1..];
    assert multiset(b) == multiset(b[..k]) + multiset{b[k]} + multiset(b[k + 1..]);
  }

  /** Sums over a collection do not depend on the order of its polygons. */
  lemma {:induction false} SumPermutation(a: seq<Polygon>, b: seq<Polygon>, f: Polygon -> real)
    requires multiset(a) == multiset(b)
    ensures Sum(a, f) == Sum(b, f)
  {
    if a != [] {
      var n := |a| - 1;
      assert a[n] in multiset(b) by {
        assert a[n] in multiset(a);
      }
      var k :| 0 <= k < |b| && b[k] == a[n];
      MultisetRemoveAt(a, n);
      MultisetRemoveAt(b, k);
      assert a[..n] + a[n + 1..] == a[..n];
      SumPermutation(a[..n], b[..k] + b[k + 1..], f);
      SumRemoveAt(b, k, f);
    }
  }

  /** The area-weighted mean of the barycenters; a zero total area is a division by zero. */
  function OverallCenterOfGravity(ps: seq<Polygon>): (r: Result<Point>)
    ensures r.Err? <==> TotalArea(ps) == 0.0
    ensures r.Err? ==> r.error == ZeroDivision
    ensures r.Ok? ==> r.value.x * TotalArea(ps) == Sum(ps, WeightedX)
    ensures r.Ok? ==> r.value.y * TotalArea(ps) == Sum(ps, WeightedY)
  {
    var a := TotalArea(ps);
    if a == 0.0 then Err(ZeroDivision) else Ok(Point(Sum(ps, WeightedX) / a, Sum(ps, WeightedY) / a))
  }

  method ComputeOverallCenterOfGravity(ps: seq<Polygon>) returns (r: Result<Point>)
    ensures r == OverallCenterOfGravity(ps)
  {
    var totalArea, weightedCxSum, weightedCySum := 0.0, 0.0, 0.0;
    for k := 0 to |ps|
      invariant totalArea == TotalArea(ps[..k])
      invariant weightedCxSum == Sum(ps[..k], WeightedX)
      invariant weightedCySum == Sum(ps[..k], WeightedY)
    {
      var area := ps[k].area;
      totalArea := totalArea + area;
      weightedCxSum := weightedCxSum + area * ps[k].barycenter.x;
      weightedCySum := weightedCySum + area * ps[k].barycenter.y;
      assert ps[..k + 1][..k] == ps[..k];
    }
    assert ps[..|ps|] == ps;
    if totalArea == 0.0 {
      return Err(ZeroDivision);
    }
    r := Ok(Point(weightedCxSum / totalArea, weightedCySum / totalArea));
  }

  lemma MulMonotone(a: real, u: real, v: real)
    requires a >= 0.0 && u <= v
    ensures a * u <= a * v
  {
    assert a * v - a * u == a * (v - u);
  }

  function BarycenterX(p: Polygon): real { p.barycenter.x }
  function BarycenterY(p: Polygon): real { p.barycenter.y }

  /** With non-negative areas, a sum of area times a coordinate lies between lo and hi times the total area
      when every polygon's coordinate does. */
  lemma {:induction false} WeightedSumBounds(ps: seq<Polygon>, weighted: Polygon -> real, coord: Polygon -> real,
                                             lo: real, hi: real)
    requires forall p :: weighted(p) == p.area * coord(p)
    requires forall k :: 0 <= k < |ps| ==> ps[k].area >= 0.0 && lo <= coord(ps[k]) <= hi
    ensures TotalArea(ps) >= 0.0
    ensures lo * TotalArea(ps) <= Sum(ps, weighted) <= hi * TotalArea(ps)
  {
    if ps != [] {
      var init, p := ps[..|ps| - 1], ps[|ps| - 1];
      WeightedSumBounds(init, weighted, coord, lo, hi);
      var a0, w0, a, x := TotalArea(init), Sum(init, weighted), p.area, coord(p);
      assert a >= 0.0 && lo <= x <= hi;
      assert TotalArea(ps) == a0 + a;
      assert Sum(ps, weighted) == w0 + a * x;
      MulMonotone(a, lo, x);
      MulMonotone(a, x, hi);
      assert lo * (a0 + a) == lo * a0 + a * lo;
      assert hi * (a0 + a) == hi * a0 + a * hi;
      assert lo * TotalArea(ps) <= Sum(ps, weighted) <= hi * TotalArea(ps);
    }
  }

  /** With non-negative areas the overall center of gravity lies in every box holding all the barycenters. */
  lemma CenterOfGravityWithinBounds(ps: seq<Polygon>, lo: Point, hi: Point)
    requires forall k :: 0 <= k < |ps| ==> ps[k].area >= 0.0
    requires forall k :: 0 <= k < |ps| ==> lo.x <= ps[k].barycenter.x <= hi.x && lo.y <= ps[k].barycenter.y <= hi.y
    requires OverallCenterOfGravity(ps).Ok?
    ensures lo.x <= OverallCenterOfGravity(ps).value.x <= hi.x
    ensures lo.y <= OverallCenterOfGravity(ps).value.y <= hi.y
  {
    var a := TotalArea(ps);
    var wx, wy := Sum(ps, WeightedX), Sum(ps, WeightedY);
    assert OverallCenterOfGravity(ps).value == Point(wx / a, wy / a);
    WeightedSumBounds(ps, WeightedX, BarycenterX, lo.x, hi.x);
    MeanBounds(a, wx, lo.x, hi.x);
    WeightedSumBounds(ps, WeightedY, BarycenterY, lo.y, hi.y);
    MeanBounds(a, wy, lo.y, hi.y);
  }

  /** A total w between lo * a and hi * a, spread over a positive a, has its mean between lo and hi. */
  lemma MeanBounds(a: real, w: real, lo: real, hi: real)
    requires a > 0.0 && lo * a <= w <= hi * a
    ensures lo <= w / a <= hi
  {
  }

  lemma {:induction false} WeightedSumOfCoincident(ps: seq<Polygon>, c: Point)
    requires forall k :: 0 <= k < |ps| ==> ps[k].barycenter == c
    ensures Sum(ps, WeightedX) == c.x * TotalArea(ps)
    ensures Sum(ps, WeightedY) == c.y * TotalArea(ps)
  {
    if ps != [] {
      var init, p := ps[..|ps| - 1], ps[|ps| - 1];
      WeightedSumOfCoincident(init, c);
      var a0, a := TotalArea(init), p.area;
      assert p.barycenter == c;
      assert TotalArea(ps) == a0 + a;
      assert Sum(ps, WeightedX) == Sum(init, WeightedX) + a * c.x;
      assert Sum(ps, WeightedY) == Sum(init, WeightedY) + a * c.y;
      assert c.x * (a0 + a) == c.x * a0 + a * c.x;
      assert c.y * (a0 + a) == c.y * a0 + a * c.y;
    }
  }

  /** When all barycenters coincide, the overall center of gravity is that common point. */
  lemma CenterOfGravityOfCoincident(ps: seq<Polygon>, c: Point)
    requires forall k :: 0 <= k < |ps| ==> ps[k].barycenter == c
    requires TotalArea(ps) != 0.0
    ensures OverallCenterOfGravity(ps) == Ok(c)
  {
    WeightedSumOfCoincident(ps, c);
    var a := TotalArea(ps);
    var wx, wy := Sum(ps, WeightedX), Sum(ps, WeightedY);
    assert OverallCenterOfGravity(ps) == Ok(Point(wx / a, wy / a));
    assert wx / a == c.x by {
      assert wx == c.x * a;
    }
    assert wy / a == c.y by {
      assert wy == c.y * a;
    }
  }

  /** The overall center of gravity does not depend on the order of the polygons. */
  lemma CenterOfGravityOrderIndependent(a: seq<Polygon>, b: seq<Polygon>)
    requires multiset(a) == multiset(b)
    ensures OverallCenterOfGravity(a) == OverallCenterOfGravity(b)
  {
    SumPermutation(a, b, AreaOf);
    SumPermutation(a, b, WeightedX);
    SumPermutation(a, b, WeightedY);
  }

  /** Component-wise sums of the absolute moments of all polygons. */
  function CombinedAbsoluteMoments(ps: seq<Polygon>): (m: Moments)
    ensures ps == [] ==> m == Moments(0.0, 0.0, 0.0)
  {
    Moments(Sum(ps, JxOf), Sum(ps, JyOf), Sum(ps, JxyOf))
  }

  method ComputeCombinedAbsoluteMoments(ps: seq<Polygon>) returns (m: Moments)
    ensures m == CombinedAbsoluteMoments(ps)
  {
    var jxTotal, jyTotal, jxyTotal := 0.0, 0.0, 0.0;
    for k := 0 to |ps|
      invariant jxTotal == Sum(ps[..k], JxOf)
      invariant jyTotal == Sum(ps[..k], JyOf)
      invariant jxyTotal == Sum(ps[..k], JxyOf)
    {
      var poly := ps[k].absolute;
      jxTotal := jxTotal + poly.jx;
      jyTotal := jyTotal + poly.jy;
      jxyTotal := jxyTotal + poly.jxy;
      assert ps[..k + 1][..k] == ps[..k];
    }
    assert ps[..|ps|] == ps;
    m := Moments(jxTotal, jyTotal, jxyTotal);
  }

  /** Combining two collections adds their combined moments. */
  lemma CombinedAbsoluteMomentsAdditive(a: seq<Polygon>, b: seq<Polygon>)
    ensures CombinedAbsoluteMoments(a + b).jx == CombinedAbsoluteMoments(a).jx + CombinedAbsoluteMoments(b).jx
    ensures CombinedAbsoluteMoments(a + b).jy == CombinedAbsoluteMoments(a).jy + CombinedAbsoluteMoments(b).jy
    ensures CombinedAbsoluteMoments(a + b).jxy == CombinedAbsoluteMoments(a).jxy + CombinedAbsoluteMoments(b).jxy
  {
    SumAppend(a, b, JxOf);
    SumAppend(a, b, JyOf);
    SumAppend(a, b, JxyOf);
  }

  /** The combined absolute moments do not depend on the order of the polygons. */
  lemma CombinedAbsoluteMomentsOrderIndependent(a: seq<Polygon>, b: seq<Polygon>)
    requires multiset(a) == multiset(b)
    ensures CombinedAbsoluteMoments(a) == CombinedAbsoluteMoments(b)
  {
    SumPermutation(a, b, JxOf);
    SumPermutation(a, b, JyOf);
    SumPermutation(a, b, JxyOf);
  }

  /** The combined moments shifted once, at the aggregate level, to the global barycenter g. */
  function CombinedBaricentricMoments(ps: seq<Polygon>, g: Point): Moments
  {
    ParallelAxisShift(CombinedAbsoluteMoments(ps), TotalArea(ps), g)
  }

  method ComputeCombinedBaricentricMoments(ps: seq<Polygon>, xG: real, yG: real, sqrt: real -> real)
    returns (pm: Principal)
    ensures pm == PrincipalMoments(CombinedBaricentricMoments(ps, Point(xG, yG)), sqrt)
    ensures pm.i + pm.j == Trace(CombinedBaricentricMoments(ps, Point(xG, yG)))
    ensures IsSqrt(sqrt) ==> pm.i <= pm.j
    ensures IsSqrt(sqrt) ==> pm.i * pm.j == Determinant(CombinedBaricentricMoments(ps, Point(xG, yG)))
  {
    var jxTotal, jyTotal, jxyTotal := 0.0, 0.0, 0.0;
    var areaTotal := 0.0;
    for k := 0 to |ps|
      invariant jxTotal == Sum(ps[..k], JxOf)
      invariant jyTotal == Sum(ps[..k], JyOf)
      invariant jxyTotal == Sum(ps[..k], JxyOf)
      invariant areaTotal == TotalArea(ps[..k])
    {
      var poly := ps[k].absolute;
      areaTotal := areaTotal + ps[k].area;
      jxTotal := jxTotal + poly.jx;
      jyTotal := jyTotal + poly.jy;
      jxyTotal := jxyTotal + poly.jxy;
      assert ps[..k + 1][..k] == ps[..k];
    }
    assert ps[..|ps|] == ps;
    assert CombinedAbsoluteMoments(ps) == Moments(jxTotal, jyTotal, jxyTotal);
    var shifted := ParallelAxisShift(Moments(jxTotal, jyTotal, jxyTotal), areaTotal, Point(xG, yG));
    var jx, jy, jxy := shifted.jx, shifted.jy, shifted.jxy;
    var disc := (jx - jy) * (jx - jy) + 4.0 * (jxy * jxy);
    assert disc == Discriminant(shifted);
    var root := sqrt(disc);
    pm := Principal((jx + jy) / 2.0 - 0.5 * root, (jx + jy) / 2.0 + 0.5 * root);
    if IsSqrt(sqrt) {
      PrincipalProduct(shifted, sqrt);
    }
  }
}
