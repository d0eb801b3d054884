/** The geometry kernel shared by the tank footprint tests and the shell hit-box
    test: small vectors, the dot product, the point-in-rectangle test and the
    barycentric point-in-triangle test. */
module Geometry {
  import opened MathLib

  datatype Vec2 = Vec2(x: real, y: real)
  datatype Vec3 = Vec3(x: real, y: real, z: real)

  /** A plane N.p + w == 0 given as (N.x, N.y, N.z, w), like XNA's Vector4. */
  datatype Vec4 = Vec4(x: real, y: real, z: real, w: real)

  /** Vector3.Zero */
  const ZERO: Vec3 := Vec3(0.0, 0.0, 0.0)

  function Sub(a: Vec2, b: Vec2): Vec2 { Vec2(a.x - b.x, a.y - b.y) }

  function Sub3(a: Vec3, b: Vec3): Vec3 { Vec3(a.x - b.x, a.y - b.y, a.z - b.z) }

  /** Vector3.Distance, through the injected square root. */
  function Distance(a: Vec3, b: Vec3, m: Math): real {
    var d := Sub3(a, b);
    m.sqrt(d.x * d.x + d.y * d.y + d.z * d.z)
  }

  /** `dot` of Tank.cs */
  function Dot(a: Vec2, b: Vec2): real { a.x * b.x + a.y * b.y }

  /** The z component of the cross product of two plane vectors. */
  function Cross(a: Vec2, b: Vec2): real { a.x * b.y - a.y * b.x }

  /** The point a + s*u + t*w. */
  function Combine(a: Vec2, u: Vec2, w: Vec2, s: real, t: real): Vec2 {
    Vec2(a.x + s * u.x + t * w.x, a.y + s * u.y + t * w.y)
  }

  /** `InsideRectangle` of Tank.cs and Shell.cs: is `point` in the closed
      rectangle of half-extents `box` centred on the origin? */
  predicate InsideRectangle(point: Vec2, box: Vec2) {
    point.x >= -box.x && point.x <= box.x && point.y >= -box.y && point.y <= box.y
  }

  /** The same rectangle test, stated with absolute values. */
  lemma InsideRectangleAbs(point: Vec2, box: Vec2)
    ensures InsideRectangle(point, box) <==>
            (if point.x < 0.0 then -point.x else point.x) <= box.x &&
            (if point.y < 0.0 then -point.y else point.y) <= box.y
  {
  }

  // ---------------------------------------------------------------------------
  // Barycentric point-in-triangle test

  /** dot00*dot11 - dot01*dot01 for the edges C-A and B-A: the value whose
      reciprocal the source computes as `det`.  It is zero exactly for the
      degenerate (zero-area) triangles. */
  function Gram(a: Vec2, b: Vec2, c: Vec2): real {
    var v0 := Sub(c, a);
    var v1 := Sub(b, a);
    Dot(v0, v0) * Dot(v1, v1) - Dot(v0, v1) * Dot(v0, v1)
  }

  /** The numerator of u: dot11*dot02 - dot01*dot12. */
  function NumU(a: Vec2, b: Vec2, c: Vec2, p: Vec2): real {
    var v0, v1, v2 := Sub(c, a), Sub(b, a), Sub(p, a);
    Dot(v1, v1) * Dot(v0, v2) - Dot(v0, v1) * Dot(v1, v2)
  }

  /** The numerator of v: dot00*dot12 - dot01*dot02. */
  function NumV(a: Vec2, b: Vec2, c: Vec2, p: Vec2): real {
    var v0, v1, v2 := Sub(c, a), Sub(b, a), Sub(p, a);
    Dot(v0, v0) * Dot(v1, v2) - Dot(v0, v1) * Dot(v0, v2)
  }

  /** The barycentric coordinates (u, v) of p: the weights of C-A and B-A. */
  function Barycentric(a: Vec2, b: Vec2, c: Vec2, p: Vec2): (real, real)
    requires Gram(a, b, c) != 0.0
  {
    (NumU(a, b, c, p) / Gram(a, b, c), NumV(a, b, c, p) / Gram(a, b, c))
  }

  /** `InsideTriangle` of Tank.cs: u >= 0, v >= 0 and u + v < 1.  For a
      degenerate triangle the source's `1 / 0` yields an infinity, every
      product with it is infinite or NaN, and the three comparisons cannot all
      hold; the model states that outcome directly as `false`. */
  predicate InsideTriangle(a: Vec2, b: Vec2, c: Vec2, p: Vec2) {
    Gram(a, b, c) != 0.0 &&
    var (u, v) := Barycentric(a, b, c, p);
    u >= 0.0 && v >= 0.0 && u + v < 1.0
  }

  lemma LagrangeIdentity(u: Vec2, w: Vec2)
    ensures Dot(u, u) * Dot(w, w) - Dot(u, w) * Dot(u, w) == Cross(u, w) * Cross(u, w)
  {
  }

  /** The identity behind both barycentric numerators (Binet-Cauchy). */
  lemma BinetCauchy(a: Vec2, b: Vec2, c: Vec2, d: Vec2)
    ensures Dot(a, c) * Dot(b, d) - Dot(a, d) * Dot(b, c) == Cross(a, b) * Cross(c, d)
  {
  }

  lemma CancelFactor(x: real, y: real, k: real)
    requires k != 0.0 && x * k == y * k
    ensures x == y
  {
    assert (x - y) * k == 0.0;
  }

  /** The Gram value is the square of the cross product of the edges, so a
      triangle the test treats as non-degenerate has non-parallel edges. */
  lemma GramIsCrossSquared(a: Vec2, b: Vec2, c: Vec2)
    ensures Gram(a, b, c) == Cross(Sub(c, a), Sub(b, a)) * Cross(Sub(c, a), Sub(b, a))
    ensures Gram(a, b, c) != 0.0 ==> Cross(Sub(c, a), Sub(b, a)) != 0.0
  {
    LagrangeIdentity(Sub(c, a), Sub(b, a));
  }

  /** From q == n / g, g == k*k and n == k*c it follows that q*k == c. */
  lemma DivideSquare(q: real, n: real, g: real, k: real, c: real)
    requires g != 0.0 && g == k * k && q == n / g && n == k * c
    ensures q * k == c
  {
    assert q * g == n;
    assert (q * k) * k == c * k;
    CancelFactor(q * k, c, k);
  }

  /** Both numerators factor through the cross product of the edges. */
  lemma NumeratorsFactor(a: Vec2, b: Vec2, c: Vec2, p: Vec2)
    ensures NumU(a, b, c, p) == Cross(Sub(c, a), Sub(b, a)) * Cross(Sub(p, a), Sub(b, a))
    ensures NumV(a, b, c, p) == Cross(Sub(c, a), Sub(b, a)) * Cross(Sub(c, a), Sub(p, a))
  {
    var v0, v1, v2 := Sub(c, a), Sub(b, a), Sub(p, a);
    BinetCauchy(v1, v0, v1, v2);
    BinetCauchy(v0, v1, v0, v2);
  }

  /** Barycentric coordinates are Cramer's rule for p - a = u*(c-a) + v*(b-a). */
  lemma {:induction false} BarycentricIsCramer(a: Vec2, b: Vec2, c: Vec2, p: Vec2)
    requires Gram(a, b, c) != 0.0
    ensures var k := Cross(Sub(c, a), Sub(b, a));
            var (u, v) := Barycentric(a, b, c, p);
            k != 0.0 &&
            u * k == Cross(Sub(p, a), Sub(b, a)) &&
            v * k == Cross(Sub(c, a), Sub(p, a))
  {
    var k := Cross(Sub(c, a), Sub(b, a));
    var g := Gram(a, b, c);
    GramIsCrossSquared(a, b, c);
    NumeratorsFactor(a, b, c, p);
    DivideSquare(NumU(a, b, c, p) / g, NumU(a, b, c, p), g, k, Cross(Sub(p, a), Sub(b, a)));
    DivideSquare(NumV(a, b, c, p) / g, NumV(a, b, c, p), g, k, Cross(Sub(c, a), Sub(p, a)));
  }

  lemma CrossOfCombination(u: Vec2, w: Vec2, s: real, t: real)
    ensures Cross(Vec2(s * u.x + t * w.x, s * u.y + t * w.y), w) == s * Cross(u, w)
    ensures Cross(u, Vec2(s * u.x + t * w.x, s * u.y + t * w.y)) == t * Cross(u, w)
  {
  }

  /** A point given by weights (s, t) on the edges C-A and B-A has exactly those
      barycentric coordinates. */
  lemma {:induction false} BarycentricOfCombination(a: Vec2, b: Vec2, c: Vec2, s: real, t: real)
    requires Gram(a, b, c) != 0.0
    ensures Barycentric(a, b, c, Combine(a, Sub(c, a), Sub(b, a), s, t)) == (s, t)
  {
    var v0, v1 := Sub(c, a), Sub(b, a);
    var p := Combine(a, v0, v1, s, t);
    var k := Cross(v0, v1);
    BarycentricIsCramer(a, b, c, p);
    var (u, v) := Barycentric(a, b, c, p);
    assert Sub(p, a) == Vec2(s * v0.x + t * v1.x, s * v0.y + t * v1.y);
    CrossOfCombination(v0, v1, s, t);
    CancelThrough(u, s, k, Cross(Sub(p, a), v1));
    CancelThrough(v, t, k, Cross(v0, Sub(p, a)));
  }

  lemma CancelThrough(x: real, y: real, k: real, n: real)
    requires k != 0.0 && x * k == n && n == y * k
    ensures x == y
  {
    CancelFactor(x, y, k);
  }

  /** Every point of the plane is a + u*(c-a) + v*(b-a) for its barycentric
      coordinates (u, v), when the triangle is not degenerate. */
  lemma {:induction false} BarycentricReconstructs(a: Vec2, b: Vec2, c: Vec2, p: Vec2)
    requires Gram(a, b, c) != 0.0
    ensures var (u, v) := Barycentric(a, b, c, p);
            p == Combine(a, Sub(c, a), Sub(b, a), u, v)
  {
    var v0, v1, v2 := Sub(c, a), Sub(b, a), Sub(p, a);
    var k := Cross(v0, v1);
    BarycentricIsCramer(a, b, c, p);
    var (u, v) := Barycentric(a, b, c, p);
    ReconstructScalar(Cross(v2, v1), Cross(v0, v2), v0, v1, v2);
    ReconstructStep(u, v, k, Cross(v2, v1), Cross(v0, v2), v0.x, v1.x, v2.x);
    ReconstructStep(u, v, k, Cross(v2, v1), Cross(v0, v2), v0.y, v1.y, v2.y);
  }

  lemma ReconstructScalar(uk: real, vk: real, v0: Vec2, v1: Vec2, v2: Vec2)
    requires uk == Cross(v2, v1) && vk == Cross(v0, v2)
    ensures uk * v0.x + vk * v1.x == v2.x * Cross(v0, v1)
    ensures uk * v0.y + vk * v1.y == v2.y * Cross(v0, v1)
  {
  }

  lemma MulSubst(a: real, b: real, c: real)
    requires a == b
    ensures a * c == b * c
  {
  }

  /** Solving u*k == uk, v*k == vk for one coordinate of the reconstruction. */
  lemma ReconstructStep(u: real, v: real, k: real, uk: real, vk: real, x0: real, x1: real, x2: real)
    requires k != 0.0 && u * k == uk && v * k == vk && uk * x0 + vk * x1 == x2 * k
    ensures u * x0 + v * x1 == x2
  {
    MulSubst(u * k, uk, x0);
    MulSubst(v * k, vk, x1);
    assert (u * x0 + v * x1) * k == (u * k) * x0 + (v * k) * x1;
    CancelFactor(u * x0 + v * x1, x2, k);
  }

  /** The test is exactly membership in the half-open triangle: a point with
      weights (s, t) is inside iff s >= 0, t >= 0 and s + t < 1. */
  lemma {:induction false} InsideTriangleWeights(a: Vec2, b: Vec2, c: Vec2, s: real, t: real)
    requires Gram(a, b, c) != 0.0
    ensures InsideTriangle(a, b, c, Combine(a, Sub(c, a), Sub(b, a), s, t)) <==>
            s >= 0.0 && t >= 0.0 && s + t < 1.0
  {
    BarycentricOfCombination(a, b, c, s, t);
  }

  /** Vertex A counts as inside; vertices B and C and every point of the edge BC
      do not. */
  lemma {:induction false} InsideTriangleBoundary(a: Vec2, b: Vec2, c: Vec2, s: real)
    requires Gram(a, b, c) != 0.0
    ensures InsideTriangle(a, b, c, a)
    ensures !InsideTriangle(a, b, c, b) && !InsideTriangle(a, b, c, c)
    ensures !InsideTriangle(a, b, c, Vec2(b.x + s * (c.x - b.x), b.y + s * (c.y - b.y)))
  {
    var v0, v1 := Sub(c, a), Sub(b, a);
    InsideTriangleWeights(a, b, c, 0.0, 0.0);
    assert Combine(a, v0, v1, 0.0, 0.0) == a;
    InsideTriangleWeights(a, b, c, 0.0, 1.0);
    assert Combine(a, v0, v1, 0.0, 1.0) == b;
    InsideTriangleWeights(a, b, c, 1.0, 0.0);
    assert Combine(a, v0, v1, 1.0, 0.0) == c;
    InsideTriangleWeights(a, b, c, s, 1.0 - s);
    assert Combine(a, v0, v1, s, 1.0 - s) == Vec2(b.x + s * (c.x - b.x), b.y + s * (c.y - b.y));
  }

  /** A degenerate triangle contains no point. */
  lemma DegenerateTriangleIsEmpty(a: Vec2, b: Vec2, p: Vec2, s: real)
    ensures !InsideTriangle(a, b, Vec2(a.x + s * (b.x - a.x), a.y + s * (b.y - a.y)), p)
  {
    var c := Vec2(a.x + s * (b.x - a.x), a.y + s * (b.y - a.y));
    GramIsCrossSquared(a, b, c);
    assert Cross(Sub(c, a), Sub(b, a)) == 0.0;
  }

  function Min3(a: real, b: real, c: real): real {
    if a <= b && a <= c then a else if b <= c then b else c
  }

  function Max3(a: real, b: real, c: real): real {
    if a >= b && a >= c then a else if b >= c then b else c
  }

  /** A point the test accepts lies in the bounding box of the three vertices. */
  lemma {:induction false} InsideTriangleBounded(a: Vec2, b: Vec2, c: Vec2, p: Vec2)
    requires InsideTriangle(a, b, c, p)
    ensures Min3(a.x, b.x, c.x) <= p.x <= Max3(a.x, b.x, c.x)
    ensures Min3(a.y, b.y, c.y) <= p.y <= Max3(a.y, b.y, c.y)
  {
    BarycentricReconstructs(a, b, c, p);
    var (u, v) := Barycentric(a, b, c, p);
    CoordinateBounded(p.x, a.x, b.x, c.x, u, v);
    CoordinateBounded(p.y, a.y, b.y, c.y, u, v);
  }

  lemma CoordinateBounded(px: real, ax: real, bx: real, cx: real, u: real, v: real)
    requires u >= 0.0 && v >= 0.0 && u + v < 1.0
    requires px == ax + u * (cx - ax) + v * (bx - ax)
    ensures Min3(ax, bx, cx) <= px <= Max3(ax, bx, cx)
  {
    var w := 1.0 - u - v;
    assert px == w * ax + v * bx + u * cx;
    ConvexBounds(ax, bx, cx, w, v, u);
  }

  lemma ScaleMono(w: real, x: real, y: real)
    requires w >= 0.0 && x <= y
    ensures w * x <= w * y
  {
    assert w * (y - x) >= 0.0;
  }

  lemma MulOne(s: real, x: real)
    requires s == 1.0
    ensures s * x == x
  {
  }

  lemma Sum3(p1: real, p2: real, p3: real, q1: real, q2: real, q3: real)
    requires p1 <= q1 && p2 <= q2 && p3 <= q3
    ensures p1 + p2 + p3 <= q1 + q2 + q3
  {
  }

  lemma ConvexLo(x: real, y: real, z: real, wx: real, wy: real, wz: real, lo: real)
    requires wx >= 0.0 && wy >= 0.0 && wz >= 0.0 && wx + wy + wz == 1.0
    requires lo <= x && lo <= y && lo <= z
    ensures lo <= wx * x + wy * y + wz * z
  {
    ScaleMono(wx, lo, x); ScaleMono(wy, lo, y); ScaleMono(wz, lo, z);
    Sum3(wx * lo, wy * lo, wz * lo, wx * x, wy * y, wz * z);
    assert wx * lo + wy * lo + wz * lo == (wx + wy + wz) * lo;
    MulOne(wx + wy + wz, lo);
  }

  lemma ConvexHi(x: real, y: real, z: real, wx: real, wy: real, wz: real, hi: real)
    requires wx >= 0.0 && wy >= 0.0 && wz >= 0.0 && wx + wy + wz == 1.0
    requires x <= hi && y <= hi && z <= hi
    ensures wx * x + wy * y + wz * z <= hi
  {
    ScaleMono(wx, x, hi); ScaleMono(wy, y, hi); ScaleMono(wz, z, hi);
    Sum3(wx * x, wy * y, wz * z, wx * hi, wy * hi, wz * hi);
    assert wx * hi + wy * hi + wz * hi == (wx + wy + wz) * hi;
    MulOne(wx + wy + wz, hi);
  }

  /** A convex combination of three numbers lies between their minimum and maximum. */
  lemma ConvexBounds(x: real, y: real, z: real, wx: real, wy: real, wz: real)
    requires wx >= 0.0 && wy >= 0.0 && wz >= 0.0 && wx + wy + wz == 1.0
    ensures Min3(x, y, z) <= wx * x + wy * y + wz * z <= Max3(x, y, z)
  {
    ConvexLo(x, y, z, wx, wy, wz, Min3(x, y, z));
    ConvexHi(x, y, z, wx, wy, wz, Max3(x, y, z));
  }
}
