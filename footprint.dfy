/** The tank's footprint tests: the rotated corners of a tank, the border test,
    the corner/triangle overlap test against an axis-aligned rectangle, and the
    tank-building and tank-tank checks built from them.  Tanks never leave the
    ground, so all of this is planar: a tank at `location` occupies the
    rectangle of half-extents (size.x, size.z) around (location.x, location.z),
    turned by its heading. */
module Footprint {
  import opened MathLib
  import opened Geometry

  /** The tank's half-extents, set in LoadContent. */
  const TANK_SIZE: Vec3 := Vec3(310.0, 350.0, 340.0)

  /** The half-extents of every building. */
  const BUILDING_SIZE: Vec3 := Vec3(450.0, 900.0, 450.0)

  /** TankGame.worldsize: the tests compare against it in full. */
  const WORLD_SIZE: Vec2 := Vec2(100000.0, 100000.0)

  /** Broad-phase radii of the two collision checks. */
  const BUILDING_REACH: real := 1300.0
  const TANK_REACH: real := 921.0

  /** A building is only a location; its size is the shared constant. */
  datatype Building = Building(location: Vec3)

  datatype Corners = Corners(topLeft: Vec2, topRight: Vec2, botLeft: Vec2, botRight: Vec2)

  /** The corners of a box of half-extents (size.x, size.z) centred at `loc`
      and turned by the angle whose cosine is `c` and whose sine is `s`, in the
      order and with the signs the source uses. */
  function CornersOf(loc: Vec2, size: Vec3, c: real, s: real): Corners {
    Corners(
      Vec2(loc.x + size.x * c + size.z * s, loc.y + size.z * c - size.x * s),
      Vec2(loc.x - size.x * c + size.z * s, loc.y + size.z * c + size.x * s),
      Vec2(loc.x + size.x * c - size.z * s, loc.y - size.z * c - size.x * s),
      Vec2(loc.x - size.x * c - size.z * s, loc.y - size.z * c + size.x * s))
  }

  /** The eight comparisons of CheckBorder, as written: the fourth y test
      repeats topLeft and botRight.y is never looked at. */
  predicate BorderHit(k: Corners, world: Vec2) {
    Abs(k.topLeft.x) >= world.x ||
    Abs(k.topRight.x) >= world.x ||
    Abs(k.botLeft.x) >= world.x ||
    Abs(k.botRight.x) >= world.x ||
    Abs(k.topLeft.y) >= world.y ||
    Abs(k.topRight.y) >= world.y ||
    Abs(k.botLeft.y) >= world.y ||
    Abs(k.topLeft.y) >= world.y
  }

  /** CheckBorder for a tank at `loc` with heading `rot`.  The footprint is
      placed at (loc.x, loc.y): the height, not the z coordinate, as written. */
  predicate OutOfBounds(loc: Vec3, rot: real, m: Math) {
    BorderHit(CornersOf(Vec2(loc.x, loc.y), TANK_SIZE, m.cos(rot), m.sin(rot)), WORLD_SIZE)
  }

  /** Some corner of the footprint lies in the rectangle of half-extents hb. */
  predicate CornerInBox(k: Corners, hb: Vec2) {
    InsideRectangle(k.topLeft, hb) || InsideRectangle(k.topRight, hb) ||
    InsideRectangle(k.botLeft, hb) || InsideRectangle(k.botRight, hb)
  }

  /** Some corner of the rectangle lies in one of the footprint's two triangles. */
  predicate BoxCornerInFootprint(k: Corners, hb: Vec2) {
    InsideTriangle(k.topLeft, k.topRight, k.botLeft, hb) ||
    InsideTriangle(k.topLeft, k.topRight, k.botLeft, Vec2(-hb.x, hb.y)) ||
    InsideTriangle(k.topLeft, k.topRight, k.botLeft, Vec2(hb.x, -hb.y)) ||
    InsideTriangle(k.topLeft, k.topRight, k.botLeft, Vec2(-hb.x, -hb.y)) ||
    InsideTriangle(k.botRight, k.topRight, k.botLeft, hb) ||
    InsideTriangle(k.botRight, k.topRight, k.botLeft, Vec2(-hb.x, hb.y)) ||
    InsideTriangle(k.botRight, k.topRight, k.botLeft, Vec2(hb.x, -hb.y)) ||
    InsideTriangle(k.botRight, k.topRight, k.botLeft, Vec2(-hb.x, -hb.y))
  }

  /** The narrow phase shared by both collision checks. */
  predicate Overlap(k: Corners, hb: Vec2) {
    CornerInBox(k, hb) || BoxCornerInFootprint(k, hb)
  }

  /** CheckBuildingCollision for a tank at `loc` with heading `rot`. */
  predicate BuildingBlocks(b: Building, loc: Vec3, rot: real, m: Math) {
    Distance(b.location, loc, m) < BUILDING_REACH &&
    Overlap(CornersOf(Vec2(loc.x - b.location.x, loc.z - b.location.z), TANK_SIZE, m.cos(rot), m.sin(rot)),
            Vec2(BUILDING_SIZE.x, BUILDING_SIZE.z))
  }

  /** The other tank's centre in this tank's frame. */
  function RelativeLocation(other: Vec3, own: Vec3, rot: real, m: Math): Vec2 {
    var dx, dz := other.x - own.x, other.z - own.z;
    Vec2(dx * m.cos(rot) - dz * m.sin(rot), dx * m.sin(rot) + dz * m.cos(rot))
  }

  /** The geometric part of CheckTankCollision: the other tank, at `other` with
      heading `otherRot`, against this tank at `own` with heading `ownRot`.  Both
      footprints use this tank's own size. */
  predicate TankBlocks(other: Vec3, otherRot: real, own: Vec3, ownRot: real, m: Math) {
    Distance(other, own, m) < TANK_REACH &&
    Overlap(CornersOf(RelativeLocation(other, own, ownRot, m), TANK_SIZE,
                      m.cos(otherRot - ownRot), m.sin(otherRot - ownRot)),
            Vec2(TANK_SIZE.x, TANK_SIZE.z))
  }

  // ---------------------------------------------------------------------------
  // Properties

  /** Unturned, the border test is exactly "the footprint reaches the border"
      on the x axis or on the height axis. */
  lemma BorderHitAxisAligned(loc: Vec2, size: Vec3, world: Vec2)
    requires size.x >= 0.0 && size.z >= 0.0
    ensures BorderHit(CornersOf(loc, size, 1.0, 0.0), world) <==>
            Abs(loc.x) + size.x >= world.x || Abs(loc.y) + size.z >= world.y
  {
  }

  /** The border test misses a corner: a turned footprint whose bottom-right
      corner lies beyond the border is not reported. */
  lemma BorderSkipsBotRightY()
    ensures var k := CornersOf(Vec2(0.0, -99600.0), TANK_SIZE, 0.6, -0.8);
            Abs(k.botRight.y) >= WORLD_SIZE.y && !BorderHit(k, WORLD_SIZE)
  {
  }

  /** Two footprints of the same size, centre and heading overlap. */
  lemma CoincidentFootprintsOverlap(size: Vec3)
    requires size.x >= 0.0 && size.z >= 0.0
    ensures Overlap(CornersOf(Vec2(0.0, 0.0), size, 1.0, 0.0), Vec2(size.x, size.z))
  {
    assert InsideRectangle(CornersOf(Vec2(0.0, 0.0), size, 1.0, 0.0).topLeft, Vec2(size.x, size.z));
  }

  /** Two tanks at the same place with the same heading always collide. */
  lemma CoincidentTanksBlock(loc: Vec3, rot: real, m: Math)
    requires m.Valid()
    ensures TankBlocks(loc, rot, loc, rot, m)
  {
    assert Sub3(loc, loc) == ZERO;
    assert rot - rot == 0.0;
    var r := RelativeLocation(loc, loc, rot, m);
    assert r == Vec2(0.0, 0.0);
    CoincidentFootprintsOverlap(TANK_SIZE);
  }

  lemma ScaleBound(a: real, t: real)
    requires a >= 0.0 && -1.0 <= t <= 1.0
    ensures -a <= a * t <= a
  {
    assert a * (1.0 - t) >= 0.0;
    assert a * (1.0 + t) >= 0.0;
  }

  /** Moving p by a*t and b*u with |t|, |u| <= 1 stays within a + b of p. */
  lemma Spread(p: real, a: real, t: real, b: real, u: real)
    requires a >= 0.0 && b >= 0.0 && -1.0 <= t <= 1.0 && -1.0 <= u <= 1.0
    ensures p - (a + b) <= p + a * t + b * u <= p + (a + b)
  {
    ScaleBound(a, t);
    ScaleBound(b, u);
  }

  /** Each corner lies within size.x + size.z of the centre on both axes. */
  lemma CornerBounds(loc: Vec2, size: Vec3, c: real, s: real)
    requires -1.0 <= c <= 1.0 && -1.0 <= s <= 1.0 && size.x >= 0.0 && size.z >= 0.0
    ensures var k, r := CornersOf(loc, size, c, s), size.x + size.z;
            Near(k.topLeft, loc, r) && Near(k.topRight, loc, r) &&
            Near(k.botLeft, loc, r) && Near(k.botRight, loc, r)
  {
    var X, Z := size.x, size.z;
    Spread(loc.x, X, c, Z, s); Spread(loc.y, Z, c, X, -s);
    Spread(loc.x, X, -c, Z, s); Spread(loc.y, Z, c, X, s);
    Spread(loc.x, X, c, Z, -s); Spread(loc.y, Z, -c, X, -s);
    Spread(loc.x, X, -c, Z, -s); Spread(loc.y, Z, -c, X, s);
  }

  predicate Near(p: Vec2, centre: Vec2, r: real) {
    centre.x - r <= p.x <= centre.x + r && centre.y - r <= p.y <= centre.y + r
  }

  /** A point outside the bounding box of a triangle is not inside it. */
  lemma OutsideBoundsNotInside(a: Vec2, b: Vec2, c: Vec2, p: Vec2)
    requires p.x < Min3(a.x, b.x, c.x) || p.x > Max3(a.x, b.x, c.x) ||
             p.y < Min3(a.y, b.y, c.y) || p.y > Max3(a.y, b.y, c.y)
    ensures !InsideTriangle(a, b, c, p)
  {
    if InsideTriangle(a, b, c, p) {
      InsideTriangleBounded(a, b, c, p);
    }
  }

  /** All three vertices beyond the rectangle on one side. */
  predicate FarFromBox(a: Vec2, b: Vec2, c: Vec2, hb: Vec2) {
    (a.x > hb.x && b.x > hb.x && c.x > hb.x) || (a.x < -hb.x && b.x < -hb.x && c.x < -hb.x) ||
    (a.y > hb.y && b.y > hb.y && c.y > hb.y) || (a.y < -hb.y && b.y < -hb.y && c.y < -hb.y)
  }

  /** A triangle lying beyond the rectangle on one side contains none of its corners. */
  lemma FarTriangleMissesBox(a: Vec2, b: Vec2, c: Vec2, hb: Vec2)
    requires hb.x >= 0.0 && hb.y >= 0.0 && FarFromBox(a, b, c, hb)
    ensures !InsideTriangle(a, b, c, hb) && !InsideTriangle(a, b, c, Vec2(-hb.x, hb.y)) &&
            !InsideTriangle(a, b, c, Vec2(hb.x, -hb.y)) && !InsideTriangle(a, b, c, Vec2(-hb.x, -hb.y))
  {
    OutsideBoundsNotInside(a, b, c, hb);
    OutsideBoundsNotInside(a, b, c, Vec2(-hb.x, hb.y));
    OutsideBoundsNotInside(a, b, c, Vec2(hb.x, -hb.y));
    OutsideBoundsNotInside(a, b, c, Vec2(-hb.x, -hb.y));
  }

  /** A footprint whose centre is farther than size.x + size.z + hb on either
      axis does not overlap the rectangle: neither test can fire. */
  lemma {:induction false} SeparatedFootprintsMiss(loc: Vec2, size: Vec3, c: real, s: real, hb: Vec2)
    requires -1.0 <= c <= 1.0 && -1.0 <= s <= 1.0
    requires size.x >= 0.0 && size.z >= 0.0 && hb.x >= 0.0 && hb.y >= 0.0
    requires Abs(loc.x) > size.x + size.z + hb.x || Abs(loc.y) > size.x + size.z + hb.y
    ensures !Overlap(CornersOf(loc, size, c, s), hb)
  {
    var k := CornersOf(loc, size, c, s);
    CornerBounds(loc, size, c, s);
    assert FarFromBox(k.topLeft, k.topRight, k.botLeft, hb);
    assert FarFromBox(k.botRight, k.topRight, k.botLeft, hb);
    FarTriangleMissesBox(k.topLeft, k.topRight, k.botLeft, hb);
    FarTriangleMissesBox(k.botRight, k.topRight, k.botLeft, hb);
  }

  /** A tank whose centre is more than 1100 units from a building's centre on
      the x or the z axis is never blocked by it. */
  lemma FarBuildingNeverBlocks(b: Building, loc: Vec3, rot: real, m: Math)
    requires m.Valid()
    requires Abs(loc.x - b.location.x) > 1100.0 || Abs(loc.z - b.location.z) > 1100.0
    ensures !BuildingBlocks(b, loc, rot, m)
  {
    SeparatedFootprintsMiss(Vec2(loc.x - b.location.x, loc.z - b.location.z), TANK_SIZE,
                            m.cos(rot), m.sin(rot), Vec2(BUILDING_SIZE.x, BUILDING_SIZE.z));
  }
}
