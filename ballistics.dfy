/** Shell flight and the swept hit-box test.  A shell follows a closed-form
    parabola from the cannon's end.  Each tick it is tested against the
    unrotated box of half-extents (X, Z) and height Y around a target, by
    moving it along its launch velocity for at most one tick and intersecting
    that segment with the box's faces. */
module Ballistics {
  import opened Geometry

  const GRAVITY: real := 980.0665
  /** The shell's radius: every hit box is grown by it. */
  const RADIUS: real := 15.0
  /** Below this height a shell is tested against the targets at all. */
  const TEST_CEILING: real := 1015.0
  /** Below this height a shell has hit the ground. */
  const GROUND: real := 15.0
  /** Broad-phase radii of the shell's tank and building checks. */
  const TANK_REACH: real := 596.0
  const BUILDING_REACH: real := 1400.0

  /** Where a shell launched from `start` with velocity `vel` is `t` seconds on. */
  function Position(start: Vec3, vel: Vec3, t: real): Vec3 {
    Vec3(start.x + vel.x * t, start.y + vel.y * t - 0.5 * GRAVITY * t * t, start.z + vel.z * t)
  }

  /** The point `t` seconds along the straight line through loc with direction vel. */
  function Along(loc: Vec3, vel: Vec3, t: real): Vec3 {
    Vec3(loc.x + vel.x * t, loc.y + vel.y * t, loc.z + vel.z * t)
  }

  function Dot3(a: Vec3, b: Vec3): real { a.x * b.x + a.y * b.y + a.z * b.z }

  function Normal(plane: Vec4): Vec3 { Vec3(plane.x, plane.y, plane.z) }

  /** N.p + w for the plane (N, w). */
  function PlaneValue(plane: Vec4, p: Vec3): real { Dot3(Normal(plane), p) + plane.w }

  /** CheckPlaneIntersect: the point where the line through loc along vel
      meets the plane, if that happens within [0, dt]; otherwise ZERO.  A line
      parallel to the plane gives ZERO too: in the source the division by zero
      yields an infinite time, which the window rejects (the faces are only
      tried from a point off the plane, so the numerator is never zero there). */
  function PlaneIntersect(plane: Vec4, vel: Vec3, loc: Vec3, dt: real): Vec3 {
    var den := Dot3(Normal(plane), vel);
    if den == 0.0 then ZERO
    else
      var t := -PlaneValue(plane, loc) / den;
      if t < 0.0 || t > dt then ZERO else Along(loc, vel, t)
  }

  /** The box test ignores anything below: no lower bound on y. */
  predicate InsideBox(hb: Vec3, p: Vec3) {
    p.y <= hb.y && p.x >= -hb.x && p.x <= hb.x && p.z >= -hb.z && p.z <= hb.z
  }

  /** CheckHitBoxCollision, as the nested chain the source writes: the
      containment test, then the top, -X, +X, +Z and -Z faces in turn, each
      tried only from outside it. */
  predicate HitBox(hb: Vec3, vel: Vec3, loc: Vec3, dt: real) {
    if InsideBox(hb, loc) then true
    else
      var i1 := if loc.y > hb.y then PlaneIntersect(Vec4(0.0, -1.0, 0.0, hb.y), vel, loc, dt) else ZERO;
      if i1 != ZERO && InsideRectangle(Vec2(i1.x, i1.z), Vec2(hb.x, hb.z)) then true
      else
        var i2 := if loc.x < -hb.x then PlaneIntersect(Vec4(-1.0, 0.0, 0.0, -hb.x), vel, loc, dt) else ZERO;
        if i2 != ZERO && InsideRectangle(Vec2(i2.y, i2.z), Vec2(hb.y, hb.z)) then true
        else
          var i3 := if loc.x > hb.x then PlaneIntersect(Vec4(-1.0, 0.0, 0.0, hb.x), vel, loc, dt) else ZERO;
          if i3 != ZERO && InsideRectangle(Vec2(i3.y, i3.z), Vec2(hb.y, hb.z)) then true
          else
            var i4 := if loc.z > hb.z then PlaneIntersect(Vec4(0.0, 0.0, -1.0, hb.z), vel, loc, dt) else ZERO;
            if i4 != ZERO && InsideRectangle(Vec2(i4.x, i4.y), Vec2(hb.x, hb.y)) then true
            else
              var i5 := if loc.z < -hb.z then PlaneIntersect(Vec4(0.0, 0.0, -1.0, -hb.z), vel, loc, dt) else ZERO;
              i5 != ZERO && InsideRectangle(Vec2(i5.x, i5.y), Vec2(hb.x, hb.y))
  }

  // ---------------------------------------------------------------------------
  // The faces as a table: an independent statement of the same test

  datatype Face = Top | NegX | PosX | PosZ | NegZ

  /** The order in which the faces are tried. */
  const FACE_ORDER: seq<Face> := [Top, NegX, PosX, PosZ, NegZ]

  function FacePlane(f: Face, hb: Vec3): Vec4 {
    match f
    case Top => Vec4(0.0, -1.0, 0.0, hb.y)
    case NegX => Vec4(-1.0, 0.0, 0.0, -hb.x)
    case PosX => Vec4(-1.0, 0.0, 0.0, hb.x)
    case PosZ => Vec4(0.0, 0.0, -1.0, hb.z)
    case NegZ => Vec4(0.0, 0.0, -1.0, -hb.z)
  }

  /** A face is tried only from a point strictly outside it. */
  predicate Facing(f: Face, hb: Vec3, loc: Vec3) {
    match f
    case Top => loc.y > hb.y
    case NegX => loc.x < -hb.x
    case PosX => loc.x > hb.x
    case PosZ => loc.z > hb.z
    case NegZ => loc.z < -hb.z
  }

  /** The two coordinates of a point that lie in the face, and the face's extent. */
  function InFace(f: Face, p: Vec3): Vec2 {
    match f
    case Top => Vec2(p.x, p.z)
    case NegX => Vec2(p.y, p.z)
    case PosX => Vec2(p.y, p.z)
    case PosZ => Vec2(p.x, p.y)
    case NegZ => Vec2(p.x, p.y)
  }

  function FaceExtent(f: Face, hb: Vec3): Vec2 {
    match f
    case Top => Vec2(hb.x, hb.z)
    case NegX => Vec2(hb.y, hb.z)
    case PosX => Vec2(hb.y, hb.z)
    case PosZ => Vec2(hb.x, hb.y)
    case NegZ => Vec2(hb.x, hb.y)
  }

  /** The coordinate a face pins, and the value it pins it to. */
  predicate Pinned(f: Face, hb: Vec3, p: Vec3) {
    match f
    case Top => p.y == hb.y
    case NegX => p.x == -hb.x
    case PosX => p.x == hb.x
    case PosZ => p.z == hb.z
    case NegZ => p.z == -hb.z
  }

  /** A face counts when it is tried and the segment crosses it inside its extent. */
  predicate FaceCounts(f: Face, hb: Vec3, vel: Vec3, loc: Vec3, dt: real) {
    Facing(f, hb, loc) &&
    var i := PlaneIntersect(FacePlane(f, hb), vel, loc, dt);
    i != ZERO && InsideRectangle(InFace(f, i), FaceExtent(f, hb))
  }

  /** The first face in FACE_ORDER from index k on that counts, if any. */
  function FirstFaceFrom(hb: Vec3, vel: Vec3, loc: Vec3, dt: real, k: nat): (r: int)
    requires k <= |FACE_ORDER|
    ensures k <= r <= |FACE_ORDER|
    ensures r < |FACE_ORDER| ==> FaceCounts(FACE_ORDER[r], hb, vel, loc, dt)
    ensures forall j :: k <= j < r ==> !FaceCounts(FACE_ORDER[j], hb, vel, loc, dt)
    decreases |FACE_ORDER| - k
  {
    if k == |FACE_ORDER| then k
    else if FaceCounts(FACE_ORDER[k], hb, vel, loc, dt) then k
    else FirstFaceFrom(hb, vel, loc, dt, k + 1)
  }

  // ---------------------------------------------------------------------------
  // Properties

  /** At t = 0 the shell is at the cannon's end. */
  lemma PositionAtLaunch(start: Vec3, vel: Vec3)
    ensures Position(start, vel, 0.0) == start
  {
  }

  /** A shell fired upward is back at its launch height after 2*vy/g seconds,
      and below it at every later time. */
  lemma {:induction false} ShellFallsBack(start: Vec3, vel: Vec3, t: real)
    requires vel.y >= 0.0 && t >= 2.0 * vel.y / GRAVITY
    ensures Position(start, vel, 2.0 * vel.y / GRAVITY).y == start.y
    ensures Position(start, vel, t).y <= start.y
  {
    var t0 := 2.0 * vel.y / GRAVITY;
    assert GRAVITY * t0 == 2.0 * vel.y;
    assert vel.y * t0 - 0.5 * GRAVITY * t0 * t0 == t0 * (vel.y - 0.5 * (GRAVITY * t0));
    assert vel.y - 0.5 * GRAVITY * t <= 0.0;
    assert vel.y * t - 0.5 * GRAVITY * t * t == t * (vel.y - 0.5 * GRAVITY * t);
    NonPositiveProduct(t, vel.y - 0.5 * GRAVITY * t);
  }

  lemma NonPositiveProduct(a: real, b: real)
    requires a >= 0.0 && b <= 0.0
    ensures a * b <= 0.0
  {
  }

  /** The intersection the test accepts lies on the plane, on the segment
      swept during [0, dt]; and every crossing within the window that is not
      the origin is found. */
  lemma {:induction false} PlaneIntersectSound(plane: Vec4, vel: Vec3, loc: Vec3, dt: real)
    ensures var r := PlaneIntersect(plane, vel, loc, dt);
            r != ZERO ==>
              exists t :: 0.0 <= t <= dt && r == Along(loc, vel, t) && PlaneValue(plane, r) == 0.0
    ensures forall t :: 0.0 <= t <= dt && Dot3(Normal(plane), vel) != 0.0 &&
                        PlaneValue(plane, Along(loc, vel, t)) == 0.0 && Along(loc, vel, t) != ZERO ==>
                        PlaneIntersect(plane, vel, loc, dt) == Along(loc, vel, t)
  {
    var den := Dot3(Normal(plane), vel);
    if den != 0.0 {
      var t := -PlaneValue(plane, loc) / den;
      AlongOnPlane(plane, vel, loc, t);
      forall t' | 0.0 <= t' <= dt && PlaneValue(plane, Along(loc, vel, t')) == 0.0
        ensures t' == t
      {
        AlongOnPlane(plane, vel, loc, t');
        CrossingTimeUnique(PlaneValue(plane, loc), den, t');
      }
    }
  }

  /** The plane value is affine along the line. */
  lemma AlongOnPlane(plane: Vec4, vel: Vec3, loc: Vec3, t: real)
    ensures PlaneValue(plane, Along(loc, vel, t)) == PlaneValue(plane, loc) + t * Dot3(Normal(plane), vel)
  {
  }

  lemma CrossingTimeUnique(num: real, den: real, t: real)
    requires den != 0.0
    ensures num + t * den == 0.0 <==> t == -num / den
  {
    if num + t * den == 0.0 {
      assert t * den == -num;
    } else {
      assert (-num / den) * den == -num;
    }
  }

  /** A face plane pins its coordinate to the face. */
  lemma {:induction false} FacePinsCoordinate(f: Face, hb: Vec3, vel: Vec3, loc: Vec3, dt: real)
    requires PlaneIntersect(FacePlane(f, hb), vel, loc, dt) != ZERO
    ensures Pinned(f, hb, PlaneIntersect(FacePlane(f, hb), vel, loc, dt))
  {
    PlaneIntersectSound(FacePlane(f, hb), vel, loc, dt);
  }

  /** The nested chain is exactly the table: the shell is inside the box, or
      some face of FACE_ORDER counts.  The chain tries the faces in that order
      and stops at the first one that counts. */
  lemma {:induction false} HitBoxIsFaceTable(hb: Vec3, vel: Vec3, loc: Vec3, dt: real)
    ensures HitBox(hb, vel, loc, dt) <==>
            InsideBox(hb, loc) || exists k :: 0 <= k < |FACE_ORDER| && FaceCounts(FACE_ORDER[k], hb, vel, loc, dt)
    ensures HitBox(hb, vel, loc, dt) <==>
            InsideBox(hb, loc) || FirstFaceFrom(hb, vel, loc, dt, 0) < |FACE_ORDER|
  {
    var r := FirstFaceFrom(hb, vel, loc, dt, 0);
    assert FACE_ORDER[0] == Top && FACE_ORDER[1] == NegX && FACE_ORDER[2] == PosX;
    assert FACE_ORDER[3] == PosZ && FACE_ORDER[4] == NegZ;
    if exists k :: 0 <= k < |FACE_ORDER| && FaceCounts(FACE_ORDER[k], hb, vel, loc, dt) {
      var k :| 0 <= k < |FACE_ORDER| && FaceCounts(FACE_ORDER[k], hb, vel, loc, dt);
      assert r <= k;
    }
  }

  /** A shell already inside the box hits it whatever its velocity, however far
      below the box it is. */
  lemma InsideHitsWithoutFloor(hb: Vec3, vel: Vec3, loc: Vec3, dt: real)
    requires InsideBox(hb, loc)
    ensures HitBox(hb, vel, loc, dt)
  {
  }

  /** There is no floor: a shell a kilometre under a box of positive extent
      counts as a hit. */
  lemma NoFloorExample()
    ensures HitBox(Vec3(450.0, 900.0, 450.0), Vec3(0.0, 0.0, 0.0), Vec3(0.0, -100000.0, 0.0), 0.0)
  {
  }

  /** A face that counts is crossed at a point of the floorless box. */
  lemma {:induction false} FaceCrossingInBox(f: Face, hb: Vec3, vel: Vec3, loc: Vec3, dt: real)
    requires hb.x >= 0.0 && hb.z >= 0.0 && FaceCounts(f, hb, vel, loc, dt)
    ensures exists t :: 0.0 <= t <= dt && InsideBox(hb, Along(loc, vel, t))
  {
    var i := PlaneIntersect(FacePlane(f, hb), vel, loc, dt);
    FacePinsCoordinate(f, hb, vel, loc, dt);
    PlaneIntersectSound(FacePlane(f, hb), vel, loc, dt);
    var t :| 0.0 <= t <= dt && i == Along(loc, vel, t) && PlaneValue(FacePlane(f, hb), i) == 0.0;
    assert InsideRectangle(InFace(f, i), FaceExtent(f, hb));
    match f
    case Top => assert InsideBox(hb, i);
    case NegX => assert InsideBox(hb, i);
    case PosX => assert InsideBox(hb, i);
    case PosZ => assert InsideBox(hb, i);
    case NegZ => assert InsideBox(hb, i);
  }

  /** A reported hit on a box of non-negative extent is a real hit of the
      floorless box: the shell is in it, or some point of the segment swept in
      [0, dt] is. */
  lemma {:induction false} HitBoxSound(hb: Vec3, vel: Vec3, loc: Vec3, dt: real)
    requires hb.x >= 0.0 && hb.z >= 0.0 && HitBox(hb, vel, loc, dt)
    ensures InsideBox(hb, loc) || exists t :: 0.0 <= t <= dt && InsideBox(hb, Along(loc, vel, t))
  {
    HitBoxIsFaceTable(hb, vel, loc, dt);
    if !InsideBox(hb, loc) {
      var k :| 0 <= k < |FACE_ORDER| && FaceCounts(FACE_ORDER[k], hb, vel, loc, dt);
      FaceCrossingInBox(FACE_ORDER[k], hb, vel, loc, dt);
    }
  }

  /** For a box of positive extent no face crossing is the origin, so the ZERO
      sentinel never hides a hit there. */
  lemma {:induction false} SentinelHarmless(f: Face, hb: Vec3, vel: Vec3, loc: Vec3, dt: real, t: real)
    requires hb.x > 0.0 && hb.y > 0.0 && hb.z > 0.0
    requires 0.0 <= t <= dt && Dot3(Normal(FacePlane(f, hb)), vel) != 0.0
    requires PlaneValue(FacePlane(f, hb), Along(loc, vel, t)) == 0.0
    ensures PlaneIntersect(FacePlane(f, hb), vel, loc, dt) == Along(loc, vel, t)
  {
    var p := Along(loc, vel, t);
    assert p != ZERO by {
      match f
      case Top => assert p.y == hb.y;
      case NegX => assert p.x == -hb.x;
      case PosX => assert p.x == hb.x;
      case PosZ => assert p.z == hb.z;
      case NegZ => assert p.z == -hb.z;
    }
    PlaneIntersectSound(FacePlane(f, hb), vel, loc, dt);
  }

  /** For a box of zero height the sentinel does hide a hit: a shell falling
      through the origin onto the box's top is not reported. */
  lemma SentinelMasksOrigin()
    ensures PlaneIntersect(FacePlane(Top, Vec3(1.0, 0.0, 1.0)), Vec3(0.0, -1.0, 0.0), Vec3(0.0, 1.0, 0.0), 2.0) == ZERO
    ensures !HitBox(Vec3(1.0, 0.0, 1.0), Vec3(0.0, -1.0, 0.0), Vec3(0.0, 1.0, 0.0), 2.0)
  {
  }
}
