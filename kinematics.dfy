/** Tank movement and control arithmetic: the pose a forward or backward step
    produces, the heading and wheel wrap-around, and the fixed-step, limited
    changes of the steering, turret and cannon angles. */
module Kinematics {
  import opened MathLib
  import opened Geometry
  import Footprint

  const STEER_STEP: real := PI / 200.0
  const TURRET_STEP: real := PI / 250.0
  const CANNON_STEP: real := PI / 500.0
  const MOVEMENT_SPEED: real := 10.0
  const FRONT_WHEEL_STEP: real := MOVEMENT_SPEED / 75.0
  const BACK_WHEEL_STEP: real := MOVEMENT_SPEED / 100.0
  const SHELL_SPEED: real := 3000.0
  const BARREL_LENGTH: real := 300.0
  /** The turret pivot sits 30 units behind the tank's centre. */
  const PIVOT_OFFSET: real := -30.0

  /** Steering turns only while inside (-pi/6, pi/6). */
  const STEER_LIMIT: real := PI / 6.0
  /** MathHelper.PiOver2 and MathHelper.PiOver4. */
  const TURRET_LIMIT: real := HALF_PI
  const CANNON_LIMIT: real := PI / 4.0

  /** Where a tank is and which way it faces. */
  datatype Pose = Pose(location: Vec3, heading: real)

  /** The heading wrap of MoveForward/MoveBackward: one correction by 2*pi. */
  function WrapHeading(h: real): real {
    if h > TWO_PI then h - TWO_PI else if h < 0.0 then h + TWO_PI else h
  }

  /** The planar displacement of one step of `speed` along `angle`:
      Vector3.Transform((0, 0, speed), Matrix.CreateRotationY(angle)). */
  function Displacement(speed: real, angle: real, m: Math): Vec3 {
    Vec3(speed * m.sin(angle), 0.0, speed * m.cos(angle))
  }

  function Translate(p: Vec3, d: Vec3): Vec3 {
    Vec3(p.x + d.x, p.y, p.z + d.z)
  }

  /** The heading change of a forward step with steering angle `steer`. */
  function ForwardTurn(steer: real, m: Math): real
    requires m.Valid()
  {
    var v := Displacement(MOVEMENT_SPEED, steer, m);
    m.atan(v.x / (Footprint.TANK_SIZE.z - v.z))
  }

  /** The heading change of a backward step with steering angle `steer`. */
  function BackwardTurn(steer: real, m: Math): real
    requires m.Valid()
  {
    var v := Displacement(MOVEMENT_SPEED, steer, m);
    m.atan(v.x / (Footprint.TANK_SIZE.z + v.z))
  }

  /** The pose MoveForward computes before its collision test. */
  function ForwardPose(p: Pose, steer: real, m: Math): Pose
    requires m.Valid()
  {
    Pose(Translate(p.location, Displacement(MOVEMENT_SPEED, steer + p.heading, m)),
         WrapHeading(p.heading + ForwardTurn(steer, m)))
  }

  /** The pose MoveBackward computes before its collision test. */
  function BackwardPose(p: Pose, steer: real, m: Math): Pose
    requires m.Valid()
  {
    Pose(Translate(p.location, Displacement(-MOVEMENT_SPEED, steer + p.heading, m)),
         WrapHeading(p.heading - BackwardTurn(steer, m)))
  }

  /** Wheel angles turn forward and wrap above 2*pi. */
  function WheelForward(w: real, step: real): real {
    if w + step > TWO_PI then w + step - TWO_PI else w + step
  }

  /** Wheel angles turn backward and wrap below 0. */
  function WheelBackward(w: real, step: real): real {
    if w - step < 0.0 then w - step + TWO_PI else w - step
  }

  /** TurnLeft / TurnRight. */
  function SteerLeft(a: real): real { if a < STEER_LIMIT then a + STEER_STEP else a }
  function SteerRight(a: real): real { if a > -STEER_LIMIT then a - STEER_STEP else a }

  /** TurnTurretLeft / TurnTurretRight. */
  function TurretLeft(a: real): real { if a < TURRET_LIMIT then a + TURRET_STEP else a }
  function TurretRight(a: real): real { if a > -TURRET_LIMIT then a - TURRET_STEP else a }

  /** CannonUp lowers the angle, CannonDown raises it back towards 0. */
  function CannonUp(a: real): real { if a > -CANNON_LIMIT then a - CANNON_STEP else a }
  function CannonDown(a: real): real { if a < 0.0 then a + CANNON_STEP else a }

  /** The launch velocity of FireCannon: SHELL_SPEED along the barrel, whose
      world bearing is heading + turret and whose elevation is -cannon. */
  function MuzzleVelocity(heading: real, turret: real, cannon: real, m: Math): Vec3 {
    var bearing := heading + turret;
    Vec3(SHELL_SPEED * m.cos(cannon) * m.sin(bearing),
         SHELL_SPEED * m.sin(-cannon),
         SHELL_SPEED * m.cos(cannon) * m.cos(bearing))
  }

  /** The turret pivot of a tank at `loc` with heading `heading`: 30 units
      behind the centre, on top of the hull. */
  function Pivot(loc: Vec3, heading: real, m: Math): Vec3 {
    Vec3(loc.x + PIVOT_OFFSET * m.sin(heading), Footprint.TANK_SIZE.y + loc.y, loc.z + PIVOT_OFFSET * m.cos(heading))
  }

  /** The cannon's end, where FireCannon places the new shell. */
  function MuzzlePoint(loc: Vec3, heading: real, turret: real, cannon: real, m: Math): Vec3 {
    var bearing := heading + turret;
    var p := Pivot(loc, heading, m);
    Vec3(p.x + BARREL_LENGTH * m.cos(-cannon) * m.sin(bearing),
         p.y + BARREL_LENGTH * m.sin(-cannon),
         p.z + BARREL_LENGTH * m.cos(-cannon) * m.cos(bearing))
  }

  // ---------------------------------------------------------------------------
  // Properties

  predicate InTurn(h: real) { 0.0 <= h <= TWO_PI }

  /** One wrap brings any heading less than 2*pi outside [0, 2*pi] back into it,
      and leaves the angle unchanged modulo 2*pi. */
  lemma WrapHeadingInRange(h: real)
    requires -TWO_PI <= h <= 2.0 * TWO_PI
    ensures InTurn(WrapHeading(h))
    ensures WrapHeading(h) == h || WrapHeading(h) == h - TWO_PI || WrapHeading(h) == h + TWO_PI
    ensures InTurn(h) ==> WrapHeading(h) == h
  {
  }

  /** Both moves keep the heading in [0, 2*pi]. */
  lemma MovesKeepHeadingInRange(p: Pose, steer: real, m: Math)
    requires m.Valid() && InTurn(p.heading)
    ensures InTurn(ForwardPose(p, steer, m).heading)
    ensures InTurn(BackwardPose(p, steer, m).heading)
  {
    var f, b := ForwardTurn(steer, m), BackwardTurn(steer, m);
    assert -HALF_PI < f < HALF_PI && -HALF_PI < b < HALF_PI;
    WrapHeadingInRange(p.heading + f);
    WrapHeadingInRange(p.heading - b);
  }

  /** The squared length of a vector's projection on the ground plane. */
  function PlanarSquare(v: Vec3): real {
    v.x * v.x + v.z * v.z
  }

  /** A forward step moves the tank exactly MOVEMENT_SPEED units in the plane
      and never changes its height. */
  lemma ForwardStepLength(p: Pose, steer: real, m: Math)
    requires m.Valid() && m.Pythagorean()
    ensures var step := Sub3(ForwardPose(p, steer, m).location, p.location);
            step.y == 0.0 && PlanarSquare(step) == MOVEMENT_SPEED * MOVEMENT_SPEED
  {
    var d := Displacement(MOVEMENT_SPEED, steer + p.heading, m);
    DisplacementLength(MOVEMENT_SPEED, steer + p.heading, m);
    var q := ForwardPose(p, steer, m).location;
    assert q == Translate(p.location, d);
    assert Sub3(q, p.location) == d;
  }

  /** A step of `speed` along any angle covers `speed` units in the plane. */
  lemma DisplacementLength(speed: real, a: real, m: Math)
    requires m.Pythagorean()
    ensures PlanarSquare(Displacement(speed, a, m)) == speed * speed
  {
    Circle(m, a);
    CircleRadius(speed, m.sin(a), m.cos(a), speed * m.sin(a), speed * m.cos(a));
  }

  /** A vector of length r written in polar form. */
  lemma CircleRadius(r: real, a: real, b: real, x: real, z: real)
    requires a * a + b * b == 1.0 && x == r * a && z == r * b
    ensures x * x + z * z == r * r
  {
    assert x * x + z * z == r * r * (a * a + b * b);
  }

  /** Driving straight, a backward step undoes a forward step. */
  lemma StraightBackwardUndoesForward(p: Pose, m: Math)
    requires m.Valid() && InTurn(p.heading)
    ensures BackwardPose(ForwardPose(p, 0.0, m), 0.0, m) == p
  {
    StraightStepsDoNotTurn(m);
    WrapHeadingInRange(p.heading);
  }

  /** With the steering centred, neither step turns the tank. */
  lemma StraightStepsDoNotTurn(m: Math)
    requires m.Valid()
    ensures ForwardTurn(0.0, m) == 0.0 && BackwardTurn(0.0, m) == 0.0
  {
    var v := Displacement(MOVEMENT_SPEED, 0.0, m);
    assert v.x == 0.0 by {
      assert m.sin(0.0) == 0.0;
    }
    assert v.x / (Footprint.TANK_SIZE.z - v.z) == 0.0;
    assert v.x / (Footprint.TANK_SIZE.z + v.z) == 0.0;
  }

  /** The wheel wrap keeps wheel angles in [0, 2*pi]. */
  lemma WheelsStayInTurn(w: real)
    requires InTurn(w)
    ensures InTurn(WheelForward(w, FRONT_WHEEL_STEP)) && InTurn(WheelForward(w, BACK_WHEEL_STEP))
    ensures InTurn(WheelBackward(w, FRONT_WHEEL_STEP)) && InTurn(WheelBackward(w, BACK_WHEEL_STEP))
  {
  }

  /** Steering moves on the lattice of multiples of pi/200 and stops one step
      past pi/6: from k steps with |k| <= 34 it reaches k+1 (left) or k-1
      (right) steps, or stays at the limit. */
  lemma SteerOnLattice(k: int)
    requires -34 <= k <= 34
    ensures SteerLeft(k as real * STEER_STEP) == (if k <= 33 then k + 1 else k) as real * STEER_STEP
    ensures SteerRight(k as real * STEER_STEP) == (if k >= -33 then k - 1 else k) as real * STEER_STEP
  {
  }

  /** The turret moves on multiples of pi/250 within [-pi/2, pi/2]. */
  lemma TurretOnLattice(k: int)
    requires -125 <= k <= 125
    ensures TurretLeft(k as real * TURRET_STEP) == (if k <= 124 then k + 1 else k) as real * TURRET_STEP
    ensures TurretRight(k as real * TURRET_STEP) == (if k >= -124 then k - 1 else k) as real * TURRET_STEP
    ensures -TURRET_LIMIT <= k as real * TURRET_STEP <= TURRET_LIMIT
  {
  }

  /** The cannon moves on multiples of pi/500 within [-pi/4, 0]. */
  lemma CannonOnLattice(k: int)
    requires -125 <= k <= 0
    ensures CannonUp(k as real * CANNON_STEP) == (if k >= -124 then k - 1 else k) as real * CANNON_STEP
    ensures CannonDown(k as real * CANNON_STEP) == (if k <= -1 then k + 1 else k) as real * CANNON_STEP
    ensures -CANNON_LIMIT <= k as real * CANNON_STEP <= 0.0
  {
  }

  /** The steering can overshoot pi/6 by less than one step, never more. */
  lemma SteerBounded(k: int)
    requires -34 <= k <= 34
    ensures -STEER_LIMIT - STEER_STEP < k as real * STEER_STEP < STEER_LIMIT + STEER_STEP
  {
  }

  /** Every shell leaves the barrel at SHELL_SPEED, whatever the aim. */
  lemma MuzzleSpeed(heading: real, turret: real, cannon: real, m: Math)
    requires m.Valid() && m.Pythagorean()
    ensures var v := MuzzleVelocity(heading, turret, cannon, m);
            v.x * v.x + v.y * v.y + v.z * v.z == SHELL_SPEED * SHELL_SPEED
  {
    Elevation(m, cannon);
    Circle(m, heading + turret);
    MuzzleShape(heading, turret, cannon, m);
  }

  /** The shell starts at the end of the barrel: BARREL_LENGTH from the turret
      pivot, in the direction the shell flies. */
  lemma MuzzleOnBarrel(loc: Vec3, heading: real, turret: real, cannon: real, m: Math)
    requires m.Valid() && m.Pythagorean()
    ensures var e, p := MuzzlePoint(loc, heading, turret, cannon, m), Pivot(loc, heading, m);
            var dx, dy, dz := e.x - p.x, e.y - p.y, e.z - p.z;
            dx * dx + dy * dy + dz * dz == BARREL_LENGTH * BARREL_LENGTH
    ensures var e, p, v := MuzzlePoint(loc, heading, turret, cannon, m), Pivot(loc, heading, m),
                           MuzzleVelocity(heading, turret, cannon, m);
            SHELL_SPEED * (e.x - p.x) == BARREL_LENGTH * v.x &&
            SHELL_SPEED * (e.y - p.y) == BARREL_LENGTH * v.y &&
            SHELL_SPEED * (e.z - p.z) == BARREL_LENGTH * v.z
  {
    Elevation(m, cannon);
    Circle(m, heading + turret);
    BarrelShape(loc, heading, turret, cannon, m);
  }

  /** The velocity in spherical form, given the two unit circles. */
  lemma MuzzleShape(heading: real, turret: real, cannon: real, m: Math)
    requires var c, s := m.cos(cannon), m.sin(-cannon); c * c + s * s == 1.0
    requires var a, b := m.sin(heading + turret), m.cos(heading + turret); a * a + b * b == 1.0
    ensures var v := MuzzleVelocity(heading, turret, cannon, m);
            v.x * v.x + v.y * v.y + v.z * v.z == SHELL_SPEED * SHELL_SPEED
  {
    var b := heading + turret;
    var v := MuzzleVelocity(heading, turret, cannon, m);
    SphereRadius(SHELL_SPEED, m.cos(cannon), m.sin(-cannon), m.sin(b), m.cos(b), v.x, v.y, v.z);
  }

  /** The barrel in spherical form, given the two unit circles. */
  lemma BarrelShape(loc: Vec3, heading: real, turret: real, cannon: real, m: Math)
    requires m.cos(-cannon) == m.cos(cannon)
    requires var c, s := m.cos(cannon), m.sin(-cannon); c * c + s * s == 1.0
    requires var a, b := m.sin(heading + turret), m.cos(heading + turret); a * a + b * b == 1.0
    ensures var e, p := MuzzlePoint(loc, heading, turret, cannon, m), Pivot(loc, heading, m);
            var dx, dy, dz := e.x - p.x, e.y - p.y, e.z - p.z;
            dx * dx + dy * dy + dz * dz == BARREL_LENGTH * BARREL_LENGTH
    ensures var e, p, v := MuzzlePoint(loc, heading, turret, cannon, m), Pivot(loc, heading, m),
                           MuzzleVelocity(heading, turret, cannon, m);
            SHELL_SPEED * (e.x - p.x) == BARREL_LENGTH * v.x &&
            SHELL_SPEED * (e.y - p.y) == BARREL_LENGTH * v.y &&
            SHELL_SPEED * (e.z - p.z) == BARREL_LENGTH * v.z
  {
    var b := heading + turret;
    var e, p := MuzzlePoint(loc, heading, turret, cannon, m), Pivot(loc, heading, m);
    SphereRadius(BARREL_LENGTH, m.cos(cannon), m.sin(-cannon), m.sin(b), m.cos(b), e.x - p.x, e.y - p.y, e.z - p.z);
  }

  lemma Elevation(m: Math, x: real)
    requires m.Valid() && m.Pythagorean()
    ensures m.cos(-x) == m.cos(x)
    ensures m.cos(x) * m.cos(x) + m.sin(-x) * m.sin(-x) == 1.0
  {
    assert m.sin(-x) == -m.sin(x);
    assert m.sin(x) * m.sin(x) + m.cos(x) * m.cos(x) == 1.0;
  }

  lemma Circle(m: Math, x: real)
    requires m.Pythagorean()
    ensures m.sin(x) * m.sin(x) + m.cos(x) * m.cos(x) == 1.0
  {
  }

  /** A vector of length r written in spherical form. */
  lemma SphereRadius(r: real, c: real, s: real, a: real, b: real, x: real, y: real, z: real)
    requires c * c + s * s == 1.0 && a * a + b * b == 1.0
    requires x == r * c * a && y == r * s && z == r * c * b
    ensures x * x + y * y + z * z == r * r
  {
    assert (r * c * a) * (r * c * a) + (r * c * b) * (r * c * b) == r * r * (c * c) * (a * a + b * b);
    assert (r * s) * (r * s) == r * r * (s * s);
    assert r * r * (c * c) + r * r * (s * s) == r * r * (c * c + s * s);
  }
}
