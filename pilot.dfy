/** The arithmetic of the AI controller: the 1000-unit block grid, the bearing
    of the target, the relative angle, the choice of the next command, the
    quarter-turn targets, and the aiming estimate of where a shell lands. */
module Pilot {
  import opened MathLib
  import opened Geometry
  import Kinematics

  /** Tank.AIMove */
  datatype AIMove = None | Forward | Backward | TurnLeft | TurnRight

  /** The orders an AI tank follows: its command and the targets it drives or
      turns toward. */
  datatype Orders = Orders(command: AIMove, targetLocation: real, targetRotation: real)

  /** The gravity and the launch height AIAim assumes. */
  const AIM_GRAVITY: real := 980.0665
  const AIM_HEIGHT: real := 400.0
  const LOCK_ANGLE: real := PI / 10.0
  const LOCK_DISTANCE: real := 600.0
  const NUDGE_DISTANCE: real := 300.0
  const FIRING_RANGE: real := 8000.0

  function IntAbs(n: int): nat { if n < 0 then -n else n }

  /** A block coordinate: (int)(x/1000) plus Math.Sign(signOf).  Both the
      tank's and the target's blocks are shifted by the sign of the tank's own
      coordinate. */
  function Cell(x: real, signOf: real): int {
    Truncate(x / 1000.0) + Sign(signOf)
  }

  /** The angle of (dx, dy) measured from the +y axis, as computed from acos of
      |dy| / len; 0 when len is 0. */
  function Bearing(dx: real, dy: real, len: real, m: Math): real {
    if len != 0.0 then
      var a := m.acos(Abs(dy) / len);
      if dx < 0.0 && dy < 0.0 then a - PI
      else if dy < 0.0 then PI - a
      else if dx < 0.0 then -a
      else a
    else 0.0
  }

  /** angle - heading, corrected once downward and once upward by 2*pi. */
  function RelAngle(angle: real, heading: real): real {
    var r := angle - heading;
    var r1 := if r > PI then r - TWO_PI else r;
    if r1 < -PI then r1 + TWO_PI else r1
  }

  /** The quarter-turn targets of CalculateNextCommand. */
  function TurnLeftTarget(h: real): real {
    var t := h + HALF_PI;
    if t > TWO_PI then t - TWO_PI else t
  }

  function TurnRightTarget(h: real): real {
    var t := h - HALF_PI;
    if t < 0.0 then t + TWO_PI else t
  }

  /** The tank's position projected on its heading, as AIForward/AIBackward
      compare it with targetLocation. */
  function Projection(loc: Vec3, heading: real, m: Math): real {
    loc.x * m.sin(heading) + loc.z * m.cos(heading)
  }

  /** The projected position `offset` units past the tank's block corner:
      -2500 for a forward run, +1500 for a backward run. */
  function RunTarget(loc: Vec3, heading: real, offset: real, m: Math): real {
    var tx, ty := Cell(loc.x, loc.x), Cell(loc.z, loc.z);
    (tx as real * 1000.0 + offset * Sign(loc.x) as real) * m.sin(heading) +
    (ty as real * 1000.0 + offset * Sign(loc.z) as real) * m.cos(heading)
  }

  /** A block coordinate on a street line: (|c| - 2) % 3 == 0.  The source
      takes the remainder of a float; its sign may differ from Dafny's, but
      whether it is zero does not. */
  predicate OnStreet(c: int) { (IntAbs(c) - 2) % 3 == 0 }

  /** The block offset from the tank to its target. */
  function CellOffset(tank: Vec3, enemy: Vec3): (int, int) {
    (Cell(enemy.x, tank.x) - Cell(tank.x, tank.x), Cell(enemy.z, tank.z) - Cell(tank.z, tank.z))
  }

  function CellLength(tank: Vec3, enemy: Vec3, m: Math): real {
    var (dx, dy) := CellOffset(tank, enemy);
    m.sqrt((dx * dx + dy * dy) as real)
  }

  /** The angle CalculateNextCommand turns by to face the target's block. */
  function CellRelAngle(tank: Vec3, enemy: Vec3, heading: real, m: Math): real {
    var (dx, dy) := CellOffset(tank, enemy);
    RelAngle(Bearing(dx as real, dy as real, CellLength(tank, enemy, m), m), heading)
  }

  /** CalculateNextCommand: the orders that follow `o` for a tank at `tank`
      with heading `heading` whose target is at `enemy`. */
  function NextCommand(tank: Vec3, enemy: Vec3, heading: real, o: Orders, m: Math): Orders {
    var len := CellLength(tank, enemy, m);
    var rel := CellRelAngle(tank, enemy, heading, m);
    if Abs(rel) < HALF_PI then
      if len > 6.0 then Orders(Forward, RunTarget(tank, heading, -2500.0, m), o.targetRotation)
      else if len < 4.0 then Orders(Backward, RunTarget(tank, heading, 1500.0, m), o.targetRotation)
      else o
    else if OnStreet(Cell(tank.x, tank.x)) || OnStreet(Cell(tank.z, tank.z)) then
      o.(command := Forward)
    else if rel > 0.0 then Orders(TurnLeft, o.targetLocation, TurnLeftTarget(heading))
    else if rel < 0.0 then Orders(TurnRight, o.targetLocation, TurnRightTarget(heading))
    else o
  }

  /** The time the aiming estimate gives a shell with vertical speed yVel to
      fall AIM_HEIGHT: the larger root of the quadratic. */
  function FlightTime(yVel: real, m: Math): real {
    var d := m.sqrt(yVel * yVel + AIM_GRAVITY * 2.0 * AIM_HEIGHT);
    Max((-yVel + d) / -AIM_GRAVITY, (-yVel - d) / -AIM_GRAVITY)
  }

  /** The distance a shell fired at cannon angle `cannon` is estimated to
      travel. */
  function AimDistance(cannon: real, m: Math): real {
    var yVel := Kinematics.SHELL_SPEED * m.sin(-cannon);
    350.0 + Kinematics.SHELL_SPEED * m.cos(cannon) * FlightTime(yVel, m)
  }

  /** The lock condition of AIAim: turret within pi/10 of the target's relative
      angle and the estimate within 600 units of the distance, both strict. */
  predicate Locked(turret: real, rel: real, aim: real, distance: real) {
    turret < rel + LOCK_ANGLE && turret > rel - LOCK_ANGLE &&
    aim < distance + LOCK_DISTANCE && aim > distance - LOCK_DISTANCE
  }

  /** AIAim's bearing of the target relative to the hull, from the full 3D
      offset (its length includes the height difference). */
  function TargetBearing(tank: Vec3, enemy: Vec3, heading: real, m: Math): real {
    var d := Sub3(enemy, tank);
    RelAngle(Bearing(d.x, d.z, m.sqrt(d.x * d.x + d.y * d.y + d.z * d.z), m), heading)
  }

  /** AIAim's distance to the target, measured on the ground plane. */
  function GroundDistance(tank: Vec3, enemy: Vec3, m: Math): real {
    var dx, dz := enemy.x - tank.x, enemy.z - tank.z;
    m.sqrt(dx * dx + dz * dz)
  }

  /** The turret step AIAim takes when not locked: toward the bearing when
      outside the lock window, otherwise the way the coin says. */
  function TurretMove(turret: real, rel: real, leftCoin: bool): real {
    if turret > rel + LOCK_ANGLE then Kinematics.TurretRight(turret)
    else if turret < rel - LOCK_ANGLE then Kinematics.TurretLeft(turret)
    else if leftCoin then Kinematics.TurretLeft(turret)
    else Kinematics.TurretRight(turret)
  }

  /** The cannon step AIAim takes when not locked: down when the estimate
      overshoots by more than 300, up when it falls short, otherwise the way
      the coin says. */
  function CannonMove(cannon: real, aim: real, distance: real, upCoin: bool): real {
    if aim > distance + NUDGE_DISTANCE then Kinematics.CannonDown(cannon)
    else if aim < distance - NUDGE_DISTANCE then Kinematics.CannonUp(cannon)
    else if upCoin then Kinematics.CannonUp(cannon)
    else Kinematics.CannonDown(cannon)
  }

  /** The aiming state of an AI tank: its turret and cannon angles and the
      flag that holds fire for a tick after the aim was corrected. */
  datatype Aim = Aim(turret: real, cannon: real, aiming: bool)

  /** One tick of AIAim for a target at relative angle `rel` and ground
      distance `distance`: the new aiming state, and whether the tank pulls
      the trigger.  `dropAim`, `turretCoin` and `cannonCoin` are the draws of
      Random: `Next(4) == 1`, and the two `Next(2) < 1`. */
  function AimStep(a: Aim, rel: real, distance: real, dropAim: bool, turretCoin: bool, cannonCoin: bool, m: Math): (Aim, bool) {
    var estimate := AimDistance(a.cannon, m);
    if Locked(a.turret, rel, estimate, distance) then
      var aiming := a.aiming && !dropAim;
      (a.(aiming := aiming), !aiming && distance < FIRING_RANGE)
    else
      (Aim(TurretMove(a.turret, rel, turretCoin), CannonMove(a.cannon, estimate, distance, cannonCoin), true), false)
  }

  // ---------------------------------------------------------------------------
  // Properties

  /** The bearing lies in [-pi, pi], on the side of the target's x offset. */
  lemma BearingRange(dx: real, dy: real, len: real, m: Math)
    requires m.Valid()
    ensures var a := Bearing(dx, dy, len, m);
            -PI <= a <= PI && (dx < 0.0 ==> a <= 0.0) && (dx >= 0.0 ==> a >= 0.0)
  {
  }

  /** For a bearing in [-pi, pi] and a heading in [0, 2*pi], the relative angle
      lands in [-pi, pi] and differs from angle - heading by a whole turn at most. */
  lemma RelAngleRange(angle: real, heading: real)
    requires -PI <= angle <= PI && 0.0 <= heading <= TWO_PI
    ensures var r := RelAngle(angle, heading);
            -PI <= r <= PI &&
            (r == angle - heading || r == angle - heading + TWO_PI || r == angle - heading - TWO_PI)
  {
  }

  /** Both quarter-turn targets stay in [0, 2*pi] and lie a quarter turn from
      the heading, modulo a full turn. */
  lemma TurnTargetsInRange(h: real)
    requires 0.0 <= h <= TWO_PI
    ensures var l, r := TurnLeftTarget(h), TurnRightTarget(h);
            0.0 <= l <= TWO_PI && 0.0 <= r <= TWO_PI &&
            (l == h + HALF_PI || l == h + HALF_PI - TWO_PI) &&
            (r == h - HALF_PI || r == h - HALF_PI + TWO_PI)
  {
  }

  /** The orders keep the turn target in [0, 2*pi]. */
  lemma NextCommandKeepsTarget(tank: Vec3, enemy: Vec3, heading: real, o: Orders, m: Math)
    requires 0.0 <= heading <= TWO_PI && 0.0 <= o.targetRotation <= TWO_PI
    ensures 0.0 <= NextCommand(tank, enemy, heading, o, m).targetRotation <= TWO_PI
  {
    TurnTargetsInRange(heading);
  }

  /** Facing within a quarter turn of the target, the tank never turns: it runs
      forward toward the block two short of its own when the target is more
      than 6 blocks away, backward when fewer than 4, and otherwise keeps its
      orders.  Facing away, it runs forward when its block is on a street
      line, and otherwise turns a quarter turn toward the side the target is
      on; a new Forward or a new turn arises in no other way. */
  lemma {:induction false} NextCommandDecides(tank: Vec3, enemy: Vec3, heading: real, o: Orders, m: Math)
    ensures var r, len, rel := NextCommand(tank, enemy, heading, o, m), CellLength(tank, enemy, m),
                               CellRelAngle(tank, enemy, heading, m);
            var street := OnStreet(Cell(tank.x, tank.x)) || OnStreet(Cell(tank.z, tank.z));
            (Abs(rel) < HALF_PI ==>
               (r.command == Forward <==> len > 6.0 || (4.0 <= len <= 6.0 && o.command == Forward)) &&
               (r.command == Backward <==> (len < 4.0 || (len <= 6.0 && o.command == Backward))) &&
               (len > 6.0 ==> r.targetLocation == RunTarget(tank, heading, -2500.0, m)) &&
               (len < 4.0 ==> r.targetLocation == RunTarget(tank, heading, 1500.0, m)) &&
               r.targetRotation == o.targetRotation &&
               (4.0 <= len <= 6.0 ==> r == o)) &&
            (Abs(rel) >= HALF_PI && street ==> r == o.(command := Forward)) &&
            (Abs(rel) >= HALF_PI && !street && rel > 0.0 ==>
               r == Orders(TurnLeft, o.targetLocation, TurnLeftTarget(heading))) &&
            (Abs(rel) >= HALF_PI && !street && rel < 0.0 ==>
               r == Orders(TurnRight, o.targetLocation, TurnRightTarget(heading))) &&
            (r.command == Forward && o.command != Forward && len <= 6.0 ==> street) &&
            (r.command == TurnLeft && o.command != TurnLeft ==> rel >= HALF_PI && r.targetRotation == TurnLeftTarget(heading)) &&
            (r.command == TurnRight && o.command != TurnRight ==> rel <= -HALF_PI && r.targetRotation == TurnRightTarget(heading))
  {
  }

  /** The estimated flight time is positive and is when a shell launched
      AIM_HEIGHT up with vertical speed yVel comes back down to the ground. */
  lemma {:induction false} FlightTimeLands(yVel: real, m: Math)
    requires m.Valid()
    ensures var t := FlightTime(yVel, m);
            t > 0.0 && AIM_HEIGHT + yVel * t - 0.5 * AIM_GRAVITY * t * t == 0.0
  {
    var disc := yVel * yVel + AIM_GRAVITY * 2.0 * AIM_HEIGHT;
    var d := m.sqrt(disc);
    assert disc >= 0.0;
    assert d >= 0.0 && d * d == disc;
    RootExceedsSpeed(yVel, d, disc);
    var t := (-yVel - d) / -AIM_GRAVITY;
    assert FlightTime(yVel, m) == t;
    LandingIdentity(yVel, d);
  }

  lemma RootExceedsSpeed(y: real, d: real, disc: real)
    requires d >= 0.0 && d * d == disc && disc == y * y + AIM_GRAVITY * 2.0 * AIM_HEIGHT
    ensures d > y && d > -y
  {
  }

  lemma LandingIdentity(y: real, d: real)
    requires d * d == y * y + AIM_GRAVITY * 2.0 * AIM_HEIGHT
    ensures var t := (-y - d) / -AIM_GRAVITY;
            AIM_HEIGHT + y * t - 0.5 * AIM_GRAVITY * t * t == 0.0
  {
    var t := (y + d) / AIM_GRAVITY;
    assert (-y - d) / -AIM_GRAVITY == t;
    assert AIM_GRAVITY * t == y + d;
    assert 0.5 * AIM_GRAVITY * t * t == 0.5 * t * (y + d);
    assert y * t - 0.5 * t * (y + d) == 0.5 * t * (y - d);
    assert 0.5 * t * (y - d) == 0.5 * (y + d) * (y - d) / AIM_GRAVITY;
    assert (y + d) * (y - d) == y * y - d * d;
  }

  /** Outside the lock window and away from its stops, the turret step brings
      the turret strictly closer to the target's bearing, and by less than the
      window's half-width, so it never jumps across the window. */
  lemma TurretMoveApproaches(turret: real, rel: real, leftCoin: bool)
    requires -Kinematics.TURRET_LIMIT < turret < Kinematics.TURRET_LIMIT
    requires turret > rel + LOCK_ANGLE || turret < rel - LOCK_ANGLE
    ensures var t := TurretMove(turret, rel, leftCoin);
            Abs(t - rel) < Abs(turret - rel) && Abs(t - rel) > LOCK_ANGLE - Kinematics.TURRET_STEP
  {
  }

  /** Away from its stops, the cannon always moves by exactly one step: up
      (the angle decreases) when the estimate falls short by more than 300,
      down when it overshoots by more than 300. */
  lemma CannonMoveDirection(cannon: real, aim: real, distance: real, upCoin: bool)
    requires -Kinematics.CANNON_LIMIT < cannon < 0.0
    ensures aim > distance + NUDGE_DISTANCE ==>
              CannonMove(cannon, aim, distance, upCoin) == cannon + Kinematics.CANNON_STEP
    ensures aim < distance - NUDGE_DISTANCE ==>
              CannonMove(cannon, aim, distance, upCoin) == cannon - Kinematics.CANNON_STEP
    ensures Abs(CannonMove(cannon, aim, distance, upCoin) - cannon) == Kinematics.CANNON_STEP
  {
  }

  /** Locked, the tank holds its turret and cannon still and pulls the trigger
      exactly when it is not re-aiming and the target is within 8000 units;
      not locked, it re-arms the hesitation flag, never fires, and moves the
      turret and the cannon by one call each. */
  lemma AimStepEffect(a: Aim, rel: real, distance: real, dropAim: bool, turretCoin: bool, cannonCoin: bool, m: Math)
    ensures var (r, fire) := AimStep(a, rel, distance, dropAim, turretCoin, cannonCoin, m);
            if Locked(a.turret, rel, AimDistance(a.cannon, m), distance) then
              r.turret == a.turret && r.cannon == a.cannon && r.aiming == (a.aiming && !dropAim) &&
              (fire <==> !r.aiming && distance < FIRING_RANGE)
            else
              r.aiming && !fire &&
              (r.turret == Kinematics.TurretLeft(a.turret) || r.turret == Kinematics.TurretRight(a.turret)) &&
              (r.cannon == Kinematics.CannonUp(a.cannon) || r.cannon == Kinematics.CannonDown(a.cannon))
  {
  }

  /** The lock window is open: at exactly pi/10 of turret error or exactly
      600 units of range error the tank is not locked. */
  lemma LockBoundaryExclusive(rel: real, distance: real, aim: real, turret: real)
    ensures !Locked(rel + LOCK_ANGLE, rel, aim, distance) && !Locked(rel - LOCK_ANGLE, rel, aim, distance)
    ensures !Locked(turret, rel, distance + LOCK_DISTANCE, distance) && !Locked(turret, rel, distance - LOCK_DISTANCE, distance)
  {
  }
}
