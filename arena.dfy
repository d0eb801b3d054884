/** The game objects that change state: the game's component list, the tanks
    and the shells.  A tank moves, steers, aims, fires and (when driven by the
    AI) decides what to do each tick; a shell flies and, when it strikes a
    tank or a building, damages or removes it and then removes itself. */
module Arena {
  import opened MathLib
  import opened Geometry
  import opened Footprint
  import K = Kinematics
  import P = Pilot
  import B = Ballistics

  /** The entries of the game's component list this model knows about. */
  datatype Component = TankC(tank: Tank) | BuildingC(building: Building) | ShellC(shell: Shell)

  /** The tanks in a component list. */
  function TanksOf(cs: seq<Component>): (r: set<Tank>)
    ensures forall i :: 0 <= i < |cs| && cs[i].TankC? ==> cs[i].tank in r
    ensures forall t :: t in r ==> TankC(t) in cs
  {
    set i | 0 <= i < |cs| && cs[i].TankC? :: cs[i].tank
  }

  /** The tank a component is, if it is one. */
  function TankOf(c: Component): set<Tank> {
    if c.TankC? then {c.tank} else {}
  }

  /** What a moving tank or a flying shell sees of one component: a tank
      where it stands and the way it faces, a building, or nothing it can
      collide with. */
  datatype Target = TankAt(tank: Tank, location: Vec3, heading: real) | BuildingAt(building: Building) | Clear

  /** The targets of a component list, read off the tanks' current poses; the
      tanks in `skip` are read as Clear. */
  function View(cs: seq<Component>, skip: set<Tank>): (r: seq<Target>)
    reads set t | t in TanksOf(cs) - skip :: t`location
    reads set t | t in TanksOf(cs) - skip :: t`totalRotation
    ensures |r| == |cs|
    ensures forall i :: 0 <= i < |cs| ==>
              r[i] == match cs[i]
                      case TankC(t) => if t in skip then Clear else TankAt(t, t.location, t.totalRotation)
                      case BuildingC(b) => BuildingAt(b)
                      case ShellC(_) => Clear
    decreases |cs|
  {
    if cs == [] then []
    else
      TanksOfTail(cs);
      var head := match cs[0]
                  case TankC(t) => if t in skip then Clear else (assert t in TanksOf(cs) - skip; TankAt(t, t.location, t.totalRotation))
                  case BuildingC(b) => BuildingAt(b)
                  case ShellC(_) => Clear;
      assert TanksOf(cs[1..]) - skip <= TanksOf(cs) - skip;
      [head] + View(cs[1..], skip)
  }

  lemma TanksOfTail(cs: seq<Component>)
    requires cs != []
    ensures TanksOf(cs[1..]) <= TanksOf(cs)
  {
    forall t | t in TanksOf(cs[1..]) ensures t in TanksOf(cs) {
      var i :| 0 <= i < |cs[1..]| && cs[1..][i] == TankC(t);
      assert cs[i + 1] == TankC(t);
    }
  }

  /** The position of the first occurrence of c. */
  function IndexOf(cs: seq<Component>, c: Component): (k: nat)
    requires c in cs
    ensures k < |cs| && cs[k] == c && c !in cs[..k]
  {
    if cs[0] == c then 0
    else
      var k := IndexOf(cs[1..], c);
      assert cs[..k + 1] == [cs[0]] + cs[1..][..k];
      k + 1
  }

  /** List.Remove: drop the first occurrence of c, if there is one. */
  function RemoveFirst(cs: seq<Component>, c: Component): (r: seq<Component>)
    ensures c !in cs ==> r == cs
    ensures c in cs ==> r == cs[..IndexOf(cs, c)] + cs[IndexOf(cs, c) + 1..]
  {
    if |cs| == 0 then cs
    else if cs[0] == c then cs[1..]
    else
      ShiftRemoval(cs, c);
      [cs[0]] + RemoveFirst(cs[1..], c)
  }

  /** Cutting c out of cs, when cs does not start with it, is cutting it out
      of the tail. */
  lemma ShiftRemoval(cs: seq<Component>, c: Component)
    requires cs != [] && cs[0] != c
    ensures c in cs <==> c in cs[1..]
    ensures c in cs ==> cs[..IndexOf(cs, c)] + cs[IndexOf(cs, c) + 1..] ==
                        [cs[0]] + (cs[1..][..IndexOf(cs[1..], c)] + cs[1..][IndexOf(cs[1..], c) + 1..])
  {
    if c in cs {
      var i :| 0 <= i < |cs| && cs[i] == c;
      assert cs[1..][i - 1] == c;
      var j := IndexOf(cs[1..], c);
      assert IndexOf(cs, c) == j + 1;
      var head, tail := cs[..j + 1], cs[j + 2..];
      assert head == [cs[0]] + cs[1..][..j];
      assert tail == cs[1..][j + 1..];
      assert head + tail == [cs[0]] + (cs[1..][..j] + tail);
    }
    if c in cs[1..] {
      var i :| 0 <= i < |cs[1..]| && cs[1..][i] == c;
      assert cs[i + 1] == c;
    }
  }

  /** The location of the first human-driven tank in cs[k..], or `fallback`
      when there is none: the target HandleAI picks. */
  function EnemyFrom(cs: seq<Component>, k: nat, fallback: Vec3): (r: Vec3)
    requires k <= |cs|
    reads set t | t in TanksOf(cs) :: t`isAI
    reads set t | t in TanksOf(cs) :: t`location
    decreases |cs| - k
    ensures (forall i :: k <= i < |cs| ==> !(cs[i].TankC? && !cs[i].tank.isAI)) ==> r == fallback
    ensures (exists i :: k <= i < |cs| && cs[i].TankC? && !cs[i].tank.isAI) ==>
              exists i :: k <= i < |cs| && cs[i].TankC? && !cs[i].tank.isAI && r == cs[i].tank.location &&
                          forall j :: k <= j < i ==> !(cs[j].TankC? && !cs[j].tank.isAI)
  {
    if k == |cs| then fallback
    else if cs[k].TankC? && !cs[k].tank.isAI then cs[k].tank.location
    else EnemyFrom(cs, k + 1, fallback)
  }

  /** The component list after a shell strikes cs[k] (k == |cs|: it strikes
      nothing).  A struck building is removed; a struck tank that had `health`
      points is removed when the strike takes its last one. */
  function AfterStrike(cs: seq<Component>, k: nat, health: int): seq<Component>
    requires k <= |cs|
  {
    if k == |cs| then cs
    else match cs[k]
      case TankC(_) => if health - 1 <= 0 then RemoveFirst(cs, cs[k]) else cs
      case BuildingC(_) => RemoveFirst(cs, cs[k])
      case ShellC(_) => cs
  }

  /** The health of the tank at cs[k], if there is one. */
  function StruckHealth(cs: seq<Component>, k: nat): int
    reads set t | t in TanksOf(cs) :: t`health
  {
    if k < |cs| && cs[k].TankC? then cs[k].tank.health else 0
  }

  /** The points of health tank t loses when a shell strikes cs[k]: one if t
      is the struck tank, none otherwise. */
  function Loss(cs: seq<Component>, k: nat, t: Tank): int {
    if k < |cs| && cs[k] == TankC(t) then 1 else 0
  }

  /** The game: its list of components, in order. */
  class Game {
    var components: seq<Component>

    constructor()
      ensures components == []
    {
      components := [];
    }

    method Add(c: Component)
      modifies this`components
      ensures components == old(components) + [c]
    {
      components := components + [c];
    }

    method Remove(c: Component)
      modifies this`components
      ensures components == RemoveFirst(old(components), c)
    {
      components := RemoveFirst(components, c);
    }
  }

  /** The part of a tank that driving changes: where it is and which way it
      faces, its steering and wheel angles, and the AI's orders. */
  datatype Drive = Drive(pose: K.Pose, steer: real, front: real, back: real, orders: P.Orders)

  /** The steering correction of AITurnLeft/AITurnRight: snap to 0 within 1/300. */
  function Straighten(a: real): real {
    if Abs(a) < 1.0 / 300.0 then 0.0 else a
  }

  class Tank {
    const game: Game
    var location: Vec3
    var totalRotation: real
    var steerRotation: real
    var turretRotation: real
    var cannonRotation: real
    var frontWheelRotation: real
    var backWheelRotation: real
    var health: int
    var isAI: bool
    var cannonCooldown: real
    var cannonFired: real
    var updateCannonTimer: bool
    var cannonReloading: bool
    var currentCommand: P.AIMove
    var targetRotation: real
    var targetLocation: real
    var enemyLocation: Vec3
    var aiming: bool

    /** The control angles stay near their limits, the heading, the turn
        target and the wheels stay in [0, 2*pi], and the cooldown matches the
        controller. */
    ghost predicate Valid()
      reads this`steerRotation, this`turretRotation, this`cannonRotation, this`totalRotation, this`targetRotation
      reads this`frontWheelRotation, this`backWheelRotation, this`isAI, this`cannonCooldown
    {
      InReach() && InRange() && cannonCooldown == (if isAI then 3.0 else 1.5)
    }

    /** The steering, turret and cannon angles stay within their limits, each
        of which a step can overshoot by less than one step. */
    ghost predicate InReach()
      reads this`steerRotation, this`turretRotation, this`cannonRotation
    {
      -K.STEER_LIMIT - K.STEER_STEP < steerRotation < K.STEER_LIMIT + K.STEER_STEP &&
      -K.TURRET_LIMIT - K.TURRET_STEP < turretRotation < K.TURRET_LIMIT + K.TURRET_STEP &&
      -K.CANNON_LIMIT - K.CANNON_STEP < cannonRotation < K.CANNON_STEP
    }

    /** The heading, the turn target and the wheels stay in [0, 2*pi]. */
    ghost predicate InRange()
      reads this`totalRotation, this`targetRotation, this`frontWheelRotation, this`backWheelRotation
    {
      K.InTurn(totalRotation) && K.InTurn(targetRotation) &&
      K.InTurn(frontWheelRotation) && K.InTurn(backWheelRotation)
    }

    constructor(game: Game, location: Vec3)
      ensures Valid()
      ensures this.game == game && this.location == location
      ensures totalRotation == 0.0 && steerRotation == 0.0 && turretRotation == 0.0 && cannonRotation == 0.0
      ensures frontWheelRotation == 0.0 && backWheelRotation == 0.0
      ensures health == 1 && isAI && cannonCooldown == 3.0 && cannonFired == -1.5
      ensures !cannonReloading && !updateCannonTimer && currentCommand == P.AIMove.None
    {
      this.game := game;
      this.location := location;
      totalRotation, steerRotation, turretRotation, cannonRotation := 0.0, 0.0, 0.0, 0.0;
      frontWheelRotation, backWheelRotation := 0.0, 0.0;
      health := 1;
      isAI := true;
      cannonCooldown := 3.0;
      cannonFired := -1.5;
      updateCannonTimer, cannonReloading := false, false;
      currentCommand := P.AIMove.None;
      targetRotation, targetLocation := 0.0, 0.0;
      enemyLocation := ZERO;
      aiming := false;
    }

    /** The AI property's setter: the cooldown follows the controller. */
    method SetAI(ai: bool)
      requires Valid()
      modifies this`isAI, this`cannonCooldown
      ensures Valid() && isAI == ai
    {
      isAI := ai;
      if !isAI {
        cannonCooldown := 1.5;
      } else {
        cannonCooldown := 3.0;
      }
    }

    function CurrentPose(): K.Pose
      reads this`location, this`totalRotation
    {
      K.Pose(location, totalRotation)
    }

    function Orders(): P.Orders
      reads this`currentCommand, this`targetLocation, this`targetRotation
    {
      P.Orders(currentCommand, targetLocation, targetRotation)
    }

    // -------------------------------------------------------------------------
    // Collision detection

    /** CheckTankCollision and CheckBuildingCollision: whether a target stops
        this tank at `loc` with heading `rot`.  Another tank stops it when
        their footprints meet; the tank itself never does. */
    predicate Blocks(target: Target, loc: Vec3, rot: real, m: Math) {
      match target
      case TankAt(other, otherLoc, otherRot) => other != this && TankBlocks(otherLoc, otherRot, loc, rot, m)
      case BuildingAt(b) => BuildingBlocks(b, loc, rot, m)
      case Clear => false
    }

    /** The `tank != this` guard of CheckTankCollision: a tank never blocks
        itself, wherever its own entry puts it. */
    lemma SelfNeverBlocks(at: Vec3, heading: real, loc: Vec3, rot: real, m: Math)
      ensures !Blocks(TankAt(this, at, heading), loc, rot, m)
    {
    }

    /** What this tank sees of the game: every component but itself. */
    function Surroundings(): (r: seq<Target>)
      reads game`components
      reads set t | t in TanksOf(game.components) - {this} :: t`location
      reads set t | t in TanksOf(game.components) - {this} :: t`totalRotation
    {
      View(game.components, {this})
    }

    /** This tank, placed at `loc` with heading `rot`, reaches the border or
        is stopped by one of the targets. */
    predicate Collides(ts: seq<Target>, loc: Vec3, rot: real, m: Math) {
      OutOfBounds(loc, rot, m) || BlockedFrom(ts, 0, loc, rot, m)
    }

    /** One of the targets ts[k..] stops this tank at `loc` with heading `rot`. */
    predicate BlockedFrom(ts: seq<Target>, k: nat, loc: Vec3, rot: real, m: Math)
      requires k <= |ts|
      decreases |ts| - k
    {
      k < |ts| && (Blocks(ts[k], loc, rot, m) || BlockedFrom(ts, k + 1, loc, rot, m))
    }

    /** BlockedFrom holds exactly when some target from k on blocks. */
    lemma {:induction false} BlockedFromSome(ts: seq<Target>, k: nat, loc: Vec3, rot: real, m: Math)
      requires k <= |ts|
      ensures BlockedFrom(ts, k, loc, rot, m) <==> exists i :: k <= i < |ts| && Blocks(ts[i], loc, rot, m)
      decreases |ts| - k
    {
      if k < |ts| {
        BlockedFromSome(ts, k + 1, loc, rot, m);
        if !Blocks(ts[k], loc, rot, m) {
          assert forall i :: k <= i < |ts| && Blocks(ts[i], loc, rot, m) ==> k + 1 <= i;
        }
      }
    }

    /** The same, against the game as it is now. */
    predicate CollidesAt(loc: Vec3, rot: real, m: Math)
      reads game`components
      reads set t | t in TanksOf(game.components) - {this} :: t`location
      reads set t | t in TanksOf(game.components) - {this} :: t`totalRotation
    {
      Collides(Surroundings(), loc, rot, m)
    }

    /** CollisionDetection: the border first, then the components in order,
        stopping at the first that blocks. */
    method CollisionDetection(m: Math) returns (hit: bool)
      ensures hit == CollidesAt(location, totalRotation, m)
    {
      if OutOfBounds(location, totalRotation, m) {
        return true;
      }
      var cs := game.components;
      ghost var ts := Surroundings();
      var i := 0;
      while i < |cs|
        invariant 0 <= i <= |cs|
        invariant BlockedFrom(ts, 0, location, totalRotation, m) == BlockedFrom(ts, i, location, totalRotation, m)
      {
        match cs[i] {
          case TankC(t) =>
            if t != this && TankBlocks(t.location, t.totalRotation, location, totalRotation, m) {
              assert Blocks(ts[i], location, totalRotation, m);
              return true;
            }
          case BuildingC(b) =>
            if BuildingBlocks(b, location, totalRotation, m) {
              assert Blocks(ts[i], location, totalRotation, m);
              return true;
            }
          case ShellC(_) =>
        }
        i := i + 1;
      }
      return false;
    }

    /** The pose a move ends in: the candidate, unless the tank collides
        there with one of the targets, in which case the starting pose. */
    function Attempt(start: K.Pose, candidate: K.Pose, ts: seq<Target>, m: Math): K.Pose {
      if Collides(ts, candidate.location, candidate.heading, m) then start else candidate
    }

    /** A move never ends in a colliding pose when it starts from a clear one. */
    lemma AttemptStaysClear(start: K.Pose, candidate: K.Pose, ts: seq<Target>, m: Math)
      requires !Collides(ts, start.location, start.heading, m)
      ensures var p := Attempt(start, candidate, ts, m);
              !Collides(ts, p.location, p.heading, m) && (p == start || p == candidate)
    {
    }

    // -------------------------------------------------------------------------
    // Movement and controls

    /** The part of the tank that driving changes: pose, steering, wheels and
        the AI's orders. */
    function DriveState(): Drive
      reads this`location, this`totalRotation, this`steerRotation, this`frontWheelRotation,
            this`backWheelRotation, this`currentCommand, this`targetLocation, this`targetRotation
    {
      Drive(K.Pose(location, totalRotation), steerRotation, frontWheelRotation, backWheelRotation,
            P.Orders(currentCommand, targetLocation, targetRotation))
    }

    /** MoveForward on a drive state: the wheels turn forward, and the tank
        steps along heading + steering and turns, unless the new pose
        collides with one of the targets. */
    function StepForward(d: Drive, ts: seq<Target>, m: Math): Drive
      requires m.Valid()
    {
      d.(pose := Attempt(d.pose, K.ForwardPose(d.pose, d.steer, m), ts, m),
         front := K.WheelForward(d.front, K.FRONT_WHEEL_STEP),
         back := K.WheelForward(d.back, K.BACK_WHEEL_STEP))
    }

    /** MoveBackward on a drive state. */
    function StepBackward(d: Drive, ts: seq<Target>, m: Math): Drive
      requires m.Valid()
    {
      d.(pose := Attempt(d.pose, K.BackwardPose(d.pose, d.steer, m), ts, m),
         front := K.WheelBackward(d.front, K.FRONT_WHEEL_STEP),
         back := K.WheelBackward(d.back, K.BACK_WHEEL_STEP))
    }

    /** A blocked move leaves the pose exactly as it was, and only the wheels
        turn; an unblocked move commits the candidate pose. */
    lemma StepRollsBack(d: Drive, ts: seq<Target>, m: Math)
      requires m.Valid()
      ensures var f := K.ForwardPose(d.pose, d.steer, m);
              StepForward(d, ts, m).pose == (if Collides(ts, f.location, f.heading, m) then d.pose else f)
      ensures var b := K.BackwardPose(d.pose, d.steer, m);
              StepBackward(d, ts, m).pose == (if Collides(ts, b.location, b.heading, m) then d.pose else b)
      ensures StepForward(d, ts, m).steer == d.steer && StepForward(d, ts, m).orders == d.orders
      ensures StepBackward(d, ts, m).steer == d.steer && StepBackward(d, ts, m).orders == d.orders
    {
    }

    /** The transaction shared by MoveForward and MoveBackward: the tank
        takes the candidate pose, runs CollisionDetection there, and goes
        back to the pose it started from if that collides. */
    method TryPose(candidate: K.Pose, m: Math)
      requires Valid() && K.InTurn(candidate.heading)
      modifies this`location, this`totalRotation
      ensures Valid()
      ensures CurrentPose() == Attempt(old(CurrentPose()), candidate, old(Surroundings()), m)
    {
      var start := CurrentPose();
      ghost var ts := Surroundings();
      location, totalRotation := candidate.location, candidate.heading;
      assert Surroundings() == ts;
      var blocked := CollisionDetection(m);
      assert blocked == Collides(ts, candidate.location, candidate.heading, m) by {
        assert Surroundings() == ts;
        assert CollidesAt(location, totalRotation, m) == Collides(ts, location, totalRotation, m);
      }
      if blocked {
        location, totalRotation := start.location, start.heading;
      }
    }

    /** MoveForward: the wheels turn, the tank steps along its steering and
        turns; a step that collides is undone, the wheel turn is not. */
    method MoveForward(m: Math)
      requires Valid() && m.Valid()
      modifies this`location, this`totalRotation, this`frontWheelRotation, this`backWheelRotation
      ensures Valid()
      ensures DriveState() == StepForward(old(DriveState()), old(Surroundings()), m)
    {
      ghost var ts := Surroundings();
      K.WheelsStayInTurn(frontWheelRotation);
      K.WheelsStayInTurn(backWheelRotation);
      frontWheelRotation := K.WheelForward(frontWheelRotation, K.FRONT_WHEEL_STEP);
      backWheelRotation := K.WheelForward(backWheelRotation, K.BACK_WHEEL_STEP);
      K.MovesKeepHeadingInRange(CurrentPose(), steerRotation, m);
      assert Surroundings() == ts && Valid();
      TryPose(K.ForwardPose(CurrentPose(), steerRotation, m), m);
    }

    /** MoveBackward: as MoveForward, in reverse. */
    method MoveBackward(m: Math)
      requires Valid() && m.Valid()
      modifies this`location, this`totalRotation, this`frontWheelRotation, this`backWheelRotation
      ensures Valid()
      ensures DriveState() == StepBackward(old(DriveState()), old(Surroundings()), m)
    {
      ghost var ts := Surroundings();
      K.WheelsStayInTurn(frontWheelRotation);
      K.WheelsStayInTurn(backWheelRotation);
      frontWheelRotation := K.WheelBackward(frontWheelRotation, K.FRONT_WHEEL_STEP);
      backWheelRotation := K.WheelBackward(backWheelRotation, K.BACK_WHEEL_STEP);
      K.MovesKeepHeadingInRange(CurrentPose(), steerRotation, m);
      assert Surroundings() == ts && Valid();
      TryPose(K.BackwardPose(CurrentPose(), steerRotation, m), m);
    }

    method TurnLeft()
      requires Valid()
      modifies this`steerRotation
      ensures Valid() && steerRotation == K.SteerLeft(old(steerRotation))
    {
      if steerRotation < K.STEER_LIMIT {
        steerRotation := steerRotation + K.STEER_STEP;
      }
    }

    method TurnRight()
      requires Valid()
      modifies this`steerRotation
      ensures Valid() && steerRotation == K.SteerRight(old(steerRotation))
    {
      if steerRotation > -K.STEER_LIMIT {
        steerRotation := steerRotation - K.STEER_STEP;
      }
    }

    method TurnTurretLeft()
      requires Valid()
      modifies this`turretRotation
      ensures Valid() && turretRotation == K.TurretLeft(old(turretRotation))
    {
      if turretRotation < K.TURRET_LIMIT {
        turretRotation := turretRotation + K.TURRET_STEP;
      }
    }

    method TurnTurretRight()
      requires Valid()
      modifies this`turretRotation
      ensures Valid() && turretRotation == K.TurretRight(old(turretRotation))
    {
      if turretRotation > -K.TURRET_LIMIT {
        turretRotation := turretRotation - K.TURRET_STEP;
      }
    }

    method CannonUp()
      requires Valid()
      modifies this`cannonRotation
      ensures Valid() && cannonRotation == K.CannonUp(old(cannonRotation))
    {
      if cannonRotation > -K.CANNON_LIMIT {
        cannonRotation := cannonRotation - K.CANNON_STEP;
      }
    }

    method CannonDown()
      requires Valid()
      modifies this`cannonRotation
      ensures Valid() && cannonRotation == K.CannonDown(old(cannonRotation))
    {
      if cannonRotation < 0.0 {
        cannonRotation := cannonRotation + K.CANNON_STEP;
      }
    }

    // -------------------------------------------------------------------------
    // Firing and the reload timer

    /** `after` is `before` with one more shell at the end, owned by this
        tank, in this tank's game, launched with velocity `vel` from `end`. */
    predicate Launched(before: seq<Component>, after: seq<Component>, vel: Vec3, end: Vec3) {
      |after| == |before| + 1 && after[..|before|] == before && after[|before|].ShellC? &&
      var s := after[|before|].shell;
      s.owner == this && s.game == game && s.velocity == vel && s.cannonEnd == end
    }

    /** FireCannon: while reloading, nothing; otherwise one new shell owned by
        this tank, leaving the end of the barrel along it, is appended to the
        components, and the reload timer is armed. */
    method FireCannon(m: Math)
      modifies game`components, this`updateCannonTimer
      ensures updateCannonTimer == (old(updateCannonTimer) || !cannonReloading)
      ensures cannonReloading ==> game.components == old(game.components)
      ensures !cannonReloading ==>
                Launched(old(game.components), game.components,
                         K.MuzzleVelocity(totalRotation, turretRotation, cannonRotation, m),
                         K.MuzzlePoint(location, totalRotation, turretRotation, cannonRotation, m)) &&
                fresh(game.components[|old(game.components)|].shell)
    {
      if !cannonReloading {
        var velocity := K.MuzzleVelocity(totalRotation, turretRotation, cannonRotation, m);
        var cannonEnd := K.MuzzlePoint(location, totalRotation, turretRotation, cannonRotation, m);
        var s := new Shell(game, velocity, cannonEnd, this);
        game.Add(ShellC(s));
        updateCannonTimer := true;
      }
    }

    /** Update at game time `now`: a shot fired in the last tick starts the
        reload clock, an AI tank takes its turn, and the reload ends once more
        than the cooldown has passed since the shot.  The dice are AIAim's
        draws from Random. */
    method Update(now: real, m: Math, dropAim: bool, turretCoin: bool, cannonCoin: bool)
      requires Valid() && m.Valid()
      modifies this`location, this`totalRotation, this`frontWheelRotation, this`backWheelRotation,
               this`steerRotation, this`currentCommand, this`targetLocation, this`targetRotation,
               this`enemyLocation, this`aiming, this`turretRotation, this`cannonRotation,
               this`updateCannonTimer, this`cannonReloading, this`cannonFired, game`components
      ensures Valid()
      ensures cannonFired == (if old(updateCannonTimer) then now else old(cannonFired))
      ensures cannonReloading <==> (old(cannonReloading) || old(updateCannonTimer)) && now - cannonFired <= cannonCooldown
      ensures updateCannonTimer ==> isAI && !old(cannonReloading) && !old(updateCannonTimer) && !cannonReloading
      ensures !isAI ==> game.components == old(game.components) && !updateCannonTimer &&
                        DriveState() == old(DriveState()) && AimState() == old(AimState()) &&
                        enemyLocation == old(enemyLocation)
    {
      if updateCannonTimer {
        cannonReloading := true;
        updateCannonTimer := false;
        cannonFired := now;
      }
      if isAI {
        HandleAI(m, dropAim, turretCoin, cannonCoin);
      }
      if cannonReloading && now - cannonFired > cannonCooldown {
        cannonReloading := false;
      }
    }

    // -------------------------------------------------------------------------
    // The AI

    /** The part of the tank that aiming changes. */
    function AimState(): P.Aim
      reads this`turretRotation, this`cannonRotation, this`aiming
    {
      P.Aim(turretRotation, cannonRotation, aiming)
    }

    /** AIForward on a drive state: drive forward while short of the target
        position along the heading, then drop the command. */
    function AdvanceStep(d: Drive, ts: seq<Target>, m: Math): Drive
      requires m.Valid()
    {
      if P.Projection(d.pose.location, d.pose.heading, m) < d.orders.targetLocation then StepForward(d, ts, m)
      else d.(orders := d.orders.(command := P.AIMove.None))
    }

    /** AIBackward on a drive state: reverse while past the target position
        along the heading, then drop the command. */
    function RetreatStep(d: Drive, ts: seq<Target>, m: Math): Drive
      requires m.Valid()
    {
      if P.Projection(d.pose.location, d.pose.heading, m) > d.orders.targetLocation then StepBackward(d, ts, m)
      else d.(orders := d.orders.(command := P.AIMove.None))
    }

    /** The orders with which a finished quarter turn sets off: forward, to
        2500 units short of the block corner along the new heading. */
    function SetOff(d: Drive, heading: real, m: Math): Drive {
      d.(pose := d.pose.(heading := heading),
         orders := d.orders.(command := P.AIMove.Forward,
                             targetLocation := P.RunTarget(d.pose.location, heading, -2500.0, m)))
    }

    /** The steering half of a quarter turn: the steering takes `steer`, the
        tank steps forward, and the steering becomes `undo` when the step did
        not move it. */
    function SteerAndStep(d: Drive, steer: real, undo: real, ts: seq<Target>, m: Math): Drive
      requires m.Valid()
    {
      var moved := StepForward(d.(steer := steer), ts, m);
      if moved.pose.location == d.pose.location then moved.(steer := undo) else moved
    }

    /** The end of a quarter turn: a steering angle still off centre takes
        the step back toward it (`back`, snapped to 0 near it); a centred
        one lets the tank set off at the target heading. */
    function Settle(d: Drive, back: real, m: Math): Drive {
      if d.steer != 0.0 then d.(steer := Straighten(back))
      else SetOff(d, d.orders.targetRotation, m)
    }

    /** AITurnLeft on a drive state.  Having reached the target heading, the
        tank first straightens its steering one step per tick, then snaps to
        the target heading and sets off forward.  Short of it, it steers left
        and steps forward, taking the steering step back if the step did not
        move it.  The source's exclusion of a target of 2*pi and its pin to
        2*pi for a target of pi compare a single-precision field with a
        double-precision constant no float equals, so neither ever acts and
        neither appears here. */
    function TurnLeftStep(d: Drive, ts: seq<Target>, m: Math): Drive
      requires m.Valid()
    {
      var target := d.orders.targetRotation;
      if d.pose.heading >= target then
        Settle(d, K.SteerRight(d.steer), m)
      else
        var steer := K.SteerLeft(d.steer);
        SteerAndStep(d, steer, K.SteerRight(steer), ts, m)
    }

    /** AITurnRight on a drive state: AITurnLeft mirrored.  Its comparisons
        with 0 are exact in single precision too, so the exclusion of a target
        of 0 and the pin of a step that wraps past 0 back to 0 both act. */
    function TurnRightStep(d: Drive, ts: seq<Target>, m: Math): Drive
      requires m.Valid()
    {
      var target := d.orders.targetRotation;
      if d.pose.heading <= target && target != 0.0 then
        Settle(d, K.SteerLeft(d.steer), m)
      else if d.pose.heading > target then
        var steer := K.SteerRight(d.steer);
        var moved := SteerAndStep(d, steer, K.SteerLeft(steer), ts, m);
        if d.pose.heading < moved.pose.heading && target == 0.0 then moved.(pose := moved.pose.(heading := 0.0))
        else moved
      else d
    }

    /** The movement half of HandleAI: the current command decides. */
    function DriveStep(d: Drive, enemy: Vec3, ts: seq<Target>, m: Math): Drive
      requires m.Valid()
    {
      match d.orders.command
      case None => d.(orders := P.NextCommand(d.pose.location, enemy, d.pose.heading, d.orders, m))
      case Forward => AdvanceStep(d, ts, m)
      case Backward => RetreatStep(d, ts, m)
      case TurnLeft => TurnLeftStep(d, ts, m)
      case TurnRight => TurnRightStep(d, ts, m)
    }

    /** HandleAI: pick the first human-driven tank as the target, carry out
        the current command, then aim (and perhaps fire) from the pose the
        command left. */
    method HandleAI(m: Math, dropAim: bool, turretCoin: bool, cannonCoin: bool)
      requires Valid() && m.Valid()
      modifies this`location, this`totalRotation, this`frontWheelRotation, this`backWheelRotation,
               this`steerRotation, this`currentCommand, this`targetLocation, this`targetRotation,
               this`enemyLocation, this`aiming, this`turretRotation, this`cannonRotation,
               this`updateCannonTimer, game`components
      ensures Valid()
      ensures enemyLocation == old(EnemyFrom(game.components, 0, enemyLocation))
      ensures DriveState() == DriveStep(old(DriveState()), enemyLocation, old(Surroundings()), m)
      ensures Aimed(old(AimState()), old(updateCannonTimer), old(game.components), dropAim, turretCoin, cannonCoin, m)
    {
      ghost var a0, t0, cs0 := AimState(), updateCannonTimer, game.components;
      Maneuver(m);
      assert AimState() == a0 && updateCannonTimer == t0 && game.components == cs0;
      ghost var moved := DriveState();
      AIAim(m, dropAim, turretCoin, cannonCoin);
      assert DriveState() == moved;
    }

    /** HandleAI's movement half: find the target, then carry out the current
        command. */
    method Maneuver(m: Math)
      requires Valid() && m.Valid()
      modifies this`location, this`totalRotation, this`frontWheelRotation, this`backWheelRotation,
               this`steerRotation, this`currentCommand, this`targetLocation, this`targetRotation,
               this`enemyLocation
      ensures Valid()
      ensures enemyLocation == old(EnemyFrom(game.components, 0, enemyLocation))
      ensures DriveState() == DriveStep(old(DriveState()), enemyLocation, old(Surroundings()), m)
    {
      ghost var ts, d := Surroundings(), DriveState();
      FindEnemy();
      assert Surroundings() == ts && DriveState() == d;
      FollowCommand(m);
    }

    /** HandleAI's search for a target: the first human-driven tank among the
        components; the last known location stays when there is none. */
    method FindEnemy()
      requires Valid()
      modifies this`enemyLocation
      ensures Valid()
      ensures enemyLocation == old(EnemyFrom(game.components, 0, enemyLocation))
    {
      var cs := game.components;
      ghost var target := EnemyFrom(cs, 0, enemyLocation);
      var i := 0;
      var found := false;
      while i < |cs| && !found
        invariant 0 <= i <= |cs|
        decreases |cs| - i, if found then 0 else 1
        invariant !found ==> EnemyFrom(cs, i, enemyLocation) == target
        invariant found ==> enemyLocation == target
      {
        if cs[i].TankC? && !cs[i].tank.isAI {
          enemyLocation := cs[i].tank.location;
          found := true;
        } else {
          i := i + 1;
        }
      }
    }

    /** HandleAI's switch on the current command. */
    method FollowCommand(m: Math)
      requires Valid() && m.Valid()
      modifies this`location, this`totalRotation, this`frontWheelRotation, this`backWheelRotation,
               this`steerRotation, this`currentCommand, this`targetLocation, this`targetRotation
      ensures Valid()
      ensures DriveState() == DriveStep(old(DriveState()), enemyLocation, old(Surroundings()), m)
    {
      match currentCommand {
        case None => CalculateNextCommand(m);
        case Forward => AIForward(m);
        case Backward => AIBackward(m);
        case TurnLeft => AITurnLeft(m);
        case TurnRight => AITurnRight(m);
      }
    }

    method CalculateNextCommand(m: Math)
      requires Valid()
      modifies this`currentCommand, this`targetLocation, this`targetRotation
      ensures Valid()
      ensures DriveState() == old(DriveState()).(orders := P.NextCommand(location, enemyLocation, totalRotation, old(Orders()), m))
    {
      P.NextCommandKeepsTarget(location, enemyLocation, totalRotation, Orders(), m);
      var o := P.NextCommand(location, enemyLocation, totalRotation, Orders(), m);
      currentCommand, targetLocation, targetRotation := o.command, o.targetLocation, o.targetRotation;
    }

    method AIForward(m: Math)
      requires Valid() && m.Valid()
      modifies this`location, this`totalRotation, this`frontWheelRotation, this`backWheelRotation, this`currentCommand
      ensures Valid()
      ensures DriveState() == AdvanceStep(old(DriveState()), old(Surroundings()), m)
    {
      var along := P.Projection(location, totalRotation, m);
      if along < targetLocation {
        MoveForward(m);
      } else {
        currentCommand := P.AIMove.None;
      }
    }

    method AIBackward(m: Math)
      requires Valid() && m.Valid()
      modifies this`location, this`totalRotation, this`frontWheelRotation, this`backWheelRotation, this`currentCommand
      ensures Valid()
      ensures DriveState() == RetreatStep(old(DriveState()), old(Surroundings()), m)
    {
      var along := P.Projection(location, totalRotation, m);
      if along > targetLocation {
        MoveBackward(m);
      } else {
        currentCommand := P.AIMove.None;
      }
    }

    method AITurnLeft(m: Math)
      requires Valid() && m.Valid()
      modifies this`location, this`totalRotation, this`frontWheelRotation, this`backWheelRotation,
               this`steerRotation, this`currentCommand, this`targetLocation
      ensures Valid()
      ensures DriveState() == TurnLeftStep(old(DriveState()), old(Surroundings()), m)
    {
      if totalRotation >= targetRotation {
        SettleLeftTurn(m);
      } else {
        SteerLeftAndStep(m);
      }
    }

    method AITurnRight(m: Math)
      requires Valid() && m.Valid()
      modifies this`location, this`totalRotation, this`frontWheelRotation, this`backWheelRotation,
               this`steerRotation, this`currentCommand, this`targetLocation
      ensures Valid()
      ensures DriveState() == TurnRightStep(old(DriveState()), old(Surroundings()), m)
    {
      var oldRotation := totalRotation;
      if totalRotation <= targetRotation && targetRotation != 0.0 {
        SettleRightTurn(m);
        oldRotation := totalRotation;
      } else if totalRotation > targetRotation {
        SteerRightAndStep(m);
      }
      if oldRotation < totalRotation && targetRotation == 0.0 {
        totalRotation := 0.0;
      }
    }

    /** AITurnLeft's branch at the target heading: straighten the steering
        by one step, or set off forward when it is already centred. */
    method SettleLeftTurn(m: Math)
      requires Valid()
      modifies this`totalRotation, this`steerRotation, this`currentCommand, this`targetLocation
      ensures Valid()
      ensures DriveState() == Settle(old(DriveState()), K.SteerRight(old(steerRotation)), m)
    {
      if steerRotation != 0.0 {
        TurnRight();
        if Abs(steerRotation) < 1.0 / 300.0 {
          steerRotation := 0.0;
        }
      } else {
        totalRotation := targetRotation;
        currentCommand := P.AIMove.Forward;
        targetLocation := P.RunTarget(location, totalRotation, -2500.0, m);
      }
    }

    /** AITurnLeft's turning branch: steer left and step forward, taking the
        steering step back when the step did not move the tank. */
    method SteerLeftAndStep(m: Math)
      requires Valid() && m.Valid()
      modifies this`location, this`totalRotation, this`frontWheelRotation, this`backWheelRotation, this`steerRotation
      ensures Valid()
      ensures DriveState() == SteerAndStep(old(DriveState()), K.SteerLeft(old(steerRotation)),
                                           K.SteerRight(K.SteerLeft(old(steerRotation))), old(Surroundings()), m)
    {
      ghost var ts, d := Surroundings(), DriveState();
      var loc := location;
      TurnLeft();
      assert Surroundings() == ts && DriveState() == d.(steer := K.SteerLeft(d.steer));
      MoveForward(m);
      if loc == location {
        TurnRight();
      }
    }

    /** AITurnRight's branch at the target heading, mirrored. */
    method SettleRightTurn(m: Math)
      requires Valid()
      modifies this`totalRotation, this`steerRotation, this`currentCommand, this`targetLocation
      ensures Valid()
      ensures DriveState() == Settle(old(DriveState()), K.SteerLeft(old(steerRotation)), m)
    {
      if steerRotation != 0.0 {
        TurnLeft();
        if Abs(steerRotation) < 1.0 / 300.0 {
          steerRotation := 0.0;
        }
      } else {
        totalRotation := targetRotation;
        currentCommand := P.AIMove.Forward;
        targetLocation := P.RunTarget(location, totalRotation, -2500.0, m);
      }
    }

    /** AITurnRight's turning branch, mirrored. */
    method SteerRightAndStep(m: Math)
      requires Valid() && m.Valid()
      modifies this`location, this`totalRotation, this`frontWheelRotation, this`backWheelRotation, this`steerRotation
      ensures Valid()
      ensures DriveState() == SteerAndStep(old(DriveState()), K.SteerRight(old(steerRotation)),
                                           K.SteerLeft(K.SteerRight(old(steerRotation))), old(Surroundings()), m)
    {
      ghost var ts, d := Surroundings(), DriveState();
      var loc := location;
      TurnRight();
      assert Surroundings() == ts && DriveState() == d.(steer := K.SteerRight(d.steer));
      MoveForward(m);
      if loc == location {
        TurnLeft();
      }
    }

    /** What one AIAim call leaves, from aim state `a0`, reload flag `timer0`
        and components `cs0`: the aim state AimStep gives for the bearing and
        ground distance to the enemy, and, when AimStep fires and the cannon
        is not reloading, one launched shell and the reload timer armed. */
    predicate Aimed(a0: P.Aim, timer0: bool, cs0: seq<Component>, dropAim: bool, turretCoin: bool, cannonCoin: bool, m: Math)
      reads this`location, this`enemyLocation, this`totalRotation, this`turretRotation, this`cannonRotation
      reads this`aiming, this`updateCannonTimer, this`cannonReloading, game`components
    {
      var step := P.AimStep(a0, P.TargetBearing(location, enemyLocation, totalRotation, m),
                            P.GroundDistance(location, enemyLocation, m), dropAim, turretCoin, cannonCoin, m);
      var fire := step.1 && !cannonReloading;
      AimState() == step.0 && updateCannonTimer == (timer0 || fire) &&
      if fire then
        Launched(cs0, game.components,
                 K.MuzzleVelocity(totalRotation, turretRotation, cannonRotation, m),
                 K.MuzzlePoint(location, totalRotation, turretRotation, cannonRotation, m))
      else game.components == cs0
    }

    /** AIAim: when the turret and the range estimate are both within the lock
        window, hold them and fire (unless the aim was re-armed and the dice
        do not drop it, or the target is out of range); otherwise take one
        turret step and one cannon step toward the target. */
    method AIAim(m: Math, dropAim: bool, turretCoin: bool, cannonCoin: bool)
      requires Valid() && m.Valid()
      modifies this`aiming, this`turretRotation, this`cannonRotation,
               this`updateCannonTimer, game`components
      ensures Valid()
      ensures Aimed(old(AimState()), old(updateCannonTimer), old(game.components), dropAim, turretCoin, cannonCoin, m)
    {
      var distance := P.GroundDistance(location, enemyLocation, m);
      var aim := P.AimDistance(cannonRotation, m);
      var rel := P.TargetBearing(location, enemyLocation, totalRotation, m);
      if P.Locked(turretRotation, rel, aim, distance) {
        HoldAim(distance, dropAim, m);
      } else {
        ChaseAim(rel, aim, distance, turretCoin, cannonCoin);
      }
    }

    /** AIAim's locked branch: the dice may drop the aiming flag, and without
        it the tank fires when the target is within range. */
    method HoldAim(distance: real, dropAim: bool, m: Math)
      modifies this`aiming, this`updateCannonTimer, game`components
      ensures aiming == (old(aiming) && !dropAim)
      ensures var fire := !aiming && distance < P.FIRING_RANGE && !cannonReloading;
              updateCannonTimer == (old(updateCannonTimer) || fire) &&
              if fire then
                Launched(old(game.components), game.components,
                         K.MuzzleVelocity(totalRotation, turretRotation, cannonRotation, m),
                         K.MuzzlePoint(location, totalRotation, turretRotation, cannonRotation, m))
              else game.components == old(game.components)
    {
      if dropAim {
        aiming := false;
      }
      if !aiming && distance < P.FIRING_RANGE {
        FireCannon(m);
      }
    }

    /** AIAim's other branch: the aim is re-armed, and the turret and the
        cannon each take one step toward the target. */
    method ChaseAim(rel: real, aim: real, distance: real, turretCoin: bool, cannonCoin: bool)
      requires Valid()
      modifies this`aiming, this`turretRotation, this`cannonRotation
      ensures Valid()
      ensures AimState() == P.Aim(P.TurretMove(old(turretRotation), rel, turretCoin),
                                  P.CannonMove(old(cannonRotation), aim, distance, cannonCoin), true)
    {
      aiming := true;
      TrackTurret(rel, turretCoin);
      TrackCannon(aim, distance, cannonCoin);
    }

    /** AIAim's turret step toward the relative bearing `rel`. */
    method TrackTurret(rel: real, leftCoin: bool)
      requires Valid()
      modifies this`turretRotation
      ensures Valid()
      ensures turretRotation == P.TurretMove(old(turretRotation), rel, leftCoin)
    {
      if turretRotation > rel + P.LOCK_ANGLE {
        TurnTurretRight();
      } else if turretRotation < rel - P.LOCK_ANGLE {
        TurnTurretLeft();
      } else if leftCoin {
        TurnTurretLeft();
      } else {
        TurnTurretRight();
      }
    }

    /** AIAim's cannon step toward the range estimate `aim` matching `distance`. */
    method TrackCannon(aim: real, distance: real, upCoin: bool)
      requires Valid()
      modifies this`cannonRotation
      ensures Valid()
      ensures cannonRotation == P.CannonMove(old(cannonRotation), aim, distance, upCoin)
    {
      if aim > distance + P.NUDGE_DISTANCE {
        CannonDown();
      } else if aim < distance - P.NUDGE_DISTANCE {
        CannonUp();
      } else if upCoin {
        CannonUp();
      } else {
        CannonDown();
      }
    }
  }

  /** A tank hit box grown by the shell's radius. */
  function Grown(size: Vec3): Vec3 {
    Vec3(size.x + B.RADIUS, size.y + B.RADIUS, size.z + B.RADIUS)
  }

  class Shell {
    const game: Game
    const velocity: Vec3
    const cannonEnd: Vec3
    const owner: Tank
    var location: Vec3
    var time: real
    var elapsedTime: real

    constructor(game: Game, velocity: Vec3, cannonEnd: Vec3, owner: Tank)
      ensures this.game == game && this.velocity == velocity && this.cannonEnd == cannonEnd && this.owner == owner
      ensures location == cannonEnd && time == 0.0 && elapsedTime == 0.0
    {
      this.game := game;
      this.velocity := velocity;
      this.cannonEnd := cannonEnd;
      this.owner := owner;
      location := cannonEnd;
      time := 0.0;
      elapsedTime := 0.0;
    }

    /** CheckTankCollision's test, for the shell at `loc` over a tick of `dt`:
        near enough, not the owner, and the segment meets the grown hit box in
        the tank's own frame. */
    predicate TankHit(t: Tank, loc: Vec3, dt: real, m: Math)
      reads t`location, t`totalRotation
    {
      Distance(t.location, loc, m) < B.TANK_REACH && t != owner &&
      var c, s := m.cos(t.totalRotation), m.sin(t.totalRotation);
      var dx, dz := loc.x - t.location.x, loc.z - t.location.z;
      var local := Vec3(dx * c - dz * s, loc.y, dx * s + dz * c);
      var vel := Vec3(velocity.x * c - velocity.z * s, velocity.y, velocity.x * s + velocity.z * c);
      B.HitBox(Grown(TANK_SIZE), vel, local, dt)
    }

    /** CheckBuildingCollision's test. */
    predicate BuildingHit(b: Building, loc: Vec3, dt: real, m: Math) {
      Distance(b.location, loc, m) < B.BUILDING_REACH &&
      B.HitBox(Grown(BUILDING_SIZE), velocity, Vec3(loc.x - b.location.x, loc.y, loc.z - b.location.z), dt)
    }

    /** Whether the shell, at `loc` over a tick of `dt`, strikes component c:
        a tank only while the shell is below the tank's height plus its radius. */
    predicate Strikes(c: Component, loc: Vec3, dt: real, m: Math)
      reads set t | t in TankOf(c) :: t`location
      reads set t | t in TankOf(c) :: t`totalRotation
    {
      match c
      case TankC(t) => loc.y < TANK_SIZE.y + B.RADIUS && TankHit(t, loc, dt, m)
      case BuildingC(b) => BuildingHit(b, loc, dt, m)
      case ShellC(_) => false
    }

    /** The `tank != owner` guard: a shell never strikes the tank that fired it. */
    lemma OwnerNeverStruck(loc: Vec3, dt: real, m: Math)
      ensures !Strikes(TankC(owner), loc, dt, m)
    {
    }

    /** The first component of cs[k..] the shell strikes, or |cs|. */
    function FirstStrike(cs: seq<Component>, k: nat, loc: Vec3, dt: real, m: Math): (r: nat)
      requires k <= |cs|
      reads set t | t in TanksOf(cs) :: t`location
      reads set t | t in TanksOf(cs) :: t`totalRotation
      decreases |cs| - k
      ensures k <= r <= |cs|
      ensures r < |cs| ==> Strikes(cs[r], loc, dt, m)
      ensures forall j :: k <= j < r ==> !Strikes(cs[j], loc, dt, m)
    {
      if k == |cs| then k
      else if Strikes(cs[k], loc, dt, m) then k
      else FirstStrike(cs, k + 1, loc, dt, m)
    }

    /** FirstStrike finds exactly the component that the shell strikes first. */
    lemma {:induction false} FirstStrikeAt(cs: seq<Component>, k: nat, i: nat, loc: Vec3, dt: real, m: Math)
      requires k <= i <= |cs|
      requires forall j :: k <= j < i ==> !Strikes(cs[j], loc, dt, m)
      requires i < |cs| ==> Strikes(cs[i], loc, dt, m)
      ensures FirstStrike(cs, k, loc, dt, m) == i
      decreases i - k
    {
      if k < i {
        FirstStrikeAt(cs, k + 1, i, loc, dt, m);
      }
    }

    /** What CollisionDetection hits from `loc`: nothing in the list when the
        shell is at the ground, else the first component struck. */
    function StrikeIndex(cs: seq<Component>, loc: Vec3, dt: real, m: Math): (k: nat)
      reads set t | t in TanksOf(cs) :: t`location
      reads set t | t in TanksOf(cs) :: t`totalRotation
      ensures k <= |cs|
    {
      if loc.y < B.GROUND then |cs| else FirstStrike(cs, 0, loc, dt, m)
    }

    method CheckTankCollision(t: Tank, m: Math) returns (hit: bool)
      modifies t`health, game`components
      ensures hit == TankHit(t, location, elapsedTime, m)
      ensures hit ==> t.health == old(t.health) - 1 &&
                      game.components == (if t.health <= 0 then RemoveFirst(old(game.components), TankC(t))
                                          else old(game.components))
      ensures !hit ==> t.health == old(t.health) && game.components == old(game.components)
    {
      hit := TankHit(t, location, elapsedTime, m);
      if hit {
        t.health := t.health - 1;
        if t.health <= 0 {
          game.Remove(TankC(t));
        }
      }
    }

    method CheckBuildingCollision(b: Building, m: Math) returns (hit: bool)
      modifies game`components
      ensures hit == BuildingHit(b, location, elapsedTime, m)
      ensures game.components == (if hit then RemoveFirst(old(game.components), BuildingC(b)) else old(game.components))
    {
      hit := BuildingHit(b, location, elapsedTime, m);
      if hit {
        game.Remove(BuildingC(b));
      }
    }

    /** One pass of CollisionDetection's loop: component cs[k] is tested (a
        tank only while the shell is low enough) and, if struck, damaged or
        removed. */
    method TryStrike(cs: seq<Component>, k: nat, m: Math) returns (hit: bool)
      requires k < |cs| && game.components == cs
      modifies game`components, set t | t in TankOf(cs[k]) :: t`health
      ensures hit == old(Strikes(cs[k], location, elapsedTime, m))
      ensures game.components == (if hit then AfterStrike(cs, k, old(StruckHealth(cs, k))) else cs)
      ensures forall t :: t in TanksOf(cs) ==> t.health == old(t.health) - (if hit then Loss(cs, k, t) else 0)
    {
      hit := false;
      match cs[k] {
        case TankC(t) =>
          if location.y < TANK_SIZE.y + B.RADIUS {
            hit := CheckTankCollision(t, m);
          }
        case BuildingC(b) =>
          hit := CheckBuildingCollision(b, m);
        case ShellC(_) =>
      }
    }

    /** The loop of CollisionDetection: the components are tried in order and
        the first struck takes the hit. */
    method Sweep(m: Math) returns (hit: bool)
      modifies game`components, set t | t in TanksOf(game.components) :: t`health
      ensures var k := old(FirstStrike(game.components, 0, location, elapsedTime, m));
              hit <==> k < |old(game.components)|
      ensures var cs := old(game.components);
              var k := old(FirstStrike(game.components, 0, location, elapsedTime, m));
              game.components == AfterStrike(cs, k, old(StruckHealth(cs, k)))
      ensures var cs := old(game.components);
              var k := old(FirstStrike(game.components, 0, location, elapsedTime, m));
              forall t :: t in TanksOf(cs) ==> t.health == old(t.health) - Loss(cs, k, t)
    {
      var cs := game.components;
      var i := 0;
      while i < |cs|
        invariant 0 <= i <= |cs|
        invariant game.components == cs
        invariant forall t :: t in TanksOf(cs) ==> t.health == old(t.health)
        invariant i <= FirstStrike(cs, 0, location, elapsedTime, m) == old(FirstStrike(cs, 0, location, elapsedTime, m))
      {
        assert StruckHealth(cs, i) == old(StruckHealth(cs, i));
        hit := TryStrike(cs, i, m);
        if hit {
          assert old(FirstStrike(cs, 0, location, elapsedTime, m)) == i;
          return;
        }
        i := i + 1;
      }
      return false;
    }

    /** CollisionDetection: a shell at the ground has hit; otherwise the
        components are swept. */
    method CollisionDetection(m: Math) returns (hit: bool)
      modifies game`components, set t | t in TanksOf(game.components) :: t`health
      ensures var cs := old(game.components);
              var k := old(StrikeIndex(game.components, location, elapsedTime, m));
              (hit <==> location.y < B.GROUND || k < |cs|) &&
              game.components == AfterStrike(cs, k, old(StruckHealth(cs, k))) &&
              forall t :: t in TanksOf(cs) ==> t.health == old(t.health) - Loss(cs, k, t)
    {
      if location.y < B.GROUND {
        return true;
      }
      hit := Sweep(m);
    }

    /** Update: the shell is tested against the targets while below 1015 and
        removes itself after a hit; then it moves to where its flight puts it
        at the current time, and the clock advances by the tick `dt`. */
    method Update(dt: real, m: Math)
      modifies this`location, this`time, this`elapsedTime, game`components
      modifies set t | t in TanksOf(game.components) :: t`health
      ensures elapsedTime == dt && time == old(time) + dt
      ensures location == B.Position(cannonEnd, velocity, old(time))
      ensures var cs := old(game.components);
              var tested := old(location).y < B.TEST_CEILING;
              var k := if tested then old(StrikeIndex(game.components, location, dt, m)) else |cs|;
              var hit := tested && (old(location).y < B.GROUND || k < |cs|);
              var after := AfterStrike(cs, k, old(StruckHealth(cs, k)));
              game.components == (if hit then RemoveFirst(after, ShellC(this)) else after) &&
              forall t :: t in TanksOf(cs) ==> t.health == old(t.health) - Loss(cs, k, t)
    {
      ghost var cs, k := game.components, StrikeIndex(game.components, location, dt, m);
      elapsedTime := dt;
      assert StrikeIndex(cs, location, elapsedTime, m) == k;
      if location.y < B.TEST_CEILING {
        var hit := CollisionDetection(m);
        if hit {
          game.Remove(ShellC(this));
        }
      }
      location := B.Position(cannonEnd, velocity, time);
      time := time + elapsedTime;
    }
  }
}
