# TankGame core, modelled in Dafny

This project models the game logic of TankGame's two active objects, the tank
(`Tank.cs`) and the shell (`Shell.cs`), over real numbers. It then proves what
that logic guarantees.

A tank:
- steers, turns its turret and raises or lowers its cannon by fixed steps within limits;
- drives forward or backward by a transactional step that is rolled back when the new pose collides with the border, a building or another tank;
- fires shells under a two-flag reload timer;
- when AI-driven, runs a small state machine over `AIMove` (None, Forward, Backward, TurnLeft, TurnRight) and a lock-and-nudge aiming loop.

A shell:
- flies a closed-form parabola from the cannon's end;
- each tick, below a height gate, sweeps its straight-line segment against the grown hit box of every tank and building, in component order;
- damages (and at zero health removes) the first tank it strikes, or removes the first building it strikes, then removes itself. It also removes itself when it reaches the ground.

Layout, one module per file:

- `mathlib.dfy`, module `MathLib`: pi, `Abs`, `Sign`, `Truncate` (the C# `(int)` cast), `Max`. It also holds the datatype `Math`, which carries `Math.Sin/Cos/Atan/Acos/Sqrt` as uninterpreted function values. `Valid()` lists the facts about them that the proofs use (ranges, parity, sin 0 = 0, cos 0 = 1, the square root's defining property). `Pythagorean()` is sin² + cos² = 1.
- `geometry.dfy`, module `Geometry`: vectors, `dot`, `InsideRectangle` (shared by both classes) and the barycentric `InsideTriangle`. A degenerate triangle is reported as containing nothing; in the source, the division by zero at Tank.cs line 542 produces infinities and NaNs, which make the three comparisons fail.
- `footprint.dfy`, module `Footprint`: the rotated corners of a tank, `CheckBorder`, and the corner/triangle overlap test behind `CheckBuildingCollision` and `CheckTankCollision`.
- `kinematics.dfy`, module `Kinematics`: the poses a forward and a backward step produce, the heading and wheel wrap-around, the clamped controls, and the muzzle velocity and cannon-end position of `FireCannon`.
- `pilot.dfy`, module `Pilot`: the AI arithmetic. It covers the 1000-unit block grid, the bearing and relative angle, `CalculateNextCommand` as a function on orders, the quarter-turn targets, the shell-range estimate, and one `AIAim` step as a function on the aim state.
- `ballistics.dfy`, module `Ballistics`: the trajectory, `CheckPlaneIntersect` and the nested `CheckHitBoxCollision` chain. The chain is also restated as a table of faces, and the two are proved equal.
- `arena.dfy`, module `Arena`:
  - `Game` holds the component list as a `seq` with `Add` and `Remove` (`List.Remove`: the first occurrence).
  - `Tank` and `Shell` are classes whose fields the methods update in place.
  - Each state-changing method is specified against a pure function of the old state. For example, `MoveForward` ends in `StepForward(old(DriveState()), old(Surroundings()), m)`, and `HandleAI` ends in `DriveStep(...)` and `Aimed(...)`. The lemmas state the properties of those functions.
  - A few source methods are written as a driver plus helper methods, each helper modelling one branch or one loop of the source method; the table cites the lines each covers. The helpers are `TryPose`, `Maneuver`, `FindEnemy`, `FollowCommand`, `SettleLeftTurn`, `SteerLeftAndStep`, `HoldAim`, `ChaseAim`, `TrackTurret`, `TrackCannon`, `TryStrike` and `Sweep`.

Behaviour kept exactly as the code has it:

- The border test places the footprint at (location.X, location.Y), using the height rather than Z. It tests `topLeft.Y` twice and never `botRight.Y`. It compares against the full `worldsize` (100000), not half of it. `Footprint.BorderSkipsBotRightY` exhibits a pose whose bottom-right corner lies beyond the border but is not reported.
- The tank-tank test builds both footprints from this tank's own size.
- `CheckPlaneIntersect` returns `Vector3.Zero` for "no intersection", and the hit-box test treats an intersection at the origin as none. `Ballistics.SentinelMasksOrigin` exhibits a missed hit on a box of zero height. `Ballistics.SentinelHarmless` proves that a box of positive extent never loses a hit this way.
- The hit box has no lower Y bound. `Ballistics.NoFloorExample` is a shell 100000 units under a building that still counts as a hit.
- Controls step while strictly inside their limit, so steering can end one step past ±π/6 (`Kinematics.SteerBounded`). The turret limit π/2 is a whole number of its steps, so the turret stays within ±π/2 (`Kinematics.TurretOnLattice`).
- `FireCannon` only arms `updateCannonTimer`. The next `Update` sets `cannonReloading` and records `cannonFired`, and the reload ends once `now - cannonFired > cannonCooldown` (strictly).
- `AITurnLeft` straightens the steering and sets off once the heading has reached the target (`heading >= target`). It steers and steps forward while the heading is below the target. Its test `targetRotation != 2 * Math.PI` and its pin `targetRotation == Math.PI` compare the single-precision field with a double-precision constant that no single-precision value equals, so the first always holds and the second never does; the model leaves both out. `AITurnRight` compares with 0, which is exact, so its exclusion and pin are kept.
- Headings are kept in the closed interval [0, 2π]; a heading of exactly 2π is not wrapped.

## Model

| member | source | states |
|---|---|---|
| MathLib.Sign | TankGame/TankGame/Objects/Tank.cs:771-774 | `Math.Sign` is -1, 0 or 1, positive exactly for positive inputs and negative exactly for negative inputs |
| MathLib.Truncate | TankGame/TankGame/Objects/Tank.cs:766-769 | the `(int)` cast truncates toward zero: \|r\| <= \|x\| < \|r\| + 1, and a non-zero result has the sign of x |
| Geometry.InsideRectangleAbs | TankGame/TankGame/Objects/Tank.cs:511-520 | the rectangle test holds exactly when \|x\| <= box.x and \|y\| <= box.y (closed on both sides) |
| Geometry.GramIsCrossSquared | TankGame/TankGame/Objects/Tank.cs:535-542 | the denominator of `det` is the square of the cross product of the two edges, so it is zero exactly for degenerate triangles |
| Geometry.NumeratorsFactor | TankGame/TankGame/Objects/Tank.cs:543-544 | the numerators of u and v factor as that cross product times the cross products of P-A with each edge |
| Geometry.BarycentricIsCramer | TankGame/TankGame/Objects/Tank.cs:527-544 | for a non-degenerate triangle, u and v are Cramer's rule for P - A = u(C - A) + v(B - A) |
| Geometry.BarycentricReconstructs | TankGame/TankGame/Objects/Tank.cs:527-544 | every point equals A + u(C - A) + v(B - A) for its computed (u, v) |
| Geometry.BarycentricOfCombination | TankGame/TankGame/Objects/Tank.cs:527-544 | the point A + s(C - A) + t(B - A) gets exactly the coordinates (s, t) back |
| Geometry.InsideTriangleWeights | TankGame/TankGame/Objects/Tank.cs:527-548 | the point with weights (s, t) is inside exactly when s >= 0, t >= 0 and s + t < 1 |
| Geometry.InsideTriangleBoundary | TankGame/TankGame/Objects/Tank.cs:547 | vertex A counts as inside; B, C and every point of edge BC do not |
| Geometry.DegenerateTriangleIsEmpty | TankGame/TankGame/Objects/Tank.cs:542 | a triangle with collinear vertices contains no point |
| Geometry.InsideTriangleBounded | TankGame/TankGame/Objects/Tank.cs:527-548 | a point inside the triangle lies within its bounding box |
| Footprint.BorderHitAxisAligned | TankGame/TankGame/Objects/Tank.cs:383-405 | unturned, the border test fires exactly when \|x\| + size.x or \|y\| + size.z reaches the world size |
| Footprint.BorderSkipsBotRightY | TankGame/TankGame/Objects/Tank.cs:396-403 | there is a turned pose whose bottom-right corner is beyond the border that the test does not report |
| Footprint.CornerBounds | TankGame/TankGame/Objects/Tank.cs:425-432 | every corner lies within size.x + size.z of the centre on both axes |
| Footprint.OutsideBoundsNotInside | TankGame/TankGame/Objects/Tank.cs:527-548 | a point outside a triangle's bounding box is not inside it |
| Footprint.FarTriangleMissesBox | TankGame/TankGame/Objects/Tank.cs:441-448 | a triangle beyond the hit box on one side contains none of the box's four corners |
| Footprint.SeparatedFootprintsMiss | TankGame/TankGame/Objects/Tank.cs:435-448 | a footprint centred more than size.x + size.z + hit box away on an axis does not overlap the hit box |
| Footprint.FarBuildingNeverBlocks | TankGame/TankGame/Objects/Tank.cs:413-455 | a tank more than 1100 units from a building on the x or z axis is never blocked by it |
| Footprint.CoincidentFootprintsOverlap | TankGame/TankGame/Objects/Tank.cs:486-490 | an unturned footprint overlaps the hit box of its own size at the same centre |
| Footprint.CoincidentTanksBlock | TankGame/TankGame/Objects/Tank.cs:462-504 | two tanks at the same location with the same heading always collide |
| Kinematics.WrapHeadingInRange | TankGame/TankGame/Objects/Tank.cs:582-585 | one wrap brings a heading from [-2π, 4π] into [0, 2π], changing it by 0 or one full turn, and leaves [0, 2π] alone |
| Kinematics.MovesKeepHeadingInRange | TankGame/TankGame/Objects/Tank.cs:577-629 | forward and backward steps keep a heading in [0, 2π] there |
| Kinematics.DisplacementLength | TankGame/TankGame/Objects/Tank.cs:571-573 | the transformed vector (0, 0, speed) has planar length speed at every angle |
| Kinematics.ForwardStepLength | TankGame/TankGame/Objects/Tank.cs:571-575 | a forward step moves the tank exactly 10 units on the ground plane and never changes its height |
| Kinematics.StraightStepsDoNotTurn | TankGame/TankGame/Objects/Tank.cs:577-580 | with the steering centred, neither step changes the heading |
| Kinematics.StraightBackwardUndoesForward | TankGame/TankGame/Objects/Tank.cs:562-629 | with the steering centred, a backward step returns a forward step's pose exactly |
| Kinematics.WheelsStayInTurn | TankGame/TankGame/Objects/Tank.cs:587-634 | the wheel wrap keeps both wheel angles in [0, 2π] in both directions |
| Kinematics.SteerOnLattice | TankGame/TankGame/Objects/Tank.cs:646-662 | from k steps of π/200, TurnLeft/TurnRight reach k±1 steps, or stay at the limit |
| Kinematics.SteerBounded | TankGame/TankGame/Objects/Tank.cs:646-662 | steering stays within less than one step beyond ±π/6 |
| Kinematics.TurretOnLattice | TankGame/TankGame/Objects/Tank.cs:667-680 | the turret moves on multiples of π/250 within [-π/2, π/2] |
| Kinematics.CannonOnLattice | TankGame/TankGame/Objects/Tank.cs:685-698 | the cannon moves on multiples of π/500 within [-π/4, 0] |
| Kinematics.MuzzleSpeed | TankGame/TankGame/Objects/Tank.cs:707-711 | every shell leaves at speed 3000 whatever the heading, turret and cannon angles |
| Kinematics.MuzzleOnBarrel | TankGame/TankGame/Objects/Tank.cs:713-718 | the cannon end is 300 units from the turret pivot, in the direction the shell flies |
| Pilot.BearingRange | TankGame/TankGame/Objects/Tank.cs:776-788 | the bearing lies in [-π, π] on the side of the x offset |
| Pilot.RelAngleRange | TankGame/TankGame/Objects/Tank.cs:790-796 | the relative angle lands in [-π, π] and differs from angle - heading by at most one full turn |
| Pilot.TurnTargetsInRange | TankGame/TankGame/Objects/Tank.cs:825-839 | both quarter-turn targets lie in [0, 2π], a quarter turn from the heading modulo a full turn |
| Pilot.NextCommandKeepsTarget | TankGame/TankGame/Objects/Tank.cs:763-840 | the new orders keep the turn target in [0, 2π] |
| Pilot.NextCommandDecides | TankGame/TankGame/Objects/Tank.cs:798-839 | facing within π/2: Forward iff more than 6 blocks away (or 4..6 and already Forward), with the run target 2500 short of the next block; Backward iff fewer than 4 (or 4..6 and already Backward), with the run target 1500 beyond; between 4 and 6 the orders are kept. Facing away: Forward on a street line, otherwise TurnLeft with the left quarter-turn target when rel > 0 and TurnRight with the right one when rel < 0; and a new Forward or turn arises only in these cases |
| Pilot.FlightTimeLands | TankGame/TankGame/Objects/Tank.cs:970-972 | the estimated flight time is positive and is when a shell launched 400 up with that vertical speed lands |
| Pilot.TurretMoveApproaches | TankGame/TankGame/Objects/Tank.cs:1010-1013 | outside the lock window, the turret step brings it strictly closer to the bearing without jumping across the window |
| Pilot.CannonMoveDirection | TankGame/TankGame/Objects/Tank.cs:1021-1031 | away from its stops, the cannon moves exactly one step, down when overshooting by more than 300 and up when short by more than 300 |
| Pilot.AimStepEffect | TankGame/TankGame/Objects/Tank.cs:999-1033 | locked: turret and cannon hold, and it fires iff not aiming and within 8000. Not locked: aiming is set, it never fires, and the turret and the cannon each take one step |
| Pilot.LockBoundaryExclusive | TankGame/TankGame/Objects/Tank.cs:999 | the lock window is open: exactly π/10 of turret error or 600 of range error is not locked |
| Ballistics.PositionAtLaunch | TankGame/TankGame/Objects/Shell.cs:130-132 | at time 0 the shell is at the cannon's end |
| Ballistics.ShellFallsBack | TankGame/TankGame/Objects/Shell.cs:130-132 | a shell fired upward is back at launch height at 2vy/g and below it afterwards |
| Ballistics.CrossingTimeUnique | TankGame/TankGame/Objects/Shell.cs:318-319 | the computed time is the only time at which the line meets the plane |
| Ballistics.PlaneIntersectSound | TankGame/TankGame/Objects/Shell.cs:316-329 | a non-sentinel result is loc + vel·t on the plane for some t in [0, dt], and every crossing in the window other than the origin is the result |
| Ballistics.FacePinsCoordinate | TankGame/TankGame/Objects/Shell.cs:269-298 | each face's intersection pins y = H, x = -X, x = X, z = Z or z = -Z |
| Ballistics.FirstFaceFrom | TankGame/TankGame/Objects/Shell.cs:269-302 | returns the first face, in the order top, -X, +X, +Z, -Z, that counts, or 5 when none does |
| Ballistics.HitBoxIsFaceTable | TankGame/TankGame/Objects/Shell.cs:258-307 | the nested chain holds exactly when the shell is inside or some face (tried only from outside it) is crossed inside its rectangle; the chain stops at the first such face |
| Ballistics.InsideHitsWithoutFloor | TankGame/TankGame/Objects/Shell.cs:263-266 | a shell inside the floorless box hits whatever its velocity |
| Ballistics.NoFloorExample | TankGame/TankGame/Objects/Shell.cs:263-266 | a shell 100000 units under a building counts as a hit |
| Ballistics.FaceCrossingInBox | TankGame/TankGame/Objects/Shell.cs:269-302 | a face that counts is crossed at a point of the floorless box within the tick |
| Ballistics.HitBoxSound | TankGame/TankGame/Objects/Shell.cs:258-307 | a reported hit is a real one: the shell or some point of its segment in [0, dt] is in the floorless box |
| Ballistics.SentinelHarmless | TankGame/TankGame/Objects/Shell.cs:260-299 | for a box of positive extent, every face crossing in the window is found, so the Zero sentinel hides nothing |
| Ballistics.SentinelMasksOrigin | TankGame/TankGame/Objects/Shell.cs:269-272 | for a box of zero height, a shell crossing the top face at the origin is not reported |
| Arena.View | TankGame/TankGame/Objects/Tank.cs:367-379 | one target per component, in order: a tank at its current pose, a building, or nothing for the skipped tanks and for shells |
| Arena.RemoveFirst | TankGame/TankGame/Objects/Shell.cs:224 | `List.Remove`: the first occurrence is cut out, and a list without it is unchanged |
| Arena.EnemyFrom | TankGame/TankGame/Objects/Tank.cs:732-738 | the location of the first human-driven tank, or the fallback when there is none |
| Arena.Game.Add | TankGame/TankGame/Objects/Tank.cs:720 | the component is appended |
| Arena.Game.Remove | TankGame/TankGame/Objects/Shell.cs:224 | the list loses the first occurrence of the component |
| Arena.Tank.constructor | TankGame/TankGame/Objects/Tank.cs:180-210 | every angle is 0, health 1, AI-driven with cooldown 3, last shot at -1.5, not reloading, command None |
| Arena.Tank.SetAI | TankGame/TankGame/Objects/Tank.cs:167-174 | the controller is set, and the cooldown becomes 1.5 for a human and 3 for the AI |
| Arena.Tank.SelfNeverBlocks | TankGame/TankGame/Objects/Tank.cs:465 | a tank never collides with itself |
| Arena.Tank.BlockedFromSome | TankGame/TankGame/Objects/Tank.cs:367-379 | the sweep from k is blocked exactly when some target from k on stops the tank |
| Arena.Tank.CollisionDetection | TankGame/TankGame/Objects/Tank.cs:363-381 | true exactly when the border test fires or some tank or building in the components stops the tank |
| Arena.Tank.AttemptStaysClear | TankGame/TankGame/Objects/Tank.cs:592-597 | a move from a clear pose never ends in a colliding one, and ends at the start or at the candidate |
| Arena.Tank.StepRollsBack | TankGame/TankGame/Objects/Tank.cs:562-641 | a blocked step leaves the pose exactly as it was and an unblocked one commits the candidate; steering and orders never change |
| Arena.Tank.TryPose | TankGame/TankGame/Objects/Tank.cs:592-597 | the candidate pose is kept unless the tank collides there, in which case the old pose is restored |
| Arena.Tank.MoveForward | TankGame/TankGame/Objects/Tank.cs:562-599 | the wheels turn forward and the pose follows StepForward (rolled back on collision); the invariant is kept |
| Arena.Tank.MoveBackward | TankGame/TankGame/Objects/Tank.cs:604-641 | the wheels turn backward and the pose follows StepBackward; the invariant is kept |
| Arena.Tank.TurnLeft | TankGame/TankGame/Objects/Tank.cs:646-652 | steering gains π/200 while below π/6 |
| Arena.Tank.TurnRight | TankGame/TankGame/Objects/Tank.cs:657-662 | steering loses π/200 while above -π/6 |
| Arena.Tank.TurnTurretLeft | TankGame/TankGame/Objects/Tank.cs:667-671 | the turret gains π/250 while below π/2 |
| Arena.Tank.TurnTurretRight | TankGame/TankGame/Objects/Tank.cs:676-680 | the turret loses π/250 while above -π/2 |
| Arena.Tank.CannonUp | TankGame/TankGame/Objects/Tank.cs:685-689 | the cannon angle loses π/500 while above -π/4 |
| Arena.Tank.CannonDown | TankGame/TankGame/Objects/Tank.cs:694-698 | the cannon angle gains π/500 while below 0 |
| Arena.Tank.FireCannon | TankGame/TankGame/Objects/Tank.cs:703-724 | while reloading, the components and the timer flag stay unchanged; otherwise exactly one new shell owned by this tank is appended with the muzzle velocity and cannon end, and the timer flag is set |
| Arena.Tank.Update | TankGame/TankGame/Objects/Tank.cs:292-308 | a shot of the last tick records the time and starts reloading; reloading ends once strictly more than the cooldown has passed; a human tank's pose, aim and components are untouched |
| Arena.Tank.HandleAI | TankGame/TankGame/Objects/Tank.cs:730-761 | the target is the first human tank, the drive state follows DriveStep for the current command, and the aim follows AimStep from the pose the command left |
| Arena.Tank.Maneuver | TankGame/TankGame/Objects/Tank.cs:732-759 | target search followed by the command switch, as DriveStep |
| Arena.Tank.FindEnemy | TankGame/TankGame/Objects/Tank.cs:732-738 | the loop leaves the first human tank's location, or the old one when there is none |
| Arena.Tank.FollowCommand | TankGame/TankGame/Objects/Tank.cs:740-759 | each command runs its handler, as DriveStep |
| Arena.Tank.CalculateNextCommand | TankGame/TankGame/Objects/Tank.cs:763-840 | only the orders change, to NextCommand of the old orders |
| Arena.Tank.AIForward | TankGame/TankGame/Objects/Tank.cs:929-939 | steps forward while the projected position is strictly below the target, and otherwise drops the command |
| Arena.Tank.AIBackward | TankGame/TankGame/Objects/Tank.cs:944-954 | steps backward while the projected position is strictly above the target, and otherwise drops the command |
| Arena.Tank.AITurnLeft | TankGame/TankGame/Objects/Tank.cs:845-882 | settles at or past the target heading, and steers left and steps below it; the 2π exclusion and the pin at π never act, because they compare a float with a double |
| Arena.Tank.AITurnRight | TankGame/TankGame/Objects/Tank.cs:887-924 | the mirror image, pinning a wrap to 0 when the target is 0 |
| Arena.Tank.SettleLeftTurn | TankGame/TankGame/Objects/Tank.cs:849-871 | the steering steps right and snaps to 0 within 1/300; once centred, the heading snaps to the target and the tank sets off forward |
| Arena.Tank.SteerLeftAndStep | TankGame/TankGame/Objects/Tank.cs:872-878 | steer left, step forward, and steer back when the step did not move the tank |
| Arena.Tank.SettleRightTurn | TankGame/TankGame/Objects/Tank.cs:891-913 | the mirror image of SettleLeftTurn |
| Arena.Tank.SteerRightAndStep | TankGame/TankGame/Objects/Tank.cs:914-920 | the mirror image of SteerLeftAndStep |
| Arena.Tank.AIAim | TankGame/TankGame/Objects/Tank.cs:959-1034 | the aim state becomes AimStep's for the bearing and ground distance to the target; a shot AimStep calls for launches one shell unless reloading |
| Arena.Tank.HoldAim | TankGame/TankGame/Objects/Tank.cs:999-1006 | the dice may drop the aiming flag; without it, and within 8000, the cannon is fired |
| Arena.Tank.ChaseAim | TankGame/TankGame/Objects/Tank.cs:1007-1033 | aiming is set, and the turret and the cannon take TurretMove and CannonMove |
| Arena.Tank.TrackTurret | TankGame/TankGame/Objects/Tank.cs:1010-1020 | exactly one turret call, toward the bearing or by the coin |
| Arena.Tank.TrackCannon | TankGame/TankGame/Objects/Tank.cs:1021-1031 | exactly one cannon call, toward the range or by the coin |
| Arena.Shell.constructor | TankGame/TankGame/Objects/Shell.cs:48-63 | the shell starts at the cannon's end at time 0, owned by the firing tank |
| Arena.Shell.OwnerNeverStruck | TankGame/TankGame/Objects/Shell.cs:202 | a shell never strikes the tank that fired it |
| Arena.Shell.FirstStrike | TankGame/TankGame/Objects/Shell.cs:172-190 | the first component the shell strikes, with none struck before it, or the list length |
| Arena.Shell.FirstStrikeAt | TankGame/TankGame/Objects/Shell.cs:172-190 | FirstStrike is exactly the index before which nothing is struck and at which something is |
| Arena.Shell.StrikeIndex | TankGame/TankGame/Objects/Shell.cs:168-192 | nothing in the list at the ground, otherwise the first struck component |
| Arena.Shell.CheckTankCollision | TankGame/TankGame/Objects/Shell.cs:199-229 | on a hit the tank loses exactly one point and is removed iff its health is then <= 0; otherwise nothing changes |
| Arena.Shell.CheckBuildingCollision | TankGame/TankGame/Objects/Shell.cs:231-250 | on a hit only that building is removed; otherwise nothing changes |
| Arena.Shell.TryStrike | TankGame/TankGame/Objects/Shell.cs:174-189 | tests one component (a tank only below its height plus 15), and applies the strike to the list and to that tank's health only |
| Arena.Shell.Sweep | TankGame/TankGame/Objects/Shell.cs:172-191 | the first struck component in list order takes the hit, and nothing after it is tested |
| Arena.Shell.CollisionDetection | TankGame/TankGame/Objects/Shell.cs:168-192 | true at the ground without touching anything; otherwise true iff some component is struck, with exactly that strike applied |
| Arena.Shell.Update | TankGame/TankGame/Objects/Shell.cs:118-137 | below 1015 the strike is applied and a hitting shell removes itself; then the shell moves to its parabola at the old time, and the time advances by exactly the tick |

## Left out

- Rendering and content: `Draw`, `LoadContent`, bone matrices and models, `hatchRotation`, and the camera. None of them affects the game state.
- Audio: `audio.Play` in `FireCannon` and in the shell's collision detection.
- Input and the game bootstrap (`InputState.cs`, `TankGame.cs`): key polling, random placement and the building grid. They only call the tank methods modelled here. Buildings are a datatype holding a location; all buildings share the constant size (450, 900, 450).
- The tank's size is set in `LoadContent`; the model uses (310, 350, 340) from construction on. Before `LoadContent` runs, the source's size is zero.
- Floating point: all arithmetic is on `real`, and single-precision rounding is not modelled. Where the code compares a `float` with the `double` `Math.PI` or `2 * Math.PI`, no float equals the constant, and the model uses the outcome the program always gets (`AITurnLeft`).
- `Math.Sin/Cos/Atan/Acos/Sqrt` are uninterpreted functions, with only the facts listed under `MathLib.Math.Valid`.
- `new Random()` in `AIAim`: the three draws are the boolean parameters `dropAim`, `turretCoin` and `cannonCoin`.
- Game time: `Tank.Update` takes the total game time in seconds, and `Shell.Update` takes the tick length.
- XNA's `Components` collection is a sequence with append and first-occurrence removal. The engine's iteration, callbacks and `base.Update` are not modelled. The shell's sweep returns as soon as it changes the list, as the source does.
- The trivial property accessors (`Location`, `Rotation`, `TurretRotation`, `Health`, `Size`) are field reads and writes in the model.
- Arena.Tank.Update: for an AI tank it states the reload timer but not the pose and aim that HandleAI leaves; `Arena.Tank.HandleAI` states those, and Update's body calls it unchanged.
- Kinematics.StraightBackwardUndoesForward: states the undo only for centred steering; nothing is claimed about a steered forward step followed by a backward one.
