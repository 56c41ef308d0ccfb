# SeigoBot2 decision core, in Dafny

This project models the control core of `SeigoBot2`, the level-4 enemy robot of the
burger_war arena game. The core runs once per 30 Hz tick. It fuses the lidar enemy
estimate with the camera's colour-marker detection. It checks six laser rays for walls,
picks a mode (BASIC patrol or ATTACK), and then either manages the navigation goal along
the waypoint route or publishes a velocity directly.

Modules, one per component of the node:

- `Geometry` (geometry.dfy): `pi2pi`, as written, and the facts about it.
- `CollisionGuard` (collision.dfy): `detect_collision` and `recovery`.
- `Waypoints` (waypoints.dfy): the route as a non-empty list of poses with a wrapping cursor.
- `Params` (params.dfy): the tuning parameters and their defaults.
- `EnemyFusion` (fusion.dfy): `detect_from_lidar` (staleness and debounce),
  `detect_from_camera` (red, then green; blue is ignored) and the camera gate of
  `detect_enemy`.
- `ModeDecision` (decision.dfy): `mode_decision` and the `enemy_info` cache.
- `MotionCommand` (motion.dfy): what `basic` and `attack` command, plus multi-tick
  patrol lemmas.
- `SeigoRun2` (bot.dfy): class `SeigoBot2`. Its fields are the ones the node updates
  in place. Its methods are proved against the functions above. Every command it issues
  is appended to `trace`: `CancelAll`, `GoalSent(waypoint)` or `Published(velocity)`.
  The ghost field `ages` records the observation age seen at each tick, and the class
  invariant ties `detectCounter` to it.
- `Scenarios` (scenarios.dfy): client methods that drive the class for a few ticks with
  the default parameters. They check the debounce leading to an attack, the camera veto
  and the wall recovery, from the contracts alone.

Inputs the node gets from outside become method parameters:

- `now`: the clock (`rospy.Time.now()`).
- `PoseLookup`: the transform lookup. Either `LookupFailed`, or the distance,
  direction and yaw that the node would compute with `sqrt`, `atan2` and
  `euler_from_quaternion`.
- `navState`: the goal state the navigation client reports.
- The camera detector's red, green and blue angles, with `NotFound` = -360.

Behaviour modelled as written, where it may surprise:

- `pi2pi` folds modulo 360, but it is applied to a difference of two radian angles.
  `Geometry.Pi2PiFixesHalfTurn` shows it returns every value in (-180, 180] unchanged.
  So a bearing difference such as 6.0 rad is never brought back into (-pi, pi].
  The camera cone and the attack cone then see that unfolded value.
- `detect_collision` indexes rays 0 to 350 without a length check. The node starts
  with an empty scan, so a tick before the first laser message would raise IndexError
  rather than report "no collision". The model follows the code:
  `CollisionGuard.DetectCollision` and every tick require a scan that reaches ray 350.
- On ABORTED with no wall in sight, `basic` re-runs the wall check, discards its
  verdict and sends nothing. `MotionCommand.StalledPatrolSendsNothing` shows the patrol
  then stays put for as long as no SUCCEEDED, PENDING, PREEMPTING or PREEMPTED state
  arrives.
- `mode_decision` only ever answers BASIC or ATTACK. ESCAPE and DEFENCE are declared
  but reach only the "unknown mode" branch of `status_transition`, which does nothing.

## Model

| member | source | states |
|---|---|---|
| Geometry.PyMod360 | enemy_bot/enemy_bot_level4/burger_war/scripts/seigoRun2.py:95 | Python's float `% 360` lies in [0, 360) and differs from its argument by whole turns |
| Geometry.Pi2Pi | enemy_bot/enemy_bot_level4/burger_war/scripts/seigoRun2.py:94-98 | the result lies in (-180, 180] and differs from the argument by a whole number of 360-unit turns |
| Geometry.Pi2PiUnique | enemy_bot/enemy_bot_level4/burger_war/scripts/seigoRun2.py:94-98 | any value in (-180, 180] that differs from x by whole turns is `pi2pi(x)`, so the result is unique |
| Geometry.Pi2PiIdempotent | enemy_bot/enemy_bot_level4/burger_war/scripts/seigoRun2.py:94-98 | normalising twice equals normalising once |
| Geometry.Pi2PiPeriodic | enemy_bot/enemy_bot_level4/burger_war/scripts/seigoRun2.py:94-98 | adding k whole turns to the argument does not change the result |
| Geometry.Pi2PiFixesHalfTurn | enemy_bot/enemy_bot_level4/burger_war/scripts/seigoRun2.py:149-151 | every argument in (-180, 180] is returned unchanged, including every radian bearing difference in [-2 pi, 2 pi] |
| CollisionGuard.DetectCollision | enemy_bot/enemy_bot_level4/burger_war/scripts/seigoRun2.py:171-180 | front is blocked iff one of rays 0, 10, 350 reads nonzero and below the wall threshold; rear likewise with rays 180, 190, 170; the scan must reach ray 350 |
| CollisionGuard.Recovery | enemy_bot/enemy_bot_level4/burger_war/scripts/seigoRun2.py:297-304 | a front block gives (True, -0.1) whatever the rear; only a rear block gives (True, 0.1); no block gives (False, 0.0) |
| CollisionGuard.ZeroReadingIgnored | enemy_bot/enemy_bot_level4/burger_war/scripts/seigoRun2.py:174-177 | with ray i set to zero, a side is blocked exactly when another of its rays reports a wall, so a zero reading contributes nothing |
| CollisionGuard.SilentScanNeverRecovers | enemy_bot/enemy_bot_level4/burger_war/scripts/seigoRun2.py:297-304 | a scan whose six monitored rays all read zero never triggers recovery, whatever the threshold |
| Waypoints.Successor | enemy_bot/enemy_bot_level4/burger_war/scripts/seigoRun2.py:237 | the next cursor stays inside the route and is (i + 1) mod n |
| Waypoints.AdvancedIsModular | enemy_bot/enemy_bot_level4/burger_war/scripts/seigoRun2.py:237 | k advances move the cursor to (i + k) mod n |
| Waypoints.WaypointCycle.Current | enemy_bot/enemy_bot_level4/burger_war/scripts/seigoRun2.py:242 | `get_current_waypoint` returns a pose of the route and does not move the cursor |
| Waypoints.WaypointCycle.Next | enemy_bot/enemy_bot_level4/burger_war/scripts/seigoRun2.py:237 | `get_next_waypoint` moves the cursor to (cursor + 1) mod n, staying valid, and returns the pose now under it |
| EnemyFusion.LidarStep | enemy_bot/enemy_bot_level4/burger_war/scripts/seigoRun2.py:130-152 | a stale observation resets the counter to 0 and gives absent; otherwise the counter rises by exactly one; present iff fresh, counter + 1 >= counter_th and the pose lookup succeeded; when present the counter is at least counter_th and the result is (True, distance, pi2pi(direction - yaw)) with the bearing in (-180, 180]; every failure gives (False, 0.0, 0.0) |
| EnemyFusion.CounterIsTrailingFreshRun | enemy_bot/enemy_bot_level4/burger_war/scripts/seigoRun2.py:132-138 | the counter after a run of ticks is the length of the trailing run of fresh observations: those are all fresh, and the one before them is stale |
| EnemyFusion.DebounceNeedsConsecutiveFresh | enemy_bot/enemy_bot_level4/burger_war/scripts/seigoRun2.py:132-138 | the counter reaches k iff the last k ticks all saw a fresh observation, so a detection needs counter_th consecutive fresh ticks |
| EnemyFusion.LidarStepExtendsHistory | enemy_bot/enemy_bot_level4/burger_war/scripts/seigoRun2.py:130-152 | one lidar detection turns the counter of a history into the counter of that history extended by the tick's observation age, and a detection it reports is backed by counter_th consecutive fresh observations |
| EnemyFusion.CameraSignal | enemy_bot/enemy_bot_level4/burger_war/scripts/seigoRun2.py:154-167 | detected iff the red or green angle is not the sentinel; red wins over green; blue is never consulted; when nothing is detected the angle is the sentinel -360 |
| EnemyFusion.CameraGate | enemy_bot/enemy_bot_level4/burger_war/scripts/seigoRun2.py:120-128 | distance and bearing pass through; the result is present iff the lidar detection is present and, inside the strict camera window, the camera also sees the enemy |
| EnemyFusion.CameraIrrelevantOutsideWindow | enemy_bot/enemy_bot_level4/burger_war/scripts/seigoRun2.py:124-125 | outside the camera window the detection is the same whether or not the camera sees the enemy |
| ModeDecision.ModeFor | enemy_bot/enemy_bot_level4/burger_war/scripts/seigoRun2.py:183-192 | the mode is BASIC or ATTACK, never ESCAPE or DEFENCE; ATTACK iff the enemy is present and closer than snipe_th |
| ModeDecision.CachedInfo | enemy_bot/enemy_bot_level4/burger_war/scripts/seigoRun2.py:188-190 | `enemy_info` becomes [distance, bearing] exactly on ATTACK and is otherwise left as it was |
| MotionCommand.PatrolStep | enemy_bot/enemy_bot_level4/burger_war/scripts/seigoRun2.py:220-246 | on a wall the commands are exactly cancel then publish (vx, 0), and status and cursor stay put; otherwise the status becomes the reported state, SUCCEEDED advances the cursor (mod n) and sends the new waypoint, PENDING/PREEMPTING/PREEMPTED resend the current one, and anything else sends nothing |
| MotionCommand.PatrolNeverMixesGoalAndVelocity | enemy_bot/enemy_bot_level4/burger_war/scripts/seigoRun2.py:220-246 | a patrol tick that publishes a velocity sends no goal, and every goal sent is a waypoint of the route |
| MotionCommand.PatrolRun | enemy_bot/enemy_bot_level4/burger_war/scripts/seigoRun2.py:220-246 | over any run of patrol ticks with no wall in sight, the cursor stays inside the route and never more commands go out than there were ticks |
| MotionCommand.SuccessesCycleTheRoute | enemy_bot/enemy_bot_level4/burger_war/scripts/seigoRun2.py:236-238 | k SUCCEEDED ticks from cursor c send waypoints c+1, ..., c+k (mod n) in order, and leave the cursor at (c + k) mod n |
| MotionCommand.FullLapReturnsToStart | enemy_bot/enemy_bot_level4/burger_war/scripts/seigoRun2.py:236-238 | one SUCCEEDED tick per waypoint brings the cursor back to its start |
| MotionCommand.StalledPatrolSendsNothing | enemy_bot/enemy_bot_level4/burger_war/scripts/seigoRun2.py:234-246 | while the state is never SUCCEEDED, PENDING, PREEMPTING or PREEMPTED (for instance ACTIVE or ABORTED), patrol sends no goal and never moves the cursor |
| MotionCommand.TurnToEnemy | enemy_bot/enemy_bot_level4/burger_war/scripts/seigoRun2.py:292-295 | `turn_to_enemy` gives a command with no forward speed that turns at exactly the given bearing difference |
| MotionCommand.AttackVelocity | enemy_bot/enemy_bot_level4/burger_war/scripts/seigoRun2.py:273-295 | the turn rate equals the cached bearing; the linear speed is nonzero only when there is no wall and the bearing is inside attack_angle_th, and then it is distance - approch_distance_th, positive when farther than the standoff and negative when closer |
| Params.DefaultConfig | enemy_bot/enemy_bot_level4/burger_war/scripts/seigoRun2.py:76-92 | the defaults of `get_rosparam`: tolerance 0.5, snipe 0.8, wall 0.15, counter 3, standoff 0.5, camera range [0.2, 0.5], attack angle pi/4 and camera angle pi/6; the standoff lies inside the snipe distance and the camera sector inside the attack sector |
| SeigoRun2.SeigoBot2.constructor | enemy_bot/enemy_bot_level4/burger_war/scripts/seigoRun2.py:35-75 | the node starts in BASIC with counter 0, `enemy_info` [0, 0], no camera detection (angle -360), an empty scan and the start-up goal state, and has sent the first waypoint as a goal |
| SeigoRun2.SeigoBot2.EnemyPositionCallback | enemy_bot/enemy_bot_level4/burger_war/scripts/seigoRun2.py:114-115 | keeps the latest enemy observation's time stamp |
| SeigoRun2.SeigoBot2.LidarCallback | enemy_bot/enemy_bot_level4/burger_war/scripts/seigoRun2.py:117-118 | keeps the latest scan |
| SeigoRun2.SeigoBot2.ImageCallback | enemy_bot/enemy_bot_level4/burger_war/scripts/seigoRun2.py:100-101 | a camera frame updates the camera verdict exactly as `detect_from_camera` does |
| SeigoRun2.SeigoBot2.DetectFromCamera | enemy_bot/enemy_bot_level4/burger_war/scripts/seigoRun2.py:154-167 | overwrites `is_camera_detect` and `camera_detect_angle` with the red-then-green choice |
| SeigoRun2.SeigoBot2.DetectFromLidar | enemy_bot/enemy_bot_level4/burger_war/scripts/seigoRun2.py:130-152 | updates the counter and returns the detection as LidarStep says; the age of this tick joins the history; a detection implies that the last counter_th ticks were fresh |
| SeigoRun2.SeigoBot2.DetectEnemy | enemy_bot/enemy_bot_level4/burger_war/scripts/seigoRun2.py:120-128 | the lidar detection passed through the camera gate, with the same history guarantee |
| SeigoRun2.SeigoBot2.ModeDecision | enemy_bot/enemy_bot_level4/burger_war/scripts/seigoRun2.py:183-192 | returns the mode for the gated detection and updates `enemy_info` only on ATTACK; ATTACK implies counter_th consecutive fresh ticks |
| SeigoRun2.SeigoBot2.StatusTransition | enemy_bot/enemy_bot_level4/burger_war/scripts/seigoRun2.py:194-218 | one tick: the counter, mode and `enemy_info` follow the gated detection; in BASIC the status, cursor and commands follow PatrolStep; in ATTACK the status and cursor are untouched and the tick issues exactly cancel then the attack velocity, so no goal |
| SeigoRun2.SeigoBot2.Basic | enemy_bot/enemy_bot_level4/burger_war/scripts/seigoRun2.py:220-246 | status, cursor and new commands are those of PatrolStep for the tick's wall verdict and reported goal state |
| SeigoRun2.SeigoBot2.Attack | enemy_bot/enemy_bot_level4/burger_war/scripts/seigoRun2.py:273-284 | appends exactly a cancel, then one velocity publish of AttackVelocity for the cached enemy and the wall verdict |
| SeigoRun2.SeigoBot2.SendGoal | enemy_bot/enemy_bot_level4/burger_war/scripts/seigoRun2.py:248-264 | appends one goal for the given waypoint to the trace |
| SeigoRun2.SeigoBot2.Publish | enemy_bot/enemy_bot_level4/burger_war/scripts/seigoRun2.py:222-226 | appends exactly one direct velocity publish of the given command to the trace |
| SeigoRun2.SeigoBot2.CancelGoal | enemy_bot/enemy_bot_level4/burger_war/scripts/seigoRun2.py:266-268 | appends one cancel-all to the trace |

## Left out

- ROS transport is not modelled: subscribers, publishers, the action client, the
  transform listener, logging and the 30 Hz `main` loop. Callbacks are setters, and the
  commands sent out are the `trace`.
- Callback concurrency is not modelled. Each callback is a method that overwrites one
  field, run between ticks.
- `math.sqrt`, `math.atan2`, `euler_from_quaternion` and `quaternion_from_euler`
  are foreign numerics. The pose lookup supplies distance, direction and yaw, and a goal
  carries the waypoint's (x, y, heading) rather than a quaternion. Only the time stamp of
  the enemy position is kept, because its coordinates feed only those computations.
- `get_position_from_tf` is the `PoseLookup` input. Its three exception kinds
  collapse to `LookupFailed`.
- Arithmetic is exact `real`. Float rounding is not modelled: for example, Python gives
  `-1e-20 % 360 == 360.0`, which the exact remainder does not.
- `rospy.sleep(0.5)` after sending a goal, the goal's frame id and time stamp, and
  `robot_namespace` are left out; they affect no decision.
- `get_rosparam` reads the parameter server, which is not modelled. `DefaultConfig`
  gives its defaults, with `pi` as a parameter standing for `math.pi`.
- `get_move_base_status` is never called by the core and is not modelled.
- The mode-change log of `status_transition` and `get_goal_status_text` are logging only.
- `escape` and `defence` are empty stubs that nothing calls. ESCAPE and DEFENCE are
  no-op modes in the dispatch.
- waypoint.py is not part of this model. The route is a non-empty list with a cursor
  that starts at 0 and wraps past the last pose. The CSV loading (`rospkg`, `os`) is
  not modelled.
- enemy_camera_detector.py and the image handling are not part of this model. The
  detector's three angles are inputs.
- CollisionGuard.DetectCollision: requires a scan that reaches ray 350, as the source
  indexes without a guard. The IndexError raised on a shorter scan, including the empty
  scan before the first laser message, is not modelled as a result.
