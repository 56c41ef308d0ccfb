/** The node itself: the state the callbacks and the 30 Hz control tick
    share, and the tick `status_transition` that decides a mode and issues
    the commands for it. Commands sent to the navigation service and to the
    velocity topic are recorded, in order, in `trace`; the clock, the pose
    lookup and the goal state the navigation client reports are inputs of
    the methods that read them. */
module SeigoRun2 {
  import opened Geometry
  import opened Params
  import opened CollisionGuard
  import opened Waypoints
  import opened EnemyFusion
  import opened ModeDecision
  import opened MotionCommand

  class SeigoBot2 {
    const cfg: Config
    const waypoint: WaypointCycle

    var enemyStamp: real          // time stamp of the latest enemy position
    var scan: seq<real>           // ranges of the latest laser scan, by degree
    var isCameraDetect: bool
    var cameraDetectAngle: real
    var detectCounter: nat
    var enemyInfo: EnemyInfo
    var actMode: ActMode
    var status: GoalStatus        // the goal state last read by `basic`
    var trace: seq<Command>       // every command issued so far, oldest first

    /** The observation age seen by every lidar detection so far, oldest
        first: the history the debounce counter summarises. */
    ghost var ages: seq<real>

    ghost predicate Valid()
      reads this, waypoint
    {
      waypoint.Valid() && detectCounter == CounterAfter(ages, cfg.enemyTimeTolerance)
    }

    /** `__init__`: nothing received yet, patrol mode, and the first waypoint
        sent as a goal. `navState` is the goal state read at start-up. */
    constructor (cfg: Config, points: seq<Waypoint>, navState: GoalStatus)
      requires |points| > 0
      ensures Valid() && fresh(waypoint)
      ensures this.cfg == cfg && waypoint.points == points && waypoint.cursor == 0
      ensures enemyStamp == 0.0 && scan == []
      ensures !isCameraDetect && cameraDetectAngle == NotFound
      ensures detectCounter == 0 && ages == [] && enemyInfo == EnemyInfo(0.0, 0.0)
      ensures actMode == ActMode.Basic && status == navState
      ensures trace == [GoalSent(points[0])]
    {
      this.cfg := cfg;
      status := navState;
      enemyStamp := 0.0;
      enemyInfo := EnemyInfo(0.0, 0.0);
      detectCounter := 0;
      ages := [];
      scan := [];
      isCameraDetect := false;
      cameraDetectAngle := NotFound;
      actMode := ActMode.Basic;
      waypoint := new WaypointCycle(points);
      trace := [];
      new;
      SendGoal(waypoint.Current());
    }

    /** `enemy_position_callback`: keep the latest enemy observation. */
    method EnemyPositionCallback(stamp: real)
      requires Valid()
      modifies this`enemyStamp
      ensures Valid() && enemyStamp == stamp
    {
      enemyStamp := stamp;
    }

    /** `lidar_callback`: keep the latest scan. */
    method LidarCallback(ranges: seq<real>)
      requires Valid()
      modifies this`scan
      ensures Valid() && scan == ranges
    {
      scan := ranges;
    }

    /** `imageCallback`: the camera detector's angles for the red, green
        and blue markers of this frame, `NotFound` when absent. */
    method ImageCallback(red: real, green: real, blue: real)
      requires Valid()
      modifies this`isCameraDetect, this`cameraDetectAngle
      ensures Valid()
      ensures CameraReading(isCameraDetect, cameraDetectAngle) == CameraSignal(red, green, blue)
    {
      DetectFromCamera(red, green, blue);
    }

    /** `detect_from_camera`. */
    method DetectFromCamera(red: real, green: real, blue: real)
      requires Valid()
      modifies this`isCameraDetect, this`cameraDetectAngle
      ensures Valid()
      ensures CameraReading(isCameraDetect, cameraDetectAngle) == CameraSignal(red, green, blue)
    {
      if red != NotFound {
        isCameraDetect := true;
        cameraDetectAngle := red;
        return;
      } else {
        if green != NotFound {
          isCameraDetect := true;
          cameraDetectAngle := green;
        } else {
          isCameraDetect := false;
          cameraDetectAngle := NotFound;
        }
      }
    }

    /** `detect_from_lidar` at time `now`. A detection is reported only
        after `counter_th` consecutive fresh observations. */
    method DetectFromLidar(now: real, pose: PoseLookup) returns (d: Detection)
      requires Valid()
      modifies this`detectCounter, this`ages
      ensures Valid()
      ensures ages == old(ages) + [now - enemyStamp]
      ensures (detectCounter, d) == LidarStep(old(detectCounter), now - enemyStamp, pose, cfg)
      ensures d.present ==>
              EndsWithFreshRun(ages, cfg.counterTh, cfg.enemyTimeTolerance)
    {
      var timeDiff := now - enemyStamp;
      LidarStepExtendsHistory(ages, timeDiff, pose, cfg);
      ages := ages + [timeDiff];
      if timeDiff > cfg.enemyTimeTolerance {
        detectCounter := 0;
        return Absent;
      } else {
        detectCounter := detectCounter + 1;
        if detectCounter < cfg.counterTh {
          return Absent;
        }
      }
      match pose {
        case LookupFailed =>
          d := Absent;
        case Located(distance, direction, yaw) =>
          d := Detection(true, distance, Pi2Pi(direction - yaw));
      }
    }

    /** `detect_enemy`: the lidar detection, confirmed by the camera when the
        enemy is where the camera can see it. */
    method DetectEnemy(now: real, pose: PoseLookup) returns (d: Detection)
      requires Valid()
      modifies this`detectCounter, this`ages
      ensures Valid()
      ensures ages == old(ages) + [now - enemyStamp]
      ensures var lidar := LidarStep(old(detectCounter), now - enemyStamp, pose, cfg);
              detectCounter == lidar.0 && d == CameraGate(lidar.1, isCameraDetect, cfg)
      ensures d.present ==>
              EndsWithFreshRun(ages, cfg.counterTh, cfg.enemyTimeTolerance)
    {
      d := DetectFromLidar(now, pose);
      if Abs(d.bearing) < cfg.cameraAngleLimit
         && d.distance > cfg.cameraRangeMin && d.distance < cfg.cameraRangeMax
      {
        d := d.(present := d.present && isCameraDetect);
      }
    }

    /** `mode_decision`: ATTACK, with the enemy cached in `enemyInfo`, when a
        confirmed enemy is within `snipe_th`; BASIC otherwise. */
    method ModeDecision(now: real, pose: PoseLookup) returns (mode: ActMode)
      requires Valid()
      modifies this`detectCounter, this`ages, this`enemyInfo
      ensures Valid()
      ensures ages == old(ages) + [now - enemyStamp]
      ensures var lidar := LidarStep(old(detectCounter), now - enemyStamp, pose, cfg);
              var d := CameraGate(lidar.1, isCameraDetect, cfg);
              detectCounter == lidar.0 && mode == ModeFor(d, cfg)
              && enemyInfo == CachedInfo(d, cfg, old(enemyInfo))
      ensures mode == ActMode.Attack ==>
              EndsWithFreshRun(ages, cfg.counterTh, cfg.enemyTimeTolerance)
    {
      var d := DetectEnemy(now, pose);
      if d.present == false {
        return ActMode.Basic;
      } else {
        if d.distance < cfg.snipeTh {
          enemyInfo := EnemyInfo(d.distance, d.bearing);
          return ActMode.Attack;
        }
        return ActMode.Basic;
      }
    }

    /** `status_transition`: one control tick. */
    method StatusTransition(now: real, pose: PoseLookup, navState: GoalStatus)
      requires Valid() && |scan| > 350
      modifies this`actMode, this`detectCounter, this`ages, this`enemyInfo
      modifies this`status, this`trace, waypoint
      ensures Valid()
      ensures ages == old(ages) + [now - enemyStamp]
      ensures var lidar := LidarStep(old(detectCounter), now - enemyStamp, pose, cfg);
              var d := CameraGate(lidar.1, isCameraDetect, cfg);
              detectCounter == lidar.0 && actMode == ModeFor(d, cfg)
              && enemyInfo == CachedInfo(d, cfg, old(enemyInfo))
      ensures actMode == ActMode.Attack ==>
              EndsWithFreshRun(ages, cfg.counterTh, cfg.enemyTimeTolerance)
      ensures actMode == ActMode.Basic ==>
              var r := PatrolStep(Recovery(scan, cfg.distanceToWallTh), navState, old(status),
                                  old(waypoint.cursor), waypoint.points);
              status == r.status && waypoint.cursor == r.cursor && trace == old(trace) + r.commands
      ensures actMode == ActMode.Attack ==>
              status == old(status) && waypoint.cursor == old(waypoint.cursor)
              && trace == old(trace) + [CancelAll, Published(AttackVelocity(
                   enemyInfo, Recovery(scan, cfg.distanceToWallTh).0, cfg))]
    {
      actMode := ModeDecision(now, pose);
      ghost var decided := ages;
      if actMode == ActMode.Basic {
        Basic(navState);
      } else if actMode == ActMode.Attack {
        assert EndsWithFreshRun(decided, cfg.counterTh, cfg.enemyTimeTolerance);
        Attack();
        assert ages == decided;
      } else {
        // ESCAPE and DEFENCE: the source only logs an unknown mode.
      }
    }

    /** `basic`: back away from a wall, or follow the navigation goal's
        lifecycle along the route. */
    method Basic(navState: GoalStatus)
      requires Valid() && |scan| > 350
      modifies this`status, this`trace, waypoint
      ensures Valid()
      ensures var r := PatrolStep(Recovery(scan, cfg.distanceToWallTh), navState, old(status),
                                  old(waypoint.cursor), waypoint.points);
              status == r.status && waypoint.cursor == r.cursor && trace == old(trace) + r.commands
    {
      var (valid, vx) := Recovery(scan, cfg.distanceToWallTh);
      if valid {
        CancelGoal();
        Publish(Velocity(vx, 0.0));
        return;
      }

      status := navState;
      if status == Active {
      } else if status == Succeeded {
        var point := waypoint.Next();
        SendGoal(point);
      } else if status == Aborted {
        // The source runs the wall check again and discards its verdict;
        // the scan has not changed, so it still finds nothing.
        var again := Recovery(scan, cfg.distanceToWallTh);
        assert !again.0;
      } else if status == Pending {
        SendGoal(waypoint.Current());
      } else if status == Preempting || status == Preempted {
        SendGoal(waypoint.Current());
      } else {
        return;
      }
    }

    /** `attack`: cancel the patrol goal, then turn towards the cached enemy
        bearing and close to the standoff distance when facing it. */
    method Attack()
      requires Valid() && |scan| > 350
      modifies this`trace
      ensures Valid()
      ensures trace == old(trace) + [CancelAll, Published(AttackVelocity(
                enemyInfo, Recovery(scan, cfg.distanceToWallTh).0, cfg))]
    {
      CancelGoal();
      var cmdVel := TurnToEnemy(enemyInfo.direction);
      var (valid, vx) := Recovery(scan, cfg.distanceToWallTh);
      if valid {
        cmdVel := cmdVel.(linear := 0.0);
      } else {
        if Abs(enemyInfo.direction) < cfg.attackAngleTh {
          cmdVel := cmdVel.(linear := enemyInfo.distance - cfg.approachDistanceTh);
        } else {
          cmdVel := cmdVel.(linear := 0.0);
        }
      }
      Publish(cmdVel);
    }

    /** `send_goal`: hand `point` to the navigation service. */
    method SendGoal(point: Waypoint)
      modifies this`trace
      ensures trace == old(trace) + [GoalSent(point)]
    {
      trace := trace + [GoalSent(point)];
    }

    /** `cancel_goal`: cancel every goal of the navigation service. */
    method CancelGoal()
      modifies this`trace
      ensures trace == old(trace) + [CancelAll]
    {
      trace := trace + [CancelAll];
    }

    /** Publish a velocity command directly, bypassing navigation. */
    method Publish(cmd: Velocity)
      modifies this`trace
      ensures trace == old(trace) + [Published(cmd)]
    {
      trace := trace + [Published(cmd)];
    }
  }
}
