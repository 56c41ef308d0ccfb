/** Clients of the node that drive it through a few ticks with the default
    parameters and check, from the contracts alone, what it commands. */
module Scenarios {
  import opened Geometry
  import opened CollisionGuard
  import opened Params
  import opened Waypoints
  import opened EnemyFusion
  import opened ModeDecision
  import opened MotionCommand
  import opened SeigoRun2

  /** A scan with no wall within reach on any ray. */
  function OpenScan(): (s: seq<real>)
    ensures |s| == 360
  {
    seq(360, _ => 1.0)
  }

  /** An enemy 0.3 m away, 0.6 rad off the heading: outside the camera cone
      (30 degrees) but inside the attack cone (45 degrees). After three fresh
      ticks the detection is trusted without the camera and the robot backs
      off towards the 0.5 m standoff while turning towards the enemy. */
  method EngageOutsideCameraWindow(pi: real, points: seq<Waypoint>)
    requires 3.14 < pi < 3.15 && |points| > 0
  {
    var bot := new SeigoBot2(DefaultConfig(pi), points, Active);
    bot.LidarCallback(OpenScan());
    bot.ImageCallback(NotFound, NotFound, NotFound);
    var enemy := Located(0.3, 0.6, 0.0);
    Pi2PiFixesHalfTurn(0.6);

    bot.EnemyPositionCallback(10.0);
    bot.StatusTransition(10.1, enemy, Active);
    assert bot.actMode == ActMode.Basic && bot.detectCounter == 1;
    bot.EnemyPositionCallback(10.1);
    bot.StatusTransition(10.2, enemy, Active);
    assert bot.actMode == ActMode.Basic && bot.detectCounter == 2;
    assert bot.trace == [GoalSent(points[0])];

    bot.EnemyPositionCallback(10.2);
    bot.StatusTransition(10.3, enemy, Active);
    assert bot.actMode == ActMode.Attack;
    assert bot.enemyInfo == EnemyInfo(0.3, 0.6);
    assert bot.trace == [GoalSent(points[0]), CancelAll, Published(Velocity(0.3 - 0.5, 0.6))];
  }

  /** The same enemy 0.1 rad off the heading, inside the camera window, with
      the camera seeing nothing: the first two fresh ticks only count, and
      the third is vetoed by the camera (`CameraVetoedTick`). */
  method CameraVetoInsideWindow(pi: real, points: seq<Waypoint>)
    requires 3.14 < pi < 3.15 && |points| > 0
  {
    var bot := new SeigoBot2(DefaultConfig(pi), points, Active);
    bot.LidarCallback(OpenScan());
    bot.ImageCallback(NotFound, NotFound, 0.2);
    var enemy := Located(0.3, 0.1, 0.0);
    Pi2PiFixesHalfTurn(0.1);

    bot.EnemyPositionCallback(10.0);
    bot.StatusTransition(10.1, enemy, Active);
    assert bot.detectCounter == 1 && bot.trace == [GoalSent(points[0])];
    bot.EnemyPositionCallback(10.1);
    bot.StatusTransition(10.2, enemy, Active);
    assert bot.detectCounter == 2 && bot.trace == [GoalSent(points[0])];
    assert bot.actMode == ActMode.Basic && bot.status == Active;
    CameraVetoedTick(bot, pi);
  }

  /** The third fresh tick of the scenario above: the lidar detection is now
      trusted, but it lies inside the camera window and the camera sees
      nothing, so the robot keeps patrolling and sends nothing. */
  method CameraVetoedTick(bot: SeigoBot2, pi: real)
    requires 3.14 < pi < 3.15 && bot.Valid() && bot.cfg == DefaultConfig(pi)
    requires bot.scan == OpenScan() && !bot.isCameraDetect
    requires bot.detectCounter == 2 && bot.status == Active
    modifies bot, bot.waypoint
  {
    Pi2PiFixesHalfTurn(0.1);
    ghost var before := bot.trace;
    bot.EnemyPositionCallback(10.2);
    bot.StatusTransition(10.3, Located(0.3, 0.1, 0.0), Active);
    assert bot.detectCounter == 3;
    assert bot.actMode == ActMode.Basic;
    assert bot.trace == before;
  }

  /** A wall 0.05 m ahead while patrolling: the goal is cancelled and the
      robot backs off; the route does not move. A stale enemy observation
      resets the debounce counter on the way. */
  method FrontWallWhilePatrolling(pi: real, points: seq<Waypoint>)
    requires 3.14 < pi < 3.15 && |points| > 0
  {
    var bot := new SeigoBot2(DefaultConfig(pi), points, Active);
    bot.LidarCallback(OpenScan()[0 := 0.05]);
    assert Reflects(bot.scan[FrontRays[0]], bot.cfg.distanceToWallTh);
    bot.EnemyPositionCallback(1.0);
    bot.StatusTransition(10.0, Located(0.3, 0.0, 0.0), Succeeded);
    assert bot.detectCounter == 0;
    assert bot.actMode == ActMode.Basic;
    assert bot.status == Active && bot.waypoint.cursor == 0;
    assert bot.trace == [GoalSent(points[0]), CancelAll, Published(Velocity(-0.1, 0.0))];
  }
}
