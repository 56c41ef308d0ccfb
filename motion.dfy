/** The motion command generator: the commands a tick sends to the
    navigation service and to the velocity topic, in patrol (BASIC) and in
    attack (ATTACK) mode. */
module MotionCommand {
  import opened Geometry
  import opened Params
  import opened Waypoints
  import opened ModeDecision

  /** The goal lifecycle states of the navigation action client. */
  datatype GoalStatus =
    | Pending | Active | Preempted | Succeeded | Aborted
    | Rejected | Preempting | Recalling | Recalled | Lost

  /** A velocity command (`Twist`): forward speed and turn rate. */
  datatype Velocity = Velocity(linear: real, angular: real)

  /** A command issued to the outside world. */
  datatype Command =
    | CancelAll                  // `cancel_goal`: cancel every navigation goal
    | GoalSent(target: Waypoint) // `send_goal`: a new navigation goal
    | Published(cmd: Velocity)   // a message on the velocity topic

  /** The goal states on which `basic` resubmits the current waypoint. */
  predicate Resubmits(s: GoalStatus) {
    s == Pending || s == Preempting || s == Preempted
  }

  /** The patrol state after a `basic` call and the commands it issued. */
  datatype PatrolOutcome = PatrolOutcome(status: GoalStatus, cursor: nat, commands: seq<Command>)

  /** `basic`, given the recovery verdict of the tick, the goal state the
      navigation client reports, the last observed goal state and the
      waypoint cursor. */
  function PatrolStep(recovery: (bool, real), navState: GoalStatus, status: GoalStatus,
                      cursor: nat, points: seq<Waypoint>): (r: PatrolOutcome)
    requires cursor < |points|
    ensures r.cursor < |points|
    ensures recovery.0 ==>
            r == PatrolOutcome(status, cursor, [CancelAll, Published(Velocity(recovery.1, 0.0))])
    ensures !recovery.0 ==> r.status == navState
    ensures !recovery.0 ==>
            r.cursor == if navState == Succeeded then (cursor + 1) % |points| else cursor
    ensures !recovery.0 ==>
            r.commands == if navState == Succeeded || Resubmits(navState)
                          then [GoalSent(points[r.cursor])] else []
  {
    if recovery.0 then
      PatrolOutcome(status, cursor, [CancelAll, Published(Velocity(recovery.1, 0.0))])
    else
      match navState
      case Active => PatrolOutcome(navState, cursor, [])
      case Succeeded =>
        var next := Successor(cursor, |points|);
        PatrolOutcome(navState, next, [GoalSent(points[next])])
      case Aborted => PatrolOutcome(navState, cursor, [])
      case Pending => PatrolOutcome(navState, cursor, [GoalSent(points[cursor])])
      case Preempting => PatrolOutcome(navState, cursor, [GoalSent(points[cursor])])
      case Preempted => PatrolOutcome(navState, cursor, [GoalSent(points[cursor])])
      case _ => PatrolOutcome(navState, cursor, [])
  }

  /** A patrol tick either drives directly or talks to the navigation
      service, never both: a velocity is published only together with a
      cancel, and a goal is only ever a waypoint of the route. */
  lemma PatrolNeverMixesGoalAndVelocity(recovery: (bool, real), navState: GoalStatus,
                                        status: GoalStatus, cursor: nat, points: seq<Waypoint>)
    requires cursor < |points|
    ensures var r := PatrolStep(recovery, navState, status, cursor, points);
            (exists k :: 0 <= k < |r.commands| && r.commands[k].Published?) ==>
              (forall k :: 0 <= k < |r.commands| ==> !r.commands[k].GoalSent?)
    ensures var r := PatrolStep(recovery, navState, status, cursor, points);
            forall k :: 0 <= k < |r.commands| && r.commands[k].GoalSent? ==>
              r.commands[k].target in points
  {
  }

  /** Patrol over several ticks without a wall in sight, given the goal
      state the navigation client reports at each tick. */
  function PatrolRun(navStates: seq<GoalStatus>, status: GoalStatus, cursor: nat,
                     points: seq<Waypoint>): (r: PatrolOutcome)
    requires cursor < |points|
    ensures r.cursor < |points|
    ensures |r.commands| <= |navStates|
  {
    if |navStates| == 0 then PatrolOutcome(status, cursor, [])
    else
      var before := PatrolRun(navStates[..|navStates| - 1], status, cursor, points);
      var step := PatrolStep((false, 0.0), navStates[|navStates| - 1], before.status,
                             before.cursor, points);
      PatrolOutcome(step.status, step.cursor, before.commands + step.commands)
  }

  /** After `k` successes from cursor `c`: the cursor is `k` places on and
      the goals sent were the next `k` waypoints in route order. */
  predicate CycledRoute(r: PatrolOutcome, k: nat, c: nat, points: seq<Waypoint>)
    requires |points| > 0
  {
    && r.cursor == (c + k) % |points|
    && |r.commands| == k
    && forall i :: 0 <= i < k ==> r.commands[i] == GoalSent(points[(c + i + 1) % |points|])
  }

  lemma SuccessStep(k: nat, status: GoalStatus, c: nat, points: seq<Waypoint>)
    requires c < |points| && k > 0
    requires CycledRoute(PatrolRun(seq(k - 1, _ => Succeeded), status, c, points), k - 1, c, points)
    ensures CycledRoute(PatrolRun(seq(k, _ => Succeeded), status, c, points), k, c, points)
  {
    var n := |points|;
    var states := seq(k, _ => Succeeded);
    var init := seq(k - 1, _ => Succeeded);
    assert states[..k - 1] == init;
    var before := PatrolRun(init, status, c, points);
    var step := PatrolStep((false, 0.0), Succeeded, before.status, before.cursor, points);
    var r := PatrolRun(states, status, c, points);
    assert r == PatrolOutcome(step.status, step.cursor, before.commands + step.commands);
    var p := (c + k) % n;
    assert step.cursor == p by {
      ModSuccessor(c + k - 1, n);
    }
    assert r.commands == before.commands + [GoalSent(points[p])];
    forall i | 0 <= i < k
      ensures r.commands[i] == GoalSent(points[(c + i + 1) % n])
    {
      if i < k - 1 {
        assert r.commands[i] == before.commands[i];
      }
    }
  }

  /** Every SUCCEEDED tick moves to the next waypoint and sends it: `k`
      successes from cursor `c` send the next `k` waypoints in route order,
      wrapping after the last. */
  lemma {:induction false} SuccessesCycleTheRoute(k: nat, status: GoalStatus, c: nat,
                                                  points: seq<Waypoint>)
    requires c < |points|
    ensures CycledRoute(PatrolRun(seq(k, _ => Succeeded), status, c, points), k, c, points)
  {
    if k == 0 {
      ModUnique(c, |points|, 0, c);
    } else {
      SuccessesCycleTheRoute(k - 1, status, c, points);
      SuccessStep(k, status, c, points);
    }
  }

  /** A full lap of successes, one per waypoint, brings the cursor back to
      where it started. */
  lemma FullLapReturnsToStart(status: GoalStatus, c: nat, points: seq<Waypoint>)
    requires c < |points|
    ensures PatrolRun(seq(|points|, _ => Succeeded), status, c, points).cursor == c
  {
    SuccessesCycleTheRoute(|points|, status, c, points);
    ModUnique(c + |points|, |points|, 1, c);
  }

  /** Without a SUCCEEDED or a resubmitting state the patrol stalls: the
      cursor stays put and nothing is sent, however long it lasts. ABORTED
      in particular never leads to a new goal. */
  lemma {:induction false} StalledPatrolSendsNothing(navStates: seq<GoalStatus>, status: GoalStatus,
                                                     c: nat, points: seq<Waypoint>)
    requires c < |points|
    requires forall i :: 0 <= i < |navStates| ==>
               navStates[i] != Succeeded && !Resubmits(navStates[i])
    ensures var r := PatrolRun(navStates, status, c, points);
            r.cursor == c && r.commands == []
  {
    if |navStates| > 0 {
      StalledPatrolSendsNothing(navStates[..|navStates| - 1], status, c, points);
    }
  }

  /** `turn_to_enemy`: turn at a rate equal to the bearing, no forward speed. */
  function TurnToEnemy(directionDiff: real): (v: Velocity)
    ensures v.linear == 0.0 && v.angular == directionDiff
  {
    Velocity(0.0, directionDiff)
  }

  /** The velocity `attack` publishes: turn towards the enemy; drive to the
      standoff distance only when facing it within `attack_angle_th` and no
      wall is in the way. */
  function AttackVelocity(info: EnemyInfo, recovering: bool, cfg: Config): (v: Velocity)
    ensures v.angular == info.direction
    ensures v.linear > 0.0 <==>
            !recovering && Abs(info.direction) < cfg.attackAngleTh
            && info.distance > cfg.approachDistanceTh
    ensures v.linear < 0.0 <==>
            !recovering && Abs(info.direction) < cfg.attackAngleTh
            && info.distance < cfg.approachDistanceTh
    ensures v.linear != 0.0 ==> v.linear == info.distance - cfg.approachDistanceTh
  {
    var cmd := TurnToEnemy(info.direction);
    if recovering then cmd.(linear := 0.0)
    else if Abs(info.direction) < cfg.attackAngleTh then
      cmd.(linear := info.distance - cfg.approachDistanceTh)
    else cmd.(linear := 0.0)
  }
}
