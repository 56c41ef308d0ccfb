/** The enemy fusion detector: the lidar-based enemy estimate, gated by its
    age and a debounce counter, then corroborated by the camera inside the
    camera's field of view and usable range. */
module EnemyFusion {
  import opened Geometry
  import opened Params

  /** What a tick learns about the enemy: presence, distance, bearing
      relative to the robot's heading. */
  datatype Detection = Detection(present: bool, distance: real, bearing: real)

  /** The `(False, 0.0, 0.0)` answer of every failure path. */
  const Absent: Detection := Detection(false, 0.0, 0.0)

  /** The own-pose lookup for this tick. On success it carries the values the
      source computes with `sqrt`, `atan2` and `euler_from_quaternion`: the
      distance to the enemy, the direction to it and the robot's yaw. */
  datatype PoseLookup = LookupFailed | Located(distance: real, direction: real, yaw: real)

  /** The sentinel angle the camera detector reports for "colour not found". */
  const NotFound: real := -360.0

  /** The camera's latest verdict: `is_camera_detect`, `camera_detect_angle`. */
  datatype CameraReading = CameraReading(detected: bool, angle: real)

  /** An observation of age `age` is stale once it is older than `tol`. */
  predicate Stale(age: real, tol: real) {
    age > tol
  }

  /** The debounce counter after one lidar detection. */
  function NextCounter(counter: nat, age: real, tol: real): nat {
    if Stale(age, tol) then 0 else counter + 1
  }

  /** `detect_from_lidar`: the new debounce counter and the lidar detection. */
  function LidarStep(counter: nat, age: real, pose: PoseLookup, cfg: Config): (r: (nat, Detection))
    ensures Stale(age, cfg.enemyTimeTolerance) ==> r == (0, Absent)
    ensures !Stale(age, cfg.enemyTimeTolerance) ==> r.0 == counter + 1
    ensures r.0 == NextCounter(counter, age, cfg.enemyTimeTolerance)
    ensures r.1.present <==>
            !Stale(age, cfg.enemyTimeTolerance) && counter + 1 >= cfg.counterTh && pose.Located?
    ensures r.1.present ==> r.0 >= cfg.counterTh
    ensures r.1.present ==>
            r.1 == Detection(true, pose.distance, Pi2Pi(pose.direction - pose.yaw))
            && -180.0 < r.1.bearing <= 180.0
    ensures !r.1.present ==> r.1 == Absent
  {
    if age > cfg.enemyTimeTolerance then
      (0, Absent)
    else
      var c := counter + 1;
      if c < cfg.counterTh then
        (c, Absent)
      else
        match pose
        case LookupFailed => (c, Absent)
        case Located(d, dir, yaw) => (c, Detection(true, d, Pi2Pi(dir - yaw)))
  }

  /** The counter after the first `n` lidar detections, from the initial 0,
      given the observation age at each of them, oldest first. */
  function CounterOver(ages: seq<real>, n: nat, tol: real): nat
    requires n <= |ages|
  {
    if n == 0 then 0
    else NextCounter(CounterOver(ages, n - 1, tol), ages[n - 1], tol)
  }

  /** The counter after a whole run of lidar detections. */
  function CounterAfter(ages: seq<real>, tol: real): nat {
    CounterOver(ages, |ages|, tol)
  }

  /** Later detections do not change the counter of an earlier prefix. */
  lemma {:induction false} CounterOverExtended(ages: seq<real>, age: real, n: nat, tol: real)
    requires n <= |ages|
    ensures CounterOver(ages + [age], n, tol) == CounterOver(ages, n, tol)
  {
    if n > 0 {
      CounterOverExtended(ages, age, n - 1, tol);
      assert (ages + [age])[n - 1] == ages[n - 1];
    }
  }

  /** After the first `n` detections the counter is the length of the
      trailing run of fresh observations in that prefix. */
  lemma {:induction false} CounterOverIsTrailingFreshRun(ages: seq<real>, n: nat, tol: real)
    requires n <= |ages|
    ensures CounterOver(ages, n, tol) <= n
    ensures forall i :: n - CounterOver(ages, n, tol) <= i < n ==> !Stale(ages[i], tol)
    ensures CounterOver(ages, n, tol) < n ==> Stale(ages[n - 1 - CounterOver(ages, n, tol)], tol)
  {
    if n > 0 {
      CounterOverIsTrailingFreshRun(ages, n - 1, tol);
    }
  }

  /** The counter is the length of the trailing run of fresh observations:
      the last `c` ages are fresh and, if there is one, the age before them
      is stale. */
  lemma CounterIsTrailingFreshRun(ages: seq<real>, tol: real)
    ensures CounterAfter(ages, tol) <= |ages|
    ensures forall i :: |ages| - CounterAfter(ages, tol) <= i < |ages| ==> !Stale(ages[i], tol)
    ensures CounterAfter(ages, tol) < |ages| ==>
            Stale(ages[|ages| - 1 - CounterAfter(ages, tol)], tol)
  {
    CounterOverIsTrailingFreshRun(ages, |ages|, tol);
  }

  /** The last `k` observation ages are all fresh. */
  predicate EndsWithFreshRun(ages: seq<real>, k: int, tol: real) {
    k <= |ages| && forall i :: |ages| - k <= i < |ages| ==> !Stale(ages[i], tol)
  }

  /** Debounce: the counter reaches `k` exactly when the last `k` lidar
      detections all saw a fresh observation. */
  lemma DebounceNeedsConsecutiveFresh(ages: seq<real>, tol: real, k: nat)
    ensures CounterAfter(ages, tol) >= k <==> EndsWithFreshRun(ages, k, tol)
  {
    CounterIsTrailingFreshRun(ages, tol);
    var c := CounterAfter(ages, tol);
    if c < k && k <= |ages| {
      assert |ages| - k <= |ages| - 1 - c < |ages|;
    }
  }

  /** One lidar detection extends the history by its observation age: the
      new counter is the counter of the longer history, and a detection is
      only reported after `counter_th` consecutive fresh observations. */
  lemma LidarStepExtendsHistory(ages: seq<real>, age: real, pose: PoseLookup, cfg: Config)
    ensures var r := LidarStep(CounterAfter(ages, cfg.enemyTimeTolerance), age, pose, cfg);
            r.0 == CounterAfter(ages + [age], cfg.enemyTimeTolerance)
            && (r.1.present ==>
                EndsWithFreshRun(ages + [age], cfg.counterTh, cfg.enemyTimeTolerance))
  {
    var history := ages + [age];
    CounterOverExtended(ages, age, |ages|, cfg.enemyTimeTolerance);
    if cfg.counterTh >= 0 {
      DebounceNeedsConsecutiveFresh(history, cfg.enemyTimeTolerance, cfg.counterTh);
    }
  }

  /** `detect_from_camera`: red wins over green; blue is never consulted. */
  function CameraSignal(red: real, green: real, blue: real): (r: CameraReading)
    ensures r.detected <==> red != NotFound || green != NotFound
    ensures red != NotFound ==> r.angle == red
    ensures red == NotFound ==> r.angle == green
    ensures !r.detected ==> r.angle == NotFound
  {
    if red != NotFound then CameraReading(true, red)
    else if green != NotFound then CameraReading(true, green)
    else CameraReading(false, NotFound)
  }

  /** The region where the camera can confirm a lidar detection: a strict
      bearing cone and a strict range band. */
  predicate InCameraWindow(d: Detection, cfg: Config) {
    Abs(d.bearing) < cfg.cameraAngleLimit
    && cfg.cameraRangeMin < d.distance < cfg.cameraRangeMax
  }

  /** The gate of `detect_enemy`: inside the camera window a detection
      stands only if the camera also sees the enemy; outside it the lidar
      verdict stands. Distance and bearing pass through. */
  function CameraGate(d: Detection, cameraDetect: bool, cfg: Config): (r: Detection)
    ensures r.distance == d.distance && r.bearing == d.bearing
    ensures r.present <==> d.present && (InCameraWindow(d, cfg) ==> cameraDetect)
  {
    if Abs(d.bearing) < cfg.cameraAngleLimit
       && d.distance > cfg.cameraRangeMin && d.distance < cfg.cameraRangeMax
    then d.(present := d.present && cameraDetect)
    else d
  }

  /** Outside the camera window the camera's verdict is irrelevant. */
  lemma CameraIrrelevantOutsideWindow(d: Detection, cfg: Config)
    requires !InCameraWindow(d, cfg)
    ensures CameraGate(d, true, cfg) == CameraGate(d, false, cfg) == d
  {
  }
}
