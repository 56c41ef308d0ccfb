/** The collision guard: three rays at the front and three at the rear of the
    latest laser scan, indexed by whole degrees, are compared with the wall
    threshold. A reading of zero is "no return" and never counts as a wall. */
module CollisionGuard {

  /** Rays checked at the front, in the order the source tests them. */
  const FrontRays: seq<nat> := [0, 10, 350]
  /** Rays checked at the rear, in the order the source tests them. */
  const RearRays: seq<nat> := [180, 190, 170]

  /** Recovery speeds: back away from a front wall, move forward away from a
      rear wall. */
  const BackOffSpeed: real := -0.1
  const PushOffSpeed: real := 0.1

  /** A single reading reports a wall: a real return closer than `th`. */
  predicate Reflects(v: real, th: real) {
    v != 0.0 && v < th
  }

  /** Some ray of `rays` reports a wall. */
  predicate SideBlocked(ranges: seq<real>, rays: seq<nat>, th: real)
    requires forall k :: 0 <= k < |rays| ==> rays[k] < |ranges|
  {
    exists k :: 0 <= k < |rays| && Reflects(ranges[rays[k]], th)
  }

  /** `detect_collision`: (front blocked, rear blocked). The source indexes
      the scan without a guard, so the scan must reach ray 350. */
  function DetectCollision(ranges: seq<real>, th: real): (r: (bool, bool))
    requires |ranges| > 350
    ensures r.0 <==> SideBlocked(ranges, FrontRays, th)
    ensures r.1 <==> SideBlocked(ranges, RearRays, th)
  {
    var front :=
      (ranges[0] != 0.0 && ranges[0] < th) ||
      (ranges[10] != 0.0 && ranges[10] < th) ||
      (ranges[350] != 0.0 && ranges[350] < th);
    var rear :=
      (ranges[180] != 0.0 && ranges[180] < th) ||
      (ranges[190] != 0.0 && ranges[190] < th) ||
      (ranges[170] != 0.0 && ranges[170] < th);
    assert front ==> Reflects(ranges[FrontRays[0]], th) || Reflects(ranges[FrontRays[1]], th)
                     || Reflects(ranges[FrontRays[2]], th);
    assert rear ==> Reflects(ranges[RearRays[0]], th) || Reflects(ranges[RearRays[1]], th)
                    || Reflects(ranges[RearRays[2]], th);
    (front, rear)
  }

  /** `recovery`: whether to override the current command, and the linear
      speed to use. A front wall wins over a rear wall. */
  function Recovery(ranges: seq<real>, th: real): (r: (bool, real))
    requires |ranges| > 350
    ensures SideBlocked(ranges, FrontRays, th) ==> r == (true, BackOffSpeed)
    ensures !SideBlocked(ranges, FrontRays, th) && SideBlocked(ranges, RearRays, th)
            ==> r == (true, PushOffSpeed)
    ensures r.0 <==> SideBlocked(ranges, FrontRays, th) || SideBlocked(ranges, RearRays, th)
    ensures !r.0 ==> r.1 == 0.0
  {
    var (front, rear) := DetectCollision(ranges, th);
    if front then (true, -0.1)
    else if rear then (true, 0.1)
    else (false, 0.0)
  }

  /** A zero at ray `i` contributes nothing: with ray `i` zeroed, a side is
      blocked exactly when one of its OTHER rays reports a wall. */
  lemma ZeroReadingIgnored(ranges: seq<real>, th: real, i: nat)
    requires |ranges| > 350 && i < |ranges|
    ensures DetectCollision(ranges[i := 0.0], th).0 <==>
            exists k :: 0 <= k < |FrontRays| && FrontRays[k] != i && Reflects(ranges[FrontRays[k]], th)
    ensures DetectCollision(ranges[i := 0.0], th).1 <==>
            exists k :: 0 <= k < |RearRays| && RearRays[k] != i && Reflects(ranges[RearRays[k]], th)
  {
  }

  /** A scan whose monitored rays all read zero (nothing received back) never
      triggers a recovery, whatever the threshold. */
  lemma SilentScanNeverRecovers(ranges: seq<real>, th: real)
    requires |ranges| > 350
    requires forall k :: 0 <= k < |FrontRays| ==> ranges[FrontRays[k]] == 0.0
    requires forall k :: 0 <= k < |RearRays| ==> ranges[RearRays[k]] == 0.0
    ensures Recovery(ranges, th) == (false, 0.0)
  {
  }
}
