/** The waypoint cycle: the patrol route, an ordered non-empty list of poses
    with a cursor that wraps to the first pose after the last. The route file
    format and its loader are outside this model. */
module Waypoints {

  /** A target pose in the map frame: position and heading. */
  datatype Waypoint = Waypoint(x: real, y: real, yaw: real)

  /** The index after `i` on a cycle of `n` poses. */
  function Successor(i: nat, n: nat): (j: nat)
    requires i < n
    ensures j < n
    ensures j == (i + 1) % n
  {
    if i + 1 == n then
      ModUnique(i + 1, n, 1, 0);
      0
    else
      ModUnique(i + 1, n, 0, i + 1);
      i + 1
  }

  /** The index reached from `i` after `k` advances. */
  function Advanced(i: nat, k: nat, n: nat): (j: nat)
    requires i < n
    ensures j < n
  {
    if k == 0 then i else Successor(Advanced(i, k - 1, n), n)
  }

  lemma MulAtLeast(d: int, n: int)
    requires d >= 1 && n > 0
    ensures d * n >= n
  {
    assert d * n == (d - 1) * n + n;
  }

  /** The remainder is the only value in [0, n) that differs from `a` by a
      multiple of `n`. */
  lemma ModUnique(a: int, n: int, q: int, r: int)
    requires n > 0 && 0 <= r < n && a == q * n + r
    ensures a % n == r
  {
    var q', r' := a / n, a % n;
    var d := q - q';
    assert d * n == r' - r by {
      assert d * n == q * n - q' * n;
    }
    if d > 0 {
      MulAtLeast(d, n);
    } else if d < 0 {
      MulAtLeast(-d, n);
    }
  }

  lemma ModSuccessor(a: nat, n: nat)
    requires n > 0
    ensures (a % n + 1) % n == (a + 1) % n
  {
    var q, r := a / n, a % n;
    if r + 1 < n {
      ModUnique(a + 1, n, q, r + 1);
      ModUnique(r + 1, n, 0, r + 1);
    } else {
      ModUnique(a + 1, n, q + 1, 0);
      ModUnique(r + 1, n, 1, 0);
    }
  }

  /** `k` advances move the cursor `k` places forward, modulo the length of
      the route: after `n` advances the cursor is back where it started. */
  lemma {:induction false} AdvancedIsModular(i: nat, k: nat, n: nat)
    requires i < n
    ensures Advanced(i, k, n) == (i + k) % n
  {
    if k == 0 {
      ModUnique(i, n, 0, i);
    } else {
      AdvancedIsModular(i, k - 1, n);
      ModSuccessor(i + k - 1, n);
    }
  }

  class WaypointCycle {
    const points: seq<Waypoint>
    var cursor: nat

    ghost predicate Valid()
      reads this
    {
      |points| > 0 && cursor < |points|
    }

    constructor (points: seq<Waypoint>)
      requires |points| > 0
      ensures Valid() && this.points == points && cursor == 0
    {
      this.points := points;
      cursor := 0;
    }

    /** `get_current_waypoint`: the pose under the cursor; reading it does
        not move the cursor. */
    function Current(): (p: Waypoint)
      reads this
      requires Valid()
      ensures p in points
    {
      points[cursor]
    }

    /** `get_next_waypoint`: advance the cursor, wrapping past the last pose,
        and return the pose now under it. */
    method Next() returns (p: Waypoint)
      requires Valid()
      modifies this
      ensures Valid()
      ensures cursor == (old(cursor) + 1) % |points|
      ensures p == points[cursor]
    {
      cursor := Successor(cursor, |points|);
      p := points[cursor];
    }
  }
}
