/** Consequences of the tick over many seconds: the gap to the head waypoint
    shrinks by the factor 0.9 per tick on every axis, so a drone that is in
    flight always reaches its head waypoint, and drops it, after finitely
    many ticks. */
module Convergence {
  import opened DroneTypes
  import opened Simulation

  /** A gap `g` after `n` ticks: `g * 0.9^n`, unfolded one factor at a time. */
  function Shrunk(g: real, n: nat): real
  {
    if n == 0 then g else 0.9 * Shrunk(g, n - 1)
  }

  /** A drone after `n` timer callbacks. */
  function StepN(d: Drone, n: nat): Drone
  {
    if n == 0 then d else Step(StepN(d, n - 1))
  }

  /** Within the first `n` ticks some tick dropped the head waypoint. */
  ghost predicate HeadDroppedWithin(d: Drone, n: nat)
    requires Waypoints(d) != []
  {
    exists k :: 1 <= k <= n && Waypoints(StepN(d, k)) == Waypoints(d)[1..]
  }

  /** `p` is at `g * 0.9^n` from `w` on one axis. */
  predicate GapIs(p: real, w: real, g: real, n: nat)
  {
    Abs(p - w) == Shrunk(g, n)
  }

  /** While a gap stays at or above the tolerance each tick takes at least a
      hundredth of a metre off it, so it falls under the tolerance once
      `n` exceeds `100 g`. */
  lemma {:induction false} ShrunkFallsUnderTolerance(g: real, n: nat)
    requires 0.0 <= g
    ensures 0.0 <= Shrunk(g, n)
    ensures Shrunk(g, n) < ArrivalTolerance || Shrunk(g, n) <= g - 0.01 * n as real
  {
    if n > 0 {
      ShrunkFallsUnderTolerance(g, n - 1);
    }
  }

  /** Until it drops its head waypoint, a drone in flight keeps its path and
      its gap to the head on each axis is 0.9^n of the original gap. */
  lemma {:induction false} GapDecays(d: Drone, n: nat)
    requires d.operationPhase != Docked && Waypoints(d) != []
    ensures var w := Waypoints(d)[0]; var e := StepN(d, n);
      || HeadDroppedWithin(d, n)
      || (&& e.operationPhase != Docked
          && e.flightPath == d.flightPath
          && (n > 0 ==> !Near(e.position, w))
          && GapIs(e.position.x, w.x, Abs(d.position.x - w.x), n)
          && GapIs(e.position.y, w.y, Abs(d.position.y - w.y), n)
          && GapIs(e.position.z, w.z, Abs(d.position.z - w.z), n))
  {
    if n > 0 {
      GapDecays(d, n - 1);
      var w := Waypoints(d)[0];
      var e := StepN(d, n - 1);
      var e' := StepN(d, n);
      assert e' == Step(e);
      if HeadDroppedWithin(d, n - 1) {
        var k :| 1 <= k <= n - 1 && Waypoints(StepN(d, k)) == Waypoints(d)[1..];
        assert 1 <= k <= n;
      } else {
        assert Waypoints(e) == Waypoints(d);
        if Near(e'.position, w) {
          assert Waypoints(e') == Waypoints(d)[1..];
          assert HeadDroppedWithin(d, n);
        } else {
          assert e'.flightPath == d.flightPath;
        }
      }
    }
  }

  /** The largest per-axis gap between the drone and its head waypoint. */
  function HeadGap(d: Drone): (g: real)
    requires Waypoints(d) != []
    ensures 0.0 <= g
    ensures Abs(d.position.x - Waypoints(d)[0].x) <= g
    ensures Abs(d.position.y - Waypoints(d)[0].y) <= g
    ensures Abs(d.position.z - Waypoints(d)[0].z) <= g
  {
    var w := Waypoints(d)[0];
    Max(Abs(d.position.x - w.x), Max(Abs(d.position.y - w.y), Abs(d.position.z - w.z)))
  }

  /** A number of ticks after which the head waypoint must have been dropped. */
  function TicksBound(d: Drone): (n: nat)
    requires Waypoints(d) != []
    ensures n >= 1
    ensures 100.0 * HeadGap(d) < n as real
  {
    (100.0 * HeadGap(d)).Floor + 1
  }

  /** One axis gap of at most `bound` is under the tolerance after `n` ticks
      once `n` exceeds `100 bound`. */
  lemma AxisGapUnderTolerance(g: real, bound: real, n: nat)
    requires 0.0 <= g <= bound && 100.0 * bound < n as real
    ensures Shrunk(g, n) < ArrivalTolerance
  {
    ShrunkFallsUnderTolerance(g, n);
  }

  /** A drone in flight drops its head waypoint within `TicksBound(d)` ticks. */
  lemma HeadWaypointDroppedEventually(d: Drone)
    requires d.operationPhase != Docked && Waypoints(d) != []
    ensures exists k :: 1 <= k <= TicksBound(d) && Waypoints(StepN(d, k)) == Waypoints(d)[1..]
  {
    var n := TicksBound(d);
    var w := Waypoints(d)[0];
    var g := HeadGap(d);
    AxisGapUnderTolerance(Abs(d.position.x - w.x), g, n);
    AxisGapUnderTolerance(Abs(d.position.y - w.y), g, n);
    AxisGapUnderTolerance(Abs(d.position.z - w.z), g, n);
    GapDecays(d, n);
    assert !HeadDroppedWithin(d, n) ==> Near(StepN(d, n).position, w);
    if !HeadDroppedWithin(d, n) {
      assert false;
    }
  }
}
