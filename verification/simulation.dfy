/** The once-a-second update of src/context/DroneSystemContext.tsx: every
    drone that is not docked loses battery, moves a tenth of the way to the
    head of its flight path, drops that waypoint once it is close on all three
    axes, and is marked returning with a warning status when its battery
    falls below 20 (its path is left as it is). The tick's random
    alert is taken as a parameter; its random walk of the metrics is not
    modelled. */
module Simulation {
  import opened DroneTypes
  import MockData

  /** Battery lost per tick by a drone that is not docked. */
  const BatteryDrain: real := 0.1
  /** Below this battery level a drone is marked `returning` with a `warning` status. */
  const LowBattery: real := 20.0
  /** Per-axis distance under which the head waypoint counts as reached. */
  const ArrivalTolerance: real := 0.1
  /** The alert log kept by the tick holds at most this many entries. */
  const AlertHistory: nat := 10

  /** One axis moved a tenth of the way from `p` to `w`. */
  function Approach(p: real, w: real): (q: real)
    ensures q - w == 0.9 * (p - w)
    ensures Abs(q - w) == 0.9 * Abs(p - w)
    ensures p <= w ==> p <= q <= w
    ensures w <= p ==> w <= q <= p
  {
    p + (w - p) * 0.1
  }

  function MoveToward(p: Position, w: Position): Position
  {
    Position(Approach(p.x, w.x), Approach(p.y, w.y), Approach(p.z, w.z))
  }

  /** All three axes strictly within the arrival tolerance. */
  predicate Near(p: Position, w: Position)
  {
    && Abs(p.x - w.x) < ArrivalTolerance
    && Abs(p.y - w.y) < ArrivalTolerance
    && Abs(p.z - w.z) < ArrivalTolerance
  }

  /** `p` lies on the closed segment between `a` and `b`. */
  predicate Between(a: real, p: real, b: real)
  {
    (a <= p <= b) || (b <= p <= a)
  }

  /** The body of the roster `map` callback: the update of one drone. */
  function Step(d: Drone): (r: Drone)
    // docked drones are returned unchanged
    ensures d.operationPhase == Docked ==> r == d
    // identity, name, target, layer and quadrant are never touched
    ensures r.id == d.id && r.name == d.name && r.targetPosition == d.targetPosition
    ensures r.currentLayer == d.currentLayer && r.quadrant == d.quadrant
    // battery: drained and clamped at zero, never raised
    ensures d.operationPhase != Docked ==> 0.0 <= r.battery
    ensures d.operationPhase != Docked && d.battery >= BatteryDrain ==> r.battery == d.battery - BatteryDrain
    ensures d.operationPhase != Docked && d.battery < BatteryDrain ==> r.battery == 0.0
    ensures 0.0 <= d.battery ==> r.battery <= d.battery
    // without waypoints the drone holds position
    ensures Waypoints(d) == [] ==> r.position == d.position && r.flightPath == d.flightPath
    // with waypoints every axis closes 10% of its gap to the head
    ensures d.operationPhase != Docked && Waypoints(d) != [] ==>
      var w := Waypoints(d)[0];
      && Between(d.position.x, r.position.x, w.x)
      && Between(d.position.y, r.position.y, w.y)
      && Between(d.position.z, r.position.z, w.z)
      && Abs(r.position.x - w.x) == 0.9 * Abs(d.position.x - w.x)
      && Abs(r.position.y - w.y) == 0.9 * Abs(d.position.y - w.y)
      && Abs(r.position.z - w.z) == 0.9 * Abs(d.position.z - w.z)
    // the head waypoint is dropped exactly when the drone has reached it
    ensures d.operationPhase != Docked && Waypoints(d) != [] ==>
      && (Near(r.position, Waypoints(d)[0]) ==> r.flightPath == Some(Waypoints(d)[1..]))
      && (!Near(r.position, Waypoints(d)[0]) ==> r.flightPath == d.flightPath)
    // the only phase change is the low-battery return, and it also sets a warning
    ensures r.operationPhase != d.operationPhase <==>
      d.operationPhase != Docked && r.battery < LowBattery
      && d.operationPhase != Returning && d.operationPhase != Landing
    ensures r.operationPhase != d.operationPhase ==>
      r.operationPhase == Returning && r.status == DroneStatus.Warning
    ensures r.operationPhase == d.operationPhase ==> r.status == d.status
  {
    if d.operationPhase == Docked then d
    else
      var battery := Max(0.0, d.battery - BatteryDrain);
      var path := Waypoints(d);
      var moved :=
        if |path| > 0 then
          var next := path[0];
          var pos := MoveToward(d.position, next);
          d.(battery := battery,
             position := pos,
             flightPath := if Near(pos, next) then Some(path[1..]) else d.flightPath)
        else d.(battery := battery);
      if moved.battery < LowBattery && moved.operationPhase != Returning && moved.operationPhase != Landing
      then moved.(operationPhase := Returning, status := DroneStatus.Warning)
      else moved
  }

  /** `prev.map(...)` over the whole roster. */
  function Tick(drones: seq<Drone>): (r: seq<Drone>)
    ensures |r| == |drones|
    ensures forall i :: 0 <= i < |drones| ==> r[i] == Step(drones[i])
  {
    if |drones| == 0 then []
    else [Step(drones[0])] + Tick(drones[1..])
  }

  /** `[...prev, alert].slice(-10)`: append, then keep the newest ten. */
  function AppendBounded(log: seq<TrafficAlert>, alert: TrafficAlert): (r: seq<TrafficAlert>)
    ensures |r| == if |log| < AlertHistory then |log| + 1 else AlertHistory
    ensures r[|r| - 1] == alert
    // the survivors are the newest entries of the old log, in order
    ensures forall k :: 0 <= k < |r| - 1 ==> r[k] == log[|log| - (|r| - 1) + k]
    ensures |log| < AlertHistory ==> r == log + [alert]
  {
    var all := log + [alert];
    if |all| <= AlertHistory then all else all[|all| - AlertHistory..]
  }

  /** One timer callback on the provider state. `randomAlert` is the alert
      the callback draws in one tick out of five, or `None`. */
  function TickFleet(f: Fleet, randomAlert: Option<TrafficAlert>): (r: Fleet)
    ensures r.drones == Tick(f.drones)
    ensures randomAlert.None? ==> r.alerts == f.alerts
    // corollary of the AppendBounded clause below, restated for readers
    ensures randomAlert.Some? ==>
      && |r.alerts| == (if |f.alerts| < AlertHistory then |f.alerts| + 1 else AlertHistory)
      && r.alerts[|r.alerts| - 1] == randomAlert.value
    // the drawn alert goes through the capped append: the newest old entries survive in order
    ensures randomAlert.Some? ==> r.alerts == AppendBounded(f.alerts, randomAlert.value)
  {
    Fleet(Tick(f.drones),
          match randomAlert
          case None => f.alerts
          case Some(a) => AppendBounded(f.alerts, a))
  }

  /** The tick never makes a drone active: it only ever sets `warning`. */
  lemma {:induction false} TickNeverAddsActive(drones: seq<Drone>)
    ensures MockData.CountActive(Tick(drones)) <= MockData.CountActive(drones)
    decreases |drones|
  {
    if |drones| > 0 {
      var t := Tick(drones);
      assert t[1..] == Tick(drones[1..]);
      TickNeverAddsActive(drones[1..]);
    }
  }

  /** The tick preserves every drone's identity and position in the roster. */
  lemma TickPreservesIds(drones: seq<Drone>)
    ensures forall i :: 0 <= i < |drones| ==> Tick(drones)[i].id == drones[i].id
  {
  }

  /** An absent flight path and an empty one tick alike: neither moves the
      drone, and neither is rewritten. */
  lemma AbsentPathTicksLikeEmpty(d: Drone)
    ensures Step(d.(flightPath := None)) == Step(d.(flightPath := Some([]))).(flightPath := None)
    ensures Step(d.(flightPath := None)).position == d.position
  {
  }

  /** A drone in flight stays in flight: no tick ever sets `docked`. */
  lemma StepNeverDocks(d: Drone)
    requires d.operationPhase != Docked
    ensures Step(d).operationPhase != Docked
  {
  }

  /** The tick's log never grows beyond its bound once it is within it. */
  lemma {:induction false} TickAlertsStayBounded(f: Fleet, draws: seq<Option<TrafficAlert>>)
    requires |f.alerts| <= AlertHistory
    ensures |TickMany(f, draws).alerts| <= AlertHistory
    decreases |draws|
  {
    if |draws| > 0 {
      TickAlertsStayBounded(TickFleet(f, draws[0]), draws[1..]);
    }
  }

  /** Successive timer callbacks, one per draw. */
  function TickMany(f: Fleet, draws: seq<Option<TrafficAlert>>): (r: Fleet)
    ensures |r.drones| == |f.drones|
    decreases |draws|
  {
    if |draws| == 0 then f else TickMany(TickFleet(f, draws[0]), draws[1..])
  }
}
