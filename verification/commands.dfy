/** The command handlers the provider of src/context/DroneSystemContext.tsx
    exposes to the controls: select a drone, set its status, plan its flight,
    trigger an emergency landing, and resolve an alert. Each drone command
    maps over the roster and rewrites only the drones whose id matches; an
    unknown id changes nothing. */
module Commands {
  import opened DroneTypes
  import FlightPath
  import MockData
  import Simulation

  /** `drones.find(d => d.id === droneId) || null` behind the `!droneId`
      guard, which also treats id 0 as "no selection". */
  function SelectDrone(drones: seq<Drone>, droneId: Option<int>): (r: Option<Drone>)
    ensures droneId == None || droneId == Some(0) ==> r == None
    ensures r.Some? ==> r.value in drones && Some(r.value.id) == droneId
    ensures droneId.Some? && droneId.value != 0 && (exists d :: d in drones && d.id == droneId.value) ==> r.Some?
    ensures r.Some? ==> exists i :: 0 <= i < |drones| && drones[i] == r.value
                                   && forall j :: 0 <= j < i ==> drones[j].id != r.value.id
  {
    match droneId
    case None => None
    case Some(id) => if id == 0 then None else FindById(drones, id)
  }

  /** The first drone with the given id. */
  function FindById(drones: seq<Drone>, id: int): (r: Option<Drone>)
    ensures r.Some? <==> exists d :: d in drones && d.id == id
    ensures r.Some? ==> r.value in drones && r.value.id == id
    ensures r.Some? ==> exists i :: 0 <= i < |drones| && drones[i] == r.value
                                   && forall j :: 0 <= j < i ==> drones[j].id != id
  {
    if |drones| == 0 then None
    else if drones[0].id == id then Some(drones[0])
    else
      var rest := FindById(drones[1..], id);
      assert forall d :: d in drones[1..] ==> d in drones;
      assert forall d :: d in drones && d != drones[0] ==> d in drones[1..];
      if rest.Some? then
        ghost var i :| 0 <= i < |drones[1..]| && drones[1..][i] == rest.value
                      && forall j :: 0 <= j < i ==> drones[1..][j].id != id;
        assert drones[i + 1] == rest.value;
        rest
      else rest
  }

  /** `updateDroneStatus(droneId, status)`. */
  function UpdateDroneStatus(drones: seq<Drone>, droneId: int, status: DroneStatus): (r: seq<Drone>)
    ensures |r| == |drones|
    ensures forall i :: 0 <= i < |drones| && drones[i].id == droneId ==>
              r[i].status == status && r[i].(status := drones[i].status) == drones[i]
    ensures forall i :: 0 <= i < |drones| && drones[i].id != droneId ==> r[i] == drones[i]
  {
    seq(|drones|, i requires 0 <= i < |drones| =>
      if drones[i].id == droneId then drones[i].(status := status) else drones[i])
  }

  /** The path `planFlightPath` builds inline for a drone heading to `target`. */
  function PlannedPath(d: Drone, target: Position): (path: seq<Position>)
    ensures path == FlightPath.CalculateFlightPath(d.position, target, d.id)
  {
    var start := d.position;
    var transit := if d.id % 2 == 0 then 4.0 else 6.0;
    [ Position(start.x, start.y, 3.0),
      Position(start.x, start.y, transit),
      Position(target.x, target.y, transit),
      Position(target.x, target.y, 3.0),
      Position(target.x, target.y, 0.0) ]
  }

  /** `planFlightPath(droneId, target)`: a fresh five-waypoint path, the target
      recorded, phase `takeoff`, status `active`; nothing else changes. */
  function PlanFlightPath(drones: seq<Drone>, droneId: int, target: Position): (r: seq<Drone>)
    ensures |r| == |drones|
    ensures forall i :: 0 <= i < |drones| && drones[i].id == droneId ==>
              && r[i].targetPosition == Some(target)
              && r[i].operationPhase == Takeoff
              && r[i].status == Active
              && r[i].flightPath == Some(FlightPath.CalculateFlightPath(drones[i].position, target, droneId))
              && r[i].(targetPosition := drones[i].targetPosition, flightPath := drones[i].flightPath,
                       operationPhase := drones[i].operationPhase, status := drones[i].status) == drones[i]
    ensures forall i :: 0 <= i < |drones| && drones[i].id != droneId ==> r[i] == drones[i]
  {
    seq(|drones|, i requires 0 <= i < |drones| =>
      if drones[i].id == droneId
      then drones[i].(targetPosition := Some(target),
                      flightPath := Some(PlannedPath(drones[i], target)),
                      operationPhase := Takeoff,
                      status := Active)
      else drones[i])
  }

  /** The emergency rewrite of one drone: land straight down from where it is. */
  function EmergencyLanding(d: Drone): (r: Drone)
    ensures r.status == Emergency && r.operationPhase == Landing
    ensures r.flightPath == Some([Position(d.position.x, d.position.y, 0.0)])
    ensures r.position == d.position
    ensures r.(status := d.status, operationPhase := d.operationPhase, flightPath := d.flightPath) == d
  {
    d.(status := Emergency,
       operationPhase := Landing,
       flightPath := Some([Position(d.position.x, d.position.y, 0.0)]))
  }

  /** The alert `executeEmergencyProtocol` appends; `alertId` stands for the
      `emergency-<timestamp>` id the source derives from the clock. */
  function EmergencyAlert(droneId: int, alertId: string): (a: TrafficAlert)
    ensures a.severity == Critical && a.droneIds == [droneId] && !a.resolved && a.id == alertId
  {
    TrafficAlert(alertId, Critical,
                 "Emergency landing protocol activated for Drone " + DecimalString(droneId),
                 [droneId], false)
  }

  /** `executeEmergencyProtocol(droneId)`: the matching drones are set to land
      in place, and one critical alert is appended to the log, uncapped and
      whether or not any drone matched. */
  function ExecuteEmergencyProtocol(f: Fleet, droneId: int, alertId: string): (r: Fleet)
    ensures |r.drones| == |f.drones|
    // corollary of the EmergencyLanding clause below, restated for readers
    ensures forall i :: 0 <= i < |f.drones| && f.drones[i].id == droneId ==>
              && r.drones[i].status == Emergency
              && r.drones[i].operationPhase == Landing
              && r.drones[i].flightPath == Some([Position(f.drones[i].position.x, f.drones[i].position.y, 0.0)])
    // a matching drone keeps its position and every other field
    ensures forall i :: 0 <= i < |f.drones| && f.drones[i].id == droneId ==>
              r.drones[i] == EmergencyLanding(f.drones[i])
    ensures forall i :: 0 <= i < |f.drones| && f.drones[i].id != droneId ==> r.drones[i] == f.drones[i]
    ensures |r.alerts| == |f.alerts| + 1 && r.alerts[..|f.alerts|] == f.alerts
    // corollary of the EmergencyAlert clause below, restated for readers
    ensures var a := r.alerts[|f.alerts|]; a.severity == Critical && a.droneIds == [droneId] && !a.resolved
    ensures r.alerts[|f.alerts|] == EmergencyAlert(droneId, alertId)
  {
    Fleet(seq(|f.drones|, i requires 0 <= i < |f.drones| =>
            if f.drones[i].id == droneId then EmergencyLanding(f.drones[i]) else f.drones[i]),
          f.alerts + [EmergencyAlert(droneId, alertId)])
  }

  /** `resolveAlert(alertId)`: marks every alert with that id resolved. */
  function ResolveAlert(alerts: seq<TrafficAlert>, alertId: string): (r: seq<TrafficAlert>)
    ensures |r| == |alerts|
    ensures forall k :: 0 <= k < |alerts| && alerts[k].id == alertId ==>
              r[k] == alerts[k].(resolved := true)
    ensures forall k :: 0 <= k < |alerts| && alerts[k].id != alertId ==> r[k] == alerts[k]
  {
    seq(|alerts|, k requires 0 <= k < |alerts| =>
      if alerts[k].id == alertId then alerts[k].(resolved := true) else alerts[k])
  }

  /** Setting a status twice keeps only the second. */
  lemma StatusLastWriteWins(drones: seq<Drone>, droneId: int, s1: DroneStatus, s2: DroneStatus)
    ensures UpdateDroneStatus(UpdateDroneStatus(drones, droneId, s1), droneId, s2)
         == UpdateDroneStatus(drones, droneId, s2)
  {
  }

  /** A command naming an id no drone has leaves the roster as it was. */
  lemma UnknownIdIsNoOp(drones: seq<Drone>, droneId: int, status: DroneStatus, target: Position)
    requires forall i :: 0 <= i < |drones| ==> drones[i].id != droneId
    ensures UpdateDroneStatus(drones, droneId, status) == drones
    ensures PlanFlightPath(drones, droneId, target) == drones
  {
  }

  /** Repeating the emergency protocol leaves the drones as the first call
      left them; the log gains one more critical alert. */
  lemma EmergencyIdempotentOnDrones(f: Fleet, droneId: int, id1: string, id2: string)
    ensures var once := ExecuteEmergencyProtocol(f, droneId, id1);
            var twice := ExecuteEmergencyProtocol(once, droneId, id2);
            twice.drones == once.drones && |twice.alerts| == |f.alerts| + 2
  {
  }

  /** Resolving is idempotent and never clears a resolved flag. */
  lemma ResolveIdempotent(alerts: seq<TrafficAlert>, alertId: string)
    ensures ResolveAlert(ResolveAlert(alerts, alertId), alertId) == ResolveAlert(alerts, alertId)
    ensures forall k :: 0 <= k < |alerts| && alerts[k].resolved ==> ResolveAlert(alerts, alertId)[k].resolved
  {
  }

  /** Alert logs whose severities agree entry by entry have the same count
      of non-`info` alerts. */
  lemma {:induction false} SameSeveritiesSameCount(a: seq<TrafficAlert>, b: seq<TrafficAlert>)
    requires |a| == |b|
    requires forall k :: 0 <= k < |a| ==> a[k].severity == b[k].severity
    ensures MockData.CountNonInfo(a) == MockData.CountNonInfo(b)
    decreases |a|
  {
    if |a| > 0 {
      SameSeveritiesSameCount(a[1..], b[1..]);
    }
  }

  /** Appending one alert adds one to the non-`info` count exactly when the
      alert is not `info`. */
  lemma {:induction false} CountNonInfoAppend(a: seq<TrafficAlert>, x: TrafficAlert)
    ensures MockData.CountNonInfo(a + [x]) == MockData.CountNonInfo(a) + (if x.severity != Info then 1 else 0)
    decreases |a|
  {
    if |a| > 0 {
      assert (a + [x])[1..] == a[1..] + [x];
      CountNonInfoAppend(a[1..], x);
    }
  }

  /** Resolving an alert does not change the non-info count of the log (what
      `calculateSystemMetrics` would report for it as collision-avoidance
      events). */
  lemma ResolveKeepsCollisionEvents(alerts: seq<TrafficAlert>, alertId: string)
    ensures MockData.CountNonInfo(ResolveAlert(alerts, alertId)) == MockData.CountNonInfo(alerts)
  {
    SameSeveritiesSameCount(ResolveAlert(alerts, alertId), alerts);
  }

  /** Each emergency raises the non-info count of the log by one (what
      `calculateSystemMetrics` would report for it as collision-avoidance
      events). */
  lemma EmergencyCountsOneEvent(f: Fleet, droneId: int, alertId: string)
    ensures MockData.CountNonInfo(ExecuteEmergencyProtocol(f, droneId, alertId).alerts)
         == MockData.CountNonInfo(f.alerts) + 1
  {
    CountNonInfoAppend(f.alerts, EmergencyAlert(droneId, alertId));
  }

  /** A drone in emergency landing stays in it under the tick: the
      low-battery return never overrides `landing`, and it descends straight
      down toward the ground. */
  lemma EmergencyLandingSurvivesTick(d: Drone)
    ensures var e := Simulation.Step(EmergencyLanding(d));
      && e.operationPhase == Landing && e.status == Emergency
      && e.position.x == d.position.x && e.position.y == d.position.y
      && (0.0 <= d.position.z ==> 0.0 <= e.position.z <= d.position.z)
  {
  }
}
