/** The records and closed enumerations of the drone airspace simulator
    (src/types/drone.ts), plus the two pieces of provider state that the
    commands and the tick rewrite: the drone roster and the alert log.

    Timestamps (`lastUpdated`, an alert's `timestamp`) are not modelled: no
    operation of the core reads them. */
module DroneTypes {

  /** An optional value; stands for the source's `?:` fields and `| null`. */
  datatype Option<+T> = None | Some(value: T)

  datatype DroneStatus = Idle | Active | Warning | Emergency

  datatype OperationPhase = Docked | Takeoff | Transit | Operation | Returning | Landing

  /** The literal union `1 | 2 | 3 | 4 | 5`. */
  type AirspaceLayer = l: int | 1 <= l <= 5 witness 1

  datatype Quadrant = Q1 | Q2 | Q3 | Q4

  /** Metres; the source's IEEE doubles are modelled as exact rationals. */
  datatype Position = Position(x: real, y: real, z: real)

  datatype Drone = Drone(
    id: int,
    name: string,
    status: DroneStatus,
    battery: real,
    position: Position,
    targetPosition: Option<Position>,
    operationPhase: OperationPhase,
    currentLayer: AirspaceLayer,
    quadrant: Quadrant,
    flightPath: Option<seq<Position>>)

  datatype Severity = Info | Warning | Critical

  datatype TrafficAlert = TrafficAlert(
    id: string,
    severity: Severity,
    message: string,
    droneIds: seq<int>,
    resolved: bool)

  /** `systemUtilization` is `None` where the source divides 0 by 0 and gets NaN. */
  datatype SystemMetrics = SystemMetrics(
    operationalThroughput: real,
    averageWaitTime: real,
    pathEfficiency: real,
    collisionAvoidanceEvents: nat,
    systemUtilization: Option<real>)

  /** The roster and the alert log held by the provider. */
  datatype Fleet = Fleet(drones: seq<Drone>, alerts: seq<TrafficAlert>)

  /** The remaining waypoints; an absent path and an empty one read the same. */
  function Waypoints(d: Drone): seq<Position>
  {
    match d.flightPath
    case None => []
    case Some(path) => path
  }

  function Abs(x: real): real
  {
    if x < 0.0 then -x else x
  }

  function Max(a: real, b: real): real
  {
    if a < b then b else a
  }

  /** The decimal text of an integer, as a template literal renders the ids
      that occur. A cosmetic helper for drone names and alert messages: no
      property of the model relies on its text beyond the clauses below. */
  function DecimalString(n: int): (s: string)
    ensures |s| > 0
    ensures n >= 0 ==> forall k :: 0 <= k < |s| ==> '0' <= s[k] <= '9'
    ensures n < 0 ==> s[0] == '-'
    decreases if n < 0 then 1 - n else n
  {
    if n < 0 then "-" + DecimalString(-n)
    else if n < 10 then [DigitChar(n)]
    else DecimalString(n / 10) + [DigitChar(n % 10)]
  }

  function DigitChar(d: int): (c: char)
    requires 0 <= d < 10
    ensures '0' <= c <= '9'
  {
    ['0', '1', '2', '3', '4', '5', '6', '7', '8', '9'][d]
  }
}
