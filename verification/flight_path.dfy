/** The flight-path builder of src/utils/mockData.ts: takeoff to the layer-2
    boundary, climb to a transit altitude chosen by id parity, cross to the
    target, descend to the layer-2 boundary and land. */
module FlightPath {
  import opened DroneTypes

  /** Altitude of the takeoff and descent waypoints (the layer-2 boundary). */
  const TransitionAltitude: real := 3.0

  /** Even ids cruise at 4 m, odd ids at 6 m. The source's `%` truncates and
      Dafny's is Euclidean, but both give 0 exactly for even ids. */
  function TransitAltitude(droneId: int): (a: real)
    ensures a == 4.0 || a == 6.0
    ensures a == 4.0 <==> droneId % 2 == 0
    ensures TransitionAltitude < a
  {
    if droneId % 2 == 0 then 4.0 else 6.0
  }

  /** `calculateFlightPath(start, end, droneId)`. */
  function CalculateFlightPath(start: Position, end: Position, droneId: int): (path: seq<Position>)
    ensures |path| == 5
    ensures forall k :: 0 <= k < 2 ==> path[k].x == start.x && path[k].y == start.y
    ensures forall k :: 2 <= k < 5 ==> path[k].x == end.x && path[k].y == end.y
    ensures path[0].z == TransitionAltitude && path[3].z == TransitionAltitude
    ensures path[1].z == path[2].z == TransitAltitude(droneId)
    ensures path[4] == Position(end.x, end.y, 0.0)
  {
    var a := TransitAltitude(droneId);
    [ Position(start.x, start.y, TransitionAltitude),
      Position(start.x, start.y, a),
      Position(end.x, end.y, a),
      Position(end.x, end.y, TransitionAltitude),
      Position(end.x, end.y, 0.0) ]
  }

  /** The path depends on nothing but its arguments; drones of different
      parity never share their cruising altitude. */
  lemma ParitySeparatesTransitLayers(s1: Position, e1: Position, id1: int,
                                      s2: Position, e2: Position, id2: int)
    requires id1 % 2 != id2 % 2
    ensures CalculateFlightPath(s1, e1, id1)[2].z != CalculateFlightPath(s2, e2, id2)[2].z
    ensures forall j, k :: 1 <= j < 3 && 1 <= k < 3 ==>
              CalculateFlightPath(s1, e1, id1)[j].z != CalculateFlightPath(s2, e2, id2)[k].z
  {
  }

  /** Every waypoint lies between the ground and the transit altitude, and the
      path climbs monotonically up to index 1 and descends monotonically from 2. */
  lemma FlightPathAltitudeProfile(start: Position, end: Position, droneId: int)
    ensures var p := CalculateFlightPath(start, end, droneId);
      && (forall k :: 0 <= k < 5 ==> 0.0 <= p[k].z <= TransitAltitude(droneId))
      && p[0].z <= p[1].z
      && p[2].z >= p[3].z >= p[4].z
  {
  }
}
