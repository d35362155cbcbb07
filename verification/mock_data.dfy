/** Fleet initialisation and the metrics snapshot of src/utils/mockData.ts.
    The source's `Math.random()` calls become parameters: one pair of draws in
    [0, 1) per created drone, and one draw each for the two cosmetic metrics. */
module MockData {
  import opened DroneTypes

  /** Number of docks, and of drones, in the 4x4 grid. */
  const FleetSize: nat := 16
  /** Dock spacing and the offset of the first dock from the origin. */
  const DockSpacing: real := 3.0
  const DockOffset: real := 1.5

  /** The two `Math.random()` results a created drone consumes: the first
      decides its status, the second its battery. */
  datatype DroneDraw = DroneDraw(statusDraw: real, batteryDraw: real)

  predicate IsUnitDraw(r: real)
  {
    0.0 <= r < 1.0
  }

  /** `Math.ceil` on reals. */
  function Ceil(x: real): (c: int)
    ensures x <= c as real < x + 1.0
  {
    if x.Floor as real == x then x.Floor else x.Floor + 1
  }

  /** `Math.ceil(i / 4)`: the dock row of drone `i`. */
  function DockRow(i: int): int
  {
    Ceil(i as real / 4.0)
  }

  /** `((i - 1) % 4) + 1`: the dock column of drone `i` (here `i >= 1`, so
      the truncating and the Euclidean remainder agree). */
  function DockCol(i: int): int
    requires i >= 1
  {
    ((i - 1) % 4) + 1
  }

  /** Rows and columns of the 16 docks are 1..4; the row is the integer
      ceiling of `i / 4`. */
  lemma DockCellInGrid(i: int)
    requires 1 <= i <= FleetSize
    ensures DockRow(i) == (i - 1) / 4 + 1
    ensures 1 <= DockRow(i) <= 4 && 1 <= DockCol(i) <= 4
    ensures (DockRow(i) - 1) * 4 + DockCol(i) == i
  {
    var q := (i - 1) / 4;
    assert i as real / 4.0 == q as real + (i - 1 - 4 * q + 1) as real / 4.0;
  }

  /** The quadrant rule: `Q2` top right, `Q3` bottom left, `Q4` bottom right,
      `Q1` otherwise. */
  function QuadrantOf(row: int, col: int): (q: Quadrant)
    ensures 1 <= row <= 4 && 1 <= col <= 4 ==>
      q == (if row <= 2 then (if col <= 2 then Q1 else Q2)
            else (if col <= 2 then Q3 else Q4))
  {
    if row <= 2 && col >= 3 then Q2
    else if row >= 3 && col <= 2 then Q3
    else if row >= 3 && col >= 3 then Q4
    else Q1
  }

  /** Ground position of dock `(row, col)`. */
  function DockPosition(row: int, col: int): Position
  {
    Position(col as real * DockSpacing - DockOffset, row as real * DockSpacing - DockOffset, 0.0)
  }

  /** The drone `generateMockDrones` creates as its `i`-th. */
  function MockDrone(i: int, draw: DroneDraw): Drone
    requires i >= 1
  {
    var row := DockRow(i);
    var col := DockCol(i);
    Drone(i, "Drone " + DecimalString(i),
          if draw.statusDraw > 0.8 then Active else Idle,
          80.0 + draw.batteryDraw * 20.0,
          DockPosition(row, col),
          None, Docked, 1, QuadrantOf(row, col), None)
  }

  /** How `generateMockDrones` leaves drone `i`: at the dock of its grid cell
      (row `(i-1) div 4 + 1`, column `(i-1) mod 4 + 1`), in that cell's
      quadrant, docked on the ground in layer 1 with no path or target, its
      battery `80 + 20 r` for its battery draw `r` (so in [80, 100) for a unit
      draw), and active exactly when its status draw exceeds 0.8. */
  predicate StartsAtDock(d: Drone, i: int, draw: DroneDraw)
  {
    var row := (i - 1) / 4 + 1;
    var col := (i - 1) % 4 + 1;
    && d.id == i
    && d.position == Position(3.0 * col as real - 1.5, 3.0 * row as real - 1.5, 0.0)
    && d.quadrant == (if row <= 2 then (if col <= 2 then Q1 else Q2)
                      else (if col <= 2 then Q3 else Q4))
    && d.operationPhase == Docked
    && d.currentLayer == 1
    && d.flightPath == None
    && d.targetPosition == None
    && d.battery == 80.0 + 20.0 * draw.batteryDraw
    // corollary of the equation above for a unit draw, restated for readers
    && 80.0 <= d.battery < 100.0
    && (d.status == Active <==> draw.statusDraw > 0.8)
    && (d.status == Active || d.status == Idle)
  }

  /** `generateMockDrones()`: sixteen docked drones with ids 1..16 laid out
      row by row on the dock grid. */
  method GenerateMockDrones(draws: seq<DroneDraw>) returns (drones: seq<Drone>)
    requires |draws| == FleetSize
    requires forall k :: 0 <= k < |draws| ==> IsUnitDraw(draws[k].batteryDraw)
    ensures |drones| == FleetSize
    ensures forall k :: 0 <= k < |drones| ==> drones[k].id == k + 1
    ensures forall k :: 0 <= k < |drones| ==> StartsAtDock(drones[k], k + 1, draws[k])
  {
    drones := [];
    var i := 1;
    while i <= FleetSize
      invariant 1 <= i <= FleetSize + 1
      invariant |drones| == i - 1
      invariant forall k :: 0 <= k < |drones| ==> StartsAtDock(drones[k], k + 1, draws[k])
    {
      MockDroneLayout(i, draws[i - 1]);
      drones := drones + [MockDrone(i, draws[i - 1])];
      i := i + 1;
    }
  }

  /** Drone `i` as built by the loop body satisfies `StartsAtDock`. */
  lemma MockDroneLayout(i: int, draw: DroneDraw)
    requires 1 <= i <= FleetSize && IsUnitDraw(draw.batteryDraw)
    ensures StartsAtDock(MockDrone(i, draw), i, draw)
  {
    DockCellInGrid(i);
  }

  /** The ids of the docks in quadrant `q`. */
  function QuadrantDocks(q: Quadrant): set<int>
  {
    set i | 1 <= i <= FleetSize && QuadrantOf(DockRow(i), DockCol(i)) == q
  }

  /** The docks of each quadrant, listed by id. */
  function QuadrantIds(q: Quadrant): set<int>
  {
    match q
    case Q1 => {1, 2, 5, 6}
    case Q2 => {3, 4, 7, 8}
    case Q3 => {9, 10, 13, 14}
    case Q4 => {11, 12, 15, 16}
  }

  lemma QuadrantOfDock(i: int)
    requires 1 <= i <= FleetSize
    ensures QuadrantOf(DockRow(i), DockCol(i)) == Q1 <==> i in QuadrantIds(Q1)
    ensures QuadrantOf(DockRow(i), DockCol(i)) == Q2 <==> i in QuadrantIds(Q2)
    ensures QuadrantOf(DockRow(i), DockCol(i)) == Q3 <==> i in QuadrantIds(Q3)
    ensures QuadrantOf(DockRow(i), DockCol(i)) == Q4 <==> i in QuadrantIds(Q4)
  {
    DockCellInGrid(i);
  }

  /** Each quadrant holds exactly four of the sixteen docks. */
  lemma FourDocksPerQuadrant(q: Quadrant)
    ensures QuadrantDocks(q) == QuadrantIds(q)
    ensures |QuadrantDocks(q)| == 4
  {
    forall i | 1 <= i <= FleetSize {
      QuadrantOfDock(i);
    }
    assert QuadrantDocks(q) == QuadrantIds(q);
  }

  /** Count of drones with status `active`. */
  function CountActive(drones: seq<Drone>): (n: nat)
    ensures n <= |drones|
  {
    if |drones| == 0 then 0
    else (if drones[0].status == Active then 1 else 0) + CountActive(drones[1..])
  }

  /** Number of alerts whose severity is not `info`. */
  function CountNonInfo(alerts: seq<TrafficAlert>): (n: nat)
    ensures n <= |alerts|
  {
    if |alerts| == 0 then 0
    else (if alerts[0].severity != Info then 1 else 0) + CountNonInfo(alerts[1..])
  }

  lemma PositiveProduct(a: real, b: real)
    requires a > 0.0 && b > 0.0
    ensures a * b > 0.0
  {
  }

  /** `(active / total) * 100` for a non-empty roster. */
  function Utilization(active: nat, total: nat): (u: real)
    requires active <= total && total > 0
    ensures 0.0 <= u <= 100.0
    ensures u * total as real == 100.0 * active as real
  {
    var share := active as real / total as real;
    assert share * total as real == active as real;
    assert (share - 1.0) * total as real == active as real - total as real;
    assert share <= 1.0 by {
      if share > 1.0 {
        PositiveProduct(share - 1.0, total as real);
      }
    }
    share * 100.0
  }

  /** `calculateSystemMetrics(drones, alerts)`; `waitDraw` and
      `efficiencyDraw` are its two `Math.random()` results. */
  function CalculateSystemMetrics(drones: seq<Drone>, alerts: seq<TrafficAlert>,
                                  waitDraw: real, efficiencyDraw: real): (m: SystemMetrics)
    ensures m.operationalThroughput == 2.5 * CountActive(drones) as real
    ensures 0.0 <= m.operationalThroughput <= 2.5 * |drones| as real
    ensures IsUnitDraw(waitDraw) ==> 25.0 <= m.averageWaitTime < 35.0
    ensures IsUnitDraw(efficiencyDraw) ==> 85.0 <= m.pathEfficiency < 95.0
    ensures m.collisionAvoidanceEvents == CountNonInfo(alerts)
    ensures m.systemUtilization.None? <==> |drones| == 0
    ensures m.systemUtilization.Some? ==>
      && 0.0 <= m.systemUtilization.value <= 100.0
      && m.systemUtilization.value * |drones| as real == 100.0 * CountActive(drones) as real
  {
    var active := CountActive(drones);
    SystemMetrics(
      active as real * 2.5,
      25.0 + waitDraw * 10.0,
      85.0 + efficiencyDraw * 10.0,
      CountNonInfo(alerts),
      if |drones| == 0 then None else Some(Utilization(active, |drones|)))
  }
}
