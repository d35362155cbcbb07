# Drone airspace orchestrator — Dafny model of the fleet-state core

The drone airspace orchestrator is a small simulation of sixteen drones that start on a
4×4 grid of docks. A React provider holds the drone roster and an alert log. Once a
second, a timer advances every drone that is not docked:

- it drains the battery, clamped at 0;
- it moves the drone a tenth of the way toward the head of its flight path;
- it drops that waypoint once the drone is within 0.1 m of it on every axis;
- it marks the drone returning, with a warning status, when the battery falls below 20.

The provider exposes five commands on this state: select a drone, set a drone's status, plan a
five-waypoint flight, trigger an emergency landing, and resolve an alert. The controls call
four of them; `planFlightPath` has no caller in the source, and neither has the mock-data
path builder `calculateFlightPath`. The mock-data utilities also build the initial fleet and
the initial metrics snapshot.

This project models that core as immutable Dafny datatypes and pure functions:

| file | module | models |
|---|---|---|
| `drone_types.dfy` | `DroneTypes` | the status, phase, layer and quadrant enumerations, the position, drone, alert and metrics records, and the provider's roster-plus-log state |
| `flight_path.dfy` | `FlightPath` | `calculateFlightPath` and its parity-based transit altitude |
| `simulation.dfy` | `Simulation` | the per-drone tick, the tick over the roster, the capped alert append of the timer callback |
| `convergence.dfy` | `Convergence` | the behaviour over many ticks: the gap to the head waypoint decays geometrically, so the head is dropped after finitely many ticks |
| `commands.dfy` | `Commands` | `selectDrone`, `updateDroneStatus`, `planFlightPath`, `executeEmergencyProtocol`, `resolveAlert` |
| `mock_data.dfy` | `MockData` | `generateMockDrones` (dock grid and quadrant rule), `calculateSystemMetrics` |

Coordinates and battery levels are `real`. The tick only adds, subtracts, multiplies by
0.1, clamps with `max`, and compares with `<`; the mock-data utilities also multiply by 20,
3, 2.5 and 10, divide, and take `Math.ceil`. Exact rationals follow the same branches as
doubles except where a value lies within rounding error of a boundary (see "Left out"). Each `Math.random()`
draw the core consumes is a parameter. The `emergency-<timestamp>` alert id is a parameter
too.

The code has none of the following, and neither does this model:

- There is no conflict detector, no conflict resolver, and no pairwise proximity scan.
- There is no quadrant or corridor routing: the planned path has five waypoints.
- The tick never recomputes `currentLayer`.
- The tick never moves a drone back to `docked` when its path runs out.
- The low-battery return changes phase and status only. It does not replace the path.

## Model

| member | source | states |
|---|---|---|
| FlightPath.TransitAltitude | src/utils/mockData.ts:88 | the transit altitude is 4 m exactly for even ids and 6 m otherwise, always above the 3 m transition altitude |
| FlightPath.CalculateFlightPath | src/utils/mockData.ts:86-106 | exactly five waypoints: the first two above the start, the last three above or at the end; altitudes 3, A, A, 3, 0; the last waypoint is the end point on the ground |
| FlightPath.ParitySeparatesTransitLayers | src/utils/mockData.ts:88 | drones with ids of different parity never share a cruising altitude, whatever their start and end points |
| FlightPath.FlightPathAltitudeProfile | src/utils/mockData.ts:90-105 | every waypoint lies between the ground and the transit altitude; the path climbs and then descends monotonically |
| Simulation.Approach | src/context/DroneSystemContext.tsx:56-60 | one axis move leaves the new value between the old value and the waypoint, with the gap multiplied by exactly 0.9 |
| Simulation.Step | src/context/DroneSystemContext.tsx:46-83 | a docked drone is returned unchanged; otherwise the battery drops by 0.1 but not below 0 and never rises; with no waypoints the position holds; with a head waypoint each axis moves between its old value and the waypoint and its gap shrinks by the factor 0.9; the head is dropped exactly when all three axes end within 0.1 of it, and otherwise the path is kept; the phase changes if and only if the battery is under 20 and the drone is neither returning nor landing, and then it becomes returning with status warning; id, name, target, layer and quadrant never change |
| Simulation.Tick | src/context/DroneSystemContext.tsx:45-84 | the roster keeps its length and order, and each entry is the one-drone step of the entry at the same index |
| Simulation.AppendBounded | src/context/DroneSystemContext.tsx:100 | after the append the log holds min(n+1, 10) alerts, the new one last, preceded by the newest old entries in their original order; nothing is evicted while fewer than 10 were held |
| Simulation.TickFleet | src/context/DroneSystemContext.tsx:44-101 | one timer callback ticks the roster and, if the callback drew an alert, appends it with the cap of ten, so the new alert is last and the newest old entries precede it in order; without a drawn alert the log is untouched |
| MockData.CountActive | src/utils/mockData.ts:74 | the number of active drones never exceeds the roster length |
| Simulation.TickNeverAddsActive | src/context/DroneSystemContext.tsx:73-76 | a tick never increases the number of active drones, because its only status change is to warning |
| Simulation.TickPreservesIds | src/context/DroneSystemContext.tsx:46-83 | the drone at every roster index keeps its id through a tick |
| Simulation.AbsentPathTicksLikeEmpty | src/context/DroneSystemContext.tsx:54-70 | a drone with no flight path and one with an empty path tick identically and hold their position |
| Simulation.StepNeverDocks | src/context/DroneSystemContext.tsx:72-76 | a drone that is not docked is never docked after a tick |
| Simulation.TickAlertsStayBounded | src/context/DroneSystemContext.tsx:100 | if the log starts with at most 10 entries, it still has at most 10 after any sequence of ticks, whichever ticks draw alerts |
| Convergence.ShrunkFallsUnderTolerance | src/context/DroneSystemContext.tsx:57-66 | a gap that shrinks by 0.9 each tick either is already below 0.1 or has lost at least 0.01 per tick so far |
| Convergence.GapDecays | src/context/DroneSystemContext.tsx:54-69 | after n ticks a drone in flight has either dropped its head waypoint, or still has the same path, is not within 0.1 of the head, and has each axis gap equal to 0.9^n times the original |
| Convergence.HeadWaypointDroppedEventually | src/context/DroneSystemContext.tsx:54-69 | a drone in flight with a non-empty path drops its head waypoint within 100·g+1 ticks, where g is its largest axis gap to the head |
| Commands.SelectDrone | src/context/DroneSystemContext.tsx:116-124 | no id and id 0 both select nothing; otherwise the selection is the first roster drone with that id, and it exists exactly when such a drone is in the roster |
| Commands.FindById | src/context/DroneSystemContext.tsx:122 | a drone is found exactly when one with that id is in the roster, and it is the first such drone |
| Commands.UpdateDroneStatus | src/context/DroneSystemContext.tsx:126-132 | the roster keeps its length; matching drones get the new status and keep every other field; other drones are unchanged |
| Commands.PlannedPath | src/context/DroneSystemContext.tsx:142-157 | the path built inline by the plan command equals the shared flight-path builder applied to the drone's position, the target and the drone's id |
| Commands.PlanFlightPath | src/context/DroneSystemContext.tsx:134-170 | matching drones get the target recorded, phase takeoff, status active and the five-waypoint path from their current position, with every other field kept; other drones are unchanged |
| Commands.EmergencyLanding | src/context/DroneSystemContext.tsx:175-185 | the drone gets status emergency, phase landing and a single waypoint straight below its position, with every other field kept |
| Commands.EmergencyAlert | src/context/DroneSystemContext.tsx:191-198 | the emergency alert is critical, unresolved, names exactly the commanded id, and carries the given id |
| Commands.ExecuteEmergencyProtocol | src/context/DroneSystemContext.tsx:172-201 | matching drones are set to land in place and others are unchanged; the log keeps its old entries and gains exactly one critical, unresolved alert naming the drone id and carrying the given alert id, with no cap, even when no drone matched; a matching drone keeps its position and every field other than status, phase and path |
| Commands.ResolveAlert | src/context/DroneSystemContext.tsx:203-209 | the log keeps its length; alerts with the given id become resolved with every other field kept; all other alerts are unchanged |
| Commands.StatusLastWriteWins | src/context/DroneSystemContext.tsx:126-132 | setting a status twice has the effect of setting only the second |
| Commands.UnknownIdIsNoOp | src/context/DroneSystemContext.tsx:126-170 | status updates and flight planning for an id no drone has leave the roster unchanged |
| Commands.EmergencyIdempotentOnDrones | src/context/DroneSystemContext.tsx:172-201 | a second emergency call leaves the drones exactly as the first left them, while the log grows by one alert per call |
| Commands.ResolveIdempotent | src/context/DroneSystemContext.tsx:203-209 | resolving twice equals resolving once, and a resolved alert is never unresolved |
| Commands.ResolveKeepsCollisionEvents | src/utils/mockData.ts:81 | resolving an alert leaves the non-info count of the log (what `calculateSystemMetrics` would report for it as collision-avoidance events) unchanged |
| Commands.EmergencyCountsOneEvent | src/context/DroneSystemContext.tsx:191-200 | each emergency call raises the non-info count of the log (what `calculateSystemMetrics` would report for it) by exactly one |
| Commands.EmergencyLandingSurvivesTick | src/context/DroneSystemContext.tsx:73-76 | a tick never overrides an emergency landing: the drone stays landing with status emergency, keeps x and y, and descends without passing below the ground |
| MockData.Ceil | src/utils/mockData.ts:9 | the ceiling is at least its argument and less than the argument plus one |
| MockData.DockCellInGrid | src/utils/mockData.ts:9-10 | for drones 1..16 the row is (i-1) div 4 + 1 and the column (i-1) mod 4 + 1, both in 1..4, and together they recover i |
| MockData.QuadrantOf | src/utils/mockData.ts:13-16 | on the grid, rows 1-2 and columns 1-2 give Q1, rows 1-2 and columns 3-4 give Q2, rows 3-4 and columns 1-2 give Q3, and rows 3-4 and columns 3-4 give Q4 |
| MockData.GenerateMockDrones | src/utils/mockData.ts:4-36 | exactly 16 drones with ids 1..16 in order; each at its dock (3·col−1.5, 3·row−1.5, 0) in the quadrant of its cell; docked, layer 1, no path, no target; battery in [80, 100); active exactly when its status draw exceeds 0.8, idle otherwise |
| MockData.MockDroneLayout | src/utils/mockData.ts:18-32 | drone i as the loop builds it has id i, sits at the dock of its cell in that cell's quadrant, is docked in layer 1 with no path or target, has a battery in [80, 100), and is active exactly when its status draw exceeds 0.8 |
| MockData.QuadrantOfDock | src/utils/mockData.ts:13-16 | dock i belongs to quadrant q exactly when i is in the four ids listed for q |
| MockData.FourDocksPerQuadrant | src/utils/mockData.ts:8-16 | each quadrant receives exactly four of the sixteen docks, which are listed |
| MockData.CountNonInfo | src/utils/mockData.ts:81 | the number of non-info alerts never exceeds the log length |
| MockData.Utilization | src/utils/mockData.ts:82 | for a non-empty roster the utilization lies in [0, 100] and equals 100 times the share of active drones |
| MockData.CalculateSystemMetrics | src/utils/mockData.ts:72-84 | throughput is 2.5 per active drone and at most 2.5 per drone; wait time lies in [25, 35) and path efficiency in [85, 95) for unit draws; collision-avoidance events are the non-info alerts; utilization is undefined (NaN) exactly for an empty roster and otherwise lies in [0, 100], equal to 100 times the active share |

## Left out

- React plumbing is left out: `useState`, `useEffect`, the context hook, and `setInterval`/`clearInterval` scheduling. The state is an explicit `Fleet` value. The timer becomes a caller of `TickFleet`.
- Timestamps are not modelled: `lastUpdated`, alert `timestamp`, and the `Date.now()` part of alert ids. No operation reads them. Alert ids are parameters.
- The content of the tick's random alert is left out: whether one is drawn, and its id, severity and drone ids. `TickFleet` receives the drawn alert, or `None`.
- The tick's random walk of the metrics is left out. It is cosmetic and keeps no invariant that the rest of the core relies on.
- The provider calls `calculateSystemMetrics` only once, at startup (src/context/DroneSystemContext.tsx:39-40). Afterwards the reported collision-avoidance count is a random walk (src/context/DroneSystemContext.tsx:108), not a recount of the log. The lemmas about the non-info count describe what `calculateSystemMetrics` would report for a log, not what the provider displays.
- `generateMockAlerts` is left out. Its three fixed seed alerts are display data.
- `selectDrone` stores a snapshot that later ticks do not refresh. That snapshot is UI state and is not modelled. `SelectDrone` returns the drone it would store.
- All components and the page are left out. They render state and call the commands.
- Floating point is left out. Values such as `0.1` and `x * 0.1` are exact rationals here. A double computation that lies within rounding error of a tolerance or battery boundary, not only exactly on it, could take the other branch. Double rounding can also make `80 + r * 20` equal 100, `25 + r * 10` equal 35 and `85 + r * 10` equal 95 for `r` just below 1, so the half-open bounds on the initial battery, wait time and path efficiency hold for rationals only.
- Drone ids are integers here. A JavaScript `number` id could be fractional. For such an id the parity test `% 2 === 0` is false and gives 6 m, but this model does not cover it.
- The `Drone ${i}` and `Emergency landing protocol activated for Drone ${id}` messages are built with a decimal rendering of the id. No property is stated about the text.
