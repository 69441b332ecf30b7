# Survey navigator — a Dafny model

This project models one vehicle's survey mission in `survey_4_Drones.py`, the
AirSim multi-drone survey script. The modelled core is `SurveyNavigator`:

- Its constructor copies the settings, connects, and enables API control of
  `Drone{num}`.
- `start(num)` runs the mission. It arms the vehicle and takes off if it is
  landed, then gives up if the vehicle is still landed. Otherwise it climbs,
  flies to its own survey corner, hovers, and re-enables control. It then plans
  a boustrophedon ("lawnmower") path over the box and flies it with
  `moveOnPath`, swallowing any fault. Finally it flies home, descends to 5 m
  when higher, lands, and disarms.

The model has four modules:

- `Geometry` holds points in AirSim's north-east-down frame and the length of
  a polyline.
- `Planner` models the path-planning loop. `PlanSurvey` is an imperative
  method with the source's `while` loop and appends. Its contract ties the
  result to a recursive specification (`Sweep`, built from `Pass`), to an
  independent closed form (`Waypoint`), and to the pass count `Passes`, which
  is 0 for boxsize <= 0 and otherwise the ceiling of boxsize / (2 stripewidth). Lemmas about these state the
  geometry of the sweep and how the distance estimate relates to the length
  actually flown.
- `StartPoints` models the per-vehicle start point and how neighbouring boxes
  relate.
- `Mission` models the client as the sequence of calls made on it (`Action`).
  The navigator is a class whose `calls` field each phase method extends. The
  client's answers are an input (`Replies`): the landed state before the
  takeoff, the landed state after it, and whether `moveOnPath` raises.
  `Run` is the pure specification of a whole mission, and `Start` is proved to
  produce exactly its trace and outcome. The outcome is one of: completed; the
  early return after a failed takeoff; or the `ZeroDivisionError` that
  `distance / velocity` raises outside the `try` when the speed is zero.
  `MissionProperties` proves facts about `Run`.

Coordinates, distances and times are mathematical reals.

Three behaviours of the script shape the model:

- Over the reals, the planner loop `while x < sp_x + boxsize` ends if and only
  if boxsize <= 0 or stripewidth > 0 (`SweepEnds`). With a positive box and a
  non-positive stripe width it never ends. The script does not validate its
  arguments.
- Any real box size is accepted, and a non-positive one gives an empty path.
- Both landed-state queries call `getMultirotorState()` without a vehicle
  name, so they go to the client's default vehicle, not to `Drone{num}`. The
  model records them as `GetLandedState(DefaultVehicle)`.

## Model

| member | source | states |
|---|---|---|
| Planner.Passes | survey_4_Drones.py:61-73 | The number of passes the loop makes is the least k with boxsize <= k·2·stripewidth. It is positive exactly when boxsize > 0. |
| Planner.PassesIsLeast | survey_4_Drones.py:63 | No pass count smaller than Passes reaches the far side of the box. |
| Planner.PassesAbove | survey_4_Drones.py:63 | While the sweep falls short of the far side, the loop has made fewer than Passes passes, so it runs again and still terminates. |
| Planner.PlanSurvey | survey_4_Drones.py:61-73 | The loop terminates whenever SweepEnds holds. The path is Sweep over Passes passes. It has 4·Passes waypoints, waypoint j is the closed form Waypoint(j), and distance = Distance = Passes·(2 boxsize + 2 stripewidth). |
| Planner.SweepClosedForm | survey_4_Drones.py:65-73 | The recursive sweep has 4n waypoints, and each one equals the independent closed form. |
| Planner.SweepLength | survey_4_Drones.py:65-73 | Each pass appends exactly four waypoints. |
| Planner.SweepAt | survey_4_Drones.py:65-73 | Waypoint j is on pass j/4 at corner j%4. Corners 0 and 1 are on y = +boxsize and corners 2 and 3 on y = -boxsize. Their x values are 2i, 2i+1, 2i+1 and 2i+2 stripes past the start. |
| Planner.SweepShape | survey_4_Drones.py:43-73 | A non-empty sweep starts at (sp_x, +boxsize, z), and every waypoint lies on one of the two box edges at height z = -altitude. |
| Planner.LastWaypointBounds | survey_4_Drones.py:63-73 | The last waypoint, at (sp_x + 2·k·stripewidth, -boxsize, z), reaches the far side of the box and overshoots it by less than one pass. |
| Planner.PassLegs | survey_4_Drones.py:65-73 | One pass flies four axis-aligned legs with a total length of 4 boxsize + 2 stripewidth. |
| Planner.FlownStep | survey_4_Drones.py:65-73 | Flying one more pass after the previous ones adds 4 boxsize + 2 stripewidth of axis-aligned legs. |
| Planner.FlownPasses | survey_4_Drones.py:51-73 | The polyline from the transit corner through n passes has length Repeat(n, 4 boxsize + 2 stripewidth), and all its legs are axis-aligned. |
| Planner.SweepFlownLength | survey_4_Drones.py:51-73 | The polyline from the transit corner through n passes is n·(4 boxsize + 2 stripewidth) long, and every leg is axis-aligned, so this is also its straight-line length. |
| Planner.SweepEnd | survey_4_Drones.py:66-73 | After m passes the vehicle is at (sp_x + 2·m·stripewidth, -boxsize, z). |
| Planner.DistanceEstimate | survey_4_Drones.py:62-73 | The distance estimate undershoots the flown length by exactly 2·k·boxsize, and distance <= flown <= 2·distance. |
| StartPoints.StartX | survey_4_Drones.py:35-38 | Defining equation: vehicle 1 starts at x = 100; vehicle num != 1 starts at 100 + (num - 1)·boxsize + stripewidth. |
| StartPoints.StartY | survey_4_Drones.py:40 | Defining equation: every vehicle starts on the y = -boxsize edge. |
| StartPoints.StartXSpacing | survey_4_Drones.py:35-38 | Vehicle 2 starts boxsize + stripewidth after vehicle 1, and every later vehicle starts exactly boxsize after the one before it. |
| StartPoints.StartXIncreasing | survey_4_Drones.py:35-38 | With a positive box size and a non-negative stripe width, start points strictly increase with the vehicle number. |
| StartPoints.NeighbourSweepsMeet | survey_4_Drones.py:35-73 | Vehicle 1's last waypoint lies within one stripe width of vehicle 2's start x, on either side. For n >= 2, vehicle n's last waypoint lies at or beyond vehicle n+1's start x, and less than 2·stripewidth past it. The extra stripe width separates only the start points, not the sweeps. |
| StartPoints.DefaultSweepsTouch | survey_4_Drones.py:35-73 | With the default size 50 and stripe width 10, vehicle 1 flies 3 passes and its last waypoint is at x = 160, which is vehicle 2's start x. |
| Mission.Run | survey_4_Drones.py:20-97 | Defining equations: after a failed takeoff the trace is the takeoff calls and the outcome is TakeoffFailed; with zero speed it is the takeoff and approach calls and the outcome is DivisionByZero; otherwise it is the takeoff, approach, path-flight and home calls and the outcome is Completed. |
| Mission.SurveyNavigator.constructor | survey_4_Drones.py:11-18 | The navigator holds the four settings, and the client has been sent confirmConnection and enableApiControl(True, Drone{num}). |
| Mission.SurveyNavigator.Start | survey_4_Drones.py:20-97 | The calls made are exactly Run's trace, appended to those made before, and the outcome is Run's outcome. |
| Mission.SurveyNavigator.TakeOff | survey_4_Drones.py:21-32 | Arm, query, take off only if the answer was Landed, and query again. The result says airborne exactly when the second answer is not Landed. |
| Mission.SurveyNavigator.FlyToCorner | survey_4_Drones.py:34-58 | Climb over home, fly to (sp_x, sp_y, z), hover, pause 2 s, and re-enable API control. |
| Mission.SurveyNavigator.FlySurvey | survey_4_Drones.py:60-84 | The planned path and distance are the specification's. With zero speed the result is the division fault and no call is made. Otherwise one moveOnPath call is made with timeout 2·distance/speed, and a fault in it changes nothing. |
| Mission.SurveyNavigator.FlyHome | survey_4_Drones.py:86-97 | Fly over home, descend to 5 m at 2 m/s only when z < -5, land, and disarm. |
| MissionProperties.OutcomeCases | survey_4_Drones.py:29-76 | The mission fails at takeoff exactly when the second landed-state answer is Landed. It raises the division fault exactly when the vehicle flies and the speed is 0, and it completes otherwise. |
| MissionProperties.TakeoffOnlyWhenLanded | survey_4_Drones.py:22-32 | Every mission arms first and then queries the default vehicle. Takeoff is issued exactly when the first answer is Landed, only as the third call, and never again. |
| MissionProperties.AfterTakeoffCalls | survey_4_Drones.py:34-97 | After the takeoff calls there is no further takeoff and no further landed-state query. |
| MissionProperties.FailedTakeoffLeavesVehicleArmed | survey_4_Drones.py:29-32 | After a failed takeoff, the last call is the second query. Nothing moves, lands or disarms, so the vehicle is left armed. |
| MissionProperties.ZeroSpeedStrandsVehicle | survey_4_Drones.py:58-76 | With zero speed, the mission ends right after control is re-enabled at the corner, with no path flight, no landing and no disarm. |
| MissionProperties.CompletedSequence | survey_4_Drones.py:20-97 | The whole call sequence of a completed mission, with every argument, matches the script's order. |
| MissionProperties.CompletedMissionLands | survey_4_Drones.py:86-97 | A completed mission ends with disarm after land, after a move to home at height min(altitude, 5). |
| MissionProperties.SurveyFaultSwallowed | survey_4_Drones.py:78-84 | Whether moveOnPath raises does not change the calls made or the outcome. |
| MissionProperties.SurveyTimeoutSuffices | survey_4_Drones.py:76-80 | The lookahead is 1.5·speed, the distance estimate is at most the flown length, and flying that length at the commanded speed takes no longer than the timeout. |

## Left out

- The `__main__` block (lines 99-130) is not modelled: argument parsing with its defaults, and the thread pool that runs four navigators concurrently and catches their exceptions in `worker`. `Args` stands for the parsed arguments, and `Start` models one worker's mission for one `num`.
- Console output (`print`) is not modelled.
- `time.sleep(2)` and the blocking `.join()` calls are not modelled as time. The pause is recorded as a `Sleep(2.0)` call.
- What AirSim does with each call (physics, the actual trajectory, collisions) is not modelled. The flown length is that of the commanded polyline.
- Only the answers the mission reads come from the client: the two landed states and whether `moveOnPath` raises. Faults of the other client calls are not modelled. They would leave `start` and be caught by the worker.
- Floating-point rounding is not modelled: coordinates, distances and the timeout are reals. When the size or stripe width is given on the command line, it is a float, every step `x += stripewidth` is rounded, and the model does not capture what follows from that:
  - a positive stripe width below half an ulp of `x` leaves `x` unchanged, so the loop never ends although `SweepEnds` holds;
  - a stripe width just above half an ulp rounds each step up to a full ulp and can nearly halve the number of passes;
  - near the boundary `x < sp_x + boxsize`, the rounding error accumulated in `x` can add or remove a pass.
- Mission.SurveyNavigator.Start: it requires `Runnable`, that is, a takeoff failure or `SweepEnds`. With a positive box and a non-positive stripe width, the script's planner loop never terminates. That divergence is not modelled.
- Mission.Run: it requires `Runnable` for the same reason.
- The Python int/float distinction is not modelled. The argument defaults are ints (argparse converts only values given on the command line), so with the defaults the planner arithmetic is exact; values given on the command line are floats. In both cases `distance / velocity` raises `ZeroDivisionError` exactly when the speed is 0.
