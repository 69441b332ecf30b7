/** One vehicle's mission, SurveyNavigator.start (survey_4_Drones.py lines
    20-97): arm, take off if landed, give up if still landed, climb, fly to
    the survey corner, hover, plan and fly the sweep (a fault of the path
    flight is swallowed), fly home, descend to 5 m if higher, land, disarm.

    The AirSim client is modelled by the calls made on it, in order; what it
    answers (the two landed-state queries and whether moveOnPath raises) is
    given to the mission as Replies. */
module Mission {
  import opened Geometry
  import Planner
  import StartPoints

  datatype LandedState = Landed | Flying

  /** The vehicle a call is addressed to: a call without vehicle_name goes to
      the client's default vehicle, the others to "Drone{num}". */
  datatype Vehicle = DefaultVehicle | Drone(num: int)

  datatype DrivetrainType = MaxDegreeOfFreedom | ForwardOnly

  datatype YawMode = YawMode(isRate: bool, yawOrRate: real)

  /** A call on the AirSim client, with its arguments, or the process's pause. */
  datatype Action =
    | ConfirmConnection
    | EnableApiControl(enabled: bool, vehicle: Vehicle)
    | ArmDisarm(arm: bool, vehicle: Vehicle)
    | GetLandedState(vehicle: Vehicle)
    | Takeoff(vehicle: Vehicle)
    | MoveToPosition(target: Vector3r, velocity: real, vehicle: Vehicle)
    | Hover(vehicle: Vehicle)
    | Sleep(seconds: real)
    | MoveOnPath(path: seq<Vector3r>, velocity: real, timeout: real, drivetrain: DrivetrainType,
                 yaw: YawMode, lookahead: real, adaptiveLookahead: real, vehicle: Vehicle)
    | Land(vehicle: Vehicle)

  /** What the client answers during one mission. */
  datatype Replies = Replies(landedBeforeTakeoff: LandedState, landedAfterTakeoff: LandedState,
                             pathFaults: bool)

  /** How start ends: normally, by the early return after a failed takeoff,
      or by the ZeroDivisionError of trip_time = distance / velocity (raised
      outside the try block, so it leaves start). */
  datatype Outcome = Completed | TakeoffFailed | DivisionByZero

  /** The command-line settings a navigator is built from. */
  datatype Args = Args(size: real, stripewidth: real, altitude: real, speed: real)

  /** The calls one mission makes, and how it ends. */
  datatype Flight = Flight(trace: seq<Action>, outcome: Outcome)

  /** The mission can be run to its end: it returns before the sweep, or the
      sweep loop terminates. */
  predicate Runnable(a: Args, r: Replies)
  {
    r.landedAfterTakeoff == Landed || Planner.SweepEnds(a.size, a.stripewidth)
  }

  /** Arm, query, take off only if the query said Landed, query again. */
  function TakeoffCalls(num: int, landed: LandedState): seq<Action>
  {
    [ArmDisarm(true, Drone(num)), GetLandedState(DefaultVehicle)]
      + (if landed == Landed then [Takeoff(Drone(num))] else [])
      + [GetLandedState(DefaultVehicle)]
  }

  /** The survey path for vehicle num. */
  function SurveyPath(a: Args, num: int): seq<Vector3r>
    requires Planner.SweepEnds(a.size, a.stripewidth)
  {
    Planner.Sweep(StartPoints.StartX(a.size, a.stripewidth, num), a.size, a.stripewidth, -a.altitude,
                  Planner.Passes(a.size, a.stripewidth))
  }

  /** Climb over home, fly to the survey corner, hover, pause, re-enable control. */
  function ApproachCalls(a: Args, num: int): seq<Action>
  {
    var z := -a.altitude;
    var corner := Planner.Corner(StartPoints.StartX(a.size, a.stripewidth, num), a.size, z);
    [MoveToPosition(Vector3r(0.0, 0.0, z), a.speed, Drone(num)), MoveToPosition(corner, a.speed, Drone(num)),
     Hover(Drone(num)), Sleep(2.0), EnableApiControl(true, Drone(num))]
  }

  /** The path flight: timeout twice the estimated trip time, forward-only
      drivetrain, no yaw override, lookahead of one and a half times the speed. */
  function SurveyCall(a: Args, num: int): Action
    requires Planner.SweepEnds(a.size, a.stripewidth) && a.speed != 0.0
  {
    var v := a.speed;
    var tripTime := Planner.Distance(a.size, a.stripewidth) / v;
    MoveOnPath(SurveyPath(a, num), v, tripTime * 2.0, ForwardOnly, YawMode(false, 0.0), v + v / 2.0, 1.0, Drone(num))
  }

  /** Fly back over home, descend to 5 m at 2 m/s when higher, land, disarm. */
  function HomeCalls(a: Args, num: int): seq<Action>
  {
    var z := -a.altitude;
    [MoveToPosition(Vector3r(0.0, 0.0, z), a.speed, Drone(num))]
      + (if z < -5.0 then [MoveToPosition(Vector3r(0.0, 0.0, -5.0), 2.0, Drone(num))] else [])
      + [Land(Drone(num)), ArmDisarm(false, Drone(num))]
  }

  /** The mission of vehicle num, as a function of the settings and the
      client's replies. Whether moveOnPath raises does not matter: the call
      is made, and a fault is caught and only reported. */
  function Run(a: Args, num: int, r: Replies): Flight
    requires Runnable(a, r)
  {
    var takeoff := TakeoffCalls(num, r.landedBeforeTakeoff);
    if r.landedAfterTakeoff == Landed then
      Flight(takeoff, TakeoffFailed)
    else if a.speed == 0.0 then
      Flight(takeoff + ApproachCalls(a, num), DivisionByZero)
    else
      Flight(takeoff + ApproachCalls(a, num) + [SurveyCall(a, num)] + HomeCalls(a, num), Completed)
  }

  /** SurveyNavigator: the settings it was built with and its client, seen
      as the sequence of calls made on it. */
  class SurveyNavigator {
    const boxsize: real
    const stripewidth: real
    const altitude: real
    const velocity: real
    var calls: seq<Action>

    function Settings(): Args
    {
      Args(boxsize, stripewidth, altitude, velocity)
    }

    /** Copies the settings, connects and enables API control of Drone{num}. */
    constructor (args: Args, num: int)
      ensures Settings() == args
      ensures calls == [ConfirmConnection, EnableApiControl(true, Drone(num))]
    {
      boxsize := args.size;
      stripewidth := args.stripewidth;
      altitude := args.altitude;
      velocity := args.speed;
      calls := [ConfirmConnection, EnableApiControl(true, Drone(num))];
    }

    /** Runs the mission of vehicle num against a client answering replies
        (lines 20-97): the four phases below, in order, with the early return
        after a failed takeoff and the ZeroDivisionError of a zero speed. */
    method Start(num: int, replies: Replies) returns (outcome: Outcome)
      requires Runnable(Settings(), replies)
      modifies this
      ensures calls == old(calls) + Run(Settings(), num, replies).trace
      ensures outcome == Run(Settings(), num, replies).outcome
    {
      var airborne := TakeOff(num, replies);
      if !airborne {
        return TakeoffFailed;
      }
      FlyToCorner(num);
      var raised := FlySurvey(num, replies.pathFaults);
      if raised {
        return DivisionByZero;
      }
      FlyHome(num);
      outcome := Completed;
    }

    /** Lines 21-32: arm, take off if the (default vehicle's) landed state
        says Landed, and report whether the second query says Flying. */
    method TakeOff(num: int, replies: Replies) returns (airborne: bool)
      modifies this
      ensures calls == old(calls) + TakeoffCalls(num, replies.landedBeforeTakeoff)
      ensures airborne <==> replies.landedAfterTakeoff == Flying
    {
      calls := calls + [ArmDisarm(true, Drone(num))];

      var landed := replies.landedBeforeTakeoff;
      calls := calls + [GetLandedState(DefaultVehicle)];
      if landed == Landed {
        calls := calls + [Takeoff(Drone(num))];
      }

      landed := replies.landedAfterTakeoff;
      calls := calls + [GetLandedState(DefaultVehicle)];
      airborne := landed != Landed;
    }

    /** Lines 35-58: climb over home, fly to the survey corner, settle, and
        re-enable API control. */
    method FlyToCorner(num: int)
      modifies this
      ensures calls == old(calls) + ApproachCalls(Settings(), num)
    {
      var spX := StartPoints.StartX(boxsize, stripewidth, num);
      var spY := StartPoints.StartY(boxsize);
      var z := -altitude;

      calls := calls + [MoveToPosition(Vector3r(0.0, 0.0, z), velocity, Drone(num))];
      calls := calls + [MoveToPosition(Vector3r(spX, spY, z), velocity, Drone(num))];
      calls := calls + [Hover(Drone(num)), Sleep(2.0)];
      calls := calls + [EnableApiControl(true, Drone(num))];
    }

    /** Lines 61-84: plan the sweep, size its timeout, and fly it. A zero
        speed raises ZeroDivisionError before the flight (raised); a fault of
        the flight itself (pathFaults) is caught and does not change what
        follows. */
    method FlySurvey(num: int, pathFaults: bool) returns (raised: bool)
      requires Planner.SweepEnds(boxsize, stripewidth)
      modifies this
      ensures raised <==> velocity == 0.0
      ensures calls == old(calls) + (if raised then [] else [SurveyCall(Settings(), num)])
    {
      var spX := StartPoints.StartX(boxsize, stripewidth, num);
      var path, distance := Planner.PlanSurvey(spX, boxsize, stripewidth, -altitude);
      assert path == SurveyPath(Settings(), num) && distance == Planner.Distance(boxsize, stripewidth);
      if velocity == 0.0 {
        return true;
      }
      var tripTime := distance / velocity;
      calls := calls + [MoveOnPath(path, velocity, tripTime * 2.0, ForwardOnly, YawMode(false, 0.0),
                                   velocity + velocity / 2.0, 1.0, Drone(num))];
      if pathFaults {
        // The except clause reports the fault and the mission carries on.
      }
      raised := false;
    }

    /** Lines 86-97: fly back over home, descend to 5 m first when higher,
        land and disarm. */
    method FlyHome(num: int)
      modifies this
      ensures calls == old(calls) + HomeCalls(Settings(), num)
    {
      var z := -altitude;
      calls := calls + [MoveToPosition(Vector3r(0.0, 0.0, z), velocity, Drone(num))];
      if z < -5.0 {
        calls := calls + [MoveToPosition(Vector3r(0.0, 0.0, -5.0), 2.0, Drone(num))];
      }
      calls := calls + [Land(Drone(num))];
      calls := calls + [ArmDisarm(false, Drone(num))];
    }
  }
}
