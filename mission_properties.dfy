/** What a mission does, read off Mission.Run: the order of the calls, the
    asymmetric handling of a failed takeoff, the swallowed path fault and the
    arguments of the path flight. */
module MissionProperties {
  import opened Geometry
  import Planner
  import StartPoints
  import opened Mission

  /** How a mission ends is decided by the second landed-state answer and
      the speed alone. */
  lemma OutcomeCases(a: Args, num: int, r: Replies)
    requires Runnable(a, r)
    ensures Run(a, num, r).outcome == TakeoffFailed <==> r.landedAfterTakeoff == Landed
    ensures Run(a, num, r).outcome == DivisionByZero <==> r.landedAfterTakeoff == Flying && a.speed == 0.0
    ensures Run(a, num, r).outcome == Completed <==> r.landedAfterTakeoff == Flying && a.speed != 0.0
  {
  }

  /** Every mission begins by arming Drone{num}, then asks the (default
      vehicle's) landed state; Takeoff is issued, as the third call, exactly
      when that first answer is Landed, and never anywhere else. */
  lemma TakeoffOnlyWhenLanded(a: Args, num: int, r: Replies)
    requires Runnable(a, r)
    ensures var t := Run(a, num, r).trace;
      |t| >= 3 && t[0] == ArmDisarm(true, Drone(num)) && t[1] == GetLandedState(DefaultVehicle) &&
      (Takeoff(Drone(num)) in t <==> r.landedBeforeTakeoff == Landed) &&
      (forall i :: 0 <= i < |t| && t[i].Takeoff? ==> i == 2)
  {
    var t := Run(a, num, r).trace;
    var takeoff := TakeoffCalls(num, r.landedBeforeTakeoff);
    assert t[..|takeoff|] == takeoff;
    forall i | |takeoff| <= i < |t|
      ensures !t[i].Takeoff?
    {
      AfterTakeoffCalls(a, num, r, i);
    }
    if Takeoff(Drone(num)) in t {
      var i :| 0 <= i < |t| && t[i] == Takeoff(Drone(num));
      if i >= |takeoff| {
        AfterTakeoffCalls(a, num, r, i);
      }
    }
    if r.landedBeforeTakeoff == Landed {
      assert t[2] == Takeoff(Drone(num));
    }
  }

  /** After the takeoff calls only flight commands follow: no further
      takeoff and no further landed-state query. */
  lemma AfterTakeoffCalls(a: Args, num: int, r: Replies, i: int)
    requires Runnable(a, r)
    requires |TakeoffCalls(num, r.landedBeforeTakeoff)| <= i < |Run(a, num, r).trace|
    ensures !Run(a, num, r).trace[i].Takeoff? && !Run(a, num, r).trace[i].GetLandedState?
  {
    var takeoff := TakeoffCalls(num, r.landedBeforeTakeoff);
    var rest := Run(a, num, r).trace[|takeoff|..];
    assert Run(a, num, r).trace[i] == rest[i - |takeoff|];
    if a.speed != 0.0 {
      assert rest == ApproachCalls(a, num) + [SurveyCall(a, num)] + HomeCalls(a, num);
    }
  }

  /** A failed takeoff ends the mission right after the second query: the
      vehicle is not moved, not landed and not disarmed, so it is left armed. */
  lemma FailedTakeoffLeavesVehicleArmed(a: Args, num: int, r: Replies)
    requires r.landedAfterTakeoff == Landed
    ensures var f := Run(a, num, r);
      f.outcome == TakeoffFailed &&
      f.trace[|f.trace| - 1] == GetLandedState(DefaultVehicle) &&
      forall i :: 0 <= i < |f.trace| ==>
        !f.trace[i].MoveToPosition? && !f.trace[i].MoveOnPath? && !f.trace[i].Land? &&
        f.trace[i] != ArmDisarm(false, Drone(num))
  {
  }

  /** With a zero speed the ZeroDivisionError leaves start after control was
      re-enabled at the survey corner: no path flight, no return, no landing,
      no disarm. */
  lemma ZeroSpeedStrandsVehicle(a: Args, num: int, r: Replies)
    requires Runnable(a, r) && r.landedAfterTakeoff == Flying && a.speed == 0.0
    ensures var f := Run(a, num, r);
      f.outcome == DivisionByZero &&
      f.trace[|f.trace| - 1] == EnableApiControl(true, Drone(num)) &&
      forall i :: 0 <= i < |f.trace| ==>
        !f.trace[i].MoveOnPath? && !f.trace[i].Land? && f.trace[i] != ArmDisarm(false, Drone(num))
  {
  }

  /** On a successful takeoff and a non-zero speed the calls after the
      takeoff calls are, in this order: climb over home, fly to the survey
      corner (StartX, -boxsize), hover, pause 2 s, re-enable control, fly the
      planned sweep with timeout 2 distance / speed and lookahead 1.5 speed,
      fly back over home, descend to 5 m at 2 m/s only when the altitude
      exceeds 5, land, disarm. */
  lemma CompletedSequence(a: Args, num: int, r: Replies)
    requires Planner.SweepEnds(a.size, a.stripewidth)
    requires r.landedAfterTakeoff == Flying && a.speed != 0.0
    ensures var me, v, z := Drone(num), a.speed, -a.altitude;
      var k := Planner.Passes(a.size, a.stripewidth);
      var x0 := StartPoints.StartX(a.size, a.stripewidth, num);
      var distance := Planner.Distance(a.size, a.stripewidth);
      Run(a, num, r) == Flight(
        TakeoffCalls(num, r.landedBeforeTakeoff) +
        [MoveToPosition(Vector3r(0.0, 0.0, z), v, me),
         MoveToPosition(Vector3r(x0, -a.size, z), v, me),
         Hover(me), Sleep(2.0), EnableApiControl(true, me),
         MoveOnPath(Planner.Sweep(x0, a.size, a.stripewidth, z, k), v, 2.0 * distance / v, ForwardOnly,
                    YawMode(false, 0.0), 1.5 * v, 1.0, me),
         MoveToPosition(Vector3r(0.0, 0.0, z), v, me)] +
        (if a.altitude > 5.0 then [MoveToPosition(Vector3r(0.0, 0.0, -5.0), 2.0, me)] else []) +
        [Land(me), ArmDisarm(false, me)],
        Completed)
  {
    var me, v, z := Drone(num), a.speed, -a.altitude;
    var k := Planner.Passes(a.size, a.stripewidth);
    var x0 := StartPoints.StartX(a.size, a.stripewidth, num);
    var d := Planner.Distance(a.size, a.stripewidth);
    assert (d / v) * 2.0 == 2.0 * d / v;
    assert v + v / 2.0 == 1.5 * v;
    var survey := MoveOnPath(Planner.Sweep(x0, a.size, a.stripewidth, z, k), v, 2.0 * d / v, ForwardOnly,
                             YawMode(false, 0.0), 1.5 * v, 1.0, me);
    assert SurveyCall(a, num) == survey;
    var approach := [MoveToPosition(Vector3r(0.0, 0.0, z), v, me), MoveToPosition(Planner.Corner(x0, a.size, z), v, me),
                     Hover(me), Sleep(2.0), EnableApiControl(true, me)];
    assert ApproachCalls(a, num) == approach;
    var descent := if a.altitude > 5.0 then [MoveToPosition(Vector3r(0.0, 0.0, -5.0), 2.0, me)] else [];
    var home := [MoveToPosition(Vector3r(0.0, 0.0, z), v, me)];
    assert HomeCalls(a, num) == home + descent + [Land(me), ArmDisarm(false, me)];
    assert approach + [survey] + (home + descent + [Land(me), ArmDisarm(false, me)])
      == (approach + [survey] + home) + descent + [Land(me), ArmDisarm(false, me)];
  }

  /** A completed mission ends by landing and disarming Drone{num}, and the
      last move before landing brings it over home at height min(altitude, 5). */
  lemma CompletedMissionLands(a: Args, num: int, r: Replies)
    requires Runnable(a, r) && Run(a, num, r).outcome == Completed
    ensures var t := Run(a, num, r).trace;
      |t| >= 3 && t[|t| - 1] == ArmDisarm(false, Drone(num)) && t[|t| - 2] == Land(Drone(num)) &&
      t[|t| - 3].MoveToPosition? &&
      t[|t| - 3].target == Vector3r(0.0, 0.0, if a.altitude > 5.0 then -5.0 else -a.altitude)
  {
    var t := Run(a, num, r).trace;
    var home := HomeCalls(a, num);
    assert t[|t| - |home|..] == home;
    assert t[|t| - 3] == home[|home| - 3];
  }

  /** Whether moveOnPath raises changes nothing: the same calls follow and
      the mission still completes. This holds by construction: Run never
      reads pathFaults, just as the bare except of the script only reports
      the fault and carries on. */
  lemma SurveyFaultSwallowed(a: Args, num: int, r: Replies)
    requires Runnable(a, r)
    ensures Run(a, num, r.(pathFaults := true)) == Run(a, num, r.(pathFaults := false))
  {
  }

  /** The timeout given to moveOnPath is long enough for the sweep actually
      flown: at the commanded speed, the polyline from the survey corner
      through every waypoint takes at most the timeout, although the
      distance estimate itself undercounts that polyline. */
  lemma SurveyTimeoutSuffices(a: Args, num: int)
    requires a.size >= 0.0 && a.stripewidth > 0.0 && a.speed > 0.0
    ensures var call := SurveyCall(a, num);
      var corner := Planner.Corner(StartPoints.StartX(a.size, a.stripewidth, num), a.size, -a.altitude);
      var flown := PathLength([corner] + call.path);
      call.lookahead == 1.5 * a.speed &&
      Planner.Distance(a.size, a.stripewidth) <= flown &&
      flown / a.speed <= call.timeout
  {
    var x0 := StartPoints.StartX(a.size, a.stripewidth, num);
    Planner.DistanceEstimate(x0, a.size, a.stripewidth, -a.altitude);
    var flown := PathLength([Planner.Corner(x0, a.size, -a.altitude)] + SurveyPath(a, num));
    var d := Planner.Distance(a.size, a.stripewidth);
    assert flown <= 2.0 * d;
    Halves(flown, d, a.speed);
  }

  /** Time at speed v for a length of at most 2 d is at most twice the time for d. */
  lemma Halves(flown: real, d: real, v: real)
    requires flown <= 2.0 * d && v > 0.0
    ensures flown / v <= (d / v) * 2.0
  {
    var t := d / v;
    var u := flown / v;
    assert t * v == d;
    assert u * v == flown;
    assert u * v <= (t * 2.0) * v;
    Planner.CancelLe(u, t * 2.0, v);
  }
}
