/** Where each vehicle of the fleet begins its survey (SurveyNavigator.start,
    survey_4_Drones.py lines 35-40): vehicle num's box starts (num - 1) box
    sizes past x = 100, and every vehicle except the first is shifted one
    more stripe width; every box starts on the y = -boxsize edge. */
module StartPoints {
  import Planner

  /** The x at which vehicle num's survey starts (sp_x). */
  function StartX(boxsize: real, stripewidth: real, num: int): real
  {
    if num == 1 then 100.0 + (num - 1) as real * boxsize
    else 100.0 + (num - 1) as real * boxsize + stripewidth
  }

  /** The y at which every vehicle's survey starts (sp_y). */
  function StartY(boxsize: real): real
  {
    -boxsize
  }

  /** The spacing between neighbours: vehicle 2 starts boxsize + stripewidth
      after vehicle 1, and every later vehicle exactly boxsize after the one
      before it. */
  lemma StartXSpacing(boxsize: real, stripewidth: real, n: int)
    requires n >= 1
    ensures StartX(boxsize, stripewidth, n + 1) - StartX(boxsize, stripewidth, n)
      == if n == 1 then boxsize + stripewidth else boxsize
  {
  }

  /** With a positive box size and a non-negative stripe width, start points
      strictly increase with the vehicle number. */
  lemma {:induction false} StartXIncreasing(boxsize: real, stripewidth: real, m: int, n: int)
    requires boxsize > 0.0 && stripewidth >= 0.0
    requires 1 <= m < n
    ensures StartX(boxsize, stripewidth, m) < StartX(boxsize, stripewidth, n)
  {
    StartXSpacing(boxsize, stripewidth, n - 1);
    if m < n - 1 {
      StartXIncreasing(boxsize, stripewidth, m, n - 1);
    }
  }

  /** Where vehicle n's sweep ends relative to where vehicle n + 1's begins.
      The extra stripe width separates only the start points of vehicles 1
      and 2 (StartXSpacing), not the sweeps: vehicle 1's last waypoint lies
      within one stripe width of vehicle 2's start x, on either side, and for
      n >= 2 vehicle n's last waypoint lies at or beyond vehicle n + 1's start
      x, less than one pass (2 stripewidth) past it. */
  lemma NeighbourSweepsMeet(boxsize: real, stripewidth: real, z: real, n: int)
    requires boxsize > 0.0 && stripewidth > 0.0
    requires n >= 1
    ensures var k := Planner.Passes(boxsize, stripewidth);
      var path := Planner.Sweep(StartX(boxsize, stripewidth, n), boxsize, stripewidth, z, k);
      var next := StartX(boxsize, stripewidth, n + 1);
      |path| == 4 * k &&
      (n >= 2 ==> next <= path[4 * k - 1].x < next + 2.0 * stripewidth) &&
      (n == 1 ==> next - stripewidth <= path[4 * k - 1].x < next + stripewidth)
  {
    Planner.LastWaypointBounds(StartX(boxsize, stripewidth, n), boxsize, stripewidth, z);
    StartXSpacing(boxsize, stripewidth, n);
  }

  /** With the script's default arguments (size 50, stripe width 10) vehicle
      1 flies three passes and its sweep ends exactly at x = 160, where
      vehicle 2's sweep begins. */
  lemma DefaultSweepsTouch(z: real)
    ensures var k := Planner.Passes(50.0, 10.0);
      var path := Planner.Sweep(StartX(50.0, 10.0, 1), 50.0, 10.0, z, k);
      k == 3 && |path| == 12 && path[11].x == StartX(50.0, 10.0, 2) == 160.0
  {
    var k := Planner.Passes(50.0, 10.0);
    assert k as real * 20.0 >= 50.0;
    assert (k - 1) as real * 20.0 < 50.0;
    assert k == 3;
    Planner.LastWaypointBounds(StartX(50.0, 10.0, 1), 50.0, 10.0, z);
  }
}
