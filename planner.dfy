/** The survey-path planner of SurveyNavigator.start: a boustrophedon
    ("lawnmower") sweep that starts at x = startX and, pass after pass,
    flies up the +boxsize edge, steps one stripe, flies down the -boxsize
    edge and steps one more stripe, until x reaches startX + boxsize. */
module Planner {
  import opened Geometry

  /** The sweep loop ends: either it never starts (boxsize <= 0) or every pass
      moves x forward (stripewidth > 0). Otherwise it runs forever. */
  predicate SweepEnds(boxsize: real, stripewidth: real)
  {
    boxsize <= 0.0 || stripewidth > 0.0
  }

  /** The number of passes the loop makes: the least k with
      startX + k (2 stripewidth) >= startX + boxsize. */
  function Passes(boxsize: real, stripewidth: real): (k: nat)
    requires SweepEnds(boxsize, stripewidth)
    ensures boxsize <= k as real * (2.0 * stripewidth)
    ensures k > 0 ==> (k - 1) as real * (2.0 * stripewidth) < boxsize
    ensures boxsize > 0.0 <==> k > 0
  {
    if boxsize <= 0.0 then 0
    else
      var q := boxsize / (2.0 * stripewidth);
      var k := if q.Floor as real == q then q.Floor else q.Floor + 1;
      CeilingBounds(boxsize, 2.0 * stripewidth, q, k);
      k
  }

  /** k = ceiling(b / w) is the least count of w's that reaches b. */
  lemma CeilingBounds(b: real, w: real, q: real, k: int)
    requires b > 0.0 && w > 0.0 && q == b / w
    requires k == if q.Floor as real == q then q.Floor else q.Floor + 1
    ensures k >= 1 && (k - 1) as real * w < b <= k as real * w
  {
    var f := q.Floor;
    assert q * w == b;
    PositiveFactor(q, w);
    assert f as real <= q < f as real + 1.0;
    if f as real == q {
      assert k == f && k as real == q;
      StrictScale((f - 1) as real, q, w);
      assert (k - 1) as real == (f - 1) as real;
    } else {
      assert k == f + 1 && (k - 1) as real == f as real && k as real == (f + 1) as real;
      assert f >= 0;
      StrictScale(f as real, q, w);
      StrictScale(q, (f + 1) as real, w);
    }
  }

  lemma PositiveFactor(a: real, w: real)
    requires a * w > 0.0 && w > 0.0
    ensures a > 0.0
  {
  }

  lemma StrictScale(a: real, b: real, w: real)
    requires a < b && w > 0.0
    ensures a * w < b * w
  {
  }

  lemma Cancel(a: real, b: real, w: real)
    requires a * w < b * w && w > 0.0
    ensures a < b
  {
  }

  lemma CancelLe(a: real, b: real, w: real)
    requires a * w <= b * w && w > 0.0
    ensures a <= b
  {
  }

  /** Passes is the least pass count whose sweep reaches the far side. */
  lemma PassesIsLeast(boxsize: real, stripewidth: real, n: nat)
    requires SweepEnds(boxsize, stripewidth)
    requires boxsize <= n as real * (2.0 * stripewidth)
    ensures Passes(boxsize, stripewidth) <= n
  {
    var k := Passes(boxsize, stripewidth);
    if k > 0 {
      Cancel((k - 1) as real, n as real, 2.0 * stripewidth);
    }
  }

  /** A pass count up to Passes whose sweep falls short of the far side is
      below Passes. */
  lemma PassesAbove(boxsize: real, stripewidth: real, n: nat)
    requires SweepEnds(boxsize, stripewidth)
    requires n <= Passes(boxsize, stripewidth)
    requires n as real * (2.0 * stripewidth) < boxsize
    ensures n < Passes(boxsize, stripewidth)
  {
    var k := Passes(boxsize, stripewidth);
    if n == 0 {
      assert k > 0;
    } else {
      Cancel(n as real, k as real, 2.0 * stripewidth);
    }
  }

  /** The x the loop has reached at the start of pass i (counting from 0). */
  function PassX(startX: real, stripewidth: real, i: nat): real
  {
    startX + i as real * (2.0 * stripewidth)
  }

  /** The four waypoints the loop appends on pass i. */
  function Pass(startX: real, boxsize: real, stripewidth: real, z: real, i: nat): seq<Vector3r>
  {
    var x := PassX(startX, stripewidth, i);
    [Vector3r(x, boxsize, z), Vector3r(x + stripewidth, boxsize, z),
     Vector3r(x + stripewidth, -boxsize, z), Vector3r(x + stripewidth + stripewidth, -boxsize, z)]
  }

  /** The path after n passes of the loop. */
  function Sweep(startX: real, boxsize: real, stripewidth: real, z: real, n: nat): seq<Vector3r>
  {
    if n == 0 then [] else Sweep(startX, boxsize, stripewidth, z, n - 1) + Pass(startX, boxsize, stripewidth, z, n - 1)
  }

  /** Independent closed form of waypoint j: pass j / 4, corner j % 4.
      Corners 0 and 1 lie on the +boxsize edge, 2 and 3 on the -boxsize edge;
      their x values are 2i, 2i+1, 2i+1 and 2i+2 stripes past startX. */
  function Waypoint(startX: real, boxsize: real, stripewidth: real, z: real, j: nat): Vector3r
  {
    var i, c := j / 4, j % 4;
    var stripes := 2 * i + (if c == 0 then 0 else if c == 3 then 2 else 1);
    Vector3r(startX + stripes as real * stripewidth, if c < 2 then boxsize else -boxsize, z)
  }

  /** The distance the loop adds up: boxsize + stripewidth twice per pass. */
  function Distance(boxsize: real, stripewidth: real): real
    requires SweepEnds(boxsize, stripewidth)
  {
    Passes(boxsize, stripewidth) as real * (2.0 * boxsize + 2.0 * stripewidth)
  }

  /** The position the survey starts from: the transit target (startX, -boxsize, z). */
  function Corner(startX: real, boxsize: real, z: real): Vector3r
  {
    Vector3r(startX, -boxsize, z)
  }

  /** The planner loop (survey_4_Drones.py, lines 61-73). */
  method PlanSurvey(startX: real, boxsize: real, stripewidth: real, z: real)
    returns (path: seq<Vector3r>, distance: real)
    requires SweepEnds(boxsize, stripewidth)
    ensures path == Sweep(startX, boxsize, stripewidth, z, Passes(boxsize, stripewidth))
    ensures |path| == 4 * Passes(boxsize, stripewidth)
    ensures forall j :: 0 <= j < |path| ==> path[j] == Waypoint(startX, boxsize, stripewidth, z, j)
    ensures distance == Distance(boxsize, stripewidth)
  {
    ghost var k := Passes(boxsize, stripewidth);
    ghost var i: nat := 0;
    path := [];
    distance := 0.0;
    var x := startX;
    while x < startX + boxsize
      invariant i <= k
      invariant x == PassX(startX, stripewidth, i)
      invariant path == Sweep(startX, boxsize, stripewidth, z, i)
      invariant distance == Repeat(i, 2.0 * boxsize + 2.0 * stripewidth)
      decreases k - i
    {
      PassesAbove(boxsize, stripewidth, i);
      ghost var before := path;
      distance := distance + boxsize;
      path := path + [Vector3r(x, boxsize, z)];
      x := x + stripewidth;
      distance := distance + stripewidth;
      path := path + [Vector3r(x, boxsize, z)];
      distance := distance + boxsize;
      path := path + [Vector3r(x, -boxsize, z)];
      x := x + stripewidth;
      distance := distance + stripewidth;
      path := path + [Vector3r(x, -boxsize, z)];
      assert path == before + Pass(startX, boxsize, stripewidth, z, i);
      NextPass(startX, stripewidth, i);
      i := i + 1;
    }
    PassesIsLeast(boxsize, stripewidth, i);
    RepeatIsProduct(k, 2.0 * boxsize + 2.0 * stripewidth);
    SweepClosedForm(startX, boxsize, stripewidth, z, k);
  }

  /** All of the sweep after n passes, in closed form. */
  lemma SweepClosedForm(startX: real, boxsize: real, stripewidth: real, z: real, n: nat)
    ensures |Sweep(startX, boxsize, stripewidth, z, n)| == 4 * n
    ensures forall j :: 0 <= j < 4 * n ==>
      Sweep(startX, boxsize, stripewidth, z, n)[j] == Waypoint(startX, boxsize, stripewidth, z, j)
  {
    SweepLength(startX, boxsize, stripewidth, z, n);
    forall j | 0 <= j < 4 * n
      ensures Sweep(startX, boxsize, stripewidth, z, n)[j] == Waypoint(startX, boxsize, stripewidth, z, j)
    {
      SweepAt(startX, boxsize, stripewidth, z, n, j);
    }
  }

  /** One more pass moves x two stripes on. */
  lemma NextPass(startX: real, stripewidth: real, i: nat)
    ensures PassX(startX, stripewidth, i + 1) == PassX(startX, stripewidth, i) + stripewidth + stripewidth
  {
  }

  /** Each pass adds four waypoints. */
  lemma {:induction false} SweepLength(startX: real, boxsize: real, stripewidth: real, z: real, n: nat)
    ensures |Sweep(startX, boxsize, stripewidth, z, n)| == 4 * n
  {
    if n > 0 {
      SweepLength(startX, boxsize, stripewidth, z, n - 1);
    }
  }

  /** Waypoint j of the sweep is the closed form Waypoint(j). */
  lemma {:induction false} SweepAt(startX: real, boxsize: real, stripewidth: real, z: real, n: nat, j: nat)
    requires j < 4 * n
    ensures |Sweep(startX, boxsize, stripewidth, z, n)| == 4 * n
    ensures Sweep(startX, boxsize, stripewidth, z, n)[j] == Waypoint(startX, boxsize, stripewidth, z, j)
  {
    SweepLength(startX, boxsize, stripewidth, z, n);
    SweepLength(startX, boxsize, stripewidth, z, n - 1);
    if j < 4 * (n - 1) {
      SweepAt(startX, boxsize, stripewidth, z, n - 1, j);
    } else {
      var c := j - 4 * (n - 1);
      assert j / 4 == n - 1 && j % 4 == c;
      assert Sweep(startX, boxsize, stripewidth, z, n)[j] == Pass(startX, boxsize, stripewidth, z, n - 1)[c];
      StripesX(startX, stripewidth, n - 1);
    }
  }

  /** The x values of the corners of pass i, in stripes past startX. */
  lemma StripesX(startX: real, stripewidth: real, i: nat)
    ensures PassX(startX, stripewidth, i) == startX + (2 * i) as real * stripewidth
    ensures PassX(startX, stripewidth, i) + stripewidth == startX + (2 * i + 1) as real * stripewidth
    ensures PassX(startX, stripewidth, i) + stripewidth + stripewidth == startX + (2 * i + 2) as real * stripewidth
  {
  }

  /** The survey starts at (startX, +boxsize, z) and every waypoint lies on
      one of the two box edges y = +boxsize, y = -boxsize, at height z. */
  lemma SweepShape(startX: real, boxsize: real, stripewidth: real, z: real, n: nat)
    requires n > 0
    ensures |Sweep(startX, boxsize, stripewidth, z, n)| == 4 * n
    ensures Sweep(startX, boxsize, stripewidth, z, n)[0] == Vector3r(startX, boxsize, z)
    ensures forall j :: 0 <= j < 4 * n ==>
      var w := Sweep(startX, boxsize, stripewidth, z, n)[j];
      (w.y == boxsize || w.y == -boxsize) && w.z == z
  {
    SweepAt(startX, boxsize, stripewidth, z, n, 0);
    forall j | 0 <= j < 4 * n
      ensures var w := Sweep(startX, boxsize, stripewidth, z, n)[j];
        (w.y == boxsize || w.y == -boxsize) && w.z == z
    {
      SweepAt(startX, boxsize, stripewidth, z, n, j);
    }
  }

  /** The last waypoint of the planned sweep is at x = startX + 2 k stripewidth,
      which reaches the far side startX + boxsize and overshoots it by less
      than one pass (2 stripewidth). */
  lemma LastWaypointBounds(startX: real, boxsize: real, stripewidth: real, z: real)
    requires boxsize > 0.0 && stripewidth > 0.0
    ensures var k := Passes(boxsize, stripewidth);
      var path := Sweep(startX, boxsize, stripewidth, z, k);
      |path| == 4 * k &&
      path[4 * k - 1] == Vector3r(startX + k as real * (2.0 * stripewidth), -boxsize, z) &&
      startX + boxsize <= path[4 * k - 1].x < startX + boxsize + 2.0 * stripewidth
  {
    var k := Passes(boxsize, stripewidth);
    SweepAt(startX, boxsize, stripewidth, z, k, 4 * k - 1);
    assert (4 * k - 1) / 4 == k - 1 && (4 * k - 1) % 4 == 3;
  }

  /** The legs flown on pass i, starting from where the previous pass ended
      (or from the corner): cross the box (2 boxsize), step a stripe, cross
      back, step a stripe; each runs parallel to an axis. */
  lemma PassLegs(startX: real, boxsize: real, stripewidth: real, z: real, i: nat, from: Vector3r)
    requires boxsize >= 0.0 && stripewidth >= 0.0
    requires from == Vector3r(PassX(startX, stripewidth, i), -boxsize, z)
    ensures var p := Pass(startX, boxsize, stripewidth, z, i);
      LegLength(from, p[0]) + LegLength(p[0], p[1]) + LegLength(p[1], p[2]) + LegLength(p[2], p[3])
        == 4.0 * boxsize + 2.0 * stripewidth &&
      AxisAligned(from, p[0]) && AxisAligned(p[0], p[1]) && AxisAligned(p[1], p[2]) && AxisAligned(p[2], p[3])
  {
  }

  /** The polyline flown from the transit corner (startX, -boxsize, z) through
      the first n passes is n (4 boxsize + 2 stripewidth) long (each pass
      crosses the box twice and steps two stripes) and every leg of it runs
      parallel to an axis, so this is also its straight-line length. */
  lemma SweepFlownLength(startX: real, boxsize: real, stripewidth: real, z: real, n: nat)
    requires boxsize >= 0.0 && stripewidth >= 0.0
    ensures PathLength([Corner(startX, boxsize, z)] + Sweep(startX, boxsize, stripewidth, z, n))
      == n as real * (4.0 * boxsize + 2.0 * stripewidth)
    ensures AllAxisAligned([Corner(startX, boxsize, z)] + Sweep(startX, boxsize, stripewidth, z, n))
  {
    FlownPasses(startX, boxsize, stripewidth, z, n);
    RepeatIsProduct(n, 4.0 * boxsize + 2.0 * stripewidth);
  }

  /** n copies of d added up, with no multiplication for the solver to face. */
  function Repeat(n: nat, d: real): real
  {
    if n == 0 then 0.0 else Repeat(n - 1, d) + d
  }

  lemma {:induction false} RepeatIsProduct(n: nat, d: real)
    ensures Repeat(n, d) == n as real * d
  {
    if n > 0 {
      RepeatIsProduct(n - 1, d);
    }
  }

  lemma {:induction false} FlownPasses(startX: real, boxsize: real, stripewidth: real, z: real, n: nat)
    requires boxsize >= 0.0 && stripewidth >= 0.0
    ensures PathLength([Corner(startX, boxsize, z)] + Sweep(startX, boxsize, stripewidth, z, n))
      == Repeat(n, 4.0 * boxsize + 2.0 * stripewidth)
    ensures AllAxisAligned([Corner(startX, boxsize, z)] + Sweep(startX, boxsize, stripewidth, z, n))
  {
    if n > 0 {
      FlownPasses(startX, boxsize, stripewidth, z, n - 1);
      FlownStep(startX, boxsize, stripewidth, z, n - 1);
    }
  }

  /** Flying pass m after the first m passes adds 4 boxsize + 2 stripewidth
      of axis-aligned legs. */
  lemma FlownStep(startX: real, boxsize: real, stripewidth: real, z: real, m: nat)
    requires boxsize >= 0.0 && stripewidth >= 0.0
    ensures var start := Corner(startX, boxsize, z);
      var front := [start] + Sweep(startX, boxsize, stripewidth, z, m);
      var next := [start] + Sweep(startX, boxsize, stripewidth, z, m + 1);
      PathLength(next) == PathLength(front) + (4.0 * boxsize + 2.0 * stripewidth) &&
      (AllAxisAligned(next) <==> AllAxisAligned(front))
  {
    var start := Corner(startX, boxsize, z);
    var front := [start] + Sweep(startX, boxsize, stripewidth, z, m);
    SweepEnd(startX, boxsize, stripewidth, z, m);
    var from := front[|front| - 1];
    var p := Pass(startX, boxsize, stripewidth, z, m);
    PassLegs(startX, boxsize, stripewidth, z, m, from);
    AppendFour(front, p);
    assert front + p == [start] + Sweep(startX, boxsize, stripewidth, z, m + 1);
  }

  /** After m passes (or none) the vehicle is at the -boxsize edge, PassX(m). */
  lemma SweepEnd(startX: real, boxsize: real, stripewidth: real, z: real, m: nat)
    ensures var front := [Corner(startX, boxsize, z)] + Sweep(startX, boxsize, stripewidth, z, m);
      |front| == 4 * m + 1 && front[4 * m] == Vector3r(PassX(startX, stripewidth, m), -boxsize, z)
  {
    SweepLength(startX, boxsize, stripewidth, z, m);
    if m > 0 {
      SweepLength(startX, boxsize, stripewidth, z, m - 1);
      var front := [Corner(startX, boxsize, z)] + Sweep(startX, boxsize, stripewidth, z, m);
      assert front[4 * m] == Pass(startX, boxsize, stripewidth, z, m - 1)[3];
      NextPass(startX, stripewidth, m - 1);
    }
  }

  /** Appending four points adds their four legs. */
  lemma AppendFour(front: seq<Vector3r>, p: seq<Vector3r>)
    requires |front| >= 1 && |p| == 4
    ensures var from := front[|front| - 1];
      PathLength(front + p) == PathLength(front)
        + LegLength(from, p[0]) + LegLength(p[0], p[1]) + LegLength(p[1], p[2]) + LegLength(p[2], p[3])
    ensures var from := front[|front| - 1];
      AllAxisAligned(front + p) <==> (AllAxisAligned(front)
        && AxisAligned(from, p[0]) && AxisAligned(p[0], p[1]) && AxisAligned(p[1], p[2]) && AxisAligned(p[2], p[3]))
  {
    var f0 := front + [p[0]];
    var f1 := f0 + [p[1]];
    var f2 := f1 + [p[2]];
    assert f2 + [p[3]] == front + p;
    PathLengthSnoc(front, p[0]);
    PathLengthSnoc(f0, p[1]);
    PathLengthSnoc(f1, p[2]);
    PathLengthSnoc(f2, p[3]);
    AllAxisAlignedSnoc(front, p[0]);
    AllAxisAlignedSnoc(f0, p[1]);
    AllAxisAlignedSnoc(f1, p[2]);
    AllAxisAlignedSnoc(f2, p[3]);
  }

  /** The planner's distance counts every box crossing as boxsize although it
      is 2 boxsize long: the flown length exceeds it by exactly 2 k boxsize.
      The survey timeout of twice the estimated time still covers the flight:
      2 distance is at least the flown length. */
  lemma DistanceEstimate(startX: real, boxsize: real, stripewidth: real, z: real)
    requires boxsize >= 0.0 && stripewidth > 0.0
    ensures var k := Passes(boxsize, stripewidth);
      var distance := Distance(boxsize, stripewidth);
      var flown := PathLength([Corner(startX, boxsize, z)] + Sweep(startX, boxsize, stripewidth, z, k));
      flown == distance + 2.0 * k as real * boxsize && distance <= flown <= 2.0 * distance
  {
    var k := Passes(boxsize, stripewidth);
    SweepFlownLength(startX, boxsize, stripewidth, z, k);
    assert k as real * (2.0 * stripewidth) >= 0.0;
    assert k as real * (2.0 * boxsize) >= 0.0;
  }
}
