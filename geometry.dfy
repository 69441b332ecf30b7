/** Points and polylines in AirSim's north-east-down frame, where a negative z
    lies above the ground. Coordinates are mathematical reals: the floating-point
    rounding of the original is not modelled. */
module Geometry {

  /** A position, as airsim.Vector3r. */
  datatype Vector3r = Vector3r(x: real, y: real, z: real)

  function Abs(r: real): (a: real)
    ensures a >= 0.0 && (a == r || a == -r)
  {
    if r < 0.0 then -r else r
  }

  /** The two points differ in at most one coordinate, so the straight leg
      between them runs parallel to an axis. */
  predicate AxisAligned(p: Vector3r, q: Vector3r)
  {
    (p.y == q.y && p.z == q.z) || (p.x == q.x && p.z == q.z) || (p.x == q.x && p.y == q.y)
  }

  /** Length of the leg from p to q measured along the axes; for an
      axis-aligned leg this is its straight-line (Euclidean) length. */
  function LegLength(p: Vector3r, q: Vector3r): (d: real)
    ensures d >= 0.0
  {
    Abs(q.x - p.x) + Abs(q.y - p.y) + Abs(q.z - p.z)
  }

  /** Every leg of the polyline through ps runs parallel to an axis. */
  predicate AllAxisAligned(ps: seq<Vector3r>)
  {
    forall j :: 0 <= j < |ps| - 1 ==> AxisAligned(ps[j], ps[j + 1])
  }

  /** Total length of the polyline that visits ps in order. */
  function PathLength(ps: seq<Vector3r>): real
    decreases |ps|
  {
    if |ps| < 2 then 0.0 else PathLength(ps[..|ps| - 1]) + LegLength(ps[|ps| - 2], ps[|ps| - 1])
  }

  /** Extending a polyline by one point adds exactly the new leg. */
  lemma PathLengthSnoc(ps: seq<Vector3r>, p: Vector3r)
    requires |ps| >= 1
    ensures PathLength(ps + [p]) == PathLength(ps) + LegLength(ps[|ps| - 1], p)
  {
    assert (ps + [p])[..|ps|] == ps;
  }

  /** Extending a polyline by one point keeps it axis-aligned exactly when the
      new leg is. */
  lemma AllAxisAlignedSnoc(ps: seq<Vector3r>, p: Vector3r)
    requires |ps| >= 1
    ensures AllAxisAligned(ps + [p]) <==> AllAxisAligned(ps) && AxisAligned(ps[|ps| - 1], p)
  {
    var qs := ps + [p];
    if AllAxisAligned(qs) {
      forall j | 0 <= j < |ps| - 1
        ensures AxisAligned(ps[j], ps[j + 1])
      {
        assert qs[j] == ps[j] && qs[j + 1] == ps[j + 1];
      }
      assert qs[|ps| - 1] == ps[|ps| - 1] && qs[|ps|] == p;
    }
  }
}
