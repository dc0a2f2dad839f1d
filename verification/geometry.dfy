/** Three-dimensional vectors over `real` and the centerline curve the scene queries.
    The Catmull-Rom evaluation behind `getPoint`, `getTangent` and `getLength` belongs to
    the 3D library and is not modelled: a curve is given by those three queries. */
module Geometry {
  import opened Numerics

  datatype Vec3 = Vec3(x: real, y: real, z: real)

  const Zero := Vec3(0.0, 0.0, 0.0)
  const UnitY := Vec3(0.0, 1.0, 0.0)
  const UnitX := Vec3(1.0, 0.0, 0.0)

  function Add(a: Vec3, b: Vec3): Vec3 { Vec3(a.x + b.x, a.y + b.y, a.z + b.z) }
  function Sub(a: Vec3, b: Vec3): Vec3 { Vec3(a.x - b.x, a.y - b.y, a.z - b.z) }
  function Scale(a: Vec3, k: real): Vec3 { Vec3(a.x * k, a.y * k, a.z * k) }
  function Dot(a: Vec3, b: Vec3): real { a.x * b.x + a.y * b.y + a.z * b.z }
  function Cross(a: Vec3, b: Vec3): Vec3 {
    Vec3(a.y * b.z - a.z * b.y, a.z * b.x - a.x * b.z, a.x * b.y - a.y * b.x)
  }
  function DistSq(a: Vec3, b: Vec3): real { Dot(Sub(a, b), Sub(a, b)) }

  /** `Vector3.normalize()`: divide by the length, or by one when the length is zero. */
  function Normalize(v: Vec3, sqrt: Root): Vec3 {
    var len := sqrt(Dot(v, v));
    if len == 0.0 then v else Scale(v, 1.0 / len)
  }

  /** `a.distanceTo(b) < r`, stated without a square root: a distance is never negative,
      so it is below `r` exactly when `r` is positive and the squared distance is below `r * r`. */
  predicate DistLess(a: Vec3, b: Vec3, r: real) {
    r > 0.0 && DistSq(a, b) < r * r
  }

  /** `a.distanceTo(b) >= r`, the negation of DistLess. */
  predicate DistAtLeast(a: Vec3, b: Vec3, r: real) {
    !DistLess(a, b, r)
  }

  /** A centerline as the scene queries it. Every curve the scene builds has distinct
      control points, so its length is positive. */
  datatype CurveQueries = Curve(point: real -> Vec3, tangent: real -> Vec3, length: real)
  type Curve = c: CurveQueries | c.length > 0.0
    witness Curve((t: real) => Zero, (t: real) => UnitY, 1.0)

  /** `curve.getPoints(20)`: the 21 points at parameters `d / 20`. */
  function Points20(c: Curve): (pts: seq<Vec3>)
    ensures |pts| == 21
    ensures forall d :: 0 <= d <= 20 ==> pts[d] == c.point(d as real / 20.0)
  {
    seq(21, d => c.point(d as real / 20.0))
  }
}
