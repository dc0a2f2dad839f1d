/** The shared setup of both metaball generators in `SDFVesselGen`: the padded bounding box of
    the vessel centerlines, the affine map between world space and the marching-cubes grid,
    ball influence, and the marching-cubes field itself. The field's iso-surface extraction
    belongs to the 3D library and is not modelled: the field is its list of balls. */
module SdfField {
  import opened Numerics
  import opened Geometry

  /** A vessel centerline and its radius. */
  datatype VesselPath = VesselPath(path: Curve, radius: real)

  // ---------------------------------------------------------------------------
  // Bounding box

  /** An axis-aligned box. */
  datatype Box = Box(lo: Vec3, hi: Vec3)

  function VMin(a: Vec3, b: Vec3): Vec3 { Vec3(Min(a.x, b.x), Min(a.y, b.y), Min(a.z, b.z)) }
  function VMax(a: Vec3, b: Vec3): Vec3 { Vec3(Max(a.x, b.x), Max(a.y, b.y), Max(a.z, b.z)) }

  /** `min.min(pt); max.max(pt)` on a box that is `None` while it is still the infinite
      starting box. */
  function Extend(b: Option<Box>, pt: Vec3): Box {
    match b
    case None => Box(pt, pt)
    case Some(bx) => Box(VMin(bx.lo, pt), VMax(bx.hi, pt))
  }

  /** The box folded over a sequence of points, `None` for no points. */
  function BoundsOf(pts: seq<Vec3>): Option<Box> {
    if |pts| == 0 then None else Some(Extend(BoundsOf(pts[..|pts| - 1]), pts[|pts| - 1]))
  }

  /** The points the bounds are taken over: `getPoints(20)` of every path, in order. */
  function SampledPoints(paths: seq<VesselPath>): (pts: seq<Vec3>)
    ensures |pts| == 21 * |paths|
  {
    if |paths| == 0 then [] else SampledPoints(paths[..|paths| - 1]) + Points20(paths[|paths| - 1].path)
  }

  predicate Within(v: Vec3, b: Box) {
    b.lo.x <= v.x <= b.hi.x && b.lo.y <= v.y <= b.hi.y && b.lo.z <= v.z <= b.hi.z
  }

  /** Every bound of the box is reached by some point. */
  ghost predicate Tight(b: Box, pts: seq<Vec3>) {
    && (exists k :: 0 <= k < |pts| && pts[k].x == b.lo.x)
    && (exists k :: 0 <= k < |pts| && pts[k].y == b.lo.y)
    && (exists k :: 0 <= k < |pts| && pts[k].z == b.lo.z)
    && (exists k :: 0 <= k < |pts| && pts[k].x == b.hi.x)
    && (exists k :: 0 <= k < |pts| && pts[k].y == b.hi.y)
    && (exists k :: 0 <= k < |pts| && pts[k].z == b.hi.z)
  }

  /** The fold yields a box exactly when there are points; it is the smallest box holding
      them all: every point lies within it and every bound is attained. */
  lemma BoundsExact(pts: seq<Vec3>)
    ensures BoundsOf(pts).Some? <==> |pts| > 0
    ensures BoundsOf(pts).Some? ==> forall k :: 0 <= k < |pts| ==> Within(pts[k], BoundsOf(pts).value)
    ensures BoundsOf(pts).Some? ==> Tight(BoundsOf(pts).value, pts)
  {
    if |pts| > 0 {
      BoundsWithin(pts);
      BoundsTight(pts);
    }
  }

  /** Every point lies within the fold's box. */
  lemma {:induction false} BoundsWithin(pts: seq<Vec3>)
    requires |pts| > 0
    ensures BoundsOf(pts).Some?
    ensures forall k :: 0 <= k < |pts| ==> Within(pts[k], BoundsOf(pts).value)
  {
    var init := pts[..|pts| - 1];
    var b := BoundsOf(pts).value;
    if |init| > 0 {
      BoundsWithin(init);
      var ib := BoundsOf(init).value;
      forall k | 0 <= k < |pts| ensures Within(pts[k], b) {
        if k < |init| {
          assert pts[k] == init[k];
          assert Within(init[k], ib);
        }
      }
    }
  }

  /** Every bound of the fold's box is attained by one of the points. */
  lemma {:induction false} BoundsTight(pts: seq<Vec3>)
    requires |pts| > 0
    ensures BoundsOf(pts).Some? && Tight(BoundsOf(pts).value, pts)
  {
    var init := pts[..|pts| - 1];
    var last := pts[|pts| - 1];
    var b := BoundsOf(pts).value;
    if |init| == 0 {
      assert BoundsOf(init) == None;
      assert b == Box(pts[0], pts[0]);
    } else {
      BoundsTight(init);
      var ib := BoundsOf(init).value;
      assert forall k :: 0 <= k < |init| ==> init[k] == pts[k];
      var n := |pts| - 1;
      var kx :| 0 <= kx < |init| && init[kx].x == ib.lo.x;
      var ky :| 0 <= ky < |init| && init[ky].y == ib.lo.y;
      var kz :| 0 <= kz < |init| && init[kz].z == ib.lo.z;
      var hx :| 0 <= hx < |init| && init[hx].x == ib.hi.x;
      var hy :| 0 <= hy < |init| && init[hy].y == ib.hi.y;
      var hz :| 0 <= hz < |init| && init[hz].z == ib.hi.z;
      assert pts[if last.x <= ib.lo.x then n else kx].x == b.lo.x;
      assert pts[if last.y <= ib.lo.y then n else ky].y == b.lo.y;
      assert pts[if last.z <= ib.lo.z then n else kz].z == b.lo.z;
      assert pts[if last.x >= ib.hi.x then n else hx].x == b.hi.x;
      assert pts[if last.y >= ib.hi.y then n else hy].y == b.hi.y;
      assert pts[if last.z >= ib.hi.z then n else hz].z == b.hi.z;
    }
  }

  /** Growing a prefix of `full` by its next element, after some earlier balls. */
  lemma PrefixNext(before: seq<Ball>, full: seq<Ball>, j: nat)
    requires j < |full|
    ensures before + full[..j + 1] == before + full[..j] + [full[j]]
  {
    assert full[..j + 1] == full[..j] + [full[j]];
  }

  /** The fold of one more point extends the fold of the points before it. */
  lemma BoundsSnoc(pts: seq<Vec3>, pt: Vec3)
    ensures BoundsOf(pts + [pt]) == Some(Extend(BoundsOf(pts), pt))
  {
    assert (pts + [pt])[..|pts|] == pts;
  }

  /** The inner `forEach`: `min.min(pt); max.max(pt)` for each point of one path, in order. */
  method ExtendAll(box: Option<Box>, ghost before: seq<Vec3>, points: seq<Vec3>) returns (r: Option<Box>)
    requires box == BoundsOf(before)
    ensures r == BoundsOf(before + points)
  {
    r := box;
    var j := 0;
    assert before + points[..j] == before;
    while j < |points|
      invariant 0 <= j <= |points|
      invariant r == BoundsOf(before + points[..j])
    {
      BoundsSnoc(before + points[..j], points[j]);
      assert before + points[..j + 1] == before + points[..j] + [points[j]];
      r := Some(Extend(r, points[j]));
      j := j + 1;
    }
    assert points[..j] == points;
  }

  /** The min/max accumulation over every path's 21 sample points, with the source's nested
      `forEach` loops. */
  method ComputeBounds(paths: seq<VesselPath>) returns (box: Option<Box>)
    ensures box == BoundsOf(SampledPoints(paths))
    ensures box.Some? <==> |paths| > 0
  {
    box := None;
    var p := 0;
    while p < |paths|
      invariant 0 <= p <= |paths|
      invariant box == BoundsOf(SampledPoints(paths[..p]))
    {
      box := ExtendAll(box, SampledPoints(paths[..p]), Points20(paths[p].path));
      SampledPointsStep(paths, p);
      p := p + 1;
    }
    assert paths[..p] == paths;
    BoundsExact(SampledPoints(paths));
  }

  lemma SampledPointsStep(paths: seq<VesselPath>, p: nat)
    requires p < |paths|
    ensures SampledPoints(paths[..p + 1]) == SampledPoints(paths[..p]) + Points20(paths[p].path)
  {
    assert paths[..p + 1][..p] == paths[..p];
  }

  // ---------------------------------------------------------------------------
  // The padded grid volume and the world/grid mapping

  /** The padding added on every side of the box. */
  const Padding: real := 1.5

  /** The grid volume: its lower corner `min` and its extent `size`. */
  datatype GridFrame = GridFrame(min: Vec3, size: Vec3)

  /** `min.subScalar(1.5); max.addScalar(1.5); size = max - min`. */
  function Pad(b: Box): GridFrame {
    var pad := Vec3(Padding, Padding, Padding);
    var lo := Sub(b.lo, pad);
    var hi := Add(b.hi, pad);
    GridFrame(lo, Sub(hi, lo))
  }

  /** Every extent of the volume is positive, so the grid mapping is defined. */
  predicate ValidFrame(g: GridFrame) {
    g.size.x > 0.0 && g.size.y > 0.0 && g.size.z > 0.0
  }

  /** The padded volume of the sampled points has every extent at least 3, so it is valid,
      and every sampled point lies at least the padding inside it on every axis. */
  lemma PaddedFrame(paths: seq<VesselPath>)
    requires |paths| > 0
    ensures var g := Pad(BoundsOf(SampledPoints(paths)).value);
      && g.size.x >= 3.0 && g.size.y >= 3.0 && g.size.z >= 3.0
      && ValidFrame(g)
      && forall k :: 0 <= k < |SampledPoints(paths)| ==>
           var v := SampledPoints(paths)[k];
           && g.min.x + Padding <= v.x <= g.min.x + g.size.x - Padding
           && g.min.y + Padding <= v.y <= g.min.y + g.size.y - Padding
           && g.min.z + Padding <= v.z <= g.min.z + g.size.z - Padding
  {
    var pts := SampledPoints(paths);
    BoundsExact(pts);
    assert Within(pts[0], BoundsOf(pts).value);
  }

  /** `worldToGrid`: the volume's lower corner goes to 0 and its upper corner to 1 on each axis. */
  function WorldToGrid(g: GridFrame, v: Vec3): Vec3
    requires ValidFrame(g)
  {
    Vec3((v.x - g.min.x) / g.size.x, (v.y - g.min.y) / g.size.y, (v.z - g.min.z) / g.size.z)
  }

  /** The field object's position: the volume's center. */
  function EffectPosition(g: GridFrame): Vec3 { Add(g.min, Scale(g.size, 0.5)) }
  /** The field object's scale: half the volume's extent, for a field spanning -1..1. */
  function EffectScale(g: GridFrame): Vec3 { Scale(g.size, 0.5) }

  /** Where the field object's transform puts grid coordinate `u`: local coordinate `2u - 1`,
      scaled and moved by the object's scale and position. */
  function GridToWorld(g: GridFrame, u: Vec3): Vec3 {
    var pos := EffectPosition(g);
    var sc := EffectScale(g);
    Vec3(pos.x + sc.x * (2.0 * u.x - 1.0), pos.y + sc.y * (2.0 * u.y - 1.0), pos.z + sc.z * (2.0 * u.z - 1.0))
  }

  /** One axis of the round trip. */
  lemma AxisRoundTrip(lo: real, size: real, v: real, u: real)
    requires size > 0.0
    ensures lo + size * 0.5 + size * 0.5 * (2.0 * ((v - lo) / size) - 1.0) == v
    ensures (lo + size * 0.5 + size * 0.5 * (2.0 * u - 1.0) - lo) / size == u
  {
    var q := (v - lo) / size;
    assert size * q == v - lo;
    assert size * 0.5 * (2.0 * q - 1.0) == size * q - size * 0.5;
    var w := lo + size * 0.5 + size * 0.5 * (2.0 * u - 1.0) - lo;
    assert w == size * u;
  }

  /** The grid mapping sends the volume's corners to 0 and 1, and the field object's transform
      undoes it: grid coordinates land back on the world points they came from. */
  lemma GridMapping(g: GridFrame, v: Vec3, u: Vec3)
    requires ValidFrame(g)
    ensures WorldToGrid(g, g.min) == Vec3(0.0, 0.0, 0.0)
    ensures WorldToGrid(g, Add(g.min, g.size)) == Vec3(1.0, 1.0, 1.0)
    ensures GridToWorld(g, WorldToGrid(g, v)) == v
    ensures WorldToGrid(g, GridToWorld(g, u)) == u
  {
    AxisRoundTrip(g.min.x, g.size.x, v.x, u.x);
    AxisRoundTrip(g.min.y, g.size.y, v.y, u.y);
    AxisRoundTrip(g.min.z, g.size.z, v.z, u.z);
  }

  // ---------------------------------------------------------------------------
  // Balls and the field

  /** `Math.max(size.x, size.y, size.z)`. */
  function MaxSize(g: GridFrame): real { Max(g.size.x, Max(g.size.y, g.size.z)) }

  /** A ball's influence for a world radius: the radius relative to the largest extent, times 12. */
  function Influence(g: GridFrame, radius: real): real
    requires ValidFrame(g)
  {
    radius / MaxSize(g) * 12.0
  }

  /** Influence is positive for a positive radius, proportional to the radius, and grows with it. */
  lemma InfluenceProportional(g: GridFrame, r: real, s: real, k: real)
    requires ValidFrame(g)
    ensures r > 0.0 ==> Influence(g, r) > 0.0
    ensures Influence(g, k * r) == k * Influence(g, r)
    ensures r <= s ==> Influence(g, r) <= Influence(g, s)
  {
    var m := MaxSize(g);
    assert m > 0.0;
    var q := 12.0 / m;
    assert Influence(g, r) == r * q;
    assert Influence(g, s) == s * q;
    assert Influence(g, k * r) == (k * r) * q;
    if r <= s {
      MulMonotone(q, r, s);
    }
  }

  /** The `subtract` argument both generators pass to `addBall`. */
  const Subtract: real := 12.0
  /** The iso level both generators set before extracting the surface. */
  const Isolation: real := 80.0
  /** The grid resolution both generators use. */
  const Resolution: nat := 64

  /** One `addBall` call: grid position, strength and subtract. */
  datatype Ball = Ball(pos: Vec3, strength: real, subtract: real)

  /** The `MarchingCubes` object as the generators use it: its transform, its iso level and
      the balls added to it since the last reset. */
  class MarchingField {
    const resolution: nat
    var position: Vec3
    var scale: Vec3
    var isolation: real
    var balls: seq<Ball>

    constructor (resolution: nat)
      ensures this.resolution == resolution && balls == []
    {
      this.resolution := resolution;
      position := Zero;
      scale := Vec3(1.0, 1.0, 1.0);
      isolation := 0.0;
      balls := [];
    }

    /** Sets the object's position and scale to cover the grid volume. */
    method Place(g: GridFrame)
      modifies this
      ensures position == EffectPosition(g) && scale == EffectScale(g)
      ensures isolation == old(isolation) && balls == old(balls)
    {
      position := Add(g.min, Scale(g.size, 0.5));
      scale := Scale(g.size, 0.5);
    }

    /** `reset()`: removes every ball. */
    method Reset()
      modifies this
      ensures balls == []
      ensures position == old(position) && scale == old(scale) && isolation == old(isolation)
    {
      balls := [];
    }

    /** `addBall(x, y, z, strength, subtract)`. */
    method AddBall(pos: Vec3, strength: real, subtract: real)
      modifies this
      ensures balls == old(balls) + [Ball(pos, strength, subtract)]
      ensures position == old(position) && scale == old(scale) && isolation == old(isolation)
    {
      balls := balls + [Ball(pos, strength, subtract)];
    }

    /** `isolation = level`. */
    method SetIsolation(level: real)
      modifies this
      ensures isolation == level
      ensures position == old(position) && scale == old(scale) && balls == old(balls)
    {
      isolation := level;
    }
  }
}
