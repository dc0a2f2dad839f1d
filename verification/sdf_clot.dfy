/** `generateClotGeometryForVessel`: the clot as its own metaball field over the same padded
    volume as the vessels, built from eight slices along the clot's path, each filled with a
    center ball and three rings, and roughened with a seeded number of surface bumps. */
module SdfClot {
  import opened Numerics
  import opened Geometry
  import opened SdfField

  /** `seededRandom`: the fractional part of `sin(seed * 12.9898 + 78.233) * 43758.5453`.
      It depends on the seed alone and lies in `[0, 1)`. */
  function SeededRandom(sin: Wave, seed: real): (r: real)
    ensures 0.0 <= r < 1.0
  {
    Fract(sin(seed * 12.9898 + 78.233) * 43758.5453)
  }

  const Slices: nat := 8
  const Rings: nat := 3

  /** The default clot length when the caller gives none. */
  const DefaultClotLength: real := 0.3

  /** The clot's drawn radius: the given radius scaled by 1.8 and then by 0.7. */
  function VisualRadius(clotRadius: real): real { clotRadius * 1.8 * 0.7 }

  lemma VisualRadiusValue(clotRadius: real)
    ensures VisualRadius(clotRadius) == 1.26 * clotRadius
  {}

  /** What one generator call is given besides the vessel paths. */
  datatype ClotRequest = ClotRequest(path: Curve, tPosition: real, clotRadius: real, clotLength: Option<real>)

  function Length(r: ClotRequest): real {
    match r.clotLength
    case Some(l) => l
    case None => DefaultClotLength
  }

  /** The parameter of slice `i` before clamping: the slices spread evenly over the clot's
      length, converted to a parameter range by the path's length. */
  function SliceParam(r: ClotRequest, i: nat): real {
    var tRange := Length(r) / r.path.length;
    r.tPosition - tRange / 2.0 + i as real / (Slices - 1) as real * tRange
  }

  /** The parameter slice `i` is sampled at, kept away from the path's ends. */
  function SampleT(r: ClotRequest, i: nat): (t: real)
    ensures 0.01 <= t <= 0.99
  {
    Clamp(SliceParam(r, i), 0.01, 0.99)
  }

  /** The cross-section axes of a slice: the up vector switches to the x axis when the
      tangent is close to vertical. */
  datatype Axes = Axes(right: Vec3, forward: Vec3)

  function SliceAxes(tangent: Vec3, sqrt: Root): Axes {
    var d := Dot(tangent, UnitY);
    var up := if (if d < 0.0 then -d else d) > 0.9 then UnitX else UnitY;
    var right := Normalize(Cross(up, tangent), sqrt);
    Axes(right, Normalize(Cross(tangent, right), sqrt))
  }

  /** The offset `cos(angle) * dist` along `right` plus `sin(angle) * dist` along `forward`. */
  function RadialOffset(axes: Axes, m: MathFns, angle: real, dist: real): Vec3 {
    Add(Scale(axes.right, m.cos(angle) * dist), Scale(axes.forward, m.sin(angle) * dist))
  }

  /** Where slice `i` sits and how it is oriented. */
  datatype SliceBase = SliceBase(point: Vec3, axes: Axes)

  function Base(r: ClotRequest, m: MathFns, i: nat): SliceBase {
    var t := SampleT(r, i);
    SliceBase(r.path.point(t), SliceAxes(Normalize(r.path.tangent(t), m.sqrt), m.sqrt))
  }

  /** The slice's center ball. */
  function CenterBall(g: GridFrame, r: ClotRequest, m: MathFns, i: nat): Ball
    requires ValidFrame(g)
  {
    Ball(WorldToGrid(g, Base(r, m, i).point), Influence(g, VisualRadius(r.clotRadius) * 0.5) * 1.3, Subtract)
  }

  /** Ring sizes and ball sizes: ring `k` carries `6 + 3k` balls of `visualRadius * (0.35 - 0.05k)`. */
  function RingSize(ring: nat): nat { 6 + ring * 3 }
  function RingBallSize(vr: real, ring: nat): real { vr * (0.35 - ring as real * 0.05) }

  /** Ring balls are positive in size and shrink outward, from 0.3 to 0.2 visual radii. */
  lemma RingBallSizes(vr: real, ring: nat)
    requires vr > 0.0 && 1 <= ring <= Rings
    ensures 0.0 < RingBallSize(vr, ring) <= RingBallSize(vr, 1)
    ensures RingBallSize(vr, Rings) == vr * 0.2 && RingBallSize(vr, 1) == vr * 0.3
  {
    var f := 0.35 - ring as real * 0.05;
    assert 0.2 <= f <= 0.3;
    assert RingBallSize(vr, ring) == vr * f;
    assert RingBallSize(vr, 1) == vr * 0.3;
    MulStrict(vr, 0.0, f);
    MulMonotone(vr, f, 0.3);
  }

  /** The seed of ball `j` on ring `ring` of slice `i`. */
  function RingSeed(i: nat, ring: nat, j: nat): real { (i * 1000 + ring * 100 + j) as real }

  /** Ball `j` of ring `ring` in slice `i`: evenly spaced with a seeded jitter of up to 0.2
      radians, each slice turned by 0.3, at the ring's radius give or take 15%. */
  function RingBall(g: GridFrame, r: ClotRequest, m: MathFns, i: nat, ring: nat, j: nat): Ball
    requires ValidFrame(g)
  {
    var vr := VisualRadius(r.clotRadius);
    var b := Base(r, m, i);
    var seed := RingSeed(i, ring, j);
    var angleVariation := (SeededRandom(m.sin, seed) - 0.5) * 0.4;
    var radiusVariation := 1.0 + (SeededRandom(m.sin, seed + 1.0) - 0.5) * 0.3;
    var angle := j as real / RingSize(ring) as real * PI * 2.0 + angleVariation + i as real * 0.3;
    var dist := ring as real / Rings as real * vr * radiusVariation;
    Ball(WorldToGrid(g, Add(b.point, RadialOffset(b.axes, m, angle, dist))), Influence(g, RingBallSize(vr, ring)), Subtract)
  }

  /** The jitter factors stay within their stated spread: the angle moves by less than 0.2
      radians either way and the distance by less than 15%. */
  lemma RingJitterBounds(sin: Wave, seed: real)
    ensures -0.2 <= (SeededRandom(sin, seed) - 0.5) * 0.4 < 0.2
    ensures 0.85 <= 1.0 + (SeededRandom(sin, seed + 1.0) - 0.5) * 0.3 < 1.15
  {}

  function Ring(g: GridFrame, r: ClotRequest, m: MathFns, i: nat, ring: nat): (bs: seq<Ball>)
    requires ValidFrame(g)
    ensures |bs| == RingSize(ring)
  {
    seq(RingSize(ring), j requires 0 <= j => RingBall(g, r, m, i, ring, j))
  }

  /** Rings `1..n` of slice `i`. */
  function RingsUpTo(g: GridFrame, r: ClotRequest, m: MathFns, i: nat, n: nat): (bs: seq<Ball>)
    requires ValidFrame(g)
  {
    if n == 0 then [] else RingsUpTo(g, r, m, i, n - 1) + Ring(g, r, m, i, n)
  }

  lemma {:induction false} RingsUpToCount(g: GridFrame, r: ClotRequest, m: MathFns, i: nat, n: nat)
    requires ValidFrame(g)
    ensures 2 * |RingsUpTo(g, r, m, i, n)| == 12 * n + 3 * n * (n + 1)
  {
    if n > 0 {
      RingsUpToCount(g, r, m, i, n - 1);
    }
  }

  /** The number of surface bumps of slice `i`: 6 plus a seeded 0, 1 or 2. */
  function BumpCount(sin: Wave, i: nat): (n: nat)
    ensures 6 <= n <= 8
  {
    var x := SeededRandom(sin, (i * 500) as real) * 3.0;
    assert 0.0 <= x < 3.0;
    6 + Floor(x)
  }

  /** Bump `j` of slice `i`: spread evenly with a seeded turn of up to half a radian, at half
      to three quarters of the visual radius, with a size of a tenth to 0.18 of it. */
  function BumpBall(g: GridFrame, r: ClotRequest, m: MathFns, i: nat, j: nat): Ball
    requires ValidFrame(g)
  {
    var vr := VisualRadius(r.clotRadius);
    var b := Base(r, m, i);
    var seed := (i * 2000 + j) as real;
    var angle := j as real / BumpCount(m.sin, i) as real * PI * 2.0 + SeededRandom(m.sin, seed) * 0.5;
    var bumpDist := vr * (0.5 + SeededRandom(m.sin, seed + 1.0) * 0.25);
    var bumpSize := vr * (0.1 + SeededRandom(m.sin, seed + 2.0) * 0.08);
    Ball(WorldToGrid(g, Add(b.point, RadialOffset(b.axes, m, angle, bumpDist))), Influence(g, bumpSize), Subtract)
  }

  /** Bump distances and sizes stay within their stated fractions of the visual radius. */
  lemma BumpBounds(sin: Wave, vr: real, seed: real)
    requires vr > 0.0
    ensures var d := vr * (0.5 + SeededRandom(sin, seed + 1.0) * 0.25);
            vr * 0.5 <= d < vr * 0.75
    ensures var s := vr * (0.1 + SeededRandom(sin, seed + 2.0) * 0.08);
            vr * 0.1 <= s < vr * 0.18
  {
    var fd := 0.5 + SeededRandom(sin, seed + 1.0) * 0.25;
    var fs := 0.1 + SeededRandom(sin, seed + 2.0) * 0.08;
    MulMonotone(vr, 0.5, fd);
    MulStrict(vr, fd, 0.75);
    MulMonotone(vr, 0.1, fs);
    MulStrict(vr, fs, 0.18);
  }

  function Bumps(g: GridFrame, r: ClotRequest, m: MathFns, i: nat): (bs: seq<Ball>)
    requires ValidFrame(g)
    ensures |bs| == BumpCount(m.sin, i)
  {
    seq(BumpCount(m.sin, i), j requires 0 <= j => BumpBall(g, r, m, i, j))
  }

  /** Everything slice `i` adds, in the source's order. */
  function Slice(g: GridFrame, r: ClotRequest, m: MathFns, i: nat): seq<Ball>
    requires ValidFrame(g)
  {
    [CenterBall(g, r, m, i)] + RingsUpTo(g, r, m, i, Rings) + Bumps(g, r, m, i)
  }

  /** Each slice adds 37 ring balls and 6 to 8 bumps. */
  lemma SliceCount(g: GridFrame, r: ClotRequest, m: MathFns, i: nat)
    requires ValidFrame(g)
    ensures |Slice(g, r, m, i)| == 37 + BumpCount(m.sin, i)
    ensures 43 <= |Slice(g, r, m, i)| <= 45
  {
    RingsUpToCount(g, r, m, i, Rings);
  }

  /** Slices `0..n-1`. */
  function SlicesUpTo(g: GridFrame, r: ClotRequest, m: MathFns, n: nat): seq<Ball>
    requires ValidFrame(g)
  {
    if n == 0 then [] else SlicesUpTo(g, r, m, n - 1) + Slice(g, r, m, n - 1)
  }

  /** `n` slices add between 43 and 45 balls each. */
  lemma {:induction false} SlicesUpToCount(g: GridFrame, r: ClotRequest, m: MathFns, n: nat)
    requires ValidFrame(g)
    ensures 43 * n <= |SlicesUpTo(g, r, m, n)| <= 45 * n
  {
    if n > 0 {
      SlicesUpToCount(g, r, m, n - 1);
      SliceStep(g, r, m, n);
    }
  }

  /** The `n`-th slice grows the list by 43 to 45 balls. */
  lemma SliceStep(g: GridFrame, r: ClotRequest, m: MathFns, n: nat)
    requires ValidFrame(g) && n > 0
    ensures 43 <= |SlicesUpTo(g, r, m, n)| - |SlicesUpTo(g, r, m, n - 1)| <= 45
  {
    SliceCount(g, r, m, n - 1);
  }

  // ---------------------------------------------------------------------------
  // The generator

  /** The ring loop of one slice. */
  method AddRing(field: MarchingField, g: GridFrame, r: ClotRequest, m: MathFns, i: nat, ring: nat)
    requires ValidFrame(g)
    modifies field
    ensures field.balls == old(field.balls) + Ring(g, r, m, i, ring)
    ensures field.position == old(field.position) && field.scale == old(field.scale)
    ensures field.isolation == old(field.isolation)
  {
    var numBalls := RingSize(ring);
    ghost var full := Ring(g, r, m, i, ring);
    var j := 0;
    while j < numBalls
      invariant 0 <= j <= numBalls
      invariant field.balls == old(field.balls) + full[..j]
      invariant field.position == old(field.position) && field.scale == old(field.scale)
      invariant field.isolation == old(field.isolation)
    {
      var b := RingBall(g, r, m, i, ring, j);
      field.AddBall(b.pos, b.strength, Subtract);
      PrefixNext(old(field.balls), full, j);
      j := j + 1;
    }
    assert full[..j] == full;
  }

  /** The bump loop of one slice. */
  method AddBumps(field: MarchingField, g: GridFrame, r: ClotRequest, m: MathFns, i: nat)
    requires ValidFrame(g)
    modifies field
    ensures field.balls == old(field.balls) + Bumps(g, r, m, i)
    ensures field.position == old(field.position) && field.scale == old(field.scale)
    ensures field.isolation == old(field.isolation)
  {
    var numEdgeBumps := BumpCount(m.sin, i);
    ghost var full := Bumps(g, r, m, i);
    var j := 0;
    while j < numEdgeBumps
      invariant 0 <= j <= numEdgeBumps
      invariant field.balls == old(field.balls) + full[..j]
      invariant field.position == old(field.position) && field.scale == old(field.scale)
      invariant field.isolation == old(field.isolation)
    {
      var b := BumpBall(g, r, m, i, j);
      field.AddBall(b.pos, b.strength, Subtract);
      PrefixNext(old(field.balls), full, j);
      j := j + 1;
    }
    assert full[..j] == full;
  }

  lemma AppendRing(a: seq<Ball>, g: GridFrame, r: ClotRequest, m: MathFns, i: nat, ring: nat)
    requires ValidFrame(g) && ring >= 1
    ensures a + RingsUpTo(g, r, m, i, ring - 1) + Ring(g, r, m, i, ring) == a + RingsUpTo(g, r, m, i, ring)
  {}

  /** One slice: center ball, rings 1 to 3, then the bumps. */
  method AddSlice(field: MarchingField, g: GridFrame, r: ClotRequest, m: MathFns, i: nat)
    requires ValidFrame(g)
    modifies field
    ensures field.balls == old(field.balls) + Slice(g, r, m, i)
    ensures field.position == old(field.position) && field.scale == old(field.scale)
    ensures field.isolation == old(field.isolation)
  {
    var center := CenterBall(g, r, m, i);
    field.AddBall(center.pos, center.strength, Subtract);
    ghost var sliceStart := old(field.balls) + [center];
    var ring := 1;
    while ring <= Rings
      invariant 1 <= ring <= Rings + 1
      invariant field.balls == sliceStart + RingsUpTo(g, r, m, i, ring - 1)
      invariant field.position == old(field.position) && field.scale == old(field.scale)
      invariant field.isolation == old(field.isolation)
    {
      AddRing(field, g, r, m, i, ring);
      AppendRing(sliceStart, g, r, m, i, ring);
      ring := ring + 1;
    }
    AddBumps(field, g, r, m, i);
    AppendSlice(old(field.balls), g, r, m, i);
  }

  lemma AppendSlice(a: seq<Ball>, g: GridFrame, r: ClotRequest, m: MathFns, i: nat)
    requires ValidFrame(g)
    ensures a + Slice(g, r, m, i) == a + [CenterBall(g, r, m, i)] + RingsUpTo(g, r, m, i, Rings) + Bumps(g, r, m, i)
  {}

  /** The clot field: positioned over the same padded volume as the vessels, eight slices of
      344 to 360 balls in all, at iso level 80. With no vessel paths the model places no
      ball, where the source's infinite bounds give NaN grid coordinates. */
  method GenerateClot(vesselPaths: seq<VesselPath>, r: ClotRequest, m: MathFns) returns (field: MarchingField)
    ensures fresh(field) && field.resolution == Resolution && field.isolation == Isolation
    ensures |vesselPaths| == 0 ==> field.balls == []
    ensures |vesselPaths| > 0 ==>
      var g := Pad(BoundsOf(SampledPoints(vesselPaths)).value);
      && ValidFrame(g)
      && field.position == EffectPosition(g) && field.scale == EffectScale(g)
      && field.balls == SlicesUpTo(g, r, m, Slices)
      && 344 <= |field.balls| <= 360
  {
    field := new MarchingField(Resolution);
    var box := ComputeBounds(vesselPaths);
    if box.None? {
      field.SetIsolation(Isolation);
      return;
    }
    var g := Pad(box.value);
    PaddedFrame(vesselPaths);
    field.Place(g);
    field.Reset();
    var i := 0;
    while i < Slices
      invariant 0 <= i <= Slices
      invariant field.balls == SlicesUpTo(g, r, m, i)
      invariant field.position == EffectPosition(g) && field.scale == EffectScale(g)
    {
      AddSlice(field, g, r, m, i);
      assert SlicesUpTo(g, r, m, i + 1) == SlicesUpTo(g, r, m, i) + Slice(g, r, m, i);
      i := i + 1;
    }
    field.SetIsolation(Isolation);
    SlicesUpToCount(g, r, m, Slices);
    assert 344 <= |SlicesUpTo(g, r, m, Slices)| <= 360;
  }
}
