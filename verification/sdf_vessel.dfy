/** `generateVesselGeometry`: metaballs along every vessel centerline, plus, when a clot is
    configured, a dense block of clot balls filling the vessel's cross-section, all added to
    one marching-cubes field. */
module SdfVessel {
  import opened Numerics
  import opened Geometry
  import opened SdfField

  // ---------------------------------------------------------------------------
  // Balls along a centerline

  /** `Math.ceil(length * 20)`: the number of sampling steps along a path. */
  function SampleSteps(c: Curve): (n: nat)
    ensures n >= 1
    ensures c.length * 20.0 <= n as real < c.length * 20.0 + 1.0
  {
    Ceil(c.length * 20.0)
  }

  /** The parameter of sample `i` out of `steps`. */
  function SampleT(steps: nat, i: nat): real
    requires steps > 0
  {
    i as real / steps as real
  }

  /** The samples span the whole path: they start at 0, end at 1, stay within `[0, 1]` and
      move strictly forward. */
  lemma SampleTSpan(steps: nat, i: nat, j: nat)
    requires steps > 0 && i < j <= steps
    ensures SampleT(steps, 0) == 0.0 && SampleT(steps, steps) == 1.0
    ensures 0.0 <= SampleT(steps, i) < SampleT(steps, j) <= 1.0
  {
    var n := steps as real;
    DivStrict(i as real, j as real, n);
    if j < steps {
      DivStrict(j as real, n, n);
    }
  }

  lemma DivStrict(a: real, b: real, n: real)
    requires n > 0.0 && a < b
    ensures a / n < b / n
  {
    assert (b - a) / n > 0.0;
    assert b / n - a / n == (b - a) / n;
  }

  /** The balls of one path: one per sample, at the sample's grid position, with the
      influence of the path's radius. */
  function PathBalls(g: GridFrame, vp: VesselPath): (bs: seq<Ball>)
    requires ValidFrame(g)
    ensures |bs| == SampleSteps(vp.path) + 1
  {
    var n := SampleSteps(vp.path);
    seq(n + 1, i requires 0 <= i <= n =>
      Ball(WorldToGrid(g, vp.path.point(SampleT(n, i))), Influence(g, vp.radius), Subtract))
  }

  /** Each path contributes `ceil(20 * length) + 1` balls, the first at its start point and the
      last at its end point, every one with the influence of the path's radius. */
  lemma PathBallsCover(g: GridFrame, vp: VesselPath)
    requires ValidFrame(g)
    ensures var bs := PathBalls(g, vp);
      && |bs| == Ceil(vp.path.length * 20.0) + 1
      && bs[0].pos == WorldToGrid(g, vp.path.point(0.0))
      && bs[|bs| - 1].pos == WorldToGrid(g, vp.path.point(1.0))
      && forall k :: 0 <= k < |bs| ==> bs[k].strength == Influence(g, vp.radius) && bs[k].subtract == Subtract
  {
    var n := SampleSteps(vp.path);
    SampleTSpan(n, 0, n);
  }

  /** The balls of all paths, path by path. */
  function VesselBalls(g: GridFrame, paths: seq<VesselPath>): seq<Ball>
    requires ValidFrame(g)
  {
    if |paths| == 0 then [] else VesselBalls(g, paths[..|paths| - 1]) + PathBalls(g, paths[|paths| - 1])
  }

  /** The total number of centerline samples. */
  function TotalSamples(paths: seq<VesselPath>): nat {
    if |paths| == 0 then 0 else TotalSamples(paths[..|paths| - 1]) + SampleSteps(paths[|paths| - 1].path) + 1
  }

  lemma {:induction false} VesselBallsCount(g: GridFrame, paths: seq<VesselPath>)
    requires ValidFrame(g)
    ensures |VesselBalls(g, paths)| == TotalSamples(paths)
  {
    if |paths| > 0 {
      VesselBallsCount(g, paths[..|paths| - 1]);
    }
  }

  // ---------------------------------------------------------------------------
  // The clot block inside the vessel

  /** `ClotConfig`: the path and parameter of the clot, the vessel radius there and an
      optional length. */
  datatype ClotConfig = ClotConfig(path: Curve, tPosition: real, vesselRadius: real, length: Option<real>)

  /** `clot.length ?? clot.vesselRadius * 2`. */
  function ClotLength(c: ClotConfig): real {
    match c.length
    case Some(l) => l
    case None => c.vesselRadius * 2.0
  }

  const ClotSlices: nat := 5
  const ClotRings: nat := 4

  /** The cross-section axes at the clot. */
  datatype Axes = Axes(right: Vec3, forward: Vec3)

  /** The up vector switches to the x axis when the tangent is almost vertical. */
  function ClotAxes(tangent: Vec3, sqrt: Root): Axes {
    var d := Dot(tangent, UnitY);
    var up := if (if d < 0.0 then -d else d) > 0.99 then UnitX else UnitY;
    var right := Normalize(Cross(tangent, up), sqrt);
    Axes(right, Normalize(Cross(right, tangent), sqrt))
  }

  /** The axial position of slice `s`, as a fraction of the clot length: `s / 4 - 0.5`. */
  function SliceT(s: nat): real { s as real / (ClotSlices - 1) as real - 0.5 }

  /** The slices sit at `-0.5, -0.25, 0, 0.25, 0.5` clot lengths along the tangent. */
  lemma SliceOffsets()
    ensures SliceT(0) == -0.5 && SliceT(1) == -0.25 && SliceT(2) == 0.0 && SliceT(3) == 0.25 && SliceT(4) == 0.5
  {}

  function SliceCenter(c: ClotConfig, s: nat): Vec3 {
    Add(c.path.point(c.tPosition), Scale(c.path.tangent(c.tPosition), ClotLength(c) * SliceT(s)))
  }

  /** The radius of ring `ring`: a quarter of 0.95 vessel radii per ring. */
  function RingRadius(vesselRadius: real, ring: nat): real {
    ring as real / ClotRings as real * vesselRadius * 0.95
  }

  /** The outermost ring sits at 0.95 vessel radii and every ring inside it: the block stays
      within the vessel wall. */
  lemma RingRadiusBound(vesselRadius: real, ring: nat)
    requires vesselRadius >= 0.0 && 1 <= ring <= ClotRings
    ensures 0.0 < RingRadius(vesselRadius, ring) <= vesselRadius * 0.95 || vesselRadius == 0.0
    ensures RingRadius(vesselRadius, ClotRings) == vesselRadius * 0.95
  {
    var f := ring as real / 4.0;
    assert 0.0 < f <= 1.0;
    MulMonotone(vesselRadius * 0.95, f, 1.0);
    if vesselRadius > 0.0 {
      MulStrict(vesselRadius * 0.95, 0.0, f);
    }
  }

  /** The number of balls on ring `ring`. */
  function RingSize(ring: nat): nat { 6 + ring * 2 }

  /** The radius of every clot ball. */
  function ClotBallRadius(c: ClotConfig): real { c.vesselRadius * 0.4 }

  /** Ball `i` of ring `ring` in slice `s`. */
  function RingBall(g: GridFrame, c: ClotConfig, m: MathFns, s: nat, ring: nat, i: nat): Ball
    requires ValidFrame(g)
  {
    var axes := ClotAxes(c.path.tangent(c.tPosition), m.sqrt);
    var offset := RadialOffset(axes, m, RingAngle(s, ring, i), RingRadius(c.vesselRadius, ring));
    Ball(WorldToGrid(g, Add(SliceCenter(c, s), offset)), Influence(g, ClotBallRadius(c)), Subtract)
  }

  /** The angle of ball `i` on ring `ring` of slice `s`: evenly spaced, each slice turned by 0.3. */
  function RingAngle(s: nat, ring: nat, i: nat): real {
    i as real / RingSize(ring) as real * PI * 2.0 + s as real * 0.3
  }

  /** The offset `cos(angle) * r` along `right` plus `sin(angle) * r` along `forward`. */
  function RadialOffset(axes: Axes, m: MathFns, angle: real, r: real): Vec3 {
    Add(Scale(axes.right, m.cos(angle) * r), Scale(axes.forward, m.sin(angle) * r))
  }

  function Ring(g: GridFrame, c: ClotConfig, m: MathFns, s: nat, ring: nat): (bs: seq<Ball>)
    requires ValidFrame(g)
    ensures |bs| == RingSize(ring)
  {
    seq(RingSize(ring), i requires 0 <= i => RingBall(g, c, m, s, ring, i))
  }

  /** Rings `1..n` of slice `s`. */
  function Rings(g: GridFrame, c: ClotConfig, m: MathFns, s: nat, n: nat): (bs: seq<Ball>)
    requires ValidFrame(g)
  {
    if n == 0 then [] else Rings(g, c, m, s, n - 1) + Ring(g, c, m, s, n)
  }

  lemma {:induction false} RingsCount(g: GridFrame, c: ClotConfig, m: MathFns, s: nat, n: nat)
    requires ValidFrame(g)
    ensures |Rings(g, c, m, s, n)| == 6 * n + n * (n + 1)
  {
    if n > 0 {
      RingsCount(g, c, m, s, n - 1);
    }
  }

  /** The large ball at the center of slice `s`: one and a half ball radii. */
  function CenterBall(g: GridFrame, c: ClotConfig, s: nat): Ball
    requires ValidFrame(g)
  {
    Ball(WorldToGrid(g, SliceCenter(c, s)), Influence(g, ClotBallRadius(c) * 1.5), Subtract)
  }

  function Slice(g: GridFrame, c: ClotConfig, m: MathFns, s: nat): seq<Ball>
    requires ValidFrame(g)
  {
    [CenterBall(g, c, s)] + Rings(g, c, m, s, ClotRings)
  }

  /** Slices `0..n-1`. */
  function Slices(g: GridFrame, c: ClotConfig, m: MathFns, n: nat): seq<Ball>
    requires ValidFrame(g)
  {
    if n == 0 then [] else Slices(g, c, m, n - 1) + Slice(g, c, m, n - 1)
  }

  /** The clot balls, or none without a clot configuration. */
  function ClotBalls(g: GridFrame, clot: Option<ClotConfig>, m: MathFns): seq<Ball>
    requires ValidFrame(g)
  {
    match clot
    case None => []
    case Some(c) => Slices(g, c, m, ClotSlices)
  }

  /** A configured clot adds exactly 5 * (1 + 8 + 10 + 12 + 14) = 225 balls, none otherwise. */
  lemma {:induction false} ClotBallsCount(g: GridFrame, clot: Option<ClotConfig>, m: MathFns)
    requires ValidFrame(g)
    ensures |ClotBalls(g, clot, m)| == if clot.Some? then 225 else 0
  {
    if clot.Some? {
      var c := clot.value;
      forall s | 0 <= s < ClotSlices ensures |Slice(g, c, m, s)| == 45 {
        RingsCount(g, c, m, s, ClotRings);
      }
      assert |Slices(g, c, m, 1)| == 45;
      assert |Slices(g, c, m, 2)| == 90;
      assert |Slices(g, c, m, 3)| == 135;
      assert |Slices(g, c, m, 4)| == 180;
      assert |Slices(g, c, m, 5)| == 225;
    }
  }

  // ---------------------------------------------------------------------------
  // The generator

  /** The innermost loop: the balls of one ring. */
  method AddRing(field: MarchingField, g: GridFrame, c: ClotConfig, m: MathFns, s: nat, ring: nat)
    requires ValidFrame(g)
    modifies field
    ensures field.balls == old(field.balls) + Ring(g, c, m, s, ring)
    ensures field.position == old(field.position) && field.scale == old(field.scale)
    ensures field.isolation == old(field.isolation)
  {
    var axes := ClotAxes(c.path.tangent(c.tPosition), m.sqrt);
    var sliceCenter := SliceCenter(c, s);
    var ringRadius := RingRadius(c.vesselRadius, ring);
    var numBalls := RingSize(ring);
    ghost var full := Ring(g, c, m, s, ring);
    var i := 0;
    while i < numBalls
      invariant 0 <= i <= numBalls
      invariant field.balls == old(field.balls) + full[..i]
      invariant field.position == old(field.position) && field.scale == old(field.scale)
      invariant field.isolation == old(field.isolation)
    {
      var ballPos := Add(sliceCenter, RadialOffset(axes, m, RingAngle(s, ring, i), ringRadius));
      field.AddBall(WorldToGrid(g, ballPos), Influence(g, ClotBallRadius(c)), Subtract);
      PrefixNext(old(field.balls), full, i);
      i := i + 1;
    }
    assert full[..i] == full;
  }

  /** One slice: its center ball, then rings 1 to 4. */
  method AddSlice(field: MarchingField, g: GridFrame, c: ClotConfig, m: MathFns, s: nat)
    requires ValidFrame(g)
    modifies field
    ensures field.balls == old(field.balls) + Slice(g, c, m, s)
    ensures field.position == old(field.position) && field.scale == old(field.scale)
    ensures field.isolation == old(field.isolation)
  {
    field.AddBall(WorldToGrid(g, SliceCenter(c, s)), Influence(g, ClotBallRadius(c) * 1.5), Subtract);
    ghost var sliceStart := old(field.balls) + [CenterBall(g, c, s)];
    var ring := 1;
    while ring <= ClotRings
      invariant 1 <= ring <= ClotRings + 1
      invariant field.balls == sliceStart + Rings(g, c, m, s, ring - 1)
      invariant field.position == old(field.position) && field.scale == old(field.scale)
      invariant field.isolation == old(field.isolation)
    {
      AddRing(field, g, c, m, s, ring);
      AppendRing(sliceStart, g, c, m, s, ring);
      ring := ring + 1;
    }
    assert sliceStart + Rings(g, c, m, s, ClotRings) == old(field.balls) + Slice(g, c, m, s);
  }

  lemma AppendRing(a: seq<Ball>, g: GridFrame, c: ClotConfig, m: MathFns, s: nat, ring: nat)
    requires ValidFrame(g) && ring >= 1
    ensures a + Rings(g, c, m, s, ring - 1) + Ring(g, c, m, s, ring) == a + Rings(g, c, m, s, ring)
  {}

  /** Adds the clot block with the source's slice, ring and ball loops. */
  method AddClotBlock(field: MarchingField, g: GridFrame, c: ClotConfig, m: MathFns)
    requires ValidFrame(g)
    modifies field
    ensures field.balls == old(field.balls) + Slices(g, c, m, ClotSlices)
    ensures field.position == old(field.position) && field.scale == old(field.scale)
    ensures field.isolation == old(field.isolation)
  {
    var s := 0;
    while s < ClotSlices
      invariant 0 <= s <= ClotSlices
      invariant field.balls == old(field.balls) + Slices(g, c, m, s)
      invariant field.position == old(field.position) && field.scale == old(field.scale)
      invariant field.isolation == old(field.isolation)
    {
      AddSlice(field, g, c, m, s);
      s := s + 1;
    }
  }

  /** One path's loop: a ball at each of its centerline samples, in order. */
  method AddPath(field: MarchingField, g: GridFrame, vp: VesselPath)
    requires ValidFrame(g)
    modifies field
    ensures field.balls == old(field.balls) + PathBalls(g, vp)
    ensures field.position == old(field.position) && field.scale == old(field.scale)
    ensures field.isolation == old(field.isolation)
  {
    var steps := SampleSteps(vp.path);
    ghost var full := PathBalls(g, vp);
    var i := 0;
    while i <= steps
      invariant 0 <= i <= steps + 1
      invariant field.balls == old(field.balls) + full[..i]
      invariant field.position == old(field.position) && field.scale == old(field.scale)
      invariant field.isolation == old(field.isolation)
    {
      var t := SampleT(steps, i);
      field.AddBall(WorldToGrid(g, vp.path.point(t)), Influence(g, vp.radius), Subtract);
      PrefixNext(old(field.balls), full, i);
      i := i + 1;
    }
    assert full[..i] == full;
  }

  /** The loop over the paths, starting from an empty field. */
  method AddVesselPaths(field: MarchingField, g: GridFrame, paths: seq<VesselPath>)
    requires ValidFrame(g) && field.balls == []
    modifies field
    ensures field.balls == VesselBalls(g, paths)
    ensures field.position == old(field.position) && field.scale == old(field.scale)
    ensures field.isolation == old(field.isolation)
  {
    var p := 0;
    while p < |paths|
      invariant 0 <= p <= |paths|
      invariant field.balls == VesselBalls(g, paths[..p])
      invariant field.position == old(field.position) && field.scale == old(field.scale)
      invariant field.isolation == old(field.isolation)
    {
      AddPath(field, g, paths[p]);
      assert paths[..p + 1][..p] == paths[..p];
      p := p + 1;
    }
    assert paths[..p] == paths;
  }

  /** The whole vessel field: positioned over the padded volume, every path's balls in path
      order, then the clot block, at iso level 80. With no paths the model places no ball,
      where the source's infinite bounds give NaN grid coordinates. */
  method GenerateVessel(paths: seq<VesselPath>, clot: Option<ClotConfig>, m: MathFns) returns (field: MarchingField)
    ensures fresh(field) && field.resolution == Resolution && field.isolation == Isolation
    ensures |paths| == 0 ==> field.balls == []
    ensures |paths| > 0 ==>
      var g := Pad(BoundsOf(SampledPoints(paths)).value);
      && ValidFrame(g)
      && field.position == EffectPosition(g) && field.scale == EffectScale(g)
      && field.balls == VesselBalls(g, paths) + ClotBalls(g, clot, m)
      && |field.balls| == TotalSamples(paths) + (if clot.Some? then 225 else 0)
  {
    field := new MarchingField(Resolution);
    var box := ComputeBounds(paths);
    if box.None? {
      field.SetIsolation(Isolation);
      return;
    }
    var g := Pad(box.value);
    PaddedFrame(paths);
    field.Place(g);
    field.Reset();
    AddVesselPaths(field, g, paths);
    if clot.Some? {
      AddClotBlock(field, g, clot.value, m);
    }
    field.SetIsolation(Isolation);
    VesselBallsCount(g, paths);
    ClotBallsCount(g, clot, m);
  }
}
