/** The catheter tube (`Catheter`): the point list it sweeps a tube along, sampled backward
    from the tip to the start of the catheter path and then extended straight past the start. */
module CatheterTube {
  import opened Numerics
  import opened Geometry
  import opened ClotLifecycle

  /** Number of samples between the tip and the path start. */
  const PathSegments: nat := 60
  /** Number of points of the straight extension, and its length. */
  const ExtensionSegments: nat := 40
  const ExtensionLength: real := 15.0

  /** The curve parameter of backward sample `i`: `t * (1 - i / 59)`. */
  function SegmentT(t: real, i: nat): real {
    t * (1.0 - i as real / (PathSegments - 1) as real)
  }

  /** The backward samples start at the tip, end at the path start, and never move forward;
      for a tip parameter in `[0, 1]` they stay within `[0, t]`, so the `max(0, ...)` guard
      never changes them. */
  lemma SegmentTSchedule(t: real, i: nat, j: nat)
    requires 0.0 <= t && i <= j < PathSegments
    ensures SegmentT(t, 0) == t && SegmentT(t, PathSegments - 1) == 0.0
    ensures SegmentT(t, j) <= SegmentT(t, i)
    ensures 0.0 <= SegmentT(t, j) <= t
  {
    var fi := 1.0 - i as real / 59.0;
    var fj := 1.0 - j as real / 59.0;
    assert 0.0 <= fj <= fi <= 1.0;
    assert SegmentT(t, i) == t * fi && SegmentT(t, j) == t * fj;
    MulMonotone(t, fj, fi);
    FractionBounds(t, fj);
  }

  /** The point of the straight extension `i` steps past the start: the start point moved
      back along the normalized start tangent by `i / 40 * 15`. */
  function ExtensionPoint(path: Curve, sqrt: Root, i: nat): Vec3 {
    var startTangent := Normalize(path.tangent(0.0), sqrt);
    Sub(path.point(0.0), Scale(startTangent, i as real / ExtensionSegments as real * ExtensionLength))
  }

  /** Consecutive extension points are a fixed 0.375 apart along the start tangent, and the
      first one is 0.375 behind the start point. */
  lemma ExtensionSpacing(path: Curve, sqrt: Root, i: nat)
    ensures var nt := Normalize(path.tangent(0.0), sqrt);
      && ExtensionPoint(path, sqrt, i + 1) == Sub(ExtensionPoint(path, sqrt, i), Scale(nt, 0.375))
      && ExtensionPoint(path, sqrt, 0) == path.point(0.0)
  {
    var nt := Normalize(path.tangent(0.0), sqrt);
    var a := i as real / 40.0 * 15.0;
    assert (i + 1) as real / 40.0 * 15.0 == a + 0.375;
    StepBack(path.point(0.0), nt, a, 0.375);
    assert Scale(nt, 0.0) == Vec3(0.0, 0.0, 0.0);
  }

  /** Stepping back by `a` and then by `b` is stepping back by `a + b`. */
  lemma StepBack(p: Vec3, v: Vec3, a: real, b: real)
    ensures Sub(Sub(p, Scale(v, a)), Scale(v, b)) == Sub(p, Scale(v, a + b))
  {
    assert v.x * (a + b) == v.x * a + v.x * b;
    assert v.y * (a + b) == v.y * a + v.y * b;
    assert v.z * (a + b) == v.z * a + v.z * b;
  }

  /** The tube's point list for a catheter path and scroll progress. */
  ghost predicate IsTube(path: Curve, progress: real, sqrt: Root, points: seq<Vec3>) {
    && |points| == PathSegments + ExtensionSegments
    && (forall i :: 0 <= i < PathSegments ==> points[i] == path.point(Max(0.0, SegmentT(TipParam(progress), i))))
    && (forall i :: 1 <= i <= ExtensionSegments ==> points[PathSegments - 1 + i] == ExtensionPoint(path, sqrt, i))
  }

  /** The catheter's geometry: the tip position and direction, and the tube's points when
      there are enough of them to build a curve. */
  datatype CatheterShape = CatheterShape(position: Vec3, tangent: Vec3, tube: Option<seq<Vec3>>)

  /** The first loop: 60 samples from the tip back to the start of the path. */
  method BackwardSamples(path: Curve, t: real) returns (points: seq<Vec3>)
    ensures |points| == PathSegments
    ensures forall k :: 0 <= k < PathSegments ==> points[k] == path.point(Max(0.0, SegmentT(t, k)))
  {
    points := [];
    var i := 0;
    while i < PathSegments
      invariant 0 <= i <= PathSegments
      invariant |points| == i
      invariant forall k :: 0 <= k < i ==> points[k] == path.point(Max(0.0, SegmentT(t, k)))
    {
      var segmentT := t * (1.0 - i as real / (PathSegments - 1) as real);
      assert segmentT == SegmentT(t, i);
      points := points + [path.point(Max(0.0, segmentT))];
      i := i + 1;
    }
  }

  /** The second loop: 40 points continuing straight back from the start of the path. */
  method Extension(path: Curve, sqrt: Root, samples: seq<Vec3>) returns (points: seq<Vec3>)
    requires |samples| == PathSegments
    ensures |points| == PathSegments + ExtensionSegments
    ensures points[..PathSegments] == samples
    ensures forall k :: 1 <= k <= ExtensionSegments ==> points[PathSegments - 1 + k] == ExtensionPoint(path, sqrt, k)
  {
    points := samples;
    var startPoint := path.point(0.0);
    var startTangent := Normalize(path.tangent(0.0), sqrt);
    var j := 1;
    while j <= ExtensionSegments
      invariant 1 <= j <= ExtensionSegments + 1
      invariant |points| == PathSegments + j - 1
      invariant points[..PathSegments] == samples
      invariant forall k :: 1 <= k < j ==> points[PathSegments - 1 + k] == ExtensionPoint(path, sqrt, k)
    {
      var extendDist := j as real / ExtensionSegments as real * ExtensionLength;
      points := points + [Sub(startPoint, Scale(startTangent, extendDist))];
      j := j + 1;
    }
  }

  /** Builds the point list with the source's two loops. The list always has 100 points, so
      the fewer-than-two-points guard never fires and the tube is always built; the first
      point is the tip and the last sample on the path is its start. */
  method Catheter(path: Curve, progress: real, sqrt: Root) returns (shape: CatheterShape)
    ensures shape.position == path.point(TipParam(progress))
    ensures shape.tangent == Normalize(path.tangent(TipParam(progress)), sqrt)
    ensures shape.tube.Some? && IsTube(path, progress, sqrt, shape.tube.value)
    ensures |shape.tube.value| == 100
    ensures shape.tube.value[0] == shape.position
    ensures shape.tube.value[PathSegments - 1] == path.point(0.0)
  {
    var t := TipParam(progress);
    var pos := path.point(t);
    var tang := Normalize(path.tangent(t), sqrt);
    var samples := BackwardSamples(path, t);
    var points := Extension(path, sqrt, samples);
    assert forall k :: 0 <= k < PathSegments ==> points[k] == samples[k];
    SegmentTSchedule(t, 0, PathSegments - 1);
    if |points| < 2 {
      shape := CatheterShape(pos, tang, None);
    } else {
      shape := CatheterShape(pos, tang, Some(points));
    }
  }
}
