/** The 2-D catheter overlay (`CatheterPath`): eleven knots down the vascular drawing, an
    eased interpolation between consecutive knots driven by scroll progress, three trailing
    ghost positions and the moving/at-target flags. */
module CatheterPath {
  import opened Numerics

  /** A knot of the path: a point in the 400x800 drawing and the catheter's rotation there. */
  datatype Knot = Knot(x: real, y: real, rotation: real)

  /** The path from the entry at the top to the treatment zone. */
  const Knots: seq<Knot> := [
    Knot(200.0, 0.0, 0.0),
    Knot(195.0, 80.0, -2.0),
    Knot(185.0, 160.0, -5.0),
    Knot(175.0, 200.0, -15.0),
    Knot(140.0, 240.0, -35.0),
    Knot(100.0, 280.0, -45.0),
    Knot(75.0, 340.0, -30.0),
    Knot(60.0, 400.0, -10.0),
    Knot(55.0, 480.0, -5.0),
    Knot(58.0, 550.0, 0.0),
    Knot(60.0, 590.0, 0.0)
  ]

  /** Index of the last knot. */
  const LastKnot: nat := |Knots| - 1

  /** The progress clamped to `[0, 1]` and scaled to the ten segments. */
  function Segment(t: real): (s: real)
    ensures 0.0 <= s <= 10.0
  {
    Clamp(t, 0.0, 1.0) * (|Knots| - 1) as real
  }

  /** The segment the progress falls in; 10 only at the very end. */
  function SegmentIndex(t: real): (i: int)
    ensures 0 <= i <= LastKnot
    ensures i == LastKnot <==> t >= 1.0
  {
    Floor(Segment(t))
  }

  /** How far through its segment the progress is. */
  function LocalT(t: real): (l: real)
    ensures 0.0 <= l < 1.0
  {
    Segment(t) - SegmentIndex(t) as real
  }

  /** The ease-out curve `1 - (1 - l)^2`. */
  function Ease(l: real): real {
    1.0 - (1.0 - l) * (1.0 - l)
  }

  /** Linear interpolation from `a` to `b`. */
  function Lerp(a: real, b: real, e: real): real {
    a + (b - a) * e
  }

  /** The catheter's position and rotation at scroll progress `t`. */
  function Interpolate(t: real): Knot {
    var i := SegmentIndex(t);
    if i >= LastKnot then Knots[LastKnot]
    else
      var e := Ease(LocalT(t));
      Knot(Lerp(Knots[i].x, Knots[i + 1].x, e),
           Lerp(Knots[i].y, Knots[i + 1].y, e),
           Lerp(Knots[i].rotation, Knots[i + 1].rotation, e))
  }

  /** The ease-out starts at zero, stays in `[0, 1)` on a segment and strictly increases. */
  lemma EaseSchedule(a: real, b: real)
    requires 0.0 <= a < b <= 1.0
    ensures Ease(0.0) == 0.0
    ensures 0.0 <= Ease(a) < 1.0
    ensures Ease(a) < Ease(b)
  {
    SquareLess(1.0 - b, 1.0 - a);
    SquareLess(0.0, 1.0 - a);
    ScaledBetween(1.0 - a, 1.0 - a);
  }

  lemma SquareLess(w: real, u: real)
    requires 0.0 <= w < u
    ensures w * w < u * u
  {
    MulStrict(u - w, 0.0, u + w);
    assert (u - w) * (u + w) == u * u - w * w;
  }

  /** A non-negative amount scaled by a weight in `[0, 1]` stays between zero and itself. */
  lemma ScaledBetween(m: real, e: real)
    requires m >= 0.0 && 0.0 <= e <= 1.0
    ensures 0.0 <= m * e <= m
  {
    MulMonotone(m, 0.0, e);
    MulMonotone(m, e, 1.0);
  }

  /** An interpolation with a weight in `[0, 1]` lies between its two ends. */
  lemma LerpBetween(a: real, b: real, e: real)
    requires 0.0 <= e <= 1.0
    ensures Min(a, b) <= Lerp(a, b, e) <= Max(a, b)
  {
    if a <= b {
      ScaledBetween(b - a, e);
    } else {
      ScaledBetween(a - b, e);
      assert (b - a) * e == -((a - b) * e);
    }
  }

  /** Towards a larger end, a larger weight never gives a smaller value. */
  lemma LerpMonotone(a: real, b: real, e1: real, e2: real)
    requires a <= b && e1 <= e2
    ensures Lerp(a, b, e1) <= Lerp(a, b, e2)
  {
    MulMonotone(b - a, e1, e2);
  }

  /** Progress at or below zero gives the entry knot exactly; at or above one, the last knot. */
  lemma InterpolateClamped(t: real)
    ensures t <= 0.0 ==> Interpolate(t) == Knots[0]
    ensures t >= 1.0 ==> Interpolate(t) == Knots[LastKnot]
  {
    if t <= 0.0 {
      assert SegmentIndex(t) == 0 && LocalT(t) == 0.0;
      EaseSchedule(0.0, 1.0);
    }
  }

  /** At progress `k / 10` the catheter sits exactly on knot `k`, so consecutive segments
      meet and the path is continuous. */
  lemma InterpolateAtKnot(k: nat)
    requires k <= LastKnot
    ensures Interpolate(k as real / 10.0) == Knots[k]
  {
    var t := k as real / 10.0;
    assert Segment(t) == k as real;
    assert SegmentIndex(t) == k;
    if k < LastKnot {
      assert LocalT(t) == 0.0;
      EaseSchedule(0.0, 1.0);
    }
  }

  /** Away from the end, every component lies between the two knots bracketing the progress. */
  lemma InterpolateBetween(t: real)
    ensures var i := SegmentIndex(t);
      var k := Interpolate(t);
      i < LastKnot ==>
        && Min(Knots[i].x, Knots[i + 1].x) <= k.x <= Max(Knots[i].x, Knots[i + 1].x)
        && Min(Knots[i].y, Knots[i + 1].y) <= k.y <= Max(Knots[i].y, Knots[i + 1].y)
        && Min(Knots[i].rotation, Knots[i + 1].rotation) <= k.rotation <= Max(Knots[i].rotation, Knots[i + 1].rotation)
  {
    var i := SegmentIndex(t);
    if i < LastKnot {
      var e := Ease(LocalT(t));
      EaseSchedule(LocalT(t), 1.0);
      LerpBetween(Knots[i].x, Knots[i + 1].x, e);
      LerpBetween(Knots[i].y, Knots[i + 1].y, e);
      LerpBetween(Knots[i].rotation, Knots[i + 1].rotation, e);
    }
  }

  /** Each knot lies strictly below the previous one in the drawing. */
  lemma KnotStep(i: nat)
    requires i < LastKnot
    ensures Knots[i].y < Knots[i + 1].y
  {
    if i == 0 {} else if i == 1 {} else if i == 2 {} else if i == 3 {} else if i == 4 {}
    else if i == 5 {} else if i == 6 {} else if i == 7 {} else if i == 8 {} else {}
  }

  /** The knots' vertical coordinates strictly increase. */
  lemma {:induction false} KnotsDescend(i: nat, j: nat)
    requires i < j <= LastKnot
    ensures Knots[i].y < Knots[j].y
  {
    KnotStep(j - 1);
    if i < j - 1 {
      KnotsDescend(i, j - 1);
    }
  }

  /** Away from the end, the vertical position lies between the knots bracketing the
      progress; at the end it is the last knot's. */
  lemma InterpolateYInSegment(t: real)
    ensures var i := SegmentIndex(t);
      i < LastKnot ==> Knots[i].y <= Interpolate(t).y <= Knots[i + 1].y
    ensures SegmentIndex(t) == LastKnot ==> Interpolate(t).y == Knots[LastKnot].y
  {
    var i := SegmentIndex(t);
    if i < LastKnot {
      InterpolateBetween(t);
      KnotStep(i);
    }
  }

  /** Within one segment, more progress gives a lower position. */
  lemma InterpolateYSameSegment(t1: real, t2: real)
    requires t1 <= t2 && SegmentIndex(t1) == SegmentIndex(t2) < LastKnot
    ensures Interpolate(t1).y <= Interpolate(t2).y
  {
    var i := SegmentIndex(t1);
    assert Segment(t1) <= Segment(t2);
    KnotStep(i);
    if LocalT(t1) < LocalT(t2) {
      EaseSchedule(LocalT(t1), LocalT(t2));
    }
    LerpMonotone(Knots[i].y, Knots[i + 1].y, Ease(LocalT(t1)), Ease(LocalT(t2)));
  }

  /** More progress never moves the catheter back up the drawing. */
  lemma InterpolateYMonotone(t1: real, t2: real)
    requires t1 <= t2
    ensures Interpolate(t1).y <= Interpolate(t2).y
  {
    var i1 := SegmentIndex(t1);
    var i2 := SegmentIndex(t2);
    assert Segment(t1) <= Segment(t2);
    assert i1 <= i2;
    if i1 == i2 {
      if i1 < LastKnot {
        InterpolateYSameSegment(t1, t2);
      }
    } else {
      InterpolateYInSegment(t1);
      InterpolateYInSegment(t2);
      if i1 + 1 < i2 {
        KnotsDescend(i1 + 1, i2);
      }
    }
  }

  /** The progress lags of the three trailing positions. */
  const TrailOffsets: seq<real> := [0.02, 0.04, 0.06]

  function TrailParam(progress: real, offset: real): real {
    Max(0.0, progress - offset)
  }

  /** The three trailing positions, each at the progress lagged by its offset. */
  function Trail(progress: real): (ks: seq<Knot>)
    ensures |ks| == |TrailOffsets|
  {
    seq(|TrailOffsets|, i requires 0 <= i < |TrailOffsets| => Interpolate(TrailParam(progress, TrailOffsets[i])))
  }

  /** Every trailing parameter is non-negative and never ahead of the progress, so each
      ghost is drawn at or above the catheter, and a longer lag is at or above a shorter one. */
  lemma TrailBehind(progress: real, i: nat, j: nat)
    requires i <= j < |TrailOffsets|
    ensures 0.0 <= TrailParam(progress, TrailOffsets[i])
    ensures progress >= 0.0 ==> TrailParam(progress, TrailOffsets[i]) <= progress
    ensures Trail(progress)[j].y <= Trail(progress)[i].y <= Interpolate(progress).y
  {
    var ti := TrailParam(progress, TrailOffsets[i]);
    var tj := TrailParam(progress, TrailOffsets[j]);
    assert TrailOffsets[i] <= TrailOffsets[j] by {
      if i < j {
        assert TrailOffsets[0] < TrailOffsets[1] < TrailOffsets[2];
      }
    }
    if progress >= 0.0 {
      InterpolateYMonotone(ti, progress);
    } else {
      InterpolateClamped(ti);
      InterpolateClamped(progress);
    }
    InterpolateYMonotone(tj, ti);
  }

  /** The catheter is animating between the very start and the very end. */
  predicate IsMoving(progress: real) {
    0.01 < progress < 0.98
  }

  /** The catheter has reached the target region. */
  predicate AtTarget(progress: real) {
    progress > 0.9
  }

  /** Being at target means the tip is at or past the "at target" knot; the catheter keeps
      moving for a while after arriving, and stops only once it is at target. */
  lemma AtTargetMeansPastTargetKnot(progress: real)
    ensures AtTarget(progress) ==> Interpolate(progress).y >= Knots[LastKnot - 1].y
    ensures !IsMoving(progress) && progress >= 0.98 ==> AtTarget(progress)
    ensures IsMoving(0.95) && AtTarget(0.95)
  {
    if AtTarget(progress) {
      InterpolateAtKnot(LastKnot - 1);
      assert (LastKnot - 1) as real / 10.0 == 0.9;
      InterpolateYMonotone(0.9, progress);
    }
  }
}
