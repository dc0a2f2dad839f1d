/** The aspirated debris (`AspiratedParticles`): 80 fragments that leave the clot one after
    another while it dissolves, each with a fade-in, a visible stretch and a fade-out. Their
    motion toward the catheter tip (a spiral over `pow(x, 0.4)`) is not modelled; their
    visibility and scale are. */
module Debris {
  import opened Numerics
  import opened ClotLifecycle

  const DebrisCount: nat := 80

  /** A fragment's schedule: its size, when it appears and how long it travels. */
  datatype Fragment = Fragment(size: real, spawnTime: real, lifetime: real)

  /** The fragment descriptor for index `i`. */
  function FragmentData(i: nat): (f: Fragment)
    ensures f.spawnTime == i as real / DebrisCount as real * 0.85
    ensures 0.15 <= f.lifetime < 0.27
    ensures 0.012 <= f.size < 0.07
  {
    var seed2 := JsMod1((i + 100) as real * 0.414);
    var seed3 := JsMod1((i + 200) as real * 0.577);
    var seed4 := JsMod1((i + 300) as real * 0.732);
    Fragment(
      if seed4 < 0.2 then 0.03 + seed3 * 0.04 else 0.012 + seed2 * 0.018,
      i as real / DebrisCount as real * 0.85,
      0.15 + seed3 * 0.12)
  }

  /** How far fragment `f` is through its trip at aspiration progress `a`. */
  function LocalProgress(f: Fragment, a: real): real
    requires f.lifetime > 0.0
  {
    (a - f.spawnTime) / f.lifetime
  }

  /** The fragment's scale at local progress `lp`. */
  function FragmentScale(size: real, lp: real): real {
    if lp <= 0.0 || lp >= 1.0 then 0.0
    else if lp < 0.1 then size * (lp / 0.1)
    else if lp > 0.85 then size * ((1.0 - lp) / 0.15)
    else size
  }

  /** A fragment of positive size is drawn exactly while its trip is under way, never grows
      beyond its size, fades in over the first tenth, is at full size until 0.85 and fades out after. */
  lemma FragmentScaleSchedule(size: real, lp: real)
    requires size > 0.0
    ensures 0.0 <= FragmentScale(size, lp) <= size
    ensures FragmentScale(size, lp) > 0.0 <==> 0.0 < lp < 1.0
    ensures 0.1 <= lp <= 0.85 ==> FragmentScale(size, lp) == size
    ensures 0.0 < lp < 0.1 || 0.85 < lp < 1.0 ==> FragmentScale(size, lp) < size
  {
    if 0.0 < lp < 0.1 {
      ProperFraction(size, lp / 0.1);
    } else if 0.85 < lp < 1.0 {
      ProperFraction(size, (1.0 - lp) / 0.15);
    }
  }

  /** A positive size scaled by a proper fraction stays positive and shrinks. */
  lemma ProperFraction(size: real, k: real)
    requires size > 0.0
    requires 0.0 < k < 1.0
    ensures 0.0 < size * k < size
  {
    assert size == size * k + size * (1.0 - k);
    MulStrict(size, 0.0, 1.0 - k);
  }

  /** Fragments appear in index order, each one no later than 0.85 into the aspiration, and
      every fragment is drawn at some aspiration progress below one, so each is seen before
      the clot is gone. */
  lemma FragmentsAllShown(i: nat, j: nat)
    requires i <= j < DebrisCount
    ensures FragmentData(i).spawnTime <= FragmentData(j).spawnTime <= 0.85
    ensures var f := FragmentData(i);
            var a := f.spawnTime + f.lifetime / 2.0;
            0.0 <= a < 1.0 && FragmentScale(f.size, LocalProgress(f, a)) > 0.0
  {
    var f := FragmentData(i);
    Halfway(f);
    FragmentScaleSchedule(f.size, 0.5);
  }

  /** Halfway through its lifetime a fragment is halfway through its trip. */
  lemma Halfway(f: Fragment)
    requires f.lifetime > 0.0
    ensures LocalProgress(f, f.spawnTime + f.lifetime / 2.0) == 0.5
  {
    var l := f.lifetime;
    var q := LocalProgress(f, f.spawnTime + l / 2.0);
    var h := l / 2.0;
    assert f.spawnTime + h - f.spawnTime == h;
    assert q == h / l;
    assert q * l == h;
    assert h == 0.5 * l;
    if q < 0.5 {
      MulStrict(l, q, 0.5);
    } else if q > 0.5 {
      MulStrict(l, 0.5, q);
    }
  }

  /** One fragment's scale in a frame, computed as the animation loop does. */
  method ScaleAt(data: Fragment, aspirationProgress: real) returns (scale: real)
    requires data.lifetime > 0.0 && data.size > 0.0
    ensures scale == FragmentScale(data.size, LocalProgress(data, aspirationProgress))
    ensures 0.0 <= scale <= data.size
  {
    var localProgress := (aspirationProgress - data.spawnTime) / data.lifetime;
    if localProgress <= 0.0 || localProgress >= 1.0 {
      scale := 0.0;
    } else {
      scale := data.size;
      if localProgress < 0.1 {
        scale := scale * (localProgress / 0.1);
      } else if localProgress > 0.85 {
        scale := scale * ((1.0 - localProgress) / 0.15);
      }
    }
    FragmentScaleSchedule(data.size, localProgress);
  }

  /** One frame of the debris: nothing is drawn unless the clot is aspirating; otherwise
      every fragment's scale at the current dissolve amount. */
  method DebrisFrame(pow06: Easing, p: real) returns (scales: Option<seq<real>>)
    ensures Aspirating(p) <==> scales.Some?
    ensures scales.Some? ==> |scales.value| == DebrisCount
    ensures scales.Some? ==> forall i :: 0 <= i < DebrisCount ==>
      scales.value[i] == FragmentScale(FragmentData(i).size, LocalProgress(FragmentData(i), Dissolve(pow06, p)))
    ensures scales.Some? ==> forall i :: 0 <= i < DebrisCount ==> 0.0 <= scales.value[i] <= FragmentData(i).size
  {
    if !Aspirating(p) {
      return None;
    }
    var aspirationProgress := Dissolve(pow06, p);
    var s: seq<real> := [];
    var i := 0;
    while i < DebrisCount
      invariant 0 <= i <= DebrisCount && |s| == i
      invariant forall k :: 0 <= k < i ==>
        s[k] == FragmentScale(FragmentData(k).size, LocalProgress(FragmentData(k), aspirationProgress))
      invariant forall k :: 0 <= k < i ==> 0.0 <= s[k] <= FragmentData(k).size
    {
      var scale := ScaleAt(FragmentData(i), aspirationProgress);
      s := s + [scale];
      i := i + 1;
    }
    scales := Some(s);
  }
}
