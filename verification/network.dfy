/** The 2-D vascular network drawing (`VascularNetwork`): the opacity with which each vessel
    is revealed as the journey progresses, the blood particles' vertical positions and the outer
    success ring. */
module Network {
  import opened Numerics

  /** Opacities of the main vessel, the three branches and the target region. */
  datatype VesselOpacity = VesselOpacity(main: real, branch1: real, branch2: real, branch3: real, target: real)

  /** A reveal that starts at progress `start` and reaches full opacity `1 / rate` later. */
  function Reveal(progress: real, start: real, rate: real): real {
    Max(0.0, Min((progress - start) * rate, 1.0))
  }

  function Opacities(progress: real): VesselOpacity {
    VesselOpacity(
      Min(progress * 3.0, 1.0),
      Reveal(progress, 0.15, 4.0),
      Reveal(progress, 0.25, 4.0),
      Reveal(progress, 0.35, 4.0),
      Reveal(progress, 0.5, 3.0))
  }

  /** Every opacity lies in `[0, 1]` (the main vessel's only from progress 0 on, since it has
      no lower clamp); a branch or the target stays invisible until its start and is positive
      after it; branches appear in order, so an earlier branch is never fainter than a later one. */
  lemma OpacitiesSchedule(progress: real)
    ensures var o := Opacities(progress);
      && (progress >= 0.0 ==> 0.0 <= o.main <= 1.0)
      && (progress < 0.0 ==> o.main < 0.0)
      && 0.0 <= o.branch1 <= 1.0 && 0.0 <= o.branch2 <= 1.0 && 0.0 <= o.branch3 <= 1.0
      && 0.0 <= o.target <= 1.0
      && (o.branch1 > 0.0 <==> progress > 0.15)
      && (o.branch2 > 0.0 <==> progress > 0.25)
      && (o.branch3 > 0.0 <==> progress > 0.35)
      && (o.target > 0.0 <==> progress > 0.5)
      && o.branch1 >= o.branch2 >= o.branch3
  {}

  /** More progress never dims a vessel. */
  lemma OpacitiesMonotone(p1: real, p2: real)
    requires p1 <= p2
    ensures var a, b := Opacities(p1), Opacities(p2);
      && a.main <= b.main && a.branch1 <= b.branch1 && a.branch2 <= b.branch2
      && a.branch3 <= b.branch3 && a.target <= b.target
  {}

  /** The particle phase: five hundred times the progress, as a JavaScript remainder by 100. */
  function ParticleOffset(progress: real): real {
    JsRem(progress * 500.0, 100.0)
  }

  /** Vertical positions of the three particles, the second and third a third and two thirds
      of the loop behind the first. */
  function ParticleYs(progress: real): (ys: seq<real>)
    ensures |ys| == 3
  {
    var off := ParticleOffset(progress);
    [100.0 + off * 3.0,
     100.0 + JsRem(off + 30.0, 100.0) * 3.0,
     100.0 + JsRem(off + 60.0, 100.0) * 3.0]
  }

  /** For non-negative progress the phase lies in `[0, 100)`, so every particle stays within
      the main vessel's stretch from 100 to 400, and the phase repeats every 0.2 of progress. */
  lemma ParticlesWithinVessel(progress: real, i: nat)
    requires progress >= 0.0 && i < 3
    ensures 0.0 <= ParticleOffset(progress) < 100.0
    ensures 100.0 <= ParticleYs(progress)[i] < 400.0
    ensures ParticleOffset(progress + 0.2) == ParticleOffset(progress)
  {
    var off := ParticleOffset(progress);
    JsRemRange(progress * 500.0, 100.0);
    JsRemRange(progress * 500.0 + 100.0, 100.0);
    assert (progress + 0.2) * 500.0 == progress * 500.0 + 100.0;
    assert Floor((progress * 500.0 + 100.0) / 100.0) == Floor(progress * 500.0 / 100.0) + 1;
    JsRemRange(off + 30.0, 100.0);
    JsRemRange(off + 60.0, 100.0);
  }

  /** Particles are drawn only past 0.2 of the progress, in a group no more opaque than 0.8. */
  function ParticleGroupOpacity(progress: real): (o: Option<real>)
    ensures o.Some? <==> progress > 0.2
    ensures o.Some? ==> 0.2 < o.value <= 0.8
  {
    if progress > 0.2 then Some(Min(progress, 0.8)) else None
  }

  /** The success ring at the target: drawn only past 0.85, fading in over the next sixth
      and growing from its own size. */
  datatype Ring = Ring(opacity: real, scale: real)

  function SuccessRing(progress: real): (r: Option<Ring>)
    ensures r.Some? <==> progress > 0.85
    ensures r.Some? ==> 0.0 < r.value.opacity <= 1.0 && r.value.scale > 1.0
    ensures progress >= 0.85 + 1.0 / 6.0 ==> r.Some? && r.value.opacity == 1.0
  {
    if progress > 0.85 then Some(Ring(Min((progress - 0.85) * 6.0, 1.0), 1.0 + (progress - 0.85) * 3.0))
    else None
  }
}
