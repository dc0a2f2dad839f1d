/** The catheter illustration (`CatheterIllustration`): the tube is drawn on with a stroke
    dash offset, and the lumen, the three markers, the tip glow and the hub appear at
    progress thresholds. */
module Illustration {
  import opened Numerics

  /** Length of the drawn catheter stroke. */
  const CatheterLength: real := 200.0

  /** The part of the stroke still hidden: all of it at the start, none from 5/6 of the progress on. */
  function DashOffset(progress: real): real {
    CatheterLength * (1.0 - Min(progress * 1.2, 1.0))
  }

  /** For non-negative progress the offset stays within the stroke, starts at its full length,
      only shrinks and is zero from 5/6 on. */
  lemma DashOffsetSchedule(p1: real, p2: real)
    requires 0.0 <= p1 <= p2
    ensures 0.0 <= DashOffset(p1) <= CatheterLength
    ensures DashOffset(0.0) == CatheterLength
    ensures DashOffset(p2) <= DashOffset(p1)
    ensures p2 >= 5.0 / 6.0 ==> DashOffset(p2) == 0.0
  {
    var m1 := Min(p1 * 1.2, 1.0);
    var m2 := Min(p2 * 1.2, 1.0);
    assert 0.0 <= m1 <= m2 <= 1.0;
    MulMonotone(CatheterLength, 1.0 - m2, 1.0 - m1);
  }

  /** The inner lumen's opacity rises with the progress and is capped at one half. */
  function LumenOpacity(progress: real): (o: real)
    ensures o <= 0.5
    ensures progress >= 0.0 ==> 0.0 <= o
    ensures progress >= 1.0 / 3.0 ==> o == 0.5
  {
    Min(progress * 1.5, 0.5)
  }

  /** Marker `k` (1, 2 or 3) is shown once the progress passes `k / 10`. */
  function MarkerOpacity(progress: real, k: nat): real {
    if progress > k as real * 0.1 then 1.0 else 0.0
  }

  /** Markers appear in order: when a later marker is visible, every earlier one is too. */
  lemma MarkersInOrder(progress: real, j: nat, k: nat)
    requires 1 <= j <= k <= 3
    ensures MarkerOpacity(progress, k) == 1.0 ==> MarkerOpacity(progress, j) == 1.0
    ensures MarkerOpacity(progress, j) == 0.0 ==> MarkerOpacity(progress, k) == 0.0
  {
    assert j as real * 0.1 <= k as real * 0.1;
  }

  /** The tip glows fully once the progress is positive and is dimmed before. */
  function TipOpacity(progress: real): (o: real)
    ensures o == 1.0 <==> progress > 0.0
    ensures o != 1.0 ==> o == 0.3
  {
    if progress > 0.0 then 1.0 else 0.3
  }

  /** The hub is shown, at 0.6, only past the half-way point. */
  function HubOpacity(progress: real): (o: real)
    ensures o > 0.0 <==> progress > 0.5
    ensures o > 0.0 ==> o == 0.6
  {
    if progress > 0.5 then 0.6 else 0.0
  }

  /** By the time the hub is shown, more than 60% of the stroke is drawn, all three markers are visible
      and the tip glows fully. */
  lemma HubShownLast(progress: real)
    requires HubOpacity(progress) > 0.0
    ensures DashOffset(progress) < 0.4 * CatheterLength
    ensures forall k: nat :: 1 <= k <= 3 ==> MarkerOpacity(progress, k) == 1.0
    ensures TipOpacity(progress) == 1.0
  {
    forall k: nat | 1 <= k <= 3
      ensures MarkerOpacity(progress, k) == 1.0
    {
      assert k as real * 0.1 <= 0.3;
    }
  }
}
