/** The scroll-driven journey section (`VascularJourney`, and the same logic in the 3-D
    scene's section): the scroll progress of the section, the throttle that lets each
    subscription have at most one frame callback pending, the active panel and each panel's
    reveal progress. */
module Journey {
  import opened Numerics

  /** The four content panels: problem, solution, technology, impact. */
  const PanelCount: nat := 4

  /** The section's scroll progress from the viewport height and the section's bounding box:
      the distance scrolled past the viewport's bottom over the section height plus half a
      viewport, clamped to `[0, 1]`. A zero denominator follows floating-point division: a
      positive distance gives 1, a negative one 0, and zero over zero is not a number (`None`). */
  function ScrollProgress(viewportHeight: real, containerTop: real, containerHeight: real): (r: Option<real>)
    ensures r.Some? ==> 0.0 <= r.value <= 1.0
    ensures r.None? <==> viewportHeight == containerTop && containerHeight + viewportHeight * 0.5 == 0.0
  {
    var scrolled := viewportHeight - containerTop;
    var totalScrollable := containerHeight + viewportHeight * 0.5;
    if totalScrollable == 0.0 then
      if scrolled > 0.0 then Some(1.0) else if scrolled < 0.0 then Some(0.0) else None
    else Some(Clamp(scrolled / totalScrollable, 0.0, 1.0))
  }

  /** For a section of positive scroll length: scrolling further down (its top moving up)
      never lowers the progress; it is 0 while the section's top is still at or below the
      viewport's bottom, and 1 once the top has passed half a viewport above the section's end. */
  lemma ScrollProgressMonotone(viewportHeight: real, top1: real, top2: real, containerHeight: real)
    requires containerHeight + viewportHeight * 0.5 > 0.0
    requires top2 <= top1
    ensures ScrollProgress(viewportHeight, top1, containerHeight).value
         <= ScrollProgress(viewportHeight, top2, containerHeight).value
    ensures top1 >= viewportHeight ==> ScrollProgress(viewportHeight, top1, containerHeight) == Some(0.0)
    ensures top2 <= viewportHeight * 0.5 - containerHeight ==> ScrollProgress(viewportHeight, top2, containerHeight) == Some(1.0)
  {
    var total := containerHeight + viewportHeight * 0.5;
    DivMonotone(viewportHeight - top1, viewportHeight - top2, total);
    DivMonotone(viewportHeight - top1, 0.0, total);
    DivMonotone(total, viewportHeight - top2, total);
  }

  lemma DivMonotone(a: real, b: real, d: real)
    requires d > 0.0
    ensures a <= b ==> a / d <= b / d
    ensures a == d ==> a / d == 1.0
    ensures a == 0.0 ==> a / d == 0.0
  {
    assert b / d - a / d == (b - a) / d;
    if a <= b {
      assert (b - a) / d >= 0.0;
    }
  }

  /** The progress a scroll-handler run settles on: hidden sections and users who prefer
      reduced motion keep the current progress, and so does a zero-over-zero measurement. */
  function NextProgress(current: real, visible: bool, reducedMotion: bool,
                        viewportHeight: real, containerTop: real, containerHeight: real): (p: real)
    ensures 0.0 <= current <= 1.0 ==> 0.0 <= p <= 1.0
    ensures !visible || reducedMotion ==> p == current
  {
    if !visible || reducedMotion then current
    else match ScrollProgress(viewportHeight, containerTop, containerHeight)
      case None => current
      case Some(q) => q
  }

  /** The scroll throttle. Each run of the effect that installs the scroll listener is a new
      subscription with its own `ticking` flag: the previous listener is removed, and a
      subscription requests a frame callback only while it has none pending. Callbacks that
      an earlier subscription requested stay queued and still run. */
  class ScrollThrottle {
    /** The current subscription's flag. */
    var ticking: bool
    /** How many times the effect has run; the current subscription's number. */
    var generation: nat
    /** Whether the current run installed a listener (it does not while hidden). */
    var listening: bool
    /** The frame callbacks requested and not yet run, in request order, each tagged with
        the subscription that requested it. */
    var pending: seq<nat>
    var progress: real

    /** Every subscription has at most one callback queued (the tags strictly increase),
        none is newer than the current one, and the current flag is up exactly while the
        current subscription's callback is queued. */
    predicate Valid()
      reads this
    {
      && (forall i, j :: 0 <= i < j < |pending| ==> pending[i] < pending[j])
      && (forall i :: 0 <= i < |pending| ==> pending[i] <= generation)
      && (ticking <==> |pending| > 0 && pending[|pending| - 1] == generation)
      && (ticking ==> listening)
      && 0.0 <= progress <= 1.0
    }

    constructor ()
      ensures Valid() && !ticking && !listening && pending == [] && progress == 0.0
    {
      ticking := false;
      generation := 0;
      listening := false;
      pending := [];
      progress := 0.0;
    }

    /** A run of the effect: the previous listener is removed and a fresh flag starts
        lowered. While visible, a new listener is installed and one measurement runs
        straight away; while hidden, no listener is installed. Queued callbacks are kept. */
    method Attach(visible: bool, reducedMotion: bool,
                  viewportHeight: real, containerTop: real, containerHeight: real)
      requires Valid()
      modifies this
      ensures Valid()
      ensures generation == old(generation) + 1 && !ticking && listening == visible
      ensures pending == old(pending)
      ensures progress == if visible then NextProgress(old(progress), visible, reducedMotion,
                                                      viewportHeight, containerTop, containerHeight)
                          else old(progress)
    {
      generation := generation + 1;
      ticking := false;
      listening := visible;
      if !visible {
        return;
      }
      progress := NextProgress(progress, visible, reducedMotion, viewportHeight, containerTop, containerHeight);
    }

    /** A scroll event: without a listener nothing happens; while the current subscription
        has a callback pending it schedules nothing; otherwise it requests one and raises
        the flag. */
    method OnScroll()
      requires Valid()
      modifies this
      ensures Valid()
      ensures listening == old(listening) && generation == old(generation) && progress == old(progress)
      ensures ticking <==> listening
      ensures listening && !old(ticking) ==> pending == old(pending) + [generation]
      ensures !listening || old(ticking) ==> pending == old(pending)
    {
      if listening && !ticking {
        pending := pending + [generation];
        ticking := true;
      }
    }

    /** The oldest queued callback runs: it measures with the handler of the subscription
        that requested it (`visible` and `reducedMotion` are the values that handler
        captured) and lowers that subscription's flag, which is the current one only when
        the callback is the current subscription's. */
    method RunFrame(visible: bool, reducedMotion: bool,
                    viewportHeight: real, containerTop: real, containerHeight: real)
      requires Valid() && |pending| > 0
      modifies this
      ensures Valid()
      ensures pending == old(pending)[1..]
      ensures generation == old(generation) && listening == old(listening)
      ensures ticking <==> old(ticking) && old(pending)[0] != generation
      ensures old(pending)[0] == generation ==> pending == []
      ensures progress == NextProgress(old(progress), visible, reducedMotion,
                                       viewportHeight, containerTop, containerHeight)
    {
      var owner := pending[0];
      if |pending| > 1 {
        assert pending[0] < pending[|pending| - 1] <= generation;
      }
      pending := pending[1..];
      progress := NextProgress(progress, visible, reducedMotion, viewportHeight, containerTop, containerHeight);
      if owner == generation {
        ticking := false;
      }
    }
  }

  /** The effect re-runs (because visibility or the handler changed) while a callback is
      pending: the old subscription's callback stays queued and the new subscription can
      request its own, so two callbacks are pending at once. */
  method ResubscribeWhilePending() returns (queued: nat)
    ensures queued == 2
  {
    var throttle := new ScrollThrottle();
    throttle.Attach(true, false, 800.0, 0.0, 1000.0);
    throttle.OnScroll();
    throttle.Attach(true, false, 800.0, 0.0, 1000.0);
    throttle.OnScroll();
    queued := |throttle.pending|;
  }

  /** The active panel: a quarter of the progress each, the last one from 0.75 on. */
  function ActivePanel(progress: real): (k: int)
    ensures 0.0 <= progress ==> 0 <= k
    ensures k <= PanelCount - 1
  {
    var slot := Floor(progress * PanelCount as real);
    if slot <= PanelCount - 1 then slot else PanelCount - 1
  }

  /** The active panel stays within the four panels, starts at the first, ends at the last
      and never goes back as the progress grows. */
  lemma ActivePanelSchedule(p1: real, p2: real)
    requires 0.0 <= p1 <= p2 <= 1.0
    ensures 0 <= ActivePanel(p1) <= ActivePanel(p2) <= PanelCount - 1
    ensures ActivePanel(0.0) == 0 && ActivePanel(1.0) == PanelCount - 1
    ensures p1 < 0.25 ==> ActivePanel(p1) == 0
    ensures p2 >= 0.75 ==> ActivePanel(p2) == PanelCount - 1
  {
    assert p1 * 4.0 <= p2 * 4.0;
  }

  /** Panel `k`'s own reveal progress: its quarter of the overall progress, rescaled to `[0, 1]`. */
  function PanelProgress(progress: real, k: nat): (r: real)
    ensures 0.0 <= r <= 1.0
  {
    Clamp((progress - k as real * 0.25) * 4.0, 0.0, 1.0)
  }

  /** A panel has not started before its quarter and is complete after it. */
  lemma PanelProgressSchedule(progress: real, k: nat)
    ensures progress <= k as real * 0.25 ==> PanelProgress(progress, k) == 0.0
    ensures progress >= (k + 1) as real * 0.25 ==> PanelProgress(progress, k) == 1.0
  {}

  predicate IsActive(k: nat, progress: real) {
    k == ActivePanel(progress)
  }

  predicate IsPast(k: nat, progress: real) {
    k < ActivePanel(progress)
  }

  /** For a progress in `[0, 1]` exactly one panel is active; the panels before it are past
      and fully revealed, and the panels after it have not started. */
  lemma PanelStates(progress: real, k: nat)
    requires 0.0 <= progress <= 1.0 && k < PanelCount
    ensures exists j: nat :: j < PanelCount && IsActive(j, progress)
    ensures forall j: nat :: j < PanelCount && IsActive(j, progress) ==> j == ActivePanel(progress)
    ensures IsPast(k, progress) ==> !IsActive(k, progress) && PanelProgress(progress, k) == 1.0
    ensures k > ActivePanel(progress) ==> PanelProgress(progress, k) == 0.0
  {
    var a := ActivePanel(progress);
    assert 0 <= a < PanelCount;
    assert IsActive(a as nat, progress);
    if k < a {
      assert (k + 1) as real <= progress * 4.0;
      PanelProgressSchedule(progress, k);
    }
    if k > a {
      assert progress * 4.0 < k as real;
      PanelProgressSchedule(progress, k);
    }
  }
}
