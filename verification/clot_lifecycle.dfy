/** The clot's phase flags and dissolve amount, all functions of the scroll progress `p`
    (the `Clot` and `Scene` components), and the clot group's per-frame pose. */
module ClotLifecycle {
  import opened Numerics
  import opened Geometry

  /** The brief contact moment before aspiration. */
  predicate Contact(p: real) { 0.48 <= p < 0.50 }
  /** Aspiration: the clot dissolves. */
  predicate Aspirating(p: real) { 0.50 <= p < 0.75 }
  /** The procedure is complete. */
  predicate Complete(p: real) { p >= 0.75 }
  /** The scene's `clotCleared` flag, which the blood particles read. */
  predicate ClotCleared(p: real) { p >= 0.75 }

  /** At most one of the three phase flags holds, none holds before contact, and the
      scene's cleared flag is exactly the clot's completion flag. */
  lemma PhasesExclusive(p: real)
    ensures !(Contact(p) && Aspirating(p)) && !(Contact(p) && Complete(p)) && !(Aspirating(p) && Complete(p))
    ensures p < 0.48 ==> !Contact(p) && !Aspirating(p) && !Complete(p)
    ensures p >= 0.48 ==> Contact(p) || Aspirating(p) || Complete(p)
    ensures ClotCleared(p) <==> Complete(p)
  {}

  /** Aspiration-local progress `(p - 0.5) / 0.25`. */
  function AspirationLocal(p: real): real { (p - 0.50) / 0.25 }

  /** The dissolve amount fed to the clot shader and to the debris: `pow(local, 0.6)` while
      aspirating, 1 once complete, 0 before. `pow06` stands for `x => Math.pow(x, 0.6)`. */
  function Dissolve(pow06: Easing, p: real): (d: real)
    ensures 0.0 <= d <= 1.0
    ensures p < 0.50 ==> d == 0.0
    ensures p == 0.50 ==> d == 0.0
    ensures p >= 0.75 ==> d == 1.0
    ensures Aspirating(p) ==> d < 1.0
    ensures 0.50 < p ==> 0.0 < d
  {
    if Aspirating(p) then
      (EasingRange(pow06, AspirationLocal(p)); pow06(AspirationLocal(p)))
    else if Complete(p) then 1.0
    else 0.0
  }

  /** The dissolve amount never decreases as the progress grows. */
  lemma {:induction false} DissolveMonotone(pow06: Easing, p: real, q: real)
    requires p <= q
    ensures Dissolve(pow06, p) <= Dissolve(pow06, q)
  {
    if Aspirating(p) && Aspirating(q) && p < q {
      assert AspirationLocal(p) < AspirationLocal(q);
      assert pow06(AspirationLocal(p)) < pow06(AspirationLocal(q));
    }
  }

  /** The shader's `uProgress` uniform: the dissolve amount while aspirating or complete, 0 otherwise. */
  function ShaderProgress(pow06: Easing, p: real): real {
    if Aspirating(p) || Complete(p) then Dissolve(pow06, p) else 0.0
  }

  /** The uniform always equals the dissolve amount: outside aspiration and completion
      the dissolve amount is already 0. */
  lemma ShaderProgressIsDissolve(pow06: Easing, p: real)
    ensures ShaderProgress(pow06, p) == Dissolve(pow06, p)
  {}

  /** The catheter tip parameter used by the scene, the catheter and the camera. */
  function TipParam(p: real): (t: real)
    ensures 0.001 <= t <= 0.999
    ensures 0.001 <= p <= 0.999 ==> t == p
  {
    Clamp(p, 0.001, 0.999)
  }

  /** The clot group's transform as the frame callback leaves it. */
  datatype ClotPose = ClotPose(scale: real, offset: Vec3)

  /** The group's initial transform: unit scale, no offset. */
  const Rest := ClotPose(1.0, Zero)

  /** Vibration while aspirating: amplitude `0.008 * (1 - dissolve)`. */
  function Vibration(pow06: Easing, p: real, time: real, sin: Wave, cos: Wave): Vec3 {
    var vib := 0.008 * (1.0 - Dissolve(pow06, p));
    Vec3(sin(time * 25.0) * vib, sin(time * 20.0) * vib * 0.5, cos(time * 22.0) * vib)
  }

  /** One frame of the clot's `useFrame` callback as the source writes it: the aspirating
      branch sets only the position and keeps whatever scale an earlier frame left. */
  function AsWrittenFrame(pose: ClotPose, pow06: Easing, p: real, time: real, sin: Wave, cos: Wave): ClotPose {
    if Aspirating(p) then pose.(offset := Vibration(pow06, p, time, sin, cos))
    else if Complete(p) then pose.(scale := 0.0)
    else if Contact(p) then ClotPose(1.0 + sin(time * 12.0) * 0.02, Zero)
    else Rest
  }

  /** Scrolling back from the cleared state into aspiration (p = 0.8, then p = 0.6) leaves the
      clot at scale 0 although it is only partly dissolved. */
  lemma AsWrittenHidesClotAfterScrollBack(pow06: Easing, time: real, sin: Wave, cos: Wave)
    ensures var after := AsWrittenFrame(AsWrittenFrame(Rest, pow06, 0.8, time, sin, cos), pow06, 0.6, time, sin, cos);
            after.scale == 0.0 && Aspirating(0.6) && Dissolve(pow06, 0.6) < 1.0
  {}

  /** The corrected frame: the aspirating branch also restores unit scale, so the pose
      is a function of the progress (and time) alone. */
  function ClotFrame(pose: ClotPose, pow06: Easing, p: real, time: real, sin: Wave, cos: Wave): ClotPose {
    if Aspirating(p) then ClotPose(1.0, Vibration(pow06, p, time, sin, cos))
    else if Complete(p) then pose.(scale := 0.0)
    else if Contact(p) then ClotPose(1.0 + sin(time * 12.0) * 0.02, Zero)
    else Rest
  }

  /** With the corrected frame the clot is hidden exactly when the procedure is complete,
      its visible pose does not depend on earlier frames, and its scale stays within the
      contact pulse's 2% of unit scale. */
  lemma ClotFrameIsLevelTriggered(a: ClotPose, b: ClotPose, pow06: Easing, p: real, time: real, sin: Wave, cos: Wave)
    ensures var fa := ClotFrame(a, pow06, p, time, sin, cos);
            var fb := ClotFrame(b, pow06, p, time, sin, cos);
            && (fa.scale == 0.0 <==> Complete(p))
            && (!Complete(p) ==> fa == fb && 0.98 <= fa.scale <= 1.02)
            && (Aspirating(p) ==> fa.scale == 1.0)
  {
    if Contact(p) {
      assert -1.0 <= sin(time * 12.0) <= 1.0;
    }
  }

  /** The clot group, updated in place every frame. */
  class ClotRig {
    var pose: ClotPose

    constructor ()
      ensures pose == Rest
    {
      pose := Rest;
    }

    method Frame(pow06: Easing, p: real, time: real, sin: Wave, cos: Wave)
      modifies this
      ensures pose == ClotFrame(old(pose), pow06, p, time, sin, cos)
      ensures Complete(p) <==> pose.scale == 0.0
    {
      ClotFrameIsLevelTriggered(pose, pose, pow06, p, time, sin, cos);
      if Aspirating(p) {
        var vib := 0.008 * (1.0 - Dissolve(pow06, p));
        pose := ClotPose(1.0, Vec3(sin(time * 25.0) * vib, sin(time * 20.0) * vib * 0.5, cos(time * 22.0) * vib));
      } else if Complete(p) {
        pose := pose.(scale := 0.0);
      } else if Contact(p) {
        pose := ClotPose(1.0 + sin(time * 12.0) * 0.02, Zero);
      } else {
        pose := Rest;
      }
    }
  }
}
