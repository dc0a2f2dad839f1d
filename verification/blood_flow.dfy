/** The blood particle populations (`BloodParticles`, `RedBloodCells`, `WhiteBloodCells`,
    `Platelets`): deterministic per-particle descriptors, free flow along a centerline,
    and the per-population cache of stuck positions in front of the clot.
    The three population routines of the source differ only in constants; here they are
    one routine parametrized by a PopulationConfig. */
module BloodFlow {
  import opened Numerics
  import opened Geometry

  // ---------------------------------------------------------------------------
  // Descriptors and population sizes

  /** A particle's fixed descriptor, built once from its index. */
  datatype Descriptor = Descriptor(
    pathIndex: nat,
    initialOffset: real,
    speed: real,
    radialFraction: real,
    radialAngle: real,
    wobbleAmount: real,
    stuckOffset: real)

  /** `generateParticleData`'s element for index `i`: products of `i + seedOffset` with
      incommensurate constants, fractional parts taken with `%`. */
  function Describe(i: nat, seedOffset: nat, sqrt: Root): (d: Descriptor)
    ensures d.pathIndex == i % 2 && d.pathIndex < 2
    ensures 0.06 <= d.speed < 0.10
    ensures 0.008 <= d.wobbleAmount < 0.023
    ensures 0.0 <= d.initialOffset < 1.0
    ensures 0.0 <= d.radialFraction < 1.0
    ensures 0.0 <= d.stuckOffset < 1.0
    ensures 0.0 <= d.radialAngle < 2.0 * PI
  {
    var n := (i + seedOffset) as real;
    var seed := n * 0.618033988749;
    var seed2 := JsMod1(n * 1.41421356);
    var seed3 := JsMod1(n * 2.71828);
    var seed4 := JsMod1(n * 3.14159265);
    var seed5 := JsMod1(n * 1.732);
    var radialRaw := JsMod1(seed * 5.678);
    Descriptor(
      i % 2,
      JsMod1(seed * 2.718 + seed2 * 0.5),
      0.06 + seed2 * 0.04,
      sqrt(radialRaw),
      seed4 * PI * 2.0,
      0.008 + seed3 * 0.015,
      seed5)
  }

  /** `generateParticleData(count, seedOffset)`. */
  function ParticleData(count: nat, seedOffset: nat, sqrt: Root): (ds: seq<Descriptor>)
    ensures |ds| == count
  {
    seq(count, i requires 0 <= i < count => Describe(i, seedOffset, sqrt))
  }

  /** A particle's descriptor does not depend on how many particles are generated: a
      smaller population is a prefix of a larger one with the same seed offset. */
  lemma ParticleDataPrefix(m: nat, n: nat, seedOffset: nat, sqrt: Root)
    requires m <= n
    ensures ParticleData(n, seedOffset, sqrt)[..m] == ParticleData(m, seedOffset, sqrt)
  {}

  /** The population sizes drawn from a total `count`. */
  function RedCount(count: nat): nat { Floor(count as real * 0.94) }
  function WhiteCount(count: nat): (n: nat)
    ensures n >= 3
  {
    if Floor(count as real * 0.01) >= 3 then Floor(count as real * 0.01) else 3
  }
  function PlateletCount(count: nat): nat { Floor(count as real * 0.05) }

  /** The three populations never exceed the total by more than the minimum of three white cells,
      and from 300 particles on they fit within it. */
  lemma PopulationTotal(count: nat)
    ensures RedCount(count) + WhiteCount(count) + PlateletCount(count) <= count + 3
    ensures count >= 300 ==> RedCount(count) + WhiteCount(count) + PlateletCount(count) <= count
  {
    var c := count as real;
    assert (c * 0.94).Floor as real <= c * 0.94;
    assert (c * 0.01).Floor as real <= c * 0.01;
    assert (c * 0.05).Floor as real <= c * 0.05;
    if count >= 300 {
      assert c * 0.01 >= 3.0;
      assert (c * 0.01).Floor >= 3;
    }
  }

  /** The scene's 400 particles split into 376 red cells, 4 white cells and 20 platelets. */
  lemma SceneCounts()
    ensures RedCount(400) == 376 && WhiteCount(400) == 4 && PlateletCount(400) == 20
  {}

  // ---------------------------------------------------------------------------
  // Radial bounds and free flow

  datatype RadialRange = RadialRange(min: real, max: real)

  /** The largest radial bound, on the trunk (`t < 0.5`): radius 0.22 scaled by 2.35, 0.95 and 0.98. */
  const TrunkMax: real := 0.22 * 2.35 * 0.95 * 0.98

  /** `getRadialBounds`: particles stay between the catheter's visual radius and just inside
      the vessel wall, which narrows past the branch point. */
  function RadialBounds(pathIndex: nat, t: real): (b: RadialRange)
    ensures b.min == 0.02 && b.min < b.max <= TrunkMax
    ensures t < 0.5 <==> b.max == TrunkMax
  {
    var inputRadius := if t < 0.5 then 0.22 else if pathIndex == 0 then 0.16 else 0.14;
    var visualRadius := inputRadius * 2.35 * 0.95;
    RadialRange(0.02, visualRadius * 0.98)
  }

  /** The flow parameter `(offset + time * speed) % 1` of a particle. */
  function FlowParam(offset: real, time: real, speed: real): (t: real)
    ensures offset >= 0.0 && time >= 0.0 && speed >= 0.0 ==> 0.0 <= t < 1.0
  {
    assert offset >= 0.0 && time >= 0.0 && speed >= 0.0 ==> time * speed >= 0.0;
    JsMod1(offset + time * speed)
  }

  /** What distinguishes the three populations. */
  datatype LiveJitter = LiveJitter(fx: real, fy: real, fz: real, amp: real, ampZ: real)
  datatype PopulationConfig = PopulationConfig(
    speedFactor: real,   // multiplies the descriptor's speed
    wobbleFreq: real,    // angular frequency of the radial wobble
    wobbleScale: real,   // multiplies the descriptor's wobble amount
    margin: real,        // added to the clot radius to get the collision radius
    safety: real,        // extra clearance the backward search looks for
    stackFactor: real,   // multiplies stuckOffset to queue stuck particles
    jitterAmp: real,     // amplitude of the random jitter fixed when a particle sticks
    live: LiveJitter)    // small continuous jitter of a stuck particle

  const RedCells := PopulationConfig(1.0, 2.0, 1.0, 0.25, 0.05, 0.12, 0.015, LiveJitter(3.0, 4.0, 2.5, 0.003, 0.003))
  const WhiteCells := PopulationConfig(0.8, 1.5, 1.5, 0.28, 0.05, 0.15, 0.02, LiveJitter(2.0, 3.0, 0.0, 0.005, 0.0))
  const Platelets := PopulationConfig(1.2, 3.0, 2.0, 0.22, 0.03, 0.08, 0.01, LiveJitter(5.0, 6.0, 0.0, 0.002, 0.0))

  /** The seed offsets of the three populations. */
  const RedSeed: nat := 0
  const WhiteSeed: nat := 1000
  const PlateletSeed: nat := 2000

  /** A particle's unobstructed placement in one frame. */
  datatype Flow = Flow(clampedT: real, tangent: Vec3, offset: Vec3, pos: Vec3)

  /** The free-flow position: the point on the particle's path at its flow parameter, pushed
      out radially within the cross-section spanned by `right` and `forward`. */
  function FreeFlow(cfg: PopulationConfig, d: Descriptor, path: Curve, time: real, m: MathFns): (f: Flow)
    ensures 0.0 <= f.clampedT <= 1.0
    ensures f.tangent == path.tangent(f.clampedT)
    ensures f.pos == Add(path.point(f.clampedT), f.offset)
    ensures d.initialOffset >= 0.0 && time >= 0.0 && d.speed * cfg.speedFactor >= 0.0
            ==> f.clampedT == FlowParam(d.initialOffset, time, d.speed * cfg.speedFactor) < 1.0
  {
    var t := FlowParam(d.initialOffset, time, d.speed * cfg.speedFactor);
    var ct := Clamp(t, 0.0, 1.0);
    var tangent := path.tangent(ct);
    var right := Normalize(Cross(tangent, UnitY), m.sqrt);
    var forward := Normalize(Cross(right, tangent), m.sqrt);
    var b := RadialBounds(d.pathIndex, ct);
    var wobble := m.sin(time * cfg.wobbleFreq + d.initialOffset * 10.0) * d.wobbleAmount * cfg.wobbleScale;
    var effectiveRadius := b.min + d.radialFraction * (b.max - b.min) + wobble;
    var radial := Add(Scale(right, m.cos(d.radialAngle)), Scale(forward, m.sin(d.radialAngle)));
    var offset := Scale(radial, effectiveRadius);
    Flow(ct, tangent, offset, Add(path.point(ct), offset))
  }

  // ---------------------------------------------------------------------------
  // Backward search for a clear position

  const SearchSteps: nat := 60
  const StepSize: real := 0.008

  /** The parameter tested at a search step. */
  function SafeT(clampedT: real, step: nat): (s: real)
    ensures clampedT >= 0.0 ==> 0.0 <= s <= clampedT
    ensures s == 0.0 || s == clampedT - step as real * StepSize
  {
    Max(0.0, clampedT - step as real * StepSize)
  }

  /** The test position at a search step, with the particle's radial offset. */
  function TestPos(path: Curve, clampedT: real, offset: Vec3, step: nat): Vec3 {
    Add(path.point(SafeT(clampedT, step)), offset)
  }

  /** The first test position from `step` on that is at least `threshold` from the clot,
      or `original` when none of the remaining steps up to 60 is. */
  function Search(path: Curve, clampedT: real, offset: Vec3, clot: Vec3, threshold: real, original: Vec3, step: nat): Vec3
    decreases SearchSteps + 1 - step
  {
    if step > SearchSteps then original
    else if DistAtLeast(TestPos(path, clampedT, offset, step), clot, threshold) then TestPos(path, clampedT, offset, step)
    else Search(path, clampedT, offset, clot, threshold, original, step + 1)
  }

  /** The search yields the first clear test position among steps `from..60`, or the original
      position when every one of them is still inside the threshold. */
  lemma {:induction false} SearchOutcome(path: Curve, clampedT: real, offset: Vec3, clot: Vec3, threshold: real, original: Vec3, from: nat)
    requires 1 <= from
    ensures var r := Search(path, clampedT, offset, clot, threshold, original, from);
      || (r == original && forall s :: from <= s <= SearchSteps ==> !DistAtLeast(TestPos(path, clampedT, offset, s), clot, threshold))
      || (exists s :: from <= s <= SearchSteps && r == TestPos(path, clampedT, offset, s)
            && DistAtLeast(r, clot, threshold)
            && forall s' :: from <= s' < s ==> !DistAtLeast(TestPos(path, clampedT, offset, s'), clot, threshold))
    decreases SearchSteps + 1 - from
  {
    if from <= SearchSteps && !DistAtLeast(TestPos(path, clampedT, offset, from), clot, threshold) {
      SearchOutcome(path, clampedT, offset, clot, threshold, original, from + 1);
    }
  }

  /** When step `k` is the first clear step from `from` on, the search yields its test position. */
  lemma {:induction false} SearchFindsFirst(path: Curve, clampedT: real, offset: Vec3, clot: Vec3, threshold: real, original: Vec3, from: nat, k: nat)
    requires from <= k <= SearchSteps && DistAtLeast(TestPos(path, clampedT, offset, k), clot, threshold)
    requires forall s :: from <= s < k ==> !DistAtLeast(TestPos(path, clampedT, offset, s), clot, threshold)
    ensures Search(path, clampedT, offset, clot, threshold, original, from) == TestPos(path, clampedT, offset, k)
    decreases k - from
  {
    if from < k {
      SearchFindsFirst(path, clampedT, offset, clot, threshold, original, from + 1, k);
    }
  }

  /** When no step from `from` to 60 is clear, the search keeps the original position. */
  lemma {:induction false} SearchKeepsOriginal(path: Curve, clampedT: real, offset: Vec3, clot: Vec3, threshold: real, original: Vec3, from: nat)
    requires forall s :: from <= s <= SearchSteps ==> !DistAtLeast(TestPos(path, clampedT, offset, s), clot, threshold)
    ensures Search(path, clampedT, offset, clot, threshold, original, from) == original
    decreases SearchSteps + 1 - from
  {
    if from <= SearchSteps {
      SearchKeepsOriginal(path, clampedT, offset, clot, threshold, original, from + 1);
    }
  }

  /** The bounded backward search of the collision branch: at most 60 steps of 0.008 back
      along the path, stopping at the first position clear of `threshold`. */
  method BackwardSearch(path: Curve, clampedT: real, offset: Vec3, clot: Vec3, threshold: real, original: Vec3)
    returns (safe: Vec3)
    ensures safe == Search(path, clampedT, offset, clot, threshold, original, 1)
  {
    safe := original;
    var step: nat := 1;
    while step <= SearchSteps
      invariant 1 <= step <= SearchSteps + 1
      invariant safe == original
      invariant Search(path, clampedT, offset, clot, threshold, original, 1)
             == Search(path, clampedT, offset, clot, threshold, original, step)
    {
      var testPos := TestPos(path, clampedT, offset, step);
      if DistAtLeast(testPos, clot, threshold) {
        safe := testPos;
        break;
      }
      step := step + 1;
    }
  }

  // ---------------------------------------------------------------------------
  // The stuck-position cache

  datatype StuckEntry = StuckEntry(pos: Vec3, jitter: Vec3)

  /** The collision radius of a population around the clot. */
  function CollisionRadius(cfg: PopulationConfig, clotRadius: real): real { clotRadius + cfg.margin }

  /** Whether a particle collides this frame: the clot is present and not cleared, the particle
      flows on path 0, and its free position is within the collision radius. */
  predicate Colliding(cfg: PopulationConfig, d: Descriptor, f: Flow, clot: Option<Vec3>, clotRadius: real, cleared: bool) {
    clot.Some? && !cleared && d.pathIndex == 0 && DistLess(f.pos, clot.value, CollisionRadius(cfg, clotRadius))
  }

  /** Where a newly stuck particle is parked: the search result moved back along the tangent
      in proportion to its stuckOffset, so stuck particles queue. */
  function StuckTarget(cfg: PopulationConfig, d: Descriptor, path: Curve, f: Flow, clot: Vec3, clotRadius: real): Vec3 {
    Sub(Search(path, f.clampedT, f.offset, clot, CollisionRadius(cfg, clotRadius) + cfg.safety, f.pos, 1),
        Scale(f.tangent, d.stuckOffset * cfg.stackFactor))
  }

  /** The parked position is the first clear test position moved back along the tangent by
      the particle's stack offset. */
  lemma StuckTargetClear(cfg: PopulationConfig, d: Descriptor, path: Curve, f: Flow, clot: Vec3, clotRadius: real, k: nat)
    requires 1 <= k <= SearchSteps
    requires DistAtLeast(TestPos(path, f.clampedT, f.offset, k), clot, CollisionRadius(cfg, clotRadius) + cfg.safety)
    requires forall s :: 1 <= s < k ==> !DistAtLeast(TestPos(path, f.clampedT, f.offset, s), clot, CollisionRadius(cfg, clotRadius) + cfg.safety)
    ensures StuckTarget(cfg, d, path, f, clot, clotRadius)
         == Sub(TestPos(path, f.clampedT, f.offset, k), Scale(f.tangent, d.stuckOffset * cfg.stackFactor))
  {
    SearchFindsFirst(path, f.clampedT, f.offset, clot, CollisionRadius(cfg, clotRadius) + cfg.safety, f.pos, 1, k);
  }

  /** When none of the 60 steps is clear, the particle is parked at its colliding free-flow
      position moved back by the same amount. */
  lemma StuckTargetBlocked(cfg: PopulationConfig, d: Descriptor, path: Curve, f: Flow, clot: Vec3, clotRadius: real)
    requires forall s :: 1 <= s <= SearchSteps ==> !DistAtLeast(TestPos(path, f.clampedT, f.offset, s), clot, CollisionRadius(cfg, clotRadius) + cfg.safety)
    ensures StuckTarget(cfg, d, path, f, clot, clotRadius) == Sub(f.pos, Scale(f.tangent, d.stuckOffset * cfg.stackFactor))
  {
    SearchKeepsOriginal(path, f.clampedT, f.offset, clot, CollisionRadius(cfg, clotRadius) + cfg.safety, f.pos, 1);
  }

  /** The collision branch for a particle without a cache entry: the backward search with the
      population's safety margin, then the stacking shift back along the tangent. */
  method ParkParticle(cfg: PopulationConfig, d: Descriptor, path: Curve, f: Flow, clot: Vec3, clotRadius: real)
    returns (safePos: Vec3)
    ensures safePos == StuckTarget(cfg, d, path, f, clot, clotRadius)
  {
    var collisionRadius := CollisionRadius(cfg, clotRadius);
    var searched := BackwardSearch(path, f.clampedT, f.offset, clot, collisionRadius + cfg.safety, f.pos);
    var stackOffset := d.stuckOffset * cfg.stackFactor;
    safePos := Sub(searched, Scale(f.tangent, stackOffset));
  }

  /** Three `Math.random()` draws, each in `[0, 1)`. */
  predicate UnitDraws(rand: Vec3) {
    0.0 <= rand.x < 1.0 && 0.0 <= rand.y < 1.0 && 0.0 <= rand.z < 1.0
  }

  /** `(r - 0.5) * amp` for a draw `r` in `[0, 1)` lies within half the amplitude of zero. */
  lemma CenteredDraw(r: real, amp: real, v: real)
    requires 0.0 <= r < 1.0 && amp >= 0.0 && v == (r - 0.5) * amp
    ensures -amp / 2.0 <= v <= amp / 2.0
  {
    MulMonotone(amp, -0.5, r - 0.5);
    MulMonotone(amp, r - 0.5, 0.5);
  }

  /** The random jitter fixed when a particle sticks. */
  function Jitter(cfg: PopulationConfig, rand: Vec3): Vec3 {
    Vec3((rand.x - 0.5) * cfg.jitterAmp, (rand.y - 0.5) * cfg.jitterAmp, (rand.z - 0.5) * cfg.jitterAmp)
  }

  /** Each component of the vector lies within `h` of zero. */
  predicate WithinOfZero(v: Vec3, h: real) {
    -h <= v.x <= h && -h <= v.y <= h && -h <= v.z <= h
  }

  /** Each component of the fixed jitter lies within half the population's amplitude of zero. */
  lemma JitterBound(cfg: PopulationConfig, rand: Vec3)
    requires cfg.jitterAmp >= 0.0 && UnitDraws(rand)
    ensures WithinOfZero(Jitter(cfg, rand), cfg.jitterAmp / 2.0)
  {
    var a := cfg.jitterAmp;
    var j := Jitter(cfg, rand);
    CenteredDraw(rand.x, a, j.x);
    CenteredDraw(rand.y, a, j.y);
    CenteredDraw(rand.z, a, j.z);
  }

  /** The continuous jitter added to a stuck particle's cached position. */
  function LiveOffset(cfg: PopulationConfig, time: real, i: nat, m: MathFns): Vec3 {
    var l := cfg.live;
    Vec3(m.sin(time * l.fx + i as real) * l.amp, m.cos(time * l.fy + i as real) * l.amp, m.sin(time * l.fz + i as real) * l.ampZ)
  }

  /** What one particle's update does to its population's cache: only key `i` can change; it is
      removed once the clot is cleared or the particle is clear of it, kept unchanged while the
      particle is colliding, and created only for a colliding particle on path 0. */
  function CacheStep(cache: map<nat, StuckEntry>, i: nat, cfg: PopulationConfig, d: Descriptor, path: Curve,
                     f: Flow, clot: Option<Vec3>, clotRadius: real, cleared: bool, rand: Vec3): (c: map<nat, StuckEntry>)
    ensures forall k :: k != i ==> (k in c <==> k in cache) && (k in c ==> c[k] == cache[k])
    ensures cleared ==> i !in c
    ensures clot.Some? && !cleared && d.pathIndex == 0 && !Colliding(cfg, d, f, clot, clotRadius, cleared) ==> i !in c
    ensures Colliding(cfg, d, f, clot, clotRadius, cleared) ==> i in c
    ensures i in cache && i in c ==> c[i] == cache[i]
    ensures i in c && i !in cache ==> d.pathIndex == 0 && Colliding(cfg, d, f, clot, clotRadius, cleared)
                                      && c[i] == StuckEntry(StuckTarget(cfg, d, path, f, clot.value, clotRadius), Jitter(cfg, rand))
  {
    if clot.Some? && !cleared && d.pathIndex == 0 then
      if DistLess(f.pos, clot.value, CollisionRadius(cfg, clotRadius)) then
        if i in cache then cache
        else cache[i := StuckEntry(StuckTarget(cfg, d, path, f, clot.value, clotRadius), Jitter(cfg, rand))]
      else cache - {i}
    else if cleared then cache - {i}
    else cache
  }

  /** Everything one frame of a population reads besides its own cache. */
  datatype FrameInput = FrameInput(
    paths: seq<Curve>,
    clot: Option<Vec3>,
    clotRadius: real,
    cleared: bool,
    time: real,
    rands: seq<Vec3>,   // the `Math.random()` draws a newly stuck particle would use
    m: MathFns)

  /** The update of particle `i`: the new cache and the position drawn, `None` when the
      particle's path does not exist and the source skips it. */
  function Step(cfg: PopulationConfig, data: seq<Descriptor>, cache: map<nat, StuckEntry>, i: nat, inp: FrameInput)
    : (r: (map<nat, StuckEntry>, Option<Vec3>))
    requires i < |data| && i < |inp.rands|
  {
    var d := data[i];
    if d.pathIndex >= |inp.paths| then (cache, None)
    else
      var path := inp.paths[d.pathIndex];
      var f := FreeFlow(cfg, d, path, inp.time, inp.m);
      var c := CacheStep(cache, i, cfg, d, path, f, inp.clot, inp.clotRadius, inp.cleared, inp.rands[i]);
      if Colliding(cfg, d, f, inp.clot, inp.clotRadius, inp.cleared) then
        (c, Some(Add(Add(c[i].pos, c[i].jitter), LiveOffset(cfg, inp.time, i, inp.m))))
      else (c, Some(f.pos))
  }

  /** Once the clot is cleared no particle is drawn from the cache: every drawn position is
      the free-flow position. */
  lemma ClearedDrawsFreeFlow(cfg: PopulationConfig, data: seq<Descriptor>, cache: map<nat, StuckEntry>, i: nat, inp: FrameInput)
    requires i < |data| && i < |inp.rands| && inp.cleared && data[i].pathIndex < |inp.paths|
    ensures Step(cfg, data, cache, i, inp).1
         == Some(FreeFlow(cfg, data[i], inp.paths[data[i].pathIndex], inp.time, inp.m).pos)
    ensures i !in Step(cfg, data, cache, i, inp).0
  {}

  /** The cache after the first `n` particles of a frame have been updated in index order. */
  function FrameCache(cfg: PopulationConfig, data: seq<Descriptor>, cache: map<nat, StuckEntry>, inp: FrameInput, n: nat)
    : map<nat, StuckEntry>
    requires n <= |data| && |data| <= |inp.rands|
  {
    if n == 0 then cache else Step(cfg, data, FrameCache(cfg, data, cache, inp, n - 1), n - 1, inp).0
  }

  /** What particle `k` draws in a frame: its step after the particles before it have updated the cache. */
  function FrameDrawn(cfg: PopulationConfig, data: seq<Descriptor>, cache: map<nat, StuckEntry>, inp: FrameInput, k: nat)
    : Option<Vec3>
    requires k < |data| && |data| <= |inp.rands|
  {
    Step(cfg, data, FrameCache(cfg, data, cache, inp, k), k, inp).1
  }

  /** Particle `i`'s step, taken on the cache the particles before it left, gives the next
      cache and what particle `i` draws. */
  lemma FrameStep(cfg: PopulationConfig, data: seq<Descriptor>, cache: map<nat, StuckEntry>, inp: FrameInput, i: nat)
    requires i < |data| && |data| <= |inp.rands|
    ensures (FrameCache(cfg, data, cache, inp, i + 1), FrameDrawn(cfg, data, cache, inp, i))
            == Step(cfg, data, FrameCache(cfg, data, cache, inp, i), i, inp)
  {}

  /** The cache invariant: entries exist only for particles of the population that flow on path 0. */
  ghost predicate CacheValid(data: seq<Descriptor>, cache: map<nat, StuckEntry>) {
    forall k :: k in cache ==> k < |data| && data[k].pathIndex == 0
  }

  /** A frame never touches the keys of particles it has not reached, and keeps the invariant. */
  lemma {:induction false} FrameCacheFrame(cfg: PopulationConfig, data: seq<Descriptor>, cache: map<nat, StuckEntry>, inp: FrameInput, n: nat)
    requires n <= |data| && |data| <= |inp.rands|
    ensures forall k :: k >= n ==> (k in FrameCache(cfg, data, cache, inp, n) <==> k in cache)
    ensures forall k :: k >= n && k in cache ==> FrameCache(cfg, data, cache, inp, n)[k] == cache[k]
    ensures CacheValid(data, cache) ==> CacheValid(data, FrameCache(cfg, data, cache, inp, n))
  {
    if n > 0 {
      FrameCacheFrame(cfg, data, cache, inp, n - 1);
    }
  }

  /** In a frame where the clot is cleared, every particle that has a path loses its entry. */
  lemma {:induction false} FrameCacheCleared(cfg: PopulationConfig, data: seq<Descriptor>, cache: map<nat, StuckEntry>, inp: FrameInput, n: nat)
    requires n <= |data| && |data| <= |inp.rands| && inp.cleared
    ensures forall k :: k < n && k in FrameCache(cfg, data, cache, inp, n) ==> data[k].pathIndex >= |inp.paths|
  {
    if n > 0 {
      FrameCacheCleared(cfg, data, cache, inp, n - 1);
      FrameCacheStep(cfg, data, cache, inp, n);
    }
  }

  /** Particle `n - 1`'s step changes only its own key, and in a cleared frame keeps that key
      only when the particle's path does not exist. */
  lemma FrameCacheStep(cfg: PopulationConfig, data: seq<Descriptor>, cache: map<nat, StuckEntry>, inp: FrameInput, n: nat)
    requires 0 < n <= |data| && |data| <= |inp.rands|
    ensures forall k :: k != n - 1 ==> (k in FrameCache(cfg, data, cache, inp, n) <==> k in FrameCache(cfg, data, cache, inp, n - 1))
    ensures forall k :: k != n - 1 && k in FrameCache(cfg, data, cache, inp, n - 1)
                        ==> FrameCache(cfg, data, cache, inp, n)[k] == FrameCache(cfg, data, cache, inp, n - 1)[k]
    ensures inp.cleared && n - 1 in FrameCache(cfg, data, cache, inp, n) ==> data[n - 1].pathIndex >= |inp.paths|
  {
    var prev := FrameCache(cfg, data, cache, inp, n - 1);
    assert FrameCache(cfg, data, cache, inp, n) == Step(cfg, data, prev, n - 1, inp).0;
  }

  /** A whole frame in which the clot is cleared empties a valid cache, as long as path 0 exists. */
  lemma FrameClearsCache(cfg: PopulationConfig, data: seq<Descriptor>, cache: map<nat, StuckEntry>, inp: FrameInput)
    requires |data| <= |inp.rands|
    ensures CacheValid(data, cache) && inp.cleared && |inp.paths| > 0 ==> FrameCache(cfg, data, cache, inp, |data|) == map[]
  {
    if CacheValid(data, cache) && inp.cleared && |inp.paths| > 0 {
      var c := FrameCache(cfg, data, cache, inp, |data|);
      FrameCacheFrame(cfg, data, cache, inp, |data|);
      FrameCacheCleared(cfg, data, cache, inp, |data|);
      assert c.Keys == {};
    }
  }

  /** One particle population: its configuration, its descriptors and its stuck-position cache,
      which persists across frames. */
  class Population {
    const cfg: PopulationConfig
    const data: seq<Descriptor>
    var stuck: map<nat, StuckEntry>

    ghost predicate Valid()
      reads this
    {
      CacheValid(data, stuck)
    }

    constructor (cfg: PopulationConfig, data: seq<Descriptor>)
      ensures this.cfg == cfg && this.data == data
      ensures stuck == map[] && Valid()
    {
      this.cfg := cfg;
      this.data := data;
      stuck := map[];
    }

    /** The body of the per-particle loop for particle `i`. */
    method UpdateParticle(i: nat, inp: FrameInput) returns (drawn: Option<Vec3>)
      requires i < |data| && i < |inp.rands|
      modifies this
      ensures (stuck, drawn) == Step(cfg, data, old(stuck), i, inp)
    {
      var d := data[i];
      if d.pathIndex >= |inp.paths| {
        return None;
      }
      var path := inp.paths[d.pathIndex];
      var f := FreeFlow(cfg, d, path, inp.time, inp.m);
      var pos := f.pos;
      if inp.clot.Some? && !inp.cleared && d.pathIndex == 0 {
        var collisionRadius := CollisionRadius(cfg, inp.clotRadius);
        if DistLess(f.pos, inp.clot.value, collisionRadius) {
          if i !in stuck {
            var safePos := ParkParticle(cfg, d, path, f, inp.clot.value, inp.clotRadius);
            stuck := stuck[i := StuckEntry(safePos, Jitter(cfg, inp.rands[i]))];
          }
          assert stuck == CacheStep(old(stuck), i, cfg, d, path, f, inp.clot, inp.clotRadius, inp.cleared, inp.rands[i]);
          var entry := stuck[i];
          pos := Add(Add(entry.pos, entry.jitter), LiveOffset(cfg, inp.time, i, inp.m));
        } else {
          stuck := stuck - {i};
        }
      } else if inp.cleared {
        stuck := stuck - {i};
      }
      drawn := Some(pos);
    }

    /** Particle `i`'s update, taken after the particles before it in the same frame. */
    method UpdateNext(i: nat, inp: FrameInput, ghost start: map<nat, StuckEntry>) returns (p: Option<Vec3>)
      requires i < |data| && |data| <= |inp.rands|
      requires stuck == FrameCache(cfg, data, start, inp, i)
      modifies this
      ensures stuck == FrameCache(cfg, data, start, inp, i + 1)
      ensures p == FrameDrawn(cfg, data, start, inp, i)
    {
      p := UpdateParticle(i, inp);
      FrameStep(cfg, data, start, inp, i);
    }

    /** The per-particle loop of one frame: every particle in index order. */
    method UpdateAll(inp: FrameInput) returns (drawn: seq<Option<Vec3>>)
      requires |data| <= |inp.rands|
      modifies this
      ensures stuck == FrameCache(cfg, data, old(stuck), inp, |data|)
      ensures |drawn| == |data|
      ensures forall k :: 0 <= k < |data| ==> drawn[k] == FrameDrawn(cfg, data, old(stuck), inp, k)
    {
      ghost var start := stuck;
      ghost var want := seq(|data|, k requires 0 <= k < |data| => FrameDrawn(cfg, data, start, inp, k));
      drawn := [];
      var i := 0;
      while i < |data|
        invariant 0 <= i <= |data|
        invariant stuck == FrameCache(cfg, data, start, inp, i)
        invariant drawn == want[..i]
      {
        var p := UpdateNext(i, inp, start);
        assert want[..i + 1] == want[..i] + [p];
        drawn := drawn + [p];
        i := i + 1;
      }
      assert drawn == want;
    }

    /** One frame: the particle loop keeps the cache invariant, and a cleared frame empties the cache. */
    method Frame(inp: FrameInput) returns (drawn: seq<Option<Vec3>>)
      requires Valid() && |data| <= |inp.rands|
      modifies this
      ensures Valid()
      ensures stuck == FrameCache(cfg, data, old(stuck), inp, |data|)
      ensures |drawn| == |data|
      ensures forall k :: 0 <= k < |data| ==> drawn[k] == FrameDrawn(cfg, data, old(stuck), inp, k)
      ensures inp.cleared && |inp.paths| > 0 ==> stuck == map[]
    {
      ghost var start := stuck;
      drawn := UpdateAll(inp);
      FrameCacheFrame(cfg, data, start, inp, |data|);
      FrameClearsCache(cfg, data, start, inp);
    }
  }

  /** The three populations of `BloodParticles` for a total particle count. */
  method BloodParticles(count: nat, sqrt: Root) returns (red: Population, white: Population, platelets: Population)
    ensures fresh(red) && fresh(white) && fresh(platelets)
    ensures red.cfg == RedCells && red.data == ParticleData(RedCount(count), RedSeed, sqrt)
    ensures white.cfg == WhiteCells && white.data == ParticleData(WhiteCount(count), WhiteSeed, sqrt)
    ensures platelets.cfg == Platelets && platelets.data == ParticleData(PlateletCount(count), PlateletSeed, sqrt)
    ensures red.stuck == white.stuck == platelets.stuck == map[]
  {
    red := new Population(RedCells, ParticleData(RedCount(count), RedSeed, sqrt));
    white := new Population(WhiteCells, ParticleData(WhiteCount(count), WhiteSeed, sqrt));
    platelets := new Population(Platelets, ParticleData(PlateletCount(count), PlateletSeed, sqrt));
  }
}
