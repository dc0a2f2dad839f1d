# Cognition Medical site: a verified model of its animation, navigation and theme logic

This project is a Dafny model of the logic behind the Cognition Medical web site. The site
shows a scroll-driven 3-D thrombectomy animation: a catheter advances through a branching
vessel network, reaches a clot and aspirates it, while blood cells flow past and pile up
against the clot until it is cleared. The vessels and the clot are implicit surfaces
built from metaballs. Around the animation sit 2-D illustrations driven by the same scroll
progress, the site header, the sitemap and a light/dark/system theme switch.

Everything below is a function of a scroll progress `p` in `[0, 1]`, of the frame time or
of the user's choices. The model states that logic over `real`, and proves what it
promises.

Modules, one per source concern:

- `Numerics`: the JavaScript `Math` operations the code uses: clamping, `%` with its sign
  rule, floor and ceiling, and the fractional part. `Math.sin`, `Math.cos`, `Math.sqrt` and
  `Math.pow(x, 0.6)` are function parameters whose subset types carry the range facts the
  proofs need.
- `Geometry`: vectors, and the Catmull-Rom centerline as the scene queries it (point,
  tangent, length, `getPoints(20)`).
- The 3-D scene (`VascularScene3D`):
  - `ClotLifecycle`: the contact, aspirating and complete phases, the dissolve amount and
    the clot group's per-frame pose.
  - `BloodFlow`: the particle descriptors, the population sizes, the radial bounds and the
    free-flow position.
    - It also holds the bounded backward search for a clear position and the stuck-position
      cache, a map that every frame updates in place (class `Population`).
  - `CatheterTube`: the tube's 100-point list.
  - `Debris`: the aspirated fragments' schedule.
- The metaball generators (`SDFVesselGen`):
  - `SdfField`: the padded bounding box, the world-to-grid mapping and the marching-cubes
    object as a class whose `addBall` appends to a list.
  - `SdfVessel`: the vessel generator with its optional clot block.
  - `SdfClot`: the standalone clot generator.
- The pages and layout:
  - `CatheterPath`: the eased 2-D path.
  - `Journey`: the journey section's scroll progress, its one-pending-frame throttle and its
    panels.
  - `Network`: the vessel drawing's reveal schedule.
  - `Illustration`: the catheter illustration's draw-on schedule.
  - `Header`: the locale read from the pathname, the highlighted link, and the menu with its
    body-scroll lock.
  - `Sitemap`: the sitemap's nested loops.
  - `Theme`: the theme provider.
  - `ThemeToggle`: the theme button.

The journey logic appears twice in the source: once in `VascularJourney` and once in the
3-D scene (components/home/VascularScene3D.tsx:1576-1607). It is modelled once, in `Journey`.
The three blood-cell populations (red cells, white cells, platelets) run the same frame code
with different constants. They are modelled as one `Population` class with a
`PopulationConfig` per population.

In a few places the code does something a reader might not expect; the model follows the code:

- A stuck particle is not guaranteed to sit clear of the clot. If none of the 60 backward
  steps clears the threshold, the search keeps the original, colliding position. The stack
  offset is then added, and a cached position is reused without a new check. `SearchOutcome`
  states exactly this outcome.
- The clot's pose is not a function of the current `p` alone: see Findings.
- The theme stored in local storage is read back without validation. Any non-empty string
  becomes the theme and is written to `data-theme` unchanged. The toggle then shows no icon,
  and its title reads "System". See `Theme.StoredThemeRoundTrip` and
  `ThemeToggle.OneIconShown`.

## Model

| member | source | states |
|---|---|---|
| Numerics.Clamp | components/home/CatheterPath.tsx:31 | `Math.max(lo, Math.min(hi, x))` lies in `[lo, hi]`, is `x` inside the range and the nearer bound outside it |
| Numerics.Ceil | components/home/SDFVesselGen.tsx:241 | `Math.ceil(x)` is the least integer not below `x` |
| Numerics.JsRemRange | components/home/VascularNetwork.tsx:25 | JavaScript `%` on a non-negative dividend lands in `[0, m)`, differs from `x` by whole multiples of `m`, and leaves `x < m` unchanged |
| Numerics.JsMod1 | components/home/VascularScene3D.tsx:442 | `x % 1` on non-negative input lies in `[0, 1)` and is the identity on `[0, 1)` |
| Numerics.Fract | components/home/SDFVesselGen.tsx:69 | `x - Math.floor(x)` lies in `[0, 1)` and adds back to `x` with the floor |
| Numerics.EasingRange | components/home/VascularScene3D.tsx:1323 | `pow(x, 0.6)` maps `[0, 1]` into itself, keeps 0 below 1 and positive input positive |
| Geometry.Points20 | components/home/SDFVesselGen.tsx:183 | `getPoints(20)` yields 21 points, point `d` at parameter `d / 20` |
| ClotLifecycle.PhasesExclusive | components/home/VascularScene3D.tsx:1317-1319 | contact, aspirating and complete are pairwise exclusive, none holds below 0.48, one holds from 0.48 on, and the scene's `clotCleared` (line 1498) is exactly `isComplete` |
| ClotLifecycle.Dissolve | components/home/VascularScene3D.tsx:1322-1324 | the dissolve amount lies in `[0, 1]`; it is 0 up to and at 0.50, 1 from 0.75 on, below 1 while aspirating and positive past 0.50 |
| ClotLifecycle.DissolveMonotone | components/home/VascularScene3D.tsx:1322-1324 | more progress never lowers the dissolve amount |
| ClotLifecycle.ShaderProgressIsDissolve | components/home/VascularScene3D.tsx:1026 | the shader's `uProgress` (`isAspirating ? progress : 0`, with `isAspirating` set at line 1356) always equals the dissolve amount |
| ClotLifecycle.TipParam | components/home/VascularScene3D.tsx:225 | the catheter tip parameter lies in `[0.001, 0.999]` and is the progress itself inside that range |
| ClotLifecycle.AsWrittenHidesClotAfterScrollBack | components/home/VascularScene3D.tsx:1326-1346 | with the frame as written, progress 0.8 then 0.6 leaves the clot at scale 0 while it is aspirating and only partly dissolved |
| ClotLifecycle.ClotFrameIsLevelTriggered | components/home/VascularScene3D.tsx:1326-1346 | with the corrected frame the clot is hidden exactly when complete; otherwise its pose does not depend on earlier frames, its scale is within 2% of 1, and it is exactly 1 while aspirating |
| ClotLifecycle.ClotRig.constructor | components/home/VascularScene3D.tsx:1293 | the clot group starts at unit scale with no offset |
| ClotLifecycle.ClotRig.Frame | components/home/VascularScene3D.tsx:1326-1346 | one frame sets the pose to the corrected frame of the old pose, and the clot is hidden exactly when the procedure is complete |
| BloodFlow.Describe | components/home/VascularScene3D.tsx:811-833 | a descriptor has path `i % 2`, speed in `[0.06, 0.10)`, wobble in `[0.008, 0.023)`, offset, radial fraction and stack offset in `[0, 1)`, angle in `[0, 2π)` |
| BloodFlow.ParticleData | components/home/VascularScene3D.tsx:811-812 | `generateParticleData(count, seed)` has `count` descriptors |
| BloodFlow.ParticleDataPrefix | components/home/VascularScene3D.tsx:811-833 | a descriptor depends only on its index and seed offset: a shorter array is a prefix of a longer one |
| BloodFlow.WhiteCount | components/home/VascularScene3D.tsx:807 | there are always at least three white cells |
| BloodFlow.PopulationTotal | components/home/VascularScene3D.tsx:806-808 | the three populations exceed the total by at most the three-white-cell minimum, and not at all from 300 particles on |
| BloodFlow.SceneCounts | components/home/VascularScene3D.tsx:1520-1526 | the scene's 400 particles are 376 red cells, 4 white cells and 20 platelets |
| BloodFlow.RadialBounds | components/home/VascularScene3D.tsx:791-803 | the inner bound is 0.02 and below the outer one; the outer bound is the trunk's maximum exactly when `t < 0.5` and smaller on either branch |
| BloodFlow.FlowParam | components/home/VascularScene3D.tsx:442 | the flow parameter lies in `[0, 1)` for non-negative offset, time and speed |
| BloodFlow.FreeFlow | components/home/VascularScene3D.tsx:442-460 | the free-flow position is the path point at the clamped parameter, in `[0, 1]`, plus the radial offset, and the tangent is the path's there |
| BloodFlow.SafeT | components/home/VascularScene3D.tsx:475 | each search parameter lies in `[0, clampedT]` and is `clampedT - 0.008 * step` unless clamped to 0 |
| BloodFlow.SearchOutcome | components/home/VascularScene3D.tsx:473-485 | the search returns the first test position at least the threshold from the clot, or the original position when none of the 60 steps is |
| BloodFlow.SearchFindsFirst | components/home/VascularScene3D.tsx:473-485 | if step `k` is the first clear step from `from` on, the search returns its test position |
| BloodFlow.SearchKeepsOriginal | components/home/VascularScene3D.tsx:473-485 | if no step from `from` to 60 is clear, the search returns the original position |
| BloodFlow.BackwardSearch | components/home/VascularScene3D.tsx:473-485 | the loop computes exactly that search |
| BloodFlow.JitterBound | components/home/VascularScene3D.tsx:494-498 | each component of the fixed jitter lies within half the population's amplitude of zero |
| BloodFlow.CacheStep | components/home/VascularScene3D.tsx:462-512 | a particle's update touches only its own key. When the clot is cleared, or the particle is clear of it, the entry is removed. A colliding particle has an entry, an existing entry is reused unchanged, and a new entry is created only for a colliding path-0 particle |
| BloodFlow.ClearedDrawsFreeFlow | components/home/VascularScene3D.tsx:509-512 | once the clot is cleared, the particle is drawn at its free-flow position and has no cache entry |
| BloodFlow.FrameCacheFrame | components/home/VascularScene3D.tsx:437-512 | part-way through a frame, the keys not yet reached are untouched, and the cache keeps holding only path-0 particles of the population |
| BloodFlow.FrameCacheStep | components/home/VascularScene3D.tsx:437-512 | one particle's step changes only its own key, and in a cleared frame keeps that key only when the particle has no path |
| BloodFlow.FrameCacheCleared | components/home/VascularScene3D.tsx:509-512 | in a cleared frame every particle already updated that has a path has lost its entry |
| BloodFlow.FrameClearsCache | components/home/VascularScene3D.tsx:509-512 | a whole cleared frame empties a valid cache, so every stuck particle resumes flowing in that same frame |
| BloodFlow.Population.constructor | components/home/VascularScene3D.tsx:431 | a population starts with its descriptors and an empty cache |
| BloodFlow.Population.UpdateParticle | components/home/VascularScene3D.tsx:437-523 | one particle's update sets the cache and the drawn position to the specified step |
| BloodFlow.ParkParticle | components/home/VascularScene3D.tsx:473-490 | a new stuck position is the backward search's result shifted back along the tangent by stuckOffset times the population's stack factor |
| BloodFlow.StuckTargetClear | components/home/VascularScene3D.tsx:473-490 | when step `k` is the first of the 60 backward steps clear of the clot, the particle is parked at that step's test position moved back along the tangent by stuckOffset times the stack factor |
| BloodFlow.StuckTargetBlocked | components/home/VascularScene3D.tsx:473-490 | when none of the 60 steps is clear, the particle is parked at its colliding free-flow position moved back by the same amount |
| BloodFlow.Population.UpdateNext | components/home/VascularScene3D.tsx:437-523 | updating particle `i` advances the cache by one step of the frame and draws the position the frame specifies for it |
| BloodFlow.Population.UpdateAll | components/home/VascularScene3D.tsx:437-524 | the loop updates the particles in index order, and the cache and the drawn positions are as specified |
| BloodFlow.Population.Frame | components/home/VascularScene3D.tsx:437-524 | a frame updates the particles in index order: it draws each one as specified, keeps the cache invariant, and empties the cache when the clot is cleared |
| BloodFlow.BloodParticles | components/home/VascularScene3D.tsx:806-837 | the three populations get their sizes, configurations, seed offsets 0, 1000 and 2000, and empty caches |
| CatheterTube.SegmentTSchedule | components/home/VascularScene3D.tsx:232-236 | the 60 backward samples start at the tip, end at the path start and never move forward |
| CatheterTube.ExtensionSpacing | components/home/VascularScene3D.tsx:239-252 | the extension starts at the path start, and consecutive extension points are 0.375 apart along the start tangent |
| CatheterTube.BackwardSamples | components/home/VascularScene3D.tsx:231-236 | the first loop yields exactly 60 points, point `k` being the path at `max(0, t * (1 - k / 59))` |
| CatheterTube.Extension | components/home/VascularScene3D.tsx:238-252 | the second loop keeps the 60 samples and appends the 40 extension points, point `k` lying `k / 40 * 15` behind the start along the start tangent |
| CatheterTube.Catheter | components/home/VascularScene3D.tsx:224-256 | the tube has the 60 samples then the 40 extension points, 100 in all. The `< 2` guard never fires, the first point is the tip, and the 60th is the path start |
| Debris.FragmentData | components/home/VascularScene3D.tsx:1095-1124 | fragment `i` spawns at `0.85 * i / 80`, lives `[0.15, 0.27)` and has a size in `[0.012, 0.07)` |
| Debris.FragmentScaleSchedule | components/home/VascularScene3D.tsx:1137-1166 | a fragment is drawn exactly while `0 < localProgress < 1`. Its scale stays within `[0, size]`, is full between 0.1 and 0.85, and is smaller while fading in or out |
| Debris.FragmentsAllShown | components/home/VascularScene3D.tsx:1103 | fragments spawn in index order, by 0.85, and each is visible at some dissolve amount below 1 |
| Debris.Halfway | components/home/VascularScene3D.tsx:1135 | halfway through its lifetime a fragment's local progress is exactly one half |
| Debris.ScaleAt | components/home/VascularScene3D.tsx:1135-1166 | one fragment's scale as the loop computes it equals the scheduled scale and lies within `[0, size]` |
| Debris.DebrisFrame | components/home/VascularScene3D.tsx:1126-1181 | nothing is drawn unless aspirating; otherwise each of the 80 fragments gets its scheduled scale, within `[0, size]` |
| SdfField.SampledPoints | components/home/SDFVesselGen.tsx:182-189 | the box is taken over 21 points per path |
| SdfField.BoundsExact | components/home/SDFVesselGen.tsx:180-189 | the min/max fold gives a box exactly when there are points; it holds every point and each of its bounds is reached |
| SdfField.BoundsWithin | components/home/SDFVesselGen.tsx:180-189 | every sampled point lies within the folded box |
| SdfField.BoundsTight | components/home/SDFVesselGen.tsx:180-189 | each of the six bounds of the folded box is a coordinate of some sampled point |
| SdfField.ExtendAll | components/home/SDFVesselGen.tsx:185-188 | the inner loop extends the box by each of one path's points in order, giving the fold over the points seen so far |
| SdfField.ComputeBounds | components/home/SDFVesselGen.tsx:180-189 | the nested loops compute that fold, which is empty exactly when there are no paths |
| SdfField.PaddedFrame | components/home/SDFVesselGen.tsx:191-195 | after padding, every extent is at least 3, so `worldToGrid` never divides by zero, and every sampled point lies at least 1.5 inside the volume |
| SdfField.GridMapping | components/home/SDFVesselGen.tsx:205-235 | `worldToGrid` sends the volume's corners to 0 and 1, and the field object's transform (center position, half-extent scale, local `2u - 1`) inverts it both ways |
| SdfField.InfluenceProportional | components/home/SDFVesselGen.tsx:257-266 | a ball's influence is positive for a positive radius, proportional to the radius and monotone in it |
| SdfField.MarchingField.constructor | components/home/SDFVesselGen.tsx:170-173 | a new field has the given resolution and no balls |
| SdfField.MarchingField.Place | components/home/SDFVesselGen.tsx:205-209 | the position becomes the volume's center and the scale its half extent; nothing else changes |
| SdfField.MarchingField.Reset | components/home/SDFVesselGen.tsx:215 | `reset()` removes every ball and keeps the transform |
| SdfField.MarchingField.AddBall | components/home/SDFVesselGen.tsx:268 | `addBall` appends exactly one ball |
| SdfField.MarchingField.SetIsolation | components/home/SDFVesselGen.tsx:363 | only the iso level changes |
| SdfVessel.SampleSteps | components/home/SDFVesselGen.tsx:241 | the step count is `ceil(20 * length)`, at least 1 |
| SdfVessel.SampleTSpan | components/home/SDFVesselGen.tsx:243-244 | the samples start at 0, end at 1, stay in `[0, 1]` and strictly increase |
| SdfVessel.PathBalls | components/home/SDFVesselGen.tsx:238-270 | a path adds one ball per sample, `steps + 1` in all |
| SdfVessel.PathBallsCover | components/home/SDFVesselGen.tsx:238-270 | the first ball is at the path's start and the last at its end, all with the path radius's influence and subtract 12 |
| SdfVessel.VesselBallsCount | components/home/SDFVesselGen.tsx:238-270 | all paths together add one ball per sample |
| SdfVessel.SliceOffsets | components/home/SDFVesselGen.tsx:294 | the slices sit at -0.5, -0.25, 0, 0.25 and 0.5 clot lengths |
| SdfVessel.RingRadiusBound | components/home/SDFVesselGen.tsx:305 | every ring lies within 0.95 vessel radii, and the outermost ring exactly there |
| SdfVessel.Ring | components/home/SDFVesselGen.tsx:306-319 | ring `ring` has `6 + 2 * ring` balls |
| SdfVessel.RingsCount | components/home/SDFVesselGen.tsx:304-320 | rings 1 to `n` hold `6n + n(n + 1)` balls |
| SdfVessel.ClotBallsCount | components/home/SDFVesselGen.tsx:273-321 | a configured clot adds exactly 225 balls, and none without one |
| SdfVessel.AddPath | components/home/SDFVesselGen.tsx:239-269 | one path's sample loop appends exactly that path's balls, one per sample in order |
| SdfVessel.AddVesselPaths | components/home/SDFVesselGen.tsx:238-270 | the loop over the paths fills an empty field with every path's balls in path order |
| SdfVessel.AddRing | components/home/SDFVesselGen.tsx:308-319 | the innermost loop appends exactly the ring's balls |
| SdfVessel.AddSlice | components/home/SDFVesselGen.tsx:296-320 | one slice appends its center ball, then rings 1 to 4 |
| SdfVessel.AddClotBlock | components/home/SDFVesselGen.tsx:293-321 | the slice loop appends the five slices in order |
| SdfVessel.GenerateVessel | components/home/SDFVesselGen.tsx:163-363 | the field covers the padded volume and holds every path's balls, then the clot block, at iso level 80. That is one ball per sample plus 225 with a clot, and none when there are no paths |
| SdfClot.SeededRandom | components/home/SDFVesselGen.tsx:67-70 | `seededRandom` lies in `[0, 1)` |
| SdfClot.VisualRadiusValue | components/home/SDFVesselGen.tsx:63-64 | the visual radius is 1.26 clot radii |
| SdfClot.SampleT | components/home/SDFVesselGen.tsx:77-78 | every slice is sampled within `[0.01, 0.99]` |
| SdfClot.RingBallSizes | components/home/SDFVesselGen.tsx:102 | ring ball sizes are positive and shrink outward, from 0.3 to 0.2 visual radii |
| SdfClot.RingJitterBounds | components/home/SDFVesselGen.tsx:107-108 | the angle jitter lies in `[-0.2, 0.2)` and the radius factor in `[0.85, 1.15)` |
| SdfClot.Ring | components/home/SDFVesselGen.tsx:99-121 | ring `ring` has `6 + 3 * ring` balls |
| SdfClot.RingsUpToCount | components/home/SDFVesselGen.tsx:99-122 | rings 1 to `n` hold `6n + 3n(n + 1)/2` balls |
| SdfClot.BumpCount | components/home/SDFVesselGen.tsx:125 | a slice has 6, 7 or 8 bumps |
| SdfClot.BumpBounds | components/home/SDFVesselGen.tsx:129-130 | bump distances lie in `[0.5, 0.75)` and sizes in `[0.1, 0.18)` visual radii |
| SdfClot.Bumps | components/home/SDFVesselGen.tsx:126-140 | a slice adds one ball per bump |
| SdfClot.SliceCount | components/home/SDFVesselGen.tsx:89-140 | a slice adds 37 ring balls plus its bumps, 43 to 45 in all |
| SdfClot.SlicesUpToCount | components/home/SDFVesselGen.tsx:76-141 | `n` slices add between `43n` and `45n` balls |
| SdfClot.AddRing | components/home/SDFVesselGen.tsx:104-121 | the ball loop appends exactly the ring's balls |
| SdfClot.AddBumps | components/home/SDFVesselGen.tsx:126-140 | the bump loop appends exactly the slice's bumps |
| SdfClot.AddSlice | components/home/SDFVesselGen.tsx:76-141 | one slice appends its center ball, rings 1 to 3, then its bumps |
| SdfClot.GenerateClot | components/home/SDFVesselGen.tsx:21-143 | the field covers the same padded volume and holds the eight slices' balls, 344 to 360 in all, at iso level 80; with no vessel paths it holds none |
| CatheterPath.Segment | components/home/CatheterPath.tsx:31-32 | the clamped, scaled progress lies in `[0, 10]` |
| CatheterPath.SegmentIndex | components/home/CatheterPath.tsx:33-36 | the segment index lies in `0..10` and is 10 exactly when the progress is at least 1 |
| CatheterPath.LocalT | components/home/CatheterPath.tsx:34 | the position within the segment lies in `[0, 1)` |
| CatheterPath.EaseSchedule | components/home/CatheterPath.tsx:44 | the ease-out is 0 at 0, stays in `[0, 1)` on a segment and strictly increases |
| CatheterPath.LerpBetween | components/home/CatheterPath.tsx:46-50 | an interpolation with a weight in `[0, 1]` lies between its ends |
| CatheterPath.InterpolateClamped | components/home/CatheterPath.tsx:31-38 | progress at or below 0 gives the entry knot exactly, at or above 1 the last knot |
| CatheterPath.InterpolateAtKnot | components/home/CatheterPath.tsx:32-50 | at progress `k / 10` the catheter is exactly on knot `k`, so the path is continuous |
| CatheterPath.InterpolateBetween | components/home/CatheterPath.tsx:40-50 | below the end, x, y and rotation each lie between the two bracketing knots |
| CatheterPath.KnotsDescend | components/home/CatheterPath.tsx:13-25 | the knots' y values strictly increase |
| CatheterPath.InterpolateYInSegment | components/home/CatheterPath.tsx:40-50 | below the end, the vertical position lies between the knots bracketing the progress; at the end it is the last knot's |
| CatheterPath.InterpolateYSameSegment | components/home/CatheterPath.tsx:40-50 | within one segment, more progress never gives a higher position |
| CatheterPath.InterpolateYMonotone | components/home/CatheterPath.tsx:27-51 | more progress never moves the catheter back up the drawing |
| CatheterPath.Trail | components/home/CatheterPath.tsx:57-62 | there is one trailing position per offset |
| CatheterPath.TrailBehind | components/home/CatheterPath.tsx:57-62 | trail parameters are non-negative and never ahead of the progress, and each trailing position is no lower than the catheter and no higher than the trail before it |
| CatheterPath.AtTargetMeansPastTargetKnot | components/home/CatheterPath.tsx:65-68 | "at target" puts the tip at or past the "at target" knot. From 0.98 on the catheter has stopped moving and is at target. At 0.95 it is both moving and at target |
| Journey.ScrollProgress | components/home/VascularJourney.tsx:116-119 | the progress lies in `[0, 1]`; it is undefined (NaN) exactly for a zero numerator over a zero denominator |
| Journey.ScrollProgressMonotone | components/home/VascularJourney.tsx:116-119 | scrolling further never lowers the progress. It is 0 while the section's top is at or below the viewport's bottom, and 1 once the section is scrolled out |
| Journey.NextProgress | components/home/VascularJourney.tsx:107-124 | hidden sections and reduced motion keep the progress; a progress in `[0, 1]` stays there |
| Journey.ScrollThrottle.constructor | components/home/VascularJourney.tsx:131 | before the effect runs there is no listener, nothing is pending and the progress is 0 |
| Journey.ScrollThrottle.Attach | components/home/VascularJourney.tsx:127-145 | each run of the effect starts a new subscription with a fresh lowered flag, installs a listener and measures once exactly when visible, and keeps the callbacks earlier subscriptions left queued |
| Journey.ScrollThrottle.OnScroll | components/home/VascularJourney.tsx:132-140 | with a listener, a scroll queues one callback for the current subscription unless it already has one; without a listener nothing happens; every subscription has at most one callback queued |
| Journey.ScrollThrottle.RunFrame | components/home/VascularJourney.tsx:134-137 | the oldest queued callback measures with its own subscription's handler and lowers its own subscription's flag; the current flag drops only when that callback is the current subscription's, and then nothing is left queued |
| Journey.ResubscribeWhilePending | components/home/VascularJourney.tsx:127-145 | when the effect re-runs while a callback is queued, a scroll queues a second one, so two callbacks are pending |
| Journey.ActivePanel | components/home/VascularJourney.tsx:149-152 | the active panel is at most 3, and not negative for non-negative progress |
| Journey.ActivePanelSchedule | components/home/VascularJourney.tsx:149-152 | the active panel is non-decreasing in the progress. It is 0 below a quarter and at 0, and 3 from 0.75 on and at 1 |
| Journey.PanelProgress | components/home/VascularJourney.tsx:205-208 | a panel's own progress lies in `[0, 1]` |
| Journey.PanelProgressSchedule | components/home/VascularJourney.tsx:205-208 | panel `k` is at 0 up to `k / 4` and at 1 from `(k + 1) / 4` |
| Journey.PanelStates | components/home/VascularJourney.tsx:203-208 | exactly one panel is active, and it is the active panel. A past panel is not active and is complete. Panels after the active one have not started |
| Network.OpacitiesSchedule | components/home/VascularNetwork.tsx:13-21 | opacities lie in `[0, 1]`; the main vessel's only for non-negative progress. Each branch and the target is positive exactly past its start, and branch 1 ≥ branch 2 ≥ branch 3 |
| Network.OpacitiesMonotone | components/home/VascularNetwork.tsx:13-21 | more progress never dims any vessel |
| Network.ParticleYs | components/home/VascularNetwork.tsx:214-232 | there are three particles |
| Network.ParticlesWithinVessel | components/home/VascularNetwork.tsx:24-26 | the particle phase lies in `[0, 100)`, every particle's y lies in `[100, 400)`, and the motion repeats every 0.2 of progress |
| Network.ParticleGroupOpacity | components/home/VascularNetwork.tsx:211-212 | particles are drawn exactly past 0.2, at an opacity in `(0.2, 0.8]` |
| Network.SuccessRing | components/home/VascularNetwork.tsx:238-250 | the ring is drawn exactly past 0.85, with opacity in `(0, 1]`, scale above 1, and full opacity from `0.85 + 1/6` |
| Illustration.DashOffsetSchedule | components/home/CatheterIllustration.tsx:17-18 | the dash offset stays within the stroke, starts at 200, never grows, and is 0 from 5/6 on |
| Illustration.LumenOpacity | components/home/CatheterIllustration.tsx:103 | the lumen opacity never exceeds 0.5, is non-negative for non-negative progress, and is 0.5 from 1/3 on |
| Illustration.MarkersInOrder | components/home/CatheterIllustration.tsx:114-142 | when a later marker is visible every earlier one is |
| Illustration.TipOpacity | components/home/CatheterIllustration.tsx:155 | the tip is at 1 exactly for positive progress, otherwise 0.3 |
| Illustration.HubOpacity | components/home/CatheterIllustration.tsx:181 | the hub is shown, at 0.6, exactly past 0.5 |
| Illustration.HubShownLast | components/home/CatheterIllustration.tsx:17-181 | when the hub shows, over 60% of the stroke is drawn, all markers are visible and the tip glows |
| Header.Split | components/layout/Header.tsx:38 | `split` yields at least one piece and no piece contains the separator |
| Header.SplitJoin | components/layout/Header.tsx:38 | joining the pieces with the separator gives the string back |
| Header.JoinSplit | components/layout/Header.tsx:38 | splitting undoes joining separator-free pieces |
| Header.Locale | components/layout/Header.tsx:38 | the locale is non-empty and contains no slash |
| Header.LocaleOfPath | components/layout/Header.tsx:38 | `/<locale>` followed by nothing or by `/...` yields that locale |
| Header.LocaleExamples | components/layout/Header.tsx:38 | "/" gives "en", so does a slash-free path or an empty second piece; "/fr/about" gives "fr" |
| Header.NavItems | components/layout/Header.tsx:40-46 | there are five links, one per route |
| Header.RoutesDiverge | components/layout/Header.tsx:42-45 | the four non-home routes are at least five long and pairwise differ at their second or fourth character |
| Header.AtMostOneActive | components/layout/Header.tsx:48-53 | for any pathname and locale, at most one link is highlighted |
| Header.CurrentPageActive | components/layout/Header.tsx:38-53 | on a link's own page the locale is read back correctly and that link is highlighted |
| Header.HeaderState.constructor | components/layout/Header.tsx:15-16 | the header mounts unscrolled with the menu closed and the body free |
| Header.HeaderState.OnScroll | components/layout/Header.tsx:19-21 | the header is "scrolled" exactly past 20 pixels; the menu is untouched |
| Header.HeaderState.ToggleMenu | components/layout/Header.tsx:27-36 | the menu flips, and the body's overflow is "hidden" exactly while it is open |
| Header.HeaderState.CloseMenu | components/layout/Header.tsx:175-253 | the backdrop click, the Escape key, a mobile navigation link and the mobile call to action close the menu, and the body is freed |
| Header.HeaderState.Unmount | components/layout/Header.tsx:33-35 | the cleanup always frees the body |
| Sitemap.BaseUrl | app/sitemap.ts:5 | the configured address, or "https://cognitionmedical.com" when it is unset or empty |
| Sitemap.Entries | app/sitemap.ts:11-20 | there are `|locales| * |routes|` entries |
| Sitemap.BuildSitemap | app/sitemap.ts:9-22 | the nested loops produce exactly the locale-major entry list |
| Sitemap.EntryAt | app/sitemap.ts:11-14 | entry `i * |routes| + j` is route `j` of locale `i` |
| Sitemap.EntryRanking | app/sitemap.ts:16-17 | an entry is weekly, and has priority 1, exactly for a home route; otherwise it is monthly at 0.8 |
| Sitemap.UrlSuffixInjective | app/sitemap.ts:14 | a slash-free locale followed by a route determines both |
| Sitemap.UrlsDistinct | app/sitemap.ts:14 | with distinct slash-free locales and distinct routes, no two entries share a url |
| Sitemap.SiteSitemap | app/sitemap.ts:7-20 | the site's sitemap has 10 entries: "/en" and "/fr" weekly, the last "/fr/contact" at 0.8 |
| Sitemap.SiteInputsGood | i18n/routing.ts:3 | the site's locales and routes meet the distinctness conditions |
| Theme.SystemTheme | lib/theme.tsx:16-19 | the system theme is light or dark, and dark without a window |
| Theme.ResolveThemeSchedule | lib/theme.tsx:21-26 | resolving never yields "system" and keeps light and dark. Each site theme resolves to light or dark, and resolving twice changes nothing |
| Theme.InitialTheme | lib/theme.tsx:35-36 | the starting theme is never empty |
| Theme.StoredThemeRoundTrip | lib/theme.tsx:34-49 | a saved theme is loaded back. With nothing or "" stored the provider starts from "system". An unknown stored value is used and resolved as is |
| Theme.UseTheme | lib/theme.tsx:83-89 | reading the theme fails, with the source's message, exactly outside a provider |
| Theme.ThemeProvider.constructor | lib/theme.tsx:29-31 | the first render is "system", shown dark, unmounted |
| Theme.ThemeProvider.Mount | lib/theme.tsx:34-40 | the stored theme is restored and resolved, and nothing is written |
| Theme.ThemeProvider.RunEffects | lib/theme.tsx:43-65 | once mounted, `data-theme` shows the resolved theme and storage holds the theme; before mount nothing is written. The listener is on exactly while mounted on "system" |
| Theme.ThemeProvider.SystemChange | lib/theme.tsx:57-61 | only a registered listener reacts; it changes the shown theme and `data-theme`, never the theme or storage |
| Theme.ThemeProvider.SetTheme | lib/theme.tsx:67-69 | choosing a theme changes the theme state only |
| Theme.ThemeProvider.Render | lib/theme.tsx:72-80 | nothing is rendered before mount; afterwards the context carries the theme and resolved theme |
| Theme.Visit | lib/theme.tsx:34-50 | after mount, effects, a choice and its effects, the choice is saved and shown resolved, and a later visit restores it |
| ThemeToggle.CycleTheme | components/layout/ThemeToggle.tsx:9-17 | the next theme is always one of the site's three |
| ThemeToggle.CycleThemeOrder | components/layout/ThemeToggle.tsx:9-17 | on the site's themes the cycle has length three and no fixed point, and any other value goes to light |
| ThemeToggle.OneIconShown | components/layout/ThemeToggle.tsx:29-73 | for a site theme exactly one icon is shown and the title names the same theme. For any other value no icon is shown and the title says "System" |

## Left out

- The iso-surface extraction (`MarchingCubes.update`, `geometry.clone`, `applyMatrix4`, components/home/SDFVesselGen.tsx:143-150 and 363-386) is library code. The field is modelled as the list of balls added to it.
- Catmull-Rom evaluation (`getPoint`, `getTangent`, `getLength`) is library code. A curve is a value with point and tangent functions and a positive length, and `getPoints(20)` is `Geometry.Points20`.
- Floating point is modelled as `real`. `Math.sin`, `Math.cos`, `Math.sqrt` and `Math.pow(x, 0.6)` are parameters constrained only by their ranges and monotonicity, so no exact value of them is modelled.
- The GLSL dissolve shader (components/home/VascularScene3D.tsx:880-1010) is GPU code; only its `uProgress` uniform is modelled.
- `Math.random()` is a parameter: the three draws behind a stuck particle's jitter are an input of each frame. The random vertex deformations of the platelet and debris meshes (675-677, 1086-1088) are not modelled.
- SuctionVortex (1199-1290), the camera controller (1414-1451) and the tip's orientation are float vector and quaternion animation, left out.
- The debris fragments' spiral path and tumbling rotation are trigonometric motion; only their visibility and scale schedule is modelled.
- React rendering, JSX, materials and lights are left out. The clock, `window.innerHeight`, the bounding box, IntersectionObserver visibility, reduced-motion and colour-scheme queries, and local storage are all parameters or fields.
- The scroll handler's own `requestAnimationFrame` around `setProgress` is folded into the throttled frame callback that calls it. A measurement therefore takes effect in the same callback.
- Journey.ScrollProgress: a zero denominator is modelled by the sign of the numerator, the way JavaScript's infinities clamp. 0/0 (NaN) is `None`, and `Journey.NextProgress` then keeps the previous progress. The browser would store NaN instead.
- SdfVessel.GenerateVessel, SdfClot.GenerateClot: called with an empty path list, the model returns an empty field. The source still fills the field: its bounds stay infinite, so the volume's size is -Infinity and `worldToGrid` yields NaN grid coordinates (components/home/SDFVesselGen.tsx:29-42, 179-195). `generateVesselGeometry` still adds its 225 clot balls at those NaN coordinates when a clot is configured (273-321), and `generateClotGeometryForVessel` still adds its 344 to 360 clot balls (76-141). Infinite and NaN reals are not modelled.
- Network: the particles' horizontal positions `180 - sin(...) * 5` (components/home/VascularNetwork.tsx:215, 222, 229), the inner success circle's opacity `min((p - 0.9) * 5, 0.3)` (259) and the `animate-pulse` class past progress 0.6 (206) are left out; only the particles' vertical positions and the outer ring are modelled.
- Network: the highlighted navigation path is left out: it is drawn past progress 0.1 at opacity `0.8 * p`, with its flow animation past 0.3 (components/home/VascularNetwork.tsx:176-193). The background group's opacity `0.1 + main * 0.2` (75) is left out too.
- Illustration: the `glowing` prop is left out: the tip's pulsing ellipse at opacity `0.6 + 0.4 * p` (components/home/CatheterIllustration.tsx:71-82) and the highlight opacity 1 or 0.7 (167).
- The sitemap's `lastModified` is the generation time, passed in as a number.
- The toggle's `aria-label` text is left out.
- The legacy wrapper `generateClotGeometry` (components/home/SDFVesselGen.tsx:153-161) is left out: it ignores its arguments and returns an empty geometry.
- Header.NavItems: states the count of links; their targets are stated through `Header.CurrentPageActive` and `Header.AtMostOneActive`, not item by item. The link labels are translations, left out.

## Findings

| source | as written | input that shows it | evidently intended | confidence | as-written member | corrected member |
|---|---|---|---|---|---|---|
| components/home/VascularScene3D.tsx:1326-1346 | the aspirating branch of the clot's frame callback moves the group but never resets its scale, while the complete branch sets the scale to 0 | scroll to progress 0.8 (clot hidden), then back to 0.6 | the partly dissolved clot reappears at unit scale while aspirating, as the other branches do for their phases | not executed | ClotLifecycle.AsWrittenHidesClotAfterScrollBack | ClotLifecycle.ClotFrameIsLevelTriggered |
