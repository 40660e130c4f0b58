# ScrollingDecelerator in Dafny

A model of `HomePagePOC/ScrollingDecelerator.swift`: the decelerator that keeps
a `UIScrollView` gliding after the user lifts their finger off it. The file has three parts, and
each has a module here:

- **Timing** (`timing.dfy`): `ScrollTimingParameters.duration` and
  `point(at:)`, with their exact degenerate guards. The closed-form decay
  formulas (`log`, `pow`, `sqrt`) are passed in as a `DecayLaw` value. The
  model keeps the structure of the moving case: the initial offset plus a
  multiple of the initial velocity.
- **Animation** (`animation.dfy`): `TimerAnimation` as a class with
  `isRunning`, a `linkActive` flag standing for the weak `displayLink`, and an
  append-only log of its effects. The effects are samples passed to the
  animations closure, the release of the link, and calls of the completion.
  `step` takes the media time `now` as an argument.
- **Decelerator** (`decelerator.dfy`): `ScrollingDecelerator` as a class
  with the weak `scrollView`, the stored `scrollingAnimation` and
  `threshold = 0.1`. It also holds the `ScrollingDeceleration` value with its
  `==`.
- **Scroll** (`scroll.dfy`): the fields of `UIScrollView` that are read and
  written, `isUserInteracted`, and the two sample closures. The closure of
  `beginScrollAnimation` evaluates the curve. The closure of `decelerate`
  clamps the result and writes `contentOffset.y`.
- **Geometry** (`geometry.dfy`): `CGPoint` and its private `+`, `*` and
  `length`.

The invariant of a run (`TimerAnimation.Valid`, built on `Lifecycle`) has
four parts:

- the link is registered exactly while the run is running;
- a running run has only sampled;
- a stopped run ends with the release of the link followed by at most one
  completion;
- every sampled progress lies in [0, 1].

From this the lemmas derive two things: the completion fires at most once,
and no sample follows the stop.

Where the code and a natural reading of it disagree, the model follows the
code:

- `point(at:)` returns `.zero` in the degenerate case, not the initial offset
  (line 120). So a release at rest makes the first tick write offset 0: the
  view jumps to the top (`DegenerateReleaseWritesTop`, `ZeroVelocityRelease`).
- A second `decelerate` overwrites `scrollingAnimation` without invalidating
  the old run (line 54). The old run keeps its display link and keeps
  writing to the view (`SecondReleaseKeepsFirstRun`).

## Model

| member | source | states |
|---|---|---|
| `Geometry.Add` | HomePagePOC/ScrollingDecelerator.swift:193-195 | `+` on points: the zero point is neutral on either side |
| `Geometry.Scale` | HomePagePOC/ScrollingDecelerator.swift:197-199 | `*` of a scalar and a point: a zero factor or the zero vector gives the zero point, a unit factor leaves the vector unchanged |
| `Geometry.HasLength` | HomePagePOC/ScrollingDecelerator.swift:189-191 | `length != 0` holds exactly when the point is not the zero point |
| `Timing.Duration` | HomePagePOC/ScrollingDecelerator.swift:108-115 | a rate `<= 0` or `>= 1` or a zero velocity gives duration 0, and a non-zero duration implies a rate in (0,1) and a non-zero velocity |
| `Timing.PointAt` | HomePagePOC/ScrollingDecelerator.swift:117-124 | a failed guard gives the zero point; otherwise the point lies on the line through the initial offset along the initial velocity |
| `Timing.GuardsAgree` | HomePagePOC/ScrollingDecelerator.swift:108-120 | the guard of `duration` (rate in (0,1), `length != 0`) and that of `point(at:)` (rate in (0,1), velocity not `.zero`) accept exactly the same parameters |
| `Timing.DegenerateCurve` | HomePagePOC/ScrollingDecelerator.swift:108-120 | a rate `<= 0` or `>= 1`, or a zero velocity, gives duration 0 and the zero point at every time, whatever the decay law |
| `Timing.PointAtTimeZero` | HomePagePOC/ScrollingDecelerator.swift:117-124 | at time 0 a moving curve is at the initial offset (for a law with no displacement at time 0), while a degenerate curve is at the zero point |
| `Timing.HorizontalMotionKeepsY` | HomePagePOC/ScrollingDecelerator.swift:122-123 | on a moving curve whose velocity has no vertical part, the vertical offset stays at its initial value |
| `Scroll.ScrollView.IsUserInteracted` | HomePagePOC/ScrollingDecelerator.swift:223-225 | any one of tracking, dragging and decelerating makes the view user-interacted; with all three clear it is not |
| `Scroll.ClampedOffsetY` | HomePagePOC/ScrollingDecelerator.swift:60-64 | the written offset is `>= 0`; for an upward release it is the point, or 0 above the top; otherwise it is the point's nearest value in `[0, contentHeight - frameHeight]`, or 0 when the content is shorter than the frame |
| `Scroll.ApplyPoint` | HomePagePOC/ScrollingDecelerator.swift:58-65 | the closure of `decelerate`: with the view gone nothing is written; otherwise only `contentOffset.y` changes, to the clamped value |
| `Scroll.ApplyProgress` | HomePagePOC/ScrollingDecelerator.swift:90-93 | a sample at `progress` writes the clamped vertical offset of the curve at `progress * duration`, and nothing else of the view |
| `Scroll.DegenerateReleaseWritesTop` | HomePagePOC/ScrollingDecelerator.swift:117-120 | on a degenerate curve every sample writes offset 0, whatever the initial offset was |
| `Animation.Decide` | HomePagePOC/ScrollingDecelerator.swift:167-176 | a tick finishes exactly when `elapsed >= duration` or `duration == 0`; otherwise it samples a fraction in [0, 1) that is `elapsed`'s share of the duration |
| `Animation.DecideFraction` | HomePagePOC/ScrollingDecelerator.swift:167-176 | a sampled fraction times the duration gives back the elapsed time |
| `Animation.DecideMonotone` | HomePagePOC/ScrollingDecelerator.swift:167-176 | between ticks, a finished decision stays finished at later times, and a later sample has a strictly larger fraction |
| `Animation.CompletionFiresAtMostOnce` | HomePagePOC/ScrollingDecelerator.swift:155-173 | over any run lifecycle, the completion is called never while running, and exactly once after the stop (when there is a completion), so at most once |
| `Animation.NoSampleAfterStop` | HomePagePOC/ScrollingDecelerator.swift:155-176 | in a run lifecycle, no sample follows the release of the link or a completion |
| `Animation.RunCompletesAtMostOnce` | HomePagePOC/ScrollingDecelerator.swift:155-176 | for every animation in a valid state, whatever ticks and invalidations it has seen, the completion fired at most once (exactly once after the stop, if there is a completion) and no sample follows the stop |
| `Animation.TimerAnimation.constructor` | HomePagePOC/ScrollingDecelerator.swift:140-149 | a new animation is running, its link is registered, nothing has happened yet, and `now` is its first-frame timestamp |
| `Animation.TimerAnimation.Invalidate` | HomePagePOC/ScrollingDecelerator.swift:155-160 | on a running animation it stops running, releases the link and reports `false` (if there is a completion); on a stopped one nothing changes |
| `Animation.TimerAnimation.Step` | HomePagePOC/ScrollingDecelerator.swift:165-177 | on a stopped animation nothing changes. A finishing tick samples 1, stops running, releases the link and reports `true`, in that order. Any other tick samples `elapsed / duration` and keeps running. The scroll view gets the sample's offset |
| `Animation.TimerAnimation.StopDisplayLink` | HomePagePOC/ScrollingDecelerator.swift:179-183 | releases the link if there is one, and leaves no link afterwards |
| `Decelerator.Equals` | HomePagePOC/ScrollingDecelerator.swift:212-216 | two decelerations are `==` exactly when they are the same value (velocity and rate) |
| `Decelerator.ScaledVelocity` | HomePagePOC/ScrollingDecelerator.swift:49-52 | the horizontal velocity is passed on as given, and a release at rest stays at rest after scaling |
| `Decelerator.ScalingKeepsRest` | HomePagePOC/ScrollingDecelerator.swift:49-52 | scaling by a positive threshold leaves a zero velocity zero and a non-zero one non-zero, so the degenerate guard sees the release as given |
| `Decelerator.DefaultScaling` | HomePagePOC/ScrollingDecelerator.swift:49-52 | with threshold 0.1 the curve gets the horizontal velocity unchanged and 100 times the vertical one |
| `Decelerator.ScrollingDecelerator.constructor` | HomePagePOC/ScrollingDecelerator.swift:29-32 | the scroll view is stored, no animation yet, `threshold == 0.1`; the decelerator's invariant (a stored animation is a valid run) holds |
| `Decelerator.ScrollingDecelerator.Decelerate` | HomePagePOC/ScrollingDecelerator.swift:46-66 | without a scroll view nothing changes. Otherwise a fresh running animation without completion is stored. Its curve starts at the current offset with the scaled velocity, its duration is the curve's and its closure targets the view. The view itself and a previous animation are untouched, and the decelerator's invariant is kept |
| `Decelerator.ScrollingDecelerator.BeginScrollAnimation` | HomePagePOC/ScrollingDecelerator.swift:77-94 | builds the timing parameters from the offset, the velocity, the rate and the threshold, and starts a fresh animation over their duration, without completion |
| `Decelerator.ScrollingDecelerator.InvalidateIfNeeded` | HomePagePOC/ScrollingDecelerator.swift:68-72 | acts only when the view is there and `isTracking \|\| isDragging \|\| isDecelerating` (lines 223-225); then the stored animation is invalidated and the reference is cleared; otherwise nothing changes. The decelerator's invariant is kept |
| `Decelerator.RestReleaseIsDegenerate` | HomePagePOC/ScrollingDecelerator.swift:49-52 | for any positive threshold, a release with zero velocity gives a degenerate curve: it does not move and its duration is 0, whatever the rate and the decay law |
| `Decelerator.ReleaseAtRest` | HomePagePOC/ScrollingDecelerator.swift:46-66 | releasing a view at rest through `decelerate` stores a fresh running animation that targets the view, has zero duration and runs over a degenerate curve |
| `Decelerator.FirstTickOfDegenerateRun` | HomePagePOC/ScrollingDecelerator.swift:165-177 | the first tick of a running animation with zero duration over a degenerate curve finishes it and writes offset 0 to its view |
| `Decelerator.ZeroVelocityRelease` | HomePagePOC/ScrollingDecelerator.swift:117-120 | a view scrolled to offset 50 and released at rest finishes on the first tick, at offset 0 rather than 50 |
| `Decelerator.TouchStopsRun` | HomePagePOC/ScrollingDecelerator.swift:68-72 | a touch followed by `invalidateIfNeeded` stops the run and forgets it. A tick that still arrives leaves the offset as it was |
| `Decelerator.SecondReleaseKeepsFirstRun` | HomePagePOC/ScrollingDecelerator.swift:54-65 | a second release replaces the stored animation; the first one is still running with its link registered |

## Left out

- The decay formulas at lines 113-114 and 122-123 use `log` and `pow`, and `length` at line 189 uses `sqrt`. They are floating-point transcendental functions. They enter as the two functions of a `DecayLaw`, which is evaluated only when the guards pass.
- Floating point in general: `CGFloat` and `TimeInterval` are reals. NaN, infinities and rounding are not modelled. One consequence: in floating point, `length` can underflow to 0 for a tiny non-zero velocity, so the two guards can disagree there. Over the reals they agree (`GuardsAgree`).
- `CADisplayLink`, the run loop and `CACurrentMediaTime()`. The link is the `linkActive` flag. The media time is the `now` argument of the constructor and of `Step`. `Step` requires `now` to be no earlier than the first frame, as the monotonic media clock guarantees.
- Re-entrant closures: the animations closure is fixed to the one `beginScrollAnimation` builds, and the completion is only recorded, so neither can call back into `invalidate` or `step`. In the source `animations(1)` runs (line 170) before `isRunning = false` (line 171). A closure that re-entered `invalidate` there (for example through a scroll-view delegate reacting to the offset write by calling `invalidateIfNeeded`) would make the completion fire twice, `false` then `true`. `RunCompletesAtMostOnce` and `CompletionFiresAtMostOnce` rely on the closures not re-entering.
- UIKit's `UIScrollView` is reduced to the offset, the content and frame heights and the three interaction flags.
- Weak references are nullable fields. Their zeroing when the scroll view is deallocated is not an operation of the model. The animation closure's weak capture is fixed at the time of the release, and the nil case of each closure is modelled on that reference.
- The animations closure of `TimerAnimation` is generic in the source. Here it is the one closure `beginScrollAnimation` builds (`ScrollAnimations`). The completion closure is modelled only by whether it is present and by the calls it receives.
- The `UIScrollView.DecelerationRate` constants are not part of this model; a deceleration carries its raw value only.
- The protocol declarations (lines 14-22) and the commented-out `projection` extension (lines 35-42) contain no logic.
