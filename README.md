# Fly animation and testimonial carousel, modelled in Dafny

This project models the two pieces of real logic in a marketing website for a
local-SEO-audit product.

**The fly animation** (`FlyAnimation.tsx`). A small sprite flies between UI
anchors. The anchors are the pill, the call-to-action button and the iPad
picture, visited in the fixed cyclic order `pill, cta, ipad, cta`. The model
has three parts:

- the **anchor resolver** (`getAbsolutePosition`). It gives the centre of a
  target's bounding box relative to the container, plus an optional per-target
  offset, or nothing when the container or the target element is missing;
- the **path sampler** (`generateCurvedPathKeyframes`). It evaluates a cubic
  Bezier curve at `numSamples + 1` evenly spaced parameters and returns the
  sprite's top-left keyframes and their times;
- the **flight sequencer** (the initial-setup effect and
  `animateFlightSequence`). It has a one-time setup and one leg per step. A
  leg either does not run, or skips, snaps, hits the critical failure, or
  pauses, flips, flies and commits. Every branch that runs moves the cursor on
  by one, modulo the length of the sequence.

Module `FlyGeometry` holds the resolver and the sampler. Module `FlySequencer`
holds the sequencer in two forms:

- `SetupStep` and `LegStep` are pure transitions over a state record. They
  return the next state and the calls made on the animation controls.
- The class `FlySequencer.FlyAnimation` keeps the same state in fields. Its
  methods `RunInitialSetup` and `AnimateFlightSequence` follow the source's
  statements and are proved to perform exactly those transitions.

`AnimateFlightSequence` calls `GenerateCurvedPathKeyframes`, which builds the
three keyframe sequences with a loop, as the source does.

**The testimonial carousel** (`TestimonialCarousel.tsx`). It keeps a current
slide, an autoplay flag and the handle of an autoplay interval. The class
`TestimonialCarousel.Carousel` models the handle as a nullable field. The
timer system is modelled as the set of intervals it holds armed. Arming an
interval takes a fresh handle; clearing removes it. The class invariant says
that an interval is armed exactly when the component holds its handle, so at
most one interval is ever armed. `Next` and `Prev` are pure functions.

All coordinates are exact `real`s. Calls to `Math.random` become parameters:
each leg takes a `Draws` value holding the six draws from which the sampler
builds the curve's inner control points P1 and P2. The model builds them with
the division by the chord length cancelled (`ControlPoints`). The source's own
formula is modelled beside it (`ControlPointsAsWritten`); see "## Findings"
for where the two differ.
Layout rectangles are inputs too: each leg and each setup receives a `Layout`
snapshot of what the DOM reports at that moment.

### Where the model follows the code over its comments

- The comment on the flip state (`FlyAnimation.tsx:186`) says that `false`
  means scale 1 (normal). The code at `FlyAnimation.tsx:188` maps `false` to
  scale -1, and setup also shows the sprite at scale -1
  (`FlyAnimation.tsx:136`). The model follows the code (`ScaleX`). Lemma
  `FirstTwoFlightsScale` proves that the first flight animates to scale -1 and
  the second to scale 1. A successful `SetupStep` shows the sprite with
  `SetPose(tl, Some(-1))`, and by `LegFailureBranches` a skip sets no scale.
  Together these give the visible result: the first flight animates to the
  scale the sprite already has, so there is no visible flip.
- The snap branch (`FlyAnimation.tsx:172-175`) and the critical branch
  (`FlyAnimation.tsx:176-178`) are recovery paths. Both are modelled. Two facts make them unreachable from any state the
  component can actually reach: setup sets a position and the setup flag
  together, and nothing clears them. `ReachableLegIsFlightOrSkip` proves this
  over the invariant `Consistent`.
- `Next` and `Prev` use Dafny's Euclidean `%`. The source uses JavaScript's
  truncating `%`. The two agree here, because the operands are never negative
  (`Prev` adds the slide count before taking the remainder).

## Model

| member | source | states |
|---|---|---|
| `FlyGeometry.GetAbsolutePosition` | src/app/components/FlyAnimation/FlyAnimation.tsx:32-51 | The result is absent exactly when the container is missing, the key has no ref, or the ref's element is not mounted. Otherwise x is target.left − container.left + width/2 + offset x, and y likewise. |
| `FlyGeometry.OffsetFor` | src/app/components/FlyAnimation/FlyAnimation.tsx:45 | A missing offset map or a missing entry counts as the zero offset. |
| `FlyGeometry.PositionIsTranslationInvariant` | src/app/components/FlyAnimation/FlyAnimation.tsx:42-48 | Moving the container and the target by the same amount does not change the resolved point. It depends only on their relative position. |
| `FlyGeometry.UnoffsetPositionIsCentre` | src/app/components/FlyAnimation/FlyAnimation.tsx:47-48 | Without an offset, the resolved point lies midway between the target's left and right edges, and midway between its top and bottom edges, in container coordinates. |
| `FlyGeometry.BezierAt` | src/app/components/FlyAnimation/FlyAnimation.tsx:88-91 | The cubic Bezier point at t; the body is the Bernstein sum of the formula at these lines. |
| `FlyGeometry.BezierStartsAtFirstPoint` | src/app/components/FlyAnimation/FlyAnimation.tsx:89-91 | The curve at t = 0 is P0. |
| `FlyGeometry.BezierEndsAtLastPoint` | src/app/components/FlyAnimation/FlyAnimation.tsx:89-91 | The curve at t = 1 is P3. |
| `FlyGeometry.BezierStaysOnHorizontalLine` | src/app/components/FlyAnimation/FlyAnimation.tsx:77-91 | If all four control points share a y, every point of the curve has that y. The Bernstein weights sum to one. |
| `FlyGeometry.ControlPointsAsWritten` | src/app/components/FlyAnimation/FlyAnimation.tsx:69-84 | The source's control points are undefined (NaN) exactly when the path's start equals its end. |
| `FlyGeometry.ControlPoints` | src/app/components/FlyAnimation/FlyAnimation.tsx:69-84 | The corrected control points. A flight from a point to itself gets both control points on that point. Without randomness, a level chord gets level control points and a vertical chord vertical ones. |
| `FlyGeometry.ControlPointsAgreeWhenDistinct` | src/app/components/FlyAnimation/FlyAnimation.tsx:69-84 | When start and end differ, the source's control points are defined and equal the corrected ones: the division by the chord length cancels against the multiplication by it. |
| `FlyGeometry.SampleTime` | src/app/components/FlyAnimation/FlyAnimation.tsx:87 | The sample parameter i / numSamples; the body is that expression. |
| `FlyGeometry.CurvedPathKeyframes` | src/app/components/FlyAnimation/FlyAnimation.tsx:86-96 | The specification of the sampled path: for a non-negative count, entries 0..numSamples are the curve at i / numSamples less half the sprite size, with that time; for a negative count, empty sequences. The body is that sequence comprehension. |
| `FlyGeometry.GenerateCurvedPathKeyframes` | src/app/components/FlyAnimation/FlyAnimation.tsx:54-99 | The loop builds exactly the specified sampling of the curve through the start, the two control points and the end. Entry i is the curve at i/numSamples, less half the sprite size, and its time is i/numSamples. |
| `FlyGeometry.KeyframeLengths` | src/app/components/FlyAnimation/FlyAnimation.tsx:86-96 | For numSamples ≥ 1, the x, y and time sequences each have numSamples + 1 entries. |
| `FlyGeometry.TimesSpanUnitInterval` | src/app/components/FlyAnimation/FlyAnimation.tsx:86-95 | The times start at 0, end at 1, stay in [0, 1] and strictly increase. |
| `FlyGeometry.FirstKeyframeIsStart` | src/app/components/FlyAnimation/FlyAnimation.tsx:86-94 | The first keyframe is startPos − (flyWidth/2, flyHeight/2), whatever P1 and P2 are. |
| `FlyGeometry.LastKeyframeIsEnd` | src/app/components/FlyAnimation/FlyAnimation.tsx:86-94 | The last keyframe is endPos − (flyWidth/2, flyHeight/2), whatever P1 and P2 are. |
| `FlyGeometry.LevelPathKeepsHeight` | src/app/components/FlyAnimation/FlyAnimation.tsx:77-94 | A path whose start, end and control points are at one height keeps every y keyframe at that height less half the sprite height. |
| `FlyGeometry.BezierOfOnePoint` | src/app/components/FlyAnimation/FlyAnimation.tsx:89-91 | A curve whose four control points are one point is that point for every t. |
| `FlyGeometry.StationaryPathStaysPut` | src/app/components/FlyAnimation/FlyAnimation.tsx:69-96 | With the corrected control points, every keyframe of a flight from a point to itself is that point's top-left corner. |
| `FlyGeometry.LevelFlightWithoutRandomness` | src/app/components/FlyAnimation/FlyAnimation.tsx:69-96 | With randomness factor 0, a flight between two anchors at the same height keeps every y keyframe at that height less half the sprite height. |
| `FlySequencer.Sequence` | src/app/components/FlyAnimation/FlyAnimation.tsx:29 | The visiting order pill, cta, ipad, cta; the cursor wraps around it. |
| `FlySequencer.TopLeft` | src/app/components/FlyAnimation/FlyAnimation.tsx:173 | The sprite's top-left corner for a given centre (centre less half the sprite size); the centre of the result is the given point again. |
| `FlySequencer.Centre` | src/app/components/FlyAnimation/FlyAnimation.tsx:159-162 | The sprite's centre for a given top-left corner (corner plus half the sprite size); less half the size it gives back the corner. |
| `FlySequencer.ScaleX` | src/app/components/FlyAnimation/FlyAnimation.tsx:188 | The flip animation's scale is 1 or -1, and 1 exactly when the flip state is true, as the code maps it. |
| `FlySequencer.SetupStep` | src/app/components/FlyAnimation/FlyAnimation.tsx:126-146 | Once setup has succeeded, it changes nothing. Setup succeeds exactly when the container is mounted and the first anchor resolves. On success, the sprite's centre is on that anchor, the cursor is 0, the sprite is visible and shown at scale -1. On a failure with a container, the sprite is hidden and the position is unchanged. The flip flags are never touched. |
| `FlySequencer.NextIndex` | src/app/components/FlyAnimation/FlyAnimation.tsx:154 | The next cursor is in range: one more, or 0 after the last entry of the sequence. |
| `FlySequencer.Runs` | src/app/components/FlyAnimation/FlyAnimation.tsx:150 | The main effect's guard: the sprite is visible, the container is mounted and setup has run. The body is that conjunction. |
| `FlySequencer.PathStart` | src/app/components/FlyAnimation/FlyAnimation.tsx:157-165 | With a committed position the start is the sprite's centre (its top-left is the committed corner), regardless of the layout; otherwise the source anchor's resolved point. |
| `FlySequencer.PathEnd` | src/app/components/FlyAnimation/FlyAnimation.tsx:167 | The end is the next anchor's resolved point, absent exactly when the container, that ref or its element is missing. |
| `FlySequencer.LegBranch` | src/app/components/FlyAnimation/FlyAnimation.tsx:169-178 | A leg does not run exactly when the guard fails, flies exactly when it runs and both ends resolve, and takes a recovery branch only when an end is missing. |
| `FlySequencer.NextFlipState` | src/app/components/FlyAnimation/FlyAnimation.tsx:186 | The first flight's flip state is false; every later flight's is the opposite of the current one. |
| `FlySequencer.LegStep` | src/app/components/FlyAnimation/FlyAnimation.tsx:150-222 | If the effect's guard fails, nothing changes. Every branch that runs sets the cursor to (cursor + 1) mod 4. The cursor stays in range. Visibility and the setup flag are unchanged. |
| `FlySequencer.FlightStep` | src/app/components/FlyAnimation/FlyAnimation.tsx:183-221 | The flight part of a leg advances the cursor and keeps visibility and the setup flag. |
| `FlySequencer.LegFlipRule` | src/app/components/FlyAnimation/FlyAnimation.tsx:169-194 | A flight sets the flip state to false on the initial flight and to the negation of the current state otherwise. It ends the initial-flight phase and animates to the matching scale. Skip, snap and critical leave both flags unchanged. |
| `FlySequencer.LegFailureBranches` | src/app/components/FlyAnimation/FlyAnimation.tsx:169-180 | A skip pauses and only advances the cursor. A critical failure only advances the cursor. A snap sets the sprite at once to the destination anchor's top-left (end − half size) and advances the cursor. |
| `FlySequencer.LegFlightPath` | src/app/components/FlyAnimation/FlyAnimation.tsx:157-221 | A flight pauses, flips, and flies along numSamples + 1 keyframes. The path starts at the sprite's current top-left: the committed position when one is set, not a fresh lookup. The last keyframe is committed, and it equals the destination anchor's top-left. |
| `FlySequencer.InitialStateIsConsistent` | src/app/components/FlyAnimation/FlyAnimation.tsx:114-123 | The mount state (no position, flipped, initial flight, hidden, not set up) satisfies the reachability invariant. |
| `FlySequencer.SetupKeepsConsistent` | src/app/components/FlyAnimation/FlyAnimation.tsx:126-146 | Setup preserves the invariant: the cursor is in range, a position is set exactly when setup has run, and the sprite is visible after setup. |
| `FlySequencer.LegKeepsConsistent` | src/app/components/FlyAnimation/FlyAnimation.tsx:152-222 | Every leg from a state that satisfies the invariant leads to one that satisfies it. |
| `FlySequencer.ReachableLegIsFlightOrSkip` | src/app/components/FlyAnimation/FlyAnimation.tsx:157-181 | From a reachable state, a leg never snaps and never takes the critical branch. When it runs, it skips exactly when the destination does not resolve. |
| `FlySequencer.RunLegs` | src/app/components/FlyAnimation/FlyAnimation.tsx:149-245 | Any number of legs keeps the cursor in range, and keeps visibility and the setup flag. |
| `FlySequencer.RunLegsAdvance` | src/app/components/FlyAnimation/FlyAnimation.tsx:152-221 | The sequencer never stalls. With the sprite set up and the container mounted, k legs move the cursor k places around the sequence, whichever anchors are missing. |
| `FlySequencer.FourLegsCloseTheCycle` | src/app/components/FlyAnimation/FlyAnimation.tsx:29-154 | Four legs bring the cursor back to its start, so from 0 back to 0. |
| `FlySequencer.UnmountedDestinationIsSkipped` | src/app/components/FlyAnimation/FlyAnimation.tsx:167-180 | A leg towards an unmounted anchor (such as the iPad) pauses and advances the cursor. It leaves everything else unchanged. |
| `FlySequencer.FirstTwoFlightsScale` | src/app/components/FlyAnimation/FlyAnimation.tsx:186-191 | From a reachable state on the initial flight, the first flight animates to scale -1 (flip state false). The flight after it animates to scale 1 (flip state true). |
| `FlySequencer.DefaultFirstFlight` | src/app/components/FlyAnimation/FlyAnimation.tsx:18-29 | With the default props and every anchor mounted, setup succeeds, and the first leg flies from the pill to the call-to-action button along six keyframes at scale -1 and commits that button's top-left corner. |
| `FlySequencer.SkipBeforeCtaGivesUndefinedPath` | src/app/components/FlyAnimation/FlyAnimation.tsx:157-181 | A leg from `cta` whose destination is unmounted skips with the sprite on `cta`. With the layout unchanged, the next leg is a flight that starts where it ends, and the source's control points for it are undefined. |
| `FlySequencer.SkipBeforeCtaKeepsSpriteStill` | src/app/components/FlyAnimation/FlyAnimation.tsx:183-221 | In the same situation, the corrected flight keeps every keyframe on the sprite's committed top-left corner and commits that corner again. |
| `FlySequencer.FlyAnimation.constructor` | src/app/components/FlyAnimation/FlyAnimation.tsx:113-123 | The component mounts hidden, not set up, with no position, flipped, on the initial flight and at cursor 0. This state satisfies the invariant `Consistent`. |
| `FlySequencer.FlyAnimation.RunInitialSetup` | src/app/components/FlyAnimation/FlyAnimation.tsx:126-146 | The fields and the control-call log change exactly as `SetupStep` says, and the invariant is kept. |
| `FlySequencer.FlyAnimation.AnimateFlightSequence` | src/app/components/FlyAnimation/FlyAnimation.tsx:149-222 | The fields and the control-call log change exactly as `LegStep` says. From a state that satisfies the invariant, the new state satisfies it too. |
| `FlySequencer.FlyAnimation.Fly` | src/app/components/FlyAnimation/FlyAnimation.tsx:183-221 | Pause, flip, fly and commit change the fields and the log exactly as `FlightStep` says. |
| `TestimonialCarousel.Next` | src/app/components/TestimonialsSection/TestimonialCarousel.tsx:25-27 | The next index is in [0, n). It is i + 1, or 0 after the last slide. |
| `TestimonialCarousel.Prev` | src/app/components/TestimonialsSection/TestimonialCarousel.tsx:29-31 | The previous index is in [0, n). It is i − 1, or n − 1 before the first slide. |
| `TestimonialCarousel.PrevUndoesNext` | src/app/components/TestimonialsSection/TestimonialCarousel.tsx:25-31 | prev(next(i)) = i. |
| `TestimonialCarousel.NextUndoesPrev` | src/app/components/TestimonialsSection/TestimonialCarousel.tsx:25-31 | next(prev(i)) = i. |
| `TestimonialCarousel.NextTimesIsModularShift` | src/app/components/TestimonialsSection/TestimonialCarousel.tsx:25-44 | k autoplay ticks lead from slide i to slide (i + k) mod n. |
| `TestimonialCarousel.FullCycleReturns` | src/app/components/TestimonialsSection/TestimonialCarousel.tsx:25-44 | n ticks return to the starting slide. |
| `TestimonialCarousel.SlideAfter` | src/app/components/TestimonialsSection/TestimonialCarousel.tsx:16-44 | With the 8000 ms interval armed on slide i and nothing else happening, after t ms the carousel shows slide (i + ⌊t / 8000⌋) mod n. |
| `TestimonialCarousel.Render` | src/app/components/TestimonialsSection/TestimonialCarousel.tsx:62-117 | Nothing renders exactly when there are no testimonials. Otherwise the current slide renders, with the arrows and dots exactly when there is more than one slide. |
| `TestimonialCarousel.Carousel.Rendered` | src/app/components/TestimonialsSection/TestimonialCarousel.tsx:62-64 | An empty list renders nothing. |
| `TestimonialCarousel.Carousel.AtMostOneArmed` | src/app/components/TestimonialsSection/TestimonialCarousel.tsx:33-46 | Under the class invariant, at most one interval is armed. |
| `TestimonialCarousel.Carousel.constructor` | src/app/components/TestimonialsSection/TestimonialCarousel.tsx:19-21 | The carousel starts on slide 0, playing, with no interval. |
| `TestimonialCarousel.Carousel.HandleNext` | src/app/components/TestimonialsSection/TestimonialCarousel.tsx:25-27 | The index becomes `Next` of the old one, and the invariant is kept. |
| `TestimonialCarousel.Carousel.HandlePrev` | src/app/components/TestimonialsSection/TestimonialCarousel.tsx:29-31 | The index becomes `Prev` of the old one, and the invariant is kept. |
| `TestimonialCarousel.Carousel.StopAutoplay` | src/app/components/TestimonialsSection/TestimonialCarousel.tsx:33-39 | It clears the held interval: the handle becomes null and nothing stays armed. Autoplay is off. The new state does not depend on the old one. |
| `TestimonialCarousel.Carousel.StopAutoplayIsIdempotent` | src/app/components/TestimonialsSection/TestimonialCarousel.tsx:33-39 | Stopping twice leaves the same state as stopping once. |
| `TestimonialCarousel.Carousel.StartAutoplay` | src/app/components/TestimonialsSection/TestimonialCarousel.tsx:41-46 | With one slide or none, nothing changes. Otherwise the old interval is cleared and one fresh interval is armed, which becomes the only armed interval, and autoplay is on. |
| `TestimonialCarousel.Carousel.AutoplayTick` | src/app/components/TestimonialsSection/TestimonialCarousel.tsx:44 | When the armed interval fires, the carousel moves to the next slide. |
| `TestimonialCarousel.Carousel.ClickPrev` | src/app/components/TestimonialsSection/TestimonialCarousel.tsx:80 | The previous button moves back one slide and stops autoplay. |
| `TestimonialCarousel.Carousel.ClickNext` | src/app/components/TestimonialsSection/TestimonialCarousel.tsx:108 | The next button moves on one slide and stops autoplay. |
| `TestimonialCarousel.Carousel.ClickDot` | src/app/components/TestimonialsSection/TestimonialCarousel.tsx:122-125 | Dot k shows slide k and stops autoplay. |
| `TestimonialCarousel.Carousel.MouseEnter` | src/app/components/TestimonialsSection/TestimonialCarousel.tsx:71 | Hovering pauses autoplay only when there is more than one slide. Otherwise nothing changes. |
| `TestimonialCarousel.Carousel.MouseLeave` | src/app/components/TestimonialsSection/TestimonialCarousel.tsx:72 | Leaving resumes autoplay only when there is more than one slide. Otherwise nothing changes. |

## Left out

- DOM geometry: `getBoundingClientRect` is not modelled. Each call receives the container's and the targets' boxes as a `Layout` value.
- Animation library: `flyControls.set` and `flyControls.start` are recorded as `Effect` values in call order. Durations, easing and the interpolation between keyframes are not modelled. The `flyControls.stop()` cleanup on unmount is not modelled either.
- Timers and async: the pauses of `setTimeout` appear only as a `Pause` effect. Each leg is one atomic step. React's re-running of the main effect when the cursor changes is modelled by calling `AnimateFlightSequence` once per leg. Effect re-run ordering and stale closures are not modelled.
- Randomness: the six `Math.random` draws (`FlyAnimation.tsx:74-75, 78-79, 82-83`) are a `Draws` parameter of each leg. Their range [0, 1) is not constrained.
- Square root: `Math.sqrt` is not modelled. `ControlPointsAsWritten` takes the chord length as a parameter that is non-negative and zero exactly when start and end coincide; `ControlPoints` does not need it.
- GenerateCurvedPathKeyframes: takes the sample count as an integer; the source types it as a JavaScript number. For a non-integer count the loop `i <= numSamples` runs ⌊n⌋ + 1 times and the last time is below 1: with 2.5, three keyframes ending at t = 0.8, so the committed position stops short of the destination. A NaN count gives no keyframes, and an infinite count never ends the loop. None of these is modelled; the only call site uses the default 5. The method also requires numSamples ≠ 0. With 0 samples the source's loop runs once with t = 0/0 and returns one NaN entry in each sequence; NaN is outside this model. A negative numSamples runs the loop no times and gives empty sequences, which is modelled.
- LegStep: requires pathKeyframeSamples ≥ 1, an integer (see the line above for non-integer counts). With 0 samples the source commits the single NaN keyframe. With a negative count the keyframe sequences are empty and the source reads index -1, which gives an undefined position.
- LegFlightPath: states the committed landing point for the corrected control points. After a skip from a `cta` anchor with the layout unchanged, the next flight starts where it ends. There the source computes NaN control points, keyframes and committed position (see "## Findings"), and the model does not follow it.
- Floating point: all arithmetic is exact over the reals, so rounding in the Bezier evaluation and in i / numSamples is not captured.
- Diagnostics: the `console.error` calls on failed lookups and on the critical branch are not modelled.
- Offsets: JavaScript's `||` also maps a NaN offset to 0. Offsets here are reals or absent, so that case cannot arise.
- Sprite markup: the rendered image is reduced to the `isVisible` flag.
- Carousel effects: the two `useEffect` blocks (`TestimonialCarousel.tsx:48-60`) re-arm or clear the interval after `isPlaying` or `currentIndex` changes. They depend on React's effect scheduling and are not modelled. The hover handlers therefore only change `isPlaying`, as the handlers themselves do.
- Carousel arithmetic: `Next` and `Prev` require at least one slide. With none, the source would compute a remainder by zero, but nothing is rendered then, so no handler can run.
- Carousel markup: the testimonial cards, the shield frame and the accessibility attributes are not modelled.
- The hero parallax offset, the contact and tracking server actions, the pricing table's emoji parsing, the second carousel (which only renders dots) and the other presentational components: they hold no state or logic worth modelling.

## Findings

| source | as written | input that shows it | evidently intended | confidence | as-written member | corrected member |
|---|---|---|---|---|---|---|
| src/app/components/FlyAnimation/FlyAnimation.tsx:69-84 | The perpendicular is the chord divided by its length. When a leg starts where it ends this is 0 / 0, so P1, P2, every keyframe and the committed position are NaN. | Everything mounted except the iPad, and the layout unchanged between legs. The leg `cta → ipad` skips and leaves the sprite on `cta`. The next leg, `ipad → cta`, starts from the committed position on the `cta` anchor and ends on that anchor. | A leg from a point to itself leaves the sprite where it is. The displacement (unit perpendicular times chord length) is the chord turned by a right angle, which needs no division. | not executed; medium, because in floating point the start equals the end only when `x − w/2 + w/2` rounds back to x, as it does for pixel-aligned coordinates | `FlySequencer.SkipBeforeCtaGivesUndefinedPath` | `FlySequencer.SkipBeforeCtaKeepsSpriteStill` |
