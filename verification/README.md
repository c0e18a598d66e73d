# Earth widget interaction model, navigation scan and scroll reveal

This project models three pieces of a portfolio site's front end in Dafny and proves properties about them.

- **The 3D Earth widget** (`src/components/Earth.tsx`). This is the pointer state machine behind the spinning globe. The widget keeps one mutable interaction record. Four handlers update it: mouse-down, mouse-move, mouse-up and mouse-leave. A resize handler re-derives the canvas centre and the camera aspect. A per-frame `animate` step smooths the `current*` fields toward the `target*` fields and adds a slow idle spin. At mount the widget also fills a normal-map buffer with random bump values.
- **The navigation bar** (`src/components/Navigation.tsx`). On every scroll it picks the active section by scanning the nav items backwards. A click on a nav item scrolls to 80 px above that section.
- **The scroll-reveal wrapper** (`src/components/ScrollReveal.tsx`). It decides where its content sits as the content enters the viewport, stays in it, and leaves it.

The handlers are pure transitions `(State, input) -> State` over `real`. The Three.js calls the widget cannot do without are replaced by inputs:

- the raycast hit test is a `bool` field of the move;
- `performance.now()` is the move's `now` field;
- `Math.random()` becomes a sequence of samples in [0, 1);
- `Math.sqrt` is replaced by a `speed` argument, and the move's precondition says it is the length of the new velocity;
- `Math.PI` is the decimal constant 3.141592653589793.

Modules:

- `EarthState`: the record, its constants, the mount-time initial state, and the resize handler.
- `Mouse`: the mouse handlers.
- `Frame`: the animation step.
- `Session`: runs of any events, and the invariants that hold along them.
- `NormalMap`: the texture fill loop.
- `Navigation`: the scroll scan and `scrollToSection`.
- `ScrollReveal`: poses, the seen flag, the delay and the scroll direction.
- `Options`: an optional-value datatype.

Two facts about the code are easy to miss:

- **Pitch is clamped only while dragging.** The drag branch clamps the pitch target into [-π/2, π/2] (`src/components/Earth.tsx:328`). The hover branch sets it to `-offsetY · π · speed · 0.6` with no clamp (`src/components/Earth.tsx:291`). The canvas centre behind `offsetY` is recorded in client coordinates at mount and refreshed only on resize (`src/components/Earth.tsx:63-67`, `357-373`). Once the page scrolls, that centre can lie far from the canvas, and a hover then aims the pitch beyond π/2. `Mouse.HoverExceedsClamp` gives such a move. `Session.PitchLeavesQuarterTurn` gives a run from mount after which the smoothed pitch `currentRotation.x` itself exceeds π/2.
- **The frame step writes a target.** On every frame with neither dragging nor hovering, `animate` adds 0.002 to `targetRotationY` (`src/components/Earth.tsx:402-404`). `Frame.Animate` and `Session.FramesKeepTargets` state this.

## Model

| member | source | states |
|---|---|---|
| EarthState.Center | src/components/Earth.tsx:63-67 | the recorded centre is equidistant from the left and right edges, and from the top and bottom edges, of the canvas rectangle |
| EarthState.Aspect | src/components/Earth.tsx:360-363 | the aspect is undefined exactly when the height is zero; otherwise it times the height gives the width |
| EarthState.Initial | src/components/Earth.tsx:16-35 | at mount the first-hover flag is set, nothing is pressed or hovered, every target and smoothed value is at rest (rotation 0, scale 1, glow 0.3), velocity, previous position and timestamp are zero, the centre is the canvas rectangle's centre, the aspect comes from the container's size, and the cursor is default |
| Mouse.Velocity | src/components/Earth.tsx:235-248 | when time has passed, velocity times elapsed time equals the displacement since the previous sample; otherwise the previous velocity is kept |
| Mouse.VelocityMultiplier | src/components/Earth.tsx:283-284 | the multiplier lies in [0, 3], never exceeds 20 times the speed, and equals one of the two |
| Mouse.RotationSpeed | src/components/Earth.tsx:285-288 | the hover rotation speed lies between its base (0.3 on the first hover, 0.8 after) and four times that base |
| Mouse.FastPointerSaturates | src/components/Earth.tsx:278-284 | when the squared velocity is at least 0.0225 (a speed of at least 0.15 px/ms), the multiplier is exactly 3 |
| Mouse.SlowPointerScales | src/components/Earth.tsx:278-284 | below 0.15 px/ms the multiplier is exactly 20 times the speed, and so is below 3 |
| Mouse.HoverStep | src/components/Earth.tsx:265-307 | hovering afterwards equals the hit result. A hit while not hovering sets scale 1.1, glow 0.8 and a grab cursor. A miss while hovering resets scale, glow and both rotation targets. A repeated hit or a repeated miss keeps scale and glow. The first-hover flag clears on any hit. Drag and pointer data are unchanged |
| Mouse.Clamp | src/components/Earth.tsx:328 | the result lies in [lo, hi], equals x inside that range, and equals the nearer bound outside it |
| Mouse.DragStep | src/components/Earth.tsx:311-331 | not dragging changes nothing. Dragging adds 0.01 times the drag delta to the yaw target, clamps the pitch target into [-π/2, π/2], moves the anchor to the pointer, and changes nothing else |
| Mouse.HandleMouseMove | src/components/Earth.tsx:234-339 | every move ends with the previous position and timestamp set to this event's, dragging or not. The anchor follows the pointer only while down. Hover scale and glow transitions are as in HoverStep. Smoothed values are untouched |
| Mouse.DragAccumulates | src/components/Earth.tsx:311-331 | during a drag the final yaw target is the hover branch's result plus 0.01·dx from the anchor, the final pitch target is the clamped sum, and the anchor ends at the pointer |
| Mouse.HoverLossDuringDragDiscardsRotation | src/components/Earth.tsx:298-325 | sliding off the sphere mid-drag zeroes the rotation targets before the drag delta is added, so only this move's delta survives |
| Mouse.PlainDragAddsDelta | src/components/Earth.tsx:321-325 | a drag move that misses the sphere while not hovering moves the yaw target by exactly 0.01 rad per horizontal pixel |
| Mouse.DragFiftyPixels | src/components/Earth.tsx:227-232 | pressing and then moving 50 px to the right, off the sphere, turns the yaw target by 0.5 rad, with pitch within the clamp |
| Mouse.HoverExceedsClamp | src/components/Earth.tsx:290-291 | a hover on the sphere with a centre measured before the page scrolled sets the pitch target above π/2, so the drag clamp is not a global bound on the target |
| Mouse.HandleMouseDown | src/components/Earth.tsx:227-232 | sets dragging, the anchor at the pointer and the grabbing cursor, and nothing else |
| Mouse.HandleMouseUp | src/components/Earth.tsx:341-344 | clears only dragging; the cursor becomes grab if the sphere is still hovered, default otherwise |
| Mouse.HandleMouseLeave | src/components/Earth.tsx:346-354 | clears dragging and hovering, resets the rotation targets to (0, 0), scale to 1 and glow to 0.3, and keeps the first-hover flag, pointer data and smoothed values |
| EarthState.HandleResize | src/components/Earth.tsx:357-373 | without a mounted container nothing changes; otherwise only the centre and the aspect change, and rotation is untouched |
| EarthState.ResizeIdempotent | src/components/Earth.tsx:357-373 | delivering the same resize twice equals delivering it once |
| Frame.Lerp | src/components/Earth.tsx:391-394 | the smoothed value lies between the old value and the target, and the gap to the target shrinks by the factor 1 − k |
| Frame.Animate | src/components/Earth.tsx:386-405 | each smoothed field's gap to its target shrinks by 1 − k, with k = 0.05 before the first hover and 0.15 after for rotation, and 0.1 for scale and glow. Scale and glow never overshoot. The yaw target gains 0.002 exactly when neither dragging nor hovering. Nothing else changes |
| Frame.Transforms | src/components/Earth.tsx:396-417 | surface and clouds share the smoothed pitch and scale. The clouds sit 0.1 rad further in yaw. The atmosphere takes the scale, and its glow uniform takes the smoothed glow |
| Frame.SmoothedGap | src/components/Earth.tsx:391-394 | after n smoothing steps toward a fixed target, the gap is (1 − k)^n times the initial gap |
| Frame.Frames | src/components/Earth.tsx:386-394 | over n idle frames no flag and no scale, glow or pitch target changes, and the smoothed scale, glow and pitch are n-fold smoothings toward those targets |
| Frame.ScaleAndGlowConverge | src/components/Earth.tsx:393-394 | with no events, after n frames the scale and glow gaps are 0.9^n times the initial gaps |
| Frame.PitchConverges | src/components/Earth.tsx:390-391 | with no events, after n frames the pitch gap is (1 − k)^n times the initial gap, where k is the rotation factor fixed by the first-hover flag |
| Frame.IdleSpinAccumulates | src/components/Earth.tsx:401-404 | while idle, n frames advance the yaw target by exactly n · 0.002 |
| Session.InitialInv | src/components/Earth.tsx:16-35 | the mount-time record satisfies the invariant: at rest, with scale 1 and glow 0.3 |
| Session.StepPreservesInv | src/components/Earth.tsx:265-307 | every event keeps the scale and glow targets at their hover values exactly while hovering, and keeps the smoothed values within [1, 1.1] and [0.3, 0.8] |
| Session.RunPreservesInv | src/components/Earth.tsx:26-29 | the invariant holds after any admissible sequence of events |
| Session.ScaleAndGlowBounded | src/components/Earth.tsx:393-394 | from mount on, for every event sequence, the smoothed scale stays in [1, 1.1] and the smoothed glow in [0.3, 0.8] |
| Session.FirstHoverFlag | src/components/Earth.tsx:294-296 | after a run the first-hover flag is set exactly when it was set before and no move of the run hit the sphere |
| Session.FirstHoverNeverReturns | src/components/Earth.tsx:294-296 | once cleared, the flag stays cleared, so rotation smoothing stays at 0.15 and the base speed at 0.8 |
| Session.SlowRevealUntilFirstHit | src/components/Earth.tsx:285-296 | from mount, the slow settings (smoothing 0.05, base speed 0.3) are in force exactly while no move has hit the sphere |
| Session.PitchLeavesQuarterTurn | src/components/Earth.tsx:63-67 | from a canvas mounted 2600 px down the page, one hover move and one frame leave the smoothed pitch above π/2 |
| Session.OnlyFramesSmooth | src/components/Earth.tsx:386-394 | pointer events and resizes never change the smoothed fields |
| Session.FramesKeepTargets | src/components/Earth.tsx:401-404 | a frame changes no flag and no pitch, scale or glow target; its only target change is 0.002 of idle yaw |
| NormalMap.ToUint8Clamped | src/components/Earth.tsx:133-136 | a stored byte lies in [0, 255]. Values at or below 0 store 0 and values at or above 255 store 255. In between, the byte is within one half of the value. Whole numbers in range are stored unchanged |
| NormalMap.NoiseByteRange | src/components/Earth.tsx:132 | a random sample in [0, 1) gives a bump byte in [128, 178] |
| NormalMap.ExpectedPixel | src/components/Earth.tsx:131-137 | in a filled buffer, pixel p is (noise, noise, 255, 255), with the noise taken from sample p |
| NormalMap.Fill | src/components/Earth.tsx:125-137 | the buffer has 512·256·4 bytes, and every byte follows the stride-4 layout. For every pixel, R = G and lies in [128, 178], and B = A = 255 |
| Navigation.LastReached | src/components/Navigation.tsx:28-37 | the result is the highest index whose section exists and has offsetTop ≤ scrollY + 100, with nothing reached after it; there is no result when no section is reached |
| Navigation.LastReachedUnique | src/components/Navigation.tsx:28-37 | a reached item with no reached item after it is the one the backward scan selects |
| Navigation.HandleScroll | src/components/Navigation.tsx:19-38 | the bar is scrolled exactly when scrollY > 20. The active section becomes the last reached item. Missing sections are never selected. When nothing is reached, the active section is unchanged |
| Navigation.ScrollToSection | src/components/Navigation.tsx:58-77 | for an existing element, the scroll target is offsetTop − 80 and the requested id becomes active; for a missing element there is no scroll and the state is unchanged |
| Navigation.ScrollTargetIsReached | src/components/Navigation.tsx:61-65 | the scroll target of an existing section counts that section as reached, so the next scan selects it or a later item |
| Navigation.ScrollThenScanAgrees | src/components/Navigation.tsx:58-77 | when every later section starts more than 20 px below the requested one, the scan at the scroll target keeps the requested section active |
| ScrollReveal.OrElse | src/components/ScrollReveal.tsx:14-20 | a given prop is used as is, and a missing one takes its default |
| ScrollReveal.Resolve | src/components/ScrollReveal.tsx:14-20 | missing props default to delay 0, duration 0.8, direction up and distance 50; given props are kept |
| ScrollReveal.InitialPosition | src/components/ScrollReveal.tsx:102-115 | the initial pose is invisible and offset only on the direction's axis: up gives y = +d, down y = −d, left x = +d, right x = −d |
| ScrollReveal.ExitMirrorsInitial | src/components/ScrollReveal.tsx:78-91 | the pose after scrolling past the element is the initial pose negated on the same axis, and stays invisible |
| ScrollReveal.AnimationState | src/components/ScrollReveal.tsx:57-100 | in view gives exactly {x: 0, y: 0, opacity: 1}. Never seen and out of view gives the initial pose. Seen and scrolled past the element's bottom gives the exit pose. Any other case gives the initial pose. Opacity is 1 exactly when in view |
| ScrollReveal.OutOfViewIsOnAxis | src/components/ScrollReveal.tsx:57-100 | out of view the content is invisible and displaced by ±distance on the direction's axis only |
| ScrollReveal.SeenAfter | src/components/ScrollReveal.tsx:28-32 | the flag after the effect is set exactly when it was already set or the element is in view |
| ScrollReveal.SeenAfterAllIsAny | src/components/ScrollReveal.tsx:28-32 | after any sequence of observations, the flag is set exactly when it was set initially or some observation was in view |
| ScrollReveal.SeenIsMonotone | src/components/ScrollReveal.tsx:28-32 | once set, the flag never reverts |
| ScrollReveal.TransitionDelay | src/components/ScrollReveal.tsx:124 | the configured delay applies exactly when the element is in view and not seen before; otherwise the delay is 0 |
| ScrollReveal.DelayAtMostOnce | src/components/ScrollReveal.tsx:124 | in any sequence of renders, the configured delay applies at most once: at the first render in view |
| ScrollReveal.HandleScroll | src/components/ScrollReveal.tsx:35-39 | the direction is down exactly when the new scroll offset exceeds the last one, and the new offset is remembered |

## Left out

- Three.js scene, camera, lights, renderer, materials, the rim-glow shader and the raycaster internals are not modelled. They are foreign library calls: the raycast result is a boolean input.
- The normalised device coordinates written to `mouseRef` are not modelled, because they feed only the raycaster.
- Canvas drawing of the ocean gradient, the continents and the random clouds is not modelled, because it is 2D-context rendering with no state the widget reads back.
- Listener registration, `requestAnimationFrame` scheduling, `renderer.setSize`, `setPixelRatio` and disposal at unmount are not modelled. They are DOM and GPU resource plumbing. `Session.Run` takes any interleaving of events in place of the scheduling.
- Mouse.HandleMouseMove: the move requires `speed` to be the exact square root of the squared velocity. `Math.sqrt` and all of the source's arithmetic are IEEE doubles; the model uses exact reals, so rounding is not modelled.
- Mouse.HoverStep: a hitting move requires a canvas of positive width and height. With a zero-size canvas the source's division gives Infinity or NaN, which reals cannot represent, and such a canvas cannot be hit by the ray anyway.
- EarthState.Aspect: a zero container height gives None instead of JavaScript's Infinity or NaN.
- Navigation.HandleScroll: the requestAnimationFrame throttle, the initial call at mount and the `console.log` calls are not modelled. The activation rule takes the nav item ids as a parameter; the page passes `Navigation.NavItems`.
- Navigation.ScrollToSection: the browser's clamping of the scroll target to the scrollable range and the smooth-scroll animation are not modelled; the result is the requested top.
- ScrollReveal: `useInView` (viewport intersection with a −10% margin) is not modelled; `isInView` is an input. The framer-motion animation between poses is not modelled either. The `scrollDirection` state is computed but never read by the component.
- `src/components/GooeyNav.tsx`, `StarField.tsx`, `ScrollFadeWrapper.tsx`, `FloatingArrow.tsx`, `ContactSection.tsx`, the static section components and `src/pages/Index.tsx` are not part of this model. They hold declarative layout, random decoration, a network call or animation inside framer-motion.
