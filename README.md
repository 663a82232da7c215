# Portfolio background animator and scroll-spy, modelled in Dafny

The portfolio site's `script.js` draws an animated background. The background has
two parts:

- a pool of soft gradient orbs that orbit slowly migrating centres, drift, pulse
  in size and wrap around the viewport's edges;
- a 20-link trail that follows a damped cursor.

The script also has a scroll handler that highlights the navigation link of the
section being read.

This project models both as Dafny. Every number is a `real`, so floating-point
rounding is not modelled.

- `Trail.dfy` (module `Trail`) holds the cursor and chain values. It defines the
  damped-follow step `Approach`, one frame of the cursor (`Damp`), one frame of the
  chain as a simultaneous update (`Propagated`), and the chain that `createTrail`
  pushes (`InitialTrail`). It also holds the lemmas about these.
- `Orbs.dfy` (module `Orbs`) holds the orb record and how an orb is generated from
  fifteen `Math.random()` draws (`NewOrb`, `GeneratedOrbs`). It also holds one frame
  of an orb (`StepOrb`), built from `Advance` (orbit, drift, centre migration,
  pulse) and `WrapAxis` (the edge wraparound), and the lemmas about them.
- `Background.dfy` (module `Background`) holds the class `InteractiveBackground`.
  Its fields are the ones the source updates in place: the canvas size, the trail
  as an `array<Segment>`, the orb pool as a `seq<Orb>`, both cursors and the frame
  counter. Each method mirrors a method of the source statement by statement and
  is proved against the functions above. The module ends with four client methods
  that state what the source does end to end.
- `ScrollSpy.dfy` (module `ScrollSpy`) holds the scroll handler as two loops. The
  first picks the last section whose top minus 200 is at most the scroll
  offset. The second marks the links whose href is `#` plus that section's id.

The environment comes in as parameters:

- the viewport size (`window.innerWidth`, `window.innerHeight`);
- the pointer coordinates of a move event;
- the scroll offset, the sections' tops and ids, and the links' hrefs;
- the values `Math.random()` returns, as a sequence of reals in [0, 1);
- `Math.cos` and `Math.sin`, as two functions `real -> real` of which only one thing
  is assumed: their values lie in [-1, 1] (`TrigBounded`).

The model follows the code in three places:

- Both the smoothed cursor and the target start at (0, 0) (`script.js:11-12`), not
  at the centre of the viewport.
- The constructor runs `init` and then one frame of `animate` (`script.js:15-16`).
  A freshly built animator has therefore already counted one frame, and its head
  link sits at (0, 0).
- `init` calls `resize`, which pushes eight orbs, and then calls
  `createGradientOrbs` again (`script.js:21-23`). A freshly built animator holds 16
  orbs. Any later resize leaves 8.

A description of the system that keeps the cursor at the viewport centre would
expect the head at (400, 300) after a frame on an 800 x 600 viewport. It would also
expect a cursor x of 415 after a move to (500, 300). The code gives (0, 0) and 75.
The model follows the code (`FreshAnimator`, `FrameWithoutInput`,
`PointerThenFrame`).

## Model

| member | source | states |
|---|---|---|
| `Background.InteractiveBackground.constructor` | script.js:3-18 | After `init` and the first frame, both cursors are at (0, 0) and the frame counter is 1. The trail is one `Propagated` frame of the 20 pushed links toward (0, 0); `PropagatedFromCollapsed` shows that this puts the head at (0, 0) and leaves every other link on the viewport centre. The pool holds 16 orbs: two generated pools, each stepped once. The animator's invariant holds. |
| `Background.InteractiveBackground.Init` | script.js:20-24 | The canvas takes the viewport size. The trail gains the 20 pushed links. The pool is the pool from `resize` followed by a second generated pool. |
| `Background.InteractiveBackground.Resize` | script.js:26-32 | The canvas takes the new size. The pool is replaced by exactly the 8 orbs of one generation, not appended to. The trail and the cursors do not change. |
| `Background.InteractiveBackground.CreateTrail` | script.js:34-44 | The trail becomes its old links followed by the 20 links of `InitialTrail`. |
| `Background.InteractiveBackground.CreateGradientOrbs` | script.js:46-68 | The pool becomes its old orbs followed by the 8 orbs generated from the next 120 draws, in draw order. |
| `Orbs.NewOrb` | script.js:49-66 | Draws in [0, 1) give an orb with x and centre x in [0, width) and y and centre y in [0, height). baseSize and targetSize lie in [250, 600). Drift speeds lie in [-0.4, 0.4) and orbit speed in [-0.005, 0.005). Opacity lies in [0.08, 0.23) and pulse speed in [0.002, 0.005). colorIndex is in {0, 1, 2}. Radius lies in [100, 300), angle and pulse phase in [0, 2π), and size is 0. |
| `Orbs.GeneratedOrbs` | script.js:46-67 | One generation yields exactly 8 orbs, each with the ranges of `NewOrb`. |
| `Orbs.GeneratedPoolsParams` | script.js:21-23 | Two generations pushed one after the other make 16 orbs, all within the generated parameter ranges. |
| `Background.InteractiveBackground.PointerMove` | script.js:73-76 | A pointer move sets the target to the event's coordinates and changes nothing else. The smoothed cursor in particular is untouched. |
| `Background.InteractiveBackground.UpdateTrail` | script.js:79-92 | The cursor becomes `Damp` of the old cursor toward the target. The chain becomes `Propagated` of the old chain: the loop from the tail lets every link chase its predecessor's position from before the frame, then the head is pinned to the new cursor. |
| `Trail.DampShrinksDistance` | script.js:81-82 | On each axis, one frame leaves exactly 85% of the distance to the target. The new cursor lies strictly between the old cursor and the target, unless they are equal. |
| `Trail.DampFixedPoint` | script.js:81-82 | The cursor is unchanged by a frame if and only if it already equals the target. |
| `Trail.CursorConverges` | script.js:81-82 | After n frames with a fixed target, the distance to the target on each axis is the initial distance times 0.85^n. |
| `Trail.PropagatedKeepsStyle` | script.js:85-91 | A frame keeps the chain's length and every link's size and opacity. |
| `Trail.PropagatedPinsHead` | script.js:90-91 | After a frame, the head's x and y are exactly the cursor's. |
| `Trail.PropagatedChases` | script.js:85-88 | Every link i > 0 ends strictly between its old position and its predecessor's old position, unless they coincide. It is 75% of the old gap away from the predecessor's old position. |
| `Trail.FollowInPlace` | script.js:86-87 | A link that sits on its predecessor does not move. |
| `Trail.InitialTrailShape` | script.js:34-44 | `createTrail` pushes 20 links, all at (width/2, height/2). Their sizes `8 - 0.3i` and opacities `1 - 0.05i` are strictly decreasing along the chain and all positive. |
| `Trail.PropagatedFromCollapsed` | script.js:85-91 | A frame on the freshly pushed chain moves the head onto the cursor and leaves every other link where it was pushed. |
| `Background.InteractiveBackground.MoveOrb` | script.js:96-129 | The statement-by-statement orb update, with its four sequential wraparound tests, computes `StepOrb`. Its second test cannot fire after its first one has, and likewise vertically. |
| `Background.InteractiveBackground.UpdateGradientOrbs` | script.js:94-131 | Every orb of the pool, and nothing else, is replaced by its `StepOrb`, in pool order. |
| `Orbs.StepOrbPulse` | script.js:97-111 | The angle advances by orbitSpeed and the pulse phase by pulseSpeed. The new size lies in [baseSize - 80, baseSize + 80]. |
| `Orbs.StepOrbKeepsParams` | script.js:94-130 | A frame changes no parameter of an orb, so the generated ranges hold forever. The size of a well-formed orb stays in [170, 680). |
| `Orbs.StepOrbUnwrapped` | script.js:97-107 | With no wraparound, x is the old centre x plus cos(new angle) times radius plus speedX, and the centre x moves by 0.3 times speedX. The same holds for y with sin and speedY. |
| `Orbs.StepOrbWrapsLeft` | script.js:114-117 | If the advanced x is below -size, the orb ends at x = width + size with its centre x equal to it. |
| `Orbs.StepOrbWrapsRight` | script.js:118-121 | If the advanced x is above width + size, the orb ends at x = -size with its centre x equal to it. |
| `Orbs.StepOrbWrapsUp` | script.js:122-125 | If the advanced y is below -size, the orb ends at y = height + size with its centre y equal to it. |
| `Orbs.StepOrbWrapsDown` | script.js:126-129 | If the advanced y is above height + size, the orb ends at y = -size with its centre y equal to it. |
| `Orbs.StepOrbInBand` | script.js:113-129 | After a frame, a well-formed orb lies inside the viewport padded by its size on every side. |
| `Orbs.StepOrbIgnoresPosition` | script.js:98-99 | A frame's result does not depend on the orb's previous position, only on its orbit centre. |
| `Orbs.SteppedPoolKeepsParams` | script.js:94-131 | A frame keeps a well-formed pool well-formed. Every orb is afterwards at least 170 in size and inside the padded viewport. |
| `Background.InteractiveBackground.Animate` | script.js:206-218 | One frame adds 1 to the counter, runs `UpdateTrail`, then `UpdateGradientOrbs`, and keeps the animator's invariant. Afterwards every orb is at least 170 in size and inside the viewport padded by its size. |
| `Background.FreshAnimator` | script.js:9-16 | A freshly built animator has its head link at (0, 0), holds 16 orbs and has counted one frame. |
| `Background.FrameWithoutInput` | script.js:206-218 | On an 800 x 600 viewport, one more frame with no input keeps the head at (0, 0). The second link moves to (300, 225), a quarter of the way from the centre to the head. |
| `Background.PointerThenFrame` | script.js:73-82 | A pointer move to (500, 300) followed by one frame puts the smoothed cursor at (75, 45). |
| `Background.ResizeRegenerates` | script.js:26-32 | After a resize to 1024 x 768, the pool holds exactly 8 orbs, all freshly generated inside [0, 1024) x [0, 768). |
| `ScrollSpy.LastReached` | script.js:264-271 | Returns the index of a reached section with no reached section after it, or nothing exactly when no section is reached. A section is reached when the offset is at least its top minus 200. |
| `ScrollSpy.CurrentSection` | script.js:264-271 | The overwriting loop ends with the id of the last reached section. It ends with the empty string when none is reached. |
| `ScrollSpy.MarkActive` | script.js:273-278 | Item i is active exactly when its href is `#` followed by the current id, in both directions. A missing id prints as `null`. |
| `ScrollSpy.OnScroll` | script.js:263-279 | The handler marks active exactly the items whose href is the anchor of the last reached section. |
| `ScrollSpy.ScrollMonotone` | script.js:265-271 | Scrolling further down never selects an earlier section. |
| `ScrollSpy.ReachedPrefix` | script.js:265-271 | With the sections in page order, the reached sections are exactly those up to the selected one. |
| `ScrollSpy.AtMostOneActive` | script.js:273-278 | With distinct hrefs, at most one navigation item is active. |

## Left out

- Drawing is not modelled: `drawTrail`, `drawGradientOrbs`, the `clearRect` in `animate`, and the colour palettes. These are calls into the Canvas 2D API with no result the program reads.
- `requestAnimationFrame` rescheduling, the `addEventListener` wiring and the `DOMContentLoaded` bootstrap are platform plumbing. One frame is the method `Animate`, a pointer event is `PointerMove`, and a resize event is `Resize` with the new size.
- The canvas element's creation and its insertion into the page are left out, because the model has no document.
- `Math.random`, `Math.cos` and `Math.sin` are not implemented. Their values come in as parameters with only the bounds stated above.
- `Math.PI` is the decimal 3.141592653589793.
- JavaScript floating-point rounding and number ranges are not modelled: the model's numbers are unbounded reals and integers.
- The mobile menu toggle, the closing of the menu on link click and the smooth scrolling are left out. So are the IntersectionObserver fade-ins and the class toggling on the DOM elements themselves. All are one-line DOM glue; the scroll handler's result is the list of active flags.
- The contact form is left out. It builds URLs with `encodeURIComponent`, opens them with `window.open`, and resets the form through `setTimeout` and `alert`. These are browser calls the model cannot see.
- The GSAP hover handlers and the commented-out parallax and profile-image code are left out. They contain no logic beyond calls into a tween library.
- The orb field `targetSize` is generated and kept, but nothing in the source reads it. The frame counter likewise only counts.
