# Cube interaction controller, modelled in Dafny

The portfolio page shows a 3D cube that the visitor can drag with the mouse
or with one finger, that turns by itself while nobody drags it, and that a
row of buttons can reset, stop or start, or turn to one of its six faces.
All of this is the `CubeController` class of `js/script.js`. It keeps:

- the orientation `(rotationX, rotationY)` in degrees, with the tilt
  `rotationX` clamped to [-90, 90] whenever the cube is redrawn;
- a drag session: `isDragging` and the last pointer position;
- the `autoRotate` flag and `animationId`, the handle of the last animation
  frame it asked the browser for.

Auto-rotation is a self-rescheduling `animate` callback: each frame it turns
the cube by 0.5 degrees and asks for the next frame, as long as no drag is in
progress and auto-rotation is on.

The project has three modules:

- `CubeSpec` (cube_spec.dfy): the controller's state as a value `Cube`
  (its fields, the orientation last drawn, and the browser's queue of due
  animation frames), one function per operation of the controller, and the
  invariant `Inv` that every operation keeps. Each function's contract says
  what the operation does to the state and that it keeps `Inv`.
- `CubeInteraction` (cube_controller.dfy): the class `CubeController`, whose
  methods update its fields step by step as the JavaScript does, and a class
  `FrameScheduler` standing for `requestAnimationFrame` and
  `cancelAnimationFrame`. Every method is proved to leave the object in the
  state its `CubeSpec` function gives. Every event handler and button method
  (and the `animate` tick) also keeps `Valid()`, which is `Inv` of the object's
  state.
- `CubeRuns` (cube_runs.dfy): sequences of events (mouse, touch, animation
  frames, buttons), `Run` over them, and lemmas about sequences: drag there
  and back, two touches, toggling twice, stopping twice. The lemmas also show
  that animation loops pile up.

Rendering is modelled as the pair last written into the cube's transform
(`rendered`). The invariant says that it always equals the current
orientation once anything has been drawn.

The animation-frame queue is a counter of handles plus the set of handles
whose callbacks are still due. The browser runs a due callback through
`Tick`: the frame leaves the queue and `animate` runs.

### Behaviour of the code worth knowing

- `onMouseDown` (js/script.js:73-80) has no guard for a drag already in
  progress. A second press restarts the drag at the new position
  (`CubeSpec.MouseDown`).
- `startAutoRotation` (js/script.js:143-155) checks only `autoRotate` and
  `isDragging`. It never looks at `animationId` and never cancels the frame
  already due. `mouseup` and `touchend` are listened for on the whole document
  (js/script.js:62, 67), and their handlers call `startAutoRotation`
  unconditionally. So a release with no drag in progress starts one more
  `animate` loop beside the running one, and the cube then turns twice as
  fast. Turning auto-rotation off cancels only the newest frame. The older
  loop ends only when its next frame runs and finds auto-rotation off. Each
  further stray release adds one more loop. See
  `CubeRuns.ReleaseWhileRotatingStartsSecondLoop`,
  `CubeRuns.TwoLoopsTurnTwiceAsFast`, `CubeRuns.ToggleOffLeavesStrayFrame`
  and `CubeRuns.ReleasesPileUpFrames`. What does hold is in `CubeSpec.Inv`: a
  handle is remembered exactly when auto-rotation is on and no drag is in
  progress, and the remembered frame is always due.

## Model

| member | source | states |
|---|---|---|
| CubeSpec.Clamp | js/script.js:138 | the clamped tilt lies in [-90, 90]; it equals the input exactly when the input is in range, and it is the point of the range nearest to the input |
| CubeSpec.Render | js/script.js:136-141 | updateCubeRotation: the tilt becomes its clamp, rotationY is unchanged, the drawn pair equals the new orientation, nothing else changes |
| CubeSpec.RequestFrame | js/script.js:154 | requestAnimationFrame hands out a non-zero handle that was not due before and makes it due |
| CubeSpec.StopAutoRotation | js/script.js:157-162 | afterwards no truthy handle is stored; a truthy handle's frame is removed from the due set; with no truthy handle nothing changes; only the handle and the queue change |
| CubeSpec.StartAutoRotation | js/script.js:143-155 | with auto-rotation off or a drag in progress nothing changes; otherwise one fresh frame becomes due and its handle is stored, and every frame due before stays due |
| CubeSpec.Animate | js/script.js:146-152 | while not dragging and auto-rotating: rotationY grows by exactly 0.5, the result is drawn, a fresh frame is scheduled; otherwise nothing changes and nothing is scheduled |
| CubeSpec.Tick | js/script.js:146-152 | running due frame id removes it from the queue; then either the cube turns by 0.5 and one fresh frame (not due before) is scheduled and remembered, or nothing else changes; session and recorded position are untouched; a handle not due changes nothing; keeps Inv |
| CubeSpec.DragTo | js/script.js:85-94 | a drag step from the recorded position: rotationY grows by dx * 0.5, rotationX becomes the clamp of rotationX - dy * 0.5, the result is drawn, the new position is recorded, flags and frames are untouched; keeps Inv |
| CubeSpec.Init | js/script.js:37-56 | the constructor: orientation (-15, -15), recorded position (0, 0), not dragging, auto-rotating, nothing drawn yet, one fresh frame due and remembered; the state satisfies Inv |
| CubeSpec.MouseDown | js/script.js:73-80 | a press starts a drag at the pointer (also when one is already in progress), cancels the remembered frame and keeps orientation and flag; keeps Inv and leaves no handle |
| CubeSpec.MouseMove | js/script.js:82-95 | without a drag in progress a move changes nothing; with one it is a drag step; keeps Inv |
| CubeSpec.MouseUp | js/script.js:97-101 | release ends the drag; if auto-rotation is on, a fresh frame becomes due beside any already due; if off, only isDragging changes; keeps Inv |
| CubeSpec.TouchStart | js/script.js:103-112 | a touch start with a touch count other than 1 changes nothing; with exactly one touch it is a mouse press at that touch; keeps Inv |
| CubeSpec.TouchMove | js/script.js:114-128 | without a drag or with a touch count other than 1 nothing changes; otherwise it is the same as a mouse move; keeps Inv |
| CubeSpec.Reset | js/script.js:164-168 | orientation becomes (-15, -15) and is drawn; session, flag, handle and frames are untouched; keeps Inv |
| CubeSpec.ToggleAutoRotate | js/script.js:170-178 | the flag is negated and returned; when now on and not dragging a fresh frame (not due before) is scheduled; otherwise the result is exactly stopAutoRotation of the flipped state, so only the remembered frame is cancelled and no truthy handle remains; orientation and session are untouched; keeps Inv |
| CubeSpec.FaceRotation | js/script.js:181-188 | the face table knows exactly the six names front, back, right, left, top, bottom, and every tilt in it lies in [-90, 90] |
| CubeSpec.RotateToFace | js/script.js:180-195 | a known face sets the orientation to its table pair and draws it; an unknown name changes nothing; session, flag, handle and frames are untouched; keeps Inv |
| CubeRuns.Step | js/script.js:58-71 | each listener's event keeps Inv |
| CubeRuns.Run | js/script.js:36-196 | any sequence of events keeps Inv, so the tilt is in [-90, 90] and the drawing is current after every event |
| CubeRuns.DragThereAndBack | js/script.js:85-94 | dragging by dx and back with no vertical movement restores orientation and recorded position exactly; dx > 0 increases rotationY |
| CubeRuns.TouchDragThereAndBack | js/script.js:117-126 | the same round trip for one-finger touch drags |
| CubeRuns.TwoTouchesThenOne | js/script.js:103-112 | a two-touch start does not begin a drag; a one-touch start after the release does |
| CubeRuns.StopTwice | js/script.js:157-162 | under Inv stopAutoRotation leaves no handle, and a second call changes nothing |
| CubeRuns.ToggleTwice | js/script.js:170-178 | toggling twice restores the flag, the returned value, and whether a frame is remembered |
| CubeRuns.ReleaseWhileRotatingStartsSecondLoop | js/script.js:97-101 | after construction, a release with no drag in progress leaves two frames due with only the newer remembered |
| CubeRuns.TwoLoopsTurnTwiceAsFast | js/script.js:143-155 | with two loops running, one round of frames turns the cube by twice the auto-rotation speed and two frames are due again |
| CubeRuns.ToggleOffLeavesStrayFrame | js/script.js:170-178 | turning auto-rotation off cancels only the remembered frame; the older loop's frame is still due and does nothing when it runs |
| CubeRuns.ReleasesPileUpFrames | js/script.js:143-155 | n releases while auto-rotating add n due frames and cancel none |
| CubeRuns.PageWithStrayReleases | js/script.js:97-101 | from a fresh page, n stray releases leave n + 1 animation loops due |
| CubeRuns.ResetMidDrag | js/script.js:164-168 | reset during a drag yields (-15, -15) and the drag continues from its recorded position |
| CubeRuns.FaceTopAndUnknown | js/script.js:180-195 | "top" yields (-90, 0) from any state; an unknown name leaves the state unchanged |
| CubeInteraction.FrameScheduler.Request | js/script.js:154 | the scheduler's state and the returned handle are those of RequestFrame |
| CubeInteraction.FrameScheduler.Cancel | js/script.js:159 | cancelAnimationFrame removes exactly that handle from the due set |
| CubeInteraction.FrameScheduler.Dispatch | js/script.js:150 | the host takes a due frame off the queue before running its callback |
| CubeInteraction.CubeController.constructor | js/script.js:37-56 | the new object's state is Init of the scheduler's state, and Valid holds |
| CubeInteraction.CubeController.OnMouseDown | js/script.js:73-80 | the new state is MouseDown of the old one; keeps Valid |
| CubeInteraction.CubeController.OnMouseMove | js/script.js:82-95 | the new state is MouseMove of the old one; keeps Valid |
| CubeInteraction.CubeController.OnMouseUp | js/script.js:97-101 | the new state is MouseUp of the old one; keeps Valid |
| CubeInteraction.CubeController.OnTouchStart | js/script.js:103-112 | the new state is TouchStart of the old one; keeps Valid |
| CubeInteraction.CubeController.OnTouchMove | js/script.js:114-128 | the new state is TouchMove of the old one; keeps Valid |
| CubeInteraction.CubeController.OnTouchEnd | js/script.js:130-134 | the new state is MouseUp of the old one; keeps Valid |
| CubeInteraction.CubeController.UpdateCubeRotation | js/script.js:136-141 | the new state is Render of the old one |
| CubeInteraction.CubeController.StartAutoRotation | js/script.js:143-155 | the new state is StartAutoRotation of the old one |
| CubeInteraction.CubeController.Tick | js/script.js:146-152 | running due frame id gives Tick of the old state; keeps Valid |
| CubeInteraction.CubeController.StopAutoRotation | js/script.js:157-162 | the new state is StopAutoRotation of the old one |
| CubeInteraction.CubeController.Reset | js/script.js:164-168 | the new state is Reset of the old one; keeps Valid |
| CubeInteraction.CubeController.ToggleAutoRotate | js/script.js:170-178 | the new state and the returned flag are those of ToggleAutoRotate; keeps Valid |
| CubeInteraction.CubeController.RotateToFace | js/script.js:180-195 | the new state is RotateToFace of the old one; keeps Valid |

## Left out

- The DOM: looking up the cube elements, binding the listeners
  (`setupEventListeners`), `preventDefault`, and the context-menu handler.
  Events arrive as method calls with their coordinates.
- The `dragging` CSS class on the container. It is added and removed
  together with `isDragging`, so it would always equal that flag.
- The transform string. Rendering is the pair of angles written into it.
- IEEE floating-point arithmetic. Angles, positions and speeds are real
  numbers.
- CubeSpec.FaceRotation: the source looks names up in a plain object. A name
  inherited from the object prototype, such as "constructor" or "toString",
  is truthy there, and the source would then write undefined values, giving
  NaN once drawn. The model treats such names like any other unknown name.
  The page's buttons only pass the six face names.
- The `window.resetCube`, `window.toggleAutoRotate` and `window.rotateToFace`
  glue, including its guard for a missing controller and the button label.
  It is UI wiring around the three controller methods.
- The rest of `js/script.js`: particles, timeline reveal, the simulated form
  submission, smooth scrolling, the navbar and project-card effects. These
  are presentation only and independent of the controller.
- Calls of `startAutoRotation` or `stopAutoRotation` from outside the
  controller. The page makes none; only the controller's own handlers call
  them. On their own they do not keep `CubeSpec.Inv`: a lone stop while
  auto-rotating leaves auto-rotation on with no handle remembered. So their
  methods promise only the new state, not `Valid()`.
- The browser runs frame callbacks at its own pace. The model lets any due
  frame run at any point between events, in any order. The model does not
  include time.
