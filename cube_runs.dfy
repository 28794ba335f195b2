/**
 * Sequences of events delivered to the cube controller, and what they do.
 *
 * The page delivers input events, button presses and animation frames one at
 * a time; `Run` plays a sequence of them from a given state.  The lemmas
 * below state the controller's promises about single events and about
 * sequences of them, and also exhibit what it does not promise: frames
 * scheduled by startAutoRotation accumulate, because it never cancels the
 * frame it already has.
 */
module CubeRuns {
  import opened CubeSpec

  datatype Event =
    | Press(x: real, y: real)                 // mousedown on the cube
    | Pointer(x: real, y: real)               // mousemove anywhere on the page
    | Release                                 // mouseup anywhere on the page
    | TouchDown(touches: nat, x: real, y: real)
    | TouchDrag(touches: nat, x: real, y: real)
    | TouchUp
    | Frame(id: nat)                          // the host runs a due frame callback
    | ResetButton
    | ToggleButton
    | FaceButton(face: string)

  /** One event, dispatched to the controller operation its listener calls. */
  function Step(s: Cube, e: Event): (r: Cube)
    ensures Inv(s) ==> Inv(r)
  {
    match e
    case Press(x, y) => MouseDown(s, x, y)
    case Pointer(x, y) => MouseMove(s, x, y)
    case Release => MouseUp(s)
    case TouchDown(n, x, y) => TouchStart(s, n, x, y)
    case TouchDrag(n, x, y) => TouchMove(s, n, x, y)
    case TouchUp => MouseUp(s)
    case Frame(id) => Tick(s, id)
    case ResetButton => Reset(s)
    case ToggleButton => ToggleAutoRotate(s).0
    case FaceButton(face) => RotateToFace(s, face)
  }

  /**
   * Plays the events in order.  Every state reached keeps the invariant, so in
   * particular the tilt stays within [-90, 90] after every event.
   */
  function Run(s: Cube, events: seq<Event>): (r: Cube)
    ensures Inv(s) ==> Inv(r)
    decreases |events|
  {
    if events == [] then s else Run(Step(s, events[0]), events[1..])
  }

  /** The mouse button released n times in a row. */
  function Releases(n: nat): (r: seq<Event>)
    ensures |r| == n && forall i :: 0 <= i < n ==> r[i] == Release
  {
    if n == 0 then [] else [Release] + Releases(n - 1)
  }

  // ---------------------------------------------------------------------------
  // Dragging

  /**
   * A horizontal drag by d followed by a drag back by -d restores the whole
   * orientation and the recorded position, with the restored orientation on
   * screen; a drag to the right turns the cube to larger rotationY.
   */
  lemma DragThereAndBack(s: Cube, d: real)
    requires Inv(s) && s.isDragging
    ensures var there := MouseMove(s, s.previousMouseX + d, s.previousMouseY);
            var back := MouseMove(there, s.previousMouseX, s.previousMouseY);
            && back == s.(rendered := Some(Angles(s.rotationX, s.rotationY)))
            && (d > 0.0 ==> there.rotationY > s.rotationY)
  {
  }

  /** The same holds for one-finger touch drags. */
  lemma TouchDragThereAndBack(s: Cube, d: real)
    requires Inv(s) && s.isDragging
    ensures var there := TouchMove(s, 1, s.previousMouseX + d, s.previousMouseY);
            var back := TouchMove(there, 1, s.previousMouseX, s.previousMouseY);
            back == s.(rendered := Some(Angles(s.rotationX, s.rotationY)))
  {
  }

  /** Two fingers do not start a drag; after lifting them, one finger does. */
  lemma TwoTouchesThenOne(s: Cube, x: real, y: real)
    requires Inv(s) && !s.isDragging
    ensures !TouchStart(s, 2, x, y).isDragging
    ensures TouchStart(MouseUp(TouchStart(s, 2, x, y)), 1, x, y).isDragging
  {
  }

  // ---------------------------------------------------------------------------
  // Auto-rotation

  /** stopAutoRotation forgets the handle and a second call changes nothing. */
  lemma StopTwice(s: Cube)
    requires Inv(s)
    ensures StopAutoRotation(s).animationId == None
    ensures StopAutoRotation(StopAutoRotation(s)) == StopAutoRotation(s)
  {
  }

  /**
   * Toggling twice restores the flag and whether a frame is remembered
   * (the handle itself is a new one).
   */
  lemma ToggleTwice(s: Cube)
    requires Inv(s)
    ensures var once := ToggleAutoRotate(s).0;
            var twice := ToggleAutoRotate(once);
            && twice.1 == s.autoRotate
            && twice.0.autoRotate == s.autoRotate
            && twice.0.animationId.Some? == s.animationId.Some?
  {
  }

  /**
   * A mouse release with no drag in progress while auto-rotating schedules a
   * second `animate` loop beside the running one: both frames are due, and
   * only the newer handle is remembered.
   */
  lemma ReleaseWhileRotatingStartsSecondLoop(f: Frames)
    requires FramesValid(f)
    ensures var s := MouseUp(Init(f));
            && s.frames.pending == f.pending + {f.nextId, f.nextId + 1}
            && s.animationId == Some(f.nextId + 1)
  {
  }

  /**
   * Once two loops are running, each frame round turns the cube twice: after
   * both frames have run, rotationY has grown by 2 * AutoRotationSpeed and
   * two frames are due again.
   */
  lemma TwoLoopsTurnTwiceAsFast(f: Frames)
    requires FramesValid(f)
    ensures var s := MouseUp(Init(f));
            var t := Tick(Tick(s, f.nextId), f.nextId + 1);
            && t.rotationY == s.rotationY + 2.0 * AutoRotationSpeed
            && t.frames.pending == f.pending + {f.nextId + 2, f.nextId + 3}
            && t.animationId == Some(f.nextId + 3)
  {
  }

  /**
   * Turning auto-rotation off cancels only the remembered frame: the older
   * loop's frame is still due, and it ends only when it runs and finds
   * auto-rotation off.
   */
  lemma ToggleOffLeavesStrayFrame(f: Frames)
    requires FramesValid(f)
    ensures var s := ToggleAutoRotate(MouseUp(Init(f))).0;
            && !s.autoRotate && s.animationId == None
            && f.nextId in s.frames.pending
            && var t := Tick(s, f.nextId);
               t.rotationY == s.rotationY && f.nextId !in t.frames.pending
  {
  }

  /**
   * n releases with no drag in progress while auto-rotating leave n more
   * frames due than before, and none of the earlier ones is cancelled.
   */
  lemma {:induction false} ReleasesPileUpFrames(s: Cube, n: nat)
    requires Inv(s) && s.autoRotate && !s.isDragging
    ensures var t := Run(s, Releases(n));
            && s.frames.pending <= t.frames.pending
            && |t.frames.pending| == |s.frames.pending| + n
            && t.autoRotate && !t.isDragging
    decreases n
  {
    if n > 0 {
      var s1 := MouseUp(s);
      assert Releases(n)[1..] == Releases(n - 1);
      assert Run(s, Releases(n)) == Run(s1, Releases(n - 1));
      ReleasesPileUpFrames(s1, n - 1);
    }
  }

  /** From a fresh page, n stray releases leave n + 1 animation loops due. */
  lemma PageWithStrayReleases(f: Frames, n: nat)
    requires FramesValid(f) && f.pending == {}
    ensures |Run(Init(f), Releases(n)).frames.pending| == n + 1
  {
    ReleasesPileUpFrames(Init(f), n);
  }

  // ---------------------------------------------------------------------------
  // Buttons

  /** reset in the middle of a drag sets (-15, -15) and the drag goes on. */
  lemma ResetMidDrag(s: Cube, x: real, y: real)
    requires Inv(s)
    ensures var r := Reset(MouseDown(s, x, y));
            && r.rotationX == -15.0 && r.rotationY == -15.0
            && r.isDragging && r.previousMouseX == x && r.previousMouseY == y
  {
  }

  /** rotateToFace("top") gives (-90, 0) from any state; an unknown name changes nothing. */
  lemma FaceTopAndUnknown(s: Cube)
    ensures RotateToFace(s, "top").rotationX == -90.0 && RotateToFace(s, "top").rotationY == 0.0
    ensures RotateToFace(s, "bogus") == s
  {
  }
}
