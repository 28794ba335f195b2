/**
 * The cube interaction controller as the object the page holds
 * (class CubeController in js/script.js), and the host's animation-frame
 * scheduler it talks to.  Every method changes the fields the way the source
 * does, step by step, and is proved to agree with its function in CubeSpec.
 * The event handlers, the button methods and the frame tick also keep the
 * invariant CubeSpec.Inv; StartAutoRotation, StopAutoRotation and
 * UpdateCubeRotation are steps inside them and promise only their new state.
 */
module CubeInteraction {
  import opened CubeSpec

  /**
   * requestAnimationFrame / cancelAnimationFrame: a counter that hands out
   * handles and the set of handles whose callbacks are still due.
   */
  class FrameScheduler {
    var nextId: nat
    var pending: set<nat>

    function Snapshot(): Frames
      reads this
    {
      Frames(nextId, pending)
    }

    constructor (firstId: nat)
      requires 1 <= firstId
      ensures Snapshot() == Frames(firstId, {}) && FramesValid(Snapshot())
    {
      nextId := firstId;
      pending := {};
    }

    /** requestAnimationFrame */
    method Request() returns (id: nat)
      modifies this
      ensures (Snapshot(), id) == RequestFrame(old(Snapshot()))
    {
      id := nextId;
      pending := pending + {id};
      nextId := nextId + 1;
    }

    /** cancelAnimationFrame */
    method Cancel(id: nat)
      modifies this
      ensures Snapshot() == DropFrame(old(Snapshot()), id)
    {
      pending := pending - {id};
    }

    /** The host takes a due frame off the queue in order to run its callback. */
    method Dispatch(id: nat)
      requires id in pending
      modifies this
      ensures Snapshot() == DropFrame(old(Snapshot()), id)
    {
      pending := pending - {id};
    }
  }

  class CubeController {
    /** The scheduler is handed in rather than looked up globally. */
    const frames: FrameScheduler
    const rotationSpeed: real := RotationSpeed
    const autoRotationSpeed: real := AutoRotationSpeed

    var isDragging: bool
    var previousMouseX: real
    var previousMouseY: real
    var rotationX: real
    var rotationY: real
    var autoRotate: bool
    var animationId: Option<nat>
    /** The orientation last written into the cube's transform, if any. */
    var rendered: Option<Angles>

    function State(): Cube
      reads this, frames
    {
      Cube(rotationX, rotationY, isDragging, previousMouseX, previousMouseY,
           autoRotate, animationId, rendered, frames.Snapshot())
    }

    ghost predicate Valid()
      reads this, frames
    {
      Inv(State())
    }

    constructor (frames: FrameScheduler)
      requires FramesValid(frames.Snapshot())
      modifies frames
      ensures this.frames == frames
      ensures State() == Init(old(frames.Snapshot()))
      ensures Valid()
    {
      this.frames := frames;
      isDragging := false;
      previousMouseX := 0.0;
      previousMouseY := 0.0;
      rotationX := InitialRotation;
      rotationY := InitialRotation;
      autoRotate := true;
      animationId := None;
      rendered := None;
      new;
      StartAutoRotation();
    }

    method OnMouseDown(x: real, y: real)
      requires Valid()
      modifies this, frames
      ensures Valid()
      ensures State() == MouseDown(old(State()), x, y)
    {
      isDragging := true;
      previousMouseX := x;
      previousMouseY := y;
      StopAutoRotation();
    }

    method OnMouseMove(x: real, y: real)
      requires Valid()
      modifies this
      ensures Valid()
      ensures State() == MouseMove(old(State()), x, y)
    {
      if !isDragging {
        return;
      }
      var deltaX := x - previousMouseX;
      var deltaY := y - previousMouseY;
      rotationY := rotationY + deltaX * rotationSpeed;
      rotationX := rotationX - deltaY * rotationSpeed;
      UpdateCubeRotation();
      previousMouseX := x;
      previousMouseY := y;
    }

    method OnMouseUp()
      requires Valid()
      modifies this, frames
      ensures Valid()
      ensures State() == MouseUp(old(State()))
    {
      isDragging := false;
      StartAutoRotation();
    }

    /** `touches` is the number of touches; (x, y) is the first one's position. */
    method OnTouchStart(touches: nat, x: real, y: real)
      requires Valid()
      modifies this, frames
      ensures Valid()
      ensures State() == TouchStart(old(State()), touches, x, y)
    {
      if touches == 1 {
        isDragging := true;
        previousMouseX := x;
        previousMouseY := y;
        StopAutoRotation();
      }
    }

    method OnTouchMove(touches: nat, x: real, y: real)
      requires Valid()
      modifies this
      ensures Valid()
      ensures State() == TouchMove(old(State()), touches, x, y)
    {
      if !isDragging || touches != 1 {
        return;
      }
      var deltaX := x - previousMouseX;
      var deltaY := y - previousMouseY;
      rotationY := rotationY + deltaX * rotationSpeed;
      rotationX := rotationX - deltaY * rotationSpeed;
      UpdateCubeRotation();
      previousMouseX := x;
      previousMouseY := y;
    }

    method OnTouchEnd()
      requires Valid()
      modifies this, frames
      ensures Valid()
      ensures State() == MouseUp(old(State()))
    {
      isDragging := false;
      StartAutoRotation();
    }

    method UpdateCubeRotation()
      modifies this
      ensures State() == Render(old(State()))
    {
      rotationX := Max(-90.0, Min(90.0, rotationX));
      rendered := Some(Angles(rotationX, rotationY));
    }

    method StartAutoRotation()
      modifies this, frames
      ensures State() == CubeSpec.StartAutoRotation(old(State()))
    {
      if !autoRotate || isDragging {
        return;
      }
      var id := frames.Request();
      animationId := Some(id);
    }

    /** The host runs the `animate` callback of due frame `id`. */
    method Tick(id: nat)
      requires Valid()
      requires id in frames.pending
      modifies this, frames
      ensures Valid()
      ensures State() == CubeSpec.Tick(old(State()), id)
    {
      frames.Dispatch(id);
      if !isDragging && autoRotate {
        rotationY := rotationY + autoRotationSpeed;
        UpdateCubeRotation();
        var next := frames.Request();
        animationId := Some(next);
      }
    }

    method StopAutoRotation()
      modifies this, frames
      ensures State() == CubeSpec.StopAutoRotation(old(State()))
    {
      if animationId.Some? && animationId.value != 0 {
        frames.Cancel(animationId.value);
        animationId := None;
      }
    }

    method Reset()
      requires Valid()
      modifies this
      ensures Valid()
      ensures State() == CubeSpec.Reset(old(State()))
    {
      rotationX := InitialRotation;
      rotationY := InitialRotation;
      UpdateCubeRotation();
    }

    method ToggleAutoRotate() returns (enabled: bool)
      requires Valid()
      modifies this, frames
      ensures Valid()
      ensures (State(), enabled) == CubeSpec.ToggleAutoRotate(old(State()))
    {
      autoRotate := !autoRotate;
      if autoRotate && !isDragging {
        StartAutoRotation();
      } else {
        StopAutoRotation();
      }
      enabled := autoRotate;
    }

    method RotateToFace(face: string)
      requires Valid()
      modifies this
      ensures Valid()
      ensures State() == CubeSpec.RotateToFace(old(State()), face)
    {
      var rotation := FaceRotation(face);
      if rotation.Some? {
        rotationX := rotation.value.x;
        rotationY := rotation.value.y;
        UpdateCubeRotation();
      }
    }
  }
}
