// The render widget's input handling and frame timing: the event handlers keep
// the last pointer position, the "first move after a release" flag and the
// frame delta, and forward the resulting movements to the camera.

module Renderers {
  import opened Geometry
  import opened Cameras

  /** The position the widget's camera is created at (the default argument of
      the camera's constructor). */
  const StartPosition := Vec3(0.0, 0.0, 20.0)

  datatype Key = Escape | KeyW | KeyS | KeyA | KeyD | KeyR | OtherKey(code: int)

  /** What keyPressEvent does to the camera. */
  datatype KeyAction = Move(direction: CameraMovement) | ResetCamera | NoAction

  /** The switch of keyPressEvent. The Escape case has no `break`: after asking
      the application to quit it falls through into the W case. */
  function ActionOf(key: Key): (a: KeyAction)
    ensures a == Move(Forward) <==> key == Escape || key == KeyW
    ensures a == Move(Backward) <==> key == KeyS
    ensures a == Move(Left) <==> key == KeyA
    ensures a == Move(Right) <==> key == KeyD
    ensures a == ResetCamera <==> key == KeyR
    ensures a == NoAction <==> key.OtherKey?
  {
    match key
    case Escape => Move(Forward)
    case KeyW => Move(Forward)
    case KeyS => Move(Backward)
    case KeyA => Move(Left)
    case KeyD => Move(Right)
    case KeyR => ResetCamera
    case OtherKey(_) => NoAction
  }

  /** The pointer state a left-button drag is measured against. */
  datatype Drag = Drag(last: Point, firstMove: bool)

  /** The (xoffset, yoffset) a left-button move to `cur` produces: on the first
      move after a release the last position is first seeded with `cur`; the
      y offset is inverted. */
  function Offsets(d: Drag, cur: Point): (r: (int, int))
    ensures d.firstMove ==> r == (0, 0)
    ensures !d.firstMove ==> r == (cur.x - d.last.x, d.last.y - cur.y)
  {
    var from := if d.firstMove then cur else d.last;
    (cur.x - from.x, from.y - cur.y)
  }

  /** The state after a left-button move to `cur`. */
  function AfterMove(cur: Point): Drag
  {
    Drag(cur, false)
  }

  /** Offsets summed over a run of left-button moves through `path`. */
  function TotalOffsets(d: Drag, path: seq<Point>): (int, int)
    decreases |path|
  {
    if |path| == 0 then (0, 0)
    else
      var (dx, dy) := Offsets(d, path[0]);
      var (tx, ty) := TotalOffsets(AfterMove(path[0]), path[1..]);
      (dx + tx, dy + ty)
  }

  /** The offsets of a drag telescope: their sum is the displacement from where
      the drag is measured (the last position, or the first point after a
      release) to the final point, with y inverted. */
  lemma {:induction false} DragTelescopes(d: Drag, path: seq<Point>)
    requires |path| > 0
    ensures var start := if d.firstMove then path[0] else d.last;
            TotalOffsets(d, path) == (path[|path| - 1].x - start.x, start.y - path[|path| - 1].y)
    decreases |path|
  {
    if |path| > 1 {
      DragTelescopes(AfterMove(path[0]), path[1..]);
    }
  }

  /** The deltaTime each paintGL computes, for clock readings in milliseconds,
      starting from `lastFrame` seconds. */
  function FrameDeltas(lastFrame: real, elapsedMs: seq<nat>): (r: seq<real>)
    ensures |r| == |elapsedMs|
    decreases |elapsedMs|
  {
    if |elapsedMs| == 0 then []
    else
      var now := elapsedMs[0] as real / 1000.0;
      [now - lastFrame] + FrameDeltas(now, elapsedMs[1..])
  }

  function SumReals(xs: seq<real>): real
  {
    if |xs| == 0 then 0.0 else xs[0] + SumReals(xs[1..])
  }

  /** With a clock that never goes back, no frame delta is negative, and the
      deltas add up to the time elapsed since `lastFrame`. */
  lemma {:induction false} FrameDeltasSound(lastFrame: real, elapsedMs: seq<nat>)
    requires |elapsedMs| > 0 ==> lastFrame <= elapsedMs[0] as real / 1000.0
    requires forall i, j :: 0 <= i < j < |elapsedMs| ==> elapsedMs[i] <= elapsedMs[j]
    ensures forall k :: 0 <= k < |elapsedMs| ==> FrameDeltas(lastFrame, elapsedMs)[k] >= 0.0
    ensures |elapsedMs| > 0 ==>
              SumReals(FrameDeltas(lastFrame, elapsedMs)) == elapsedMs[|elapsedMs| - 1] as real / 1000.0 - lastFrame
    decreases |elapsedMs|
  {
    if |elapsedMs| > 0 {
      var now := elapsedMs[0] as real / 1000.0;
      var rest := elapsedMs[1..];
      if |rest| > 0 {
        assert rest[0] == elapsedMs[1];
      }
      FrameDeltasSound(now, rest);
      var ds := FrameDeltas(lastFrame, elapsedMs);
      assert ds == [now - lastFrame] + FrameDeltas(now, rest);
      assert ds[1..] == FrameDeltas(now, rest);
      forall k | 0 <= k < |elapsedMs|
        ensures ds[k] >= 0.0
      {
        if k > 0 {
          assert ds[k] == FrameDeltas(now, rest)[k - 1];
        }
      }
    }
  }

  class OpenGLRenderer {
    const camera: Camera
    var lastMousePos: Point
    var firstTimeHandled: bool
    var lastFrame: real
    var deltaTime: real

    ghost predicate Valid()
      reads this, camera
    {
      camera.Valid()
    }

    /** The widget owns a camera at its default position; frame times start at
        0 and the first-move flag is false. */
    constructor (orient: (real, real) -> Basis)
      ensures fresh(camera) && camera.position == StartPosition && camera.orient == orient
      ensures camera.yaw == InitialYaw && camera.pitch == InitialPitch && camera.zoom == InitialZoom
      ensures camera.movementSpeed == 3.0 && camera.mouseSensitivity == 0.05
      ensures camera.worldUp == Vec3(0.0, 1.0, 0.0)
      ensures lastMousePos == Point(0, 0) && !firstTimeHandled
      ensures lastFrame == 0.0 && deltaTime == 0.0
      ensures Valid()
    {
      camera := new Camera(StartPosition, orient);
      lastMousePos := Point(0, 0);
      firstTimeHandled := false;
      lastFrame := 0.0;
      deltaTime := 0.0;
    }

    /** initializeGL: the last pointer position becomes the widget centre (the
        halved sizes are truncated to the integers of a point). */
    method InitializeGL(width: nat, height: nat)
      modifies this`lastMousePos
      ensures lastMousePos == Point(width / 2, height / 2)
    {
      lastMousePos := Point(width / 2, height / 2);
    }

    /** The frame bookkeeping at the start of paintGL, `elapsedMs` being the
        widget timer's reading. */
    method PaintGL(elapsedMs: nat)
      modifies this`deltaTime, this`lastFrame
      ensures deltaTime == elapsedMs as real / 1000.0 - old(lastFrame)
      ensures lastFrame == elapsedMs as real / 1000.0
      ensures old(lastFrame) <= lastFrame ==> deltaTime >= 0.0
    {
      var elapsedTimeSeconds := elapsedMs as real / 1000.0;
      deltaTime := elapsedTimeSeconds - lastFrame;
      lastFrame := elapsedTimeSeconds;
    }

    /** keyPressEvent: W, S, A, D (and Escape, falling through) move the camera
        one fixed step, R resets it, any other key leaves it as it was. */
    method KeyPressEvent(key: Key)
      requires Valid()
      modifies camera
      ensures Valid()
      ensures ActionOf(key).Move? ==>
                camera.position == Moved(old(camera.position), ActionOf(key).direction,
                                         camera.front, camera.right, camera.movementSpeed)
      ensures ActionOf(key).Move? ==>
                camera.yaw == old(camera.yaw) && camera.pitch == old(camera.pitch) &&
                camera.zoom == old(camera.zoom) && camera.front == old(camera.front) &&
                camera.right == old(camera.right) && camera.up == old(camera.up)
      ensures ActionOf(key) == ResetCamera ==>
                camera.position == ResetPosition && camera.zoom == InitialZoom &&
                camera.yaw == InitialYaw && camera.pitch == InitialPitch
      ensures camera.movementSpeed == old(camera.movementSpeed)
      ensures camera.mouseSensitivity == old(camera.mouseSensitivity)
      ensures ActionOf(key) == NoAction ==> unchanged(camera)
    {
      match key
      case Escape =>
        camera.ProcessKeyboard(Forward, deltaTime);
      case KeyW =>
        camera.ProcessKeyboard(Forward, deltaTime);
      case KeyS =>
        camera.ProcessKeyboard(Backward, deltaTime);
      case KeyA =>
        camera.ProcessKeyboard(Left, deltaTime);
      case KeyD =>
        camera.ProcessKeyboard(Right, deltaTime);
      case KeyR =>
        camera.Reset();
      case OtherKey(_) =>
    }

    /** mouseReleaseEvent: the next left-button move starts a new drag. */
    method MouseReleaseEvent()
      modifies this`firstTimeHandled
      ensures firstTimeHandled
    {
      firstTimeHandled := true;
    }

    /** mouseMoveEvent: only a move with the left button held does anything; it
        turns the camera by the offsets from the last position and records the
        new one. */
    method MouseMoveEvent(leftButton: bool, global: Point)
      requires Valid()
      modifies this`lastMousePos, this`firstTimeHandled, camera
      ensures Valid()
      ensures !leftButton ==>
                lastMousePos == old(lastMousePos) && firstTimeHandled == old(firstTimeHandled) &&
                unchanged(camera)
      ensures leftButton ==> lastMousePos == global && !firstTimeHandled
      ensures leftButton ==>
                var (dx, dy) := Offsets(Drag(old(lastMousePos), old(firstTimeHandled)), global);
                camera.yaw == old(camera.yaw) + dx as real * camera.mouseSensitivity &&
                camera.pitch == ClampPitch(old(camera.pitch) + dy as real * camera.mouseSensitivity)
      ensures camera.position == old(camera.position) && camera.zoom == old(camera.zoom)
      ensures camera.movementSpeed == old(camera.movementSpeed)
      ensures camera.mouseSensitivity == old(camera.mouseSensitivity)
    {
      if leftButton {
        if firstTimeHandled {
          firstTimeHandled := false;
          lastMousePos := global;
        }
        var xoffset := global.x - lastMousePos.x;
        var yoffset := lastMousePos.y - global.y;
        lastMousePos := global;
        camera.ProcessMouseMovement(xoffset as real, yoffset as real);
      }
    }

    /** wheelEvent: the integer wheel delta goes to the camera unchanged. */
    method WheelEvent(delta: int)
      requires Valid()
      modifies camera
      ensures Valid()
      ensures camera.zoom == ScrollZoom(old(camera.zoom), delta as real)
      ensures camera.position == old(camera.position)
      ensures camera.yaw == old(camera.yaw) && camera.pitch == old(camera.pitch)
      ensures camera.movementSpeed == old(camera.movementSpeed)
      ensures camera.mouseSensitivity == old(camera.mouseSensitivity)
    {
      camera.ProcessMouseScroll(delta as real);
    }
  }
}
