// The free-fly camera: position, Euler angles and zoom, updated by keyboard,
// mouse drag and wheel input. The trigonometry that re-derives the front,
// right and up vectors from yaw and pitch is the `orient` function the camera
// is built with; the properties proved here do not depend on it.

module Cameras {
  import opened Geometry

  datatype CameraMovement = Forward | Backward | Left | Right

  /** The vectors updateCameraVectors derives from yaw and pitch. */
  datatype Basis = Basis(front: Vec3, right: Vec3, up: Vec3)

  const PitchLimit: real := 89.0
  const ZoomMin: real := 1.0
  const ZoomMax: real := 120.0
  /** The fixed factor processKeyboard multiplies movementSpeed by. */
  const KeyStep: real := 0.05
  /** The factor processMouseScroll multiplies the wheel amount by. */
  const ScrollStep: real := 0.05

  const ResetPosition := Vec3(0.0, 0.0, 5.0)
  const InitialZoom: real := 45.0
  const InitialYaw: real := -90.0
  const InitialPitch: real := 0.0

  function Dist(a: real, b: real): real
  {
    if a >= b then a - b else b - a
  }

  /** qBound(-89, p, 89): the point of [-89, 89] nearest to p. */
  function ClampPitch(p: real): (r: real)
    ensures -PitchLimit <= r <= PitchLimit
    ensures -PitchLimit <= p <= PitchLimit ==> r == p
    ensures forall q :: -PitchLimit <= q <= PitchLimit ==> Dist(r, p) <= Dist(q, p)
  {
    if p < -PitchLimit then -PitchLimit else if p > PitchLimit then PitchLimit else p
  }

  /** The zoom after processMouseScroll(yOffset): the step applies only when the
      zoom is already within [1, 120]; the result is then clamped to [1, 120]. */
  function ScrollZoom(zoom: real, yOffset: real): (r: real)
    ensures ZoomMin <= r <= ZoomMax
    ensures ZoomMin <= zoom <= ZoomMax && ZoomMin <= zoom - yOffset * ScrollStep <= ZoomMax ==>
              r == zoom - yOffset * ScrollStep
    ensures ZoomMin <= zoom <= ZoomMax && zoom - yOffset * ScrollStep < ZoomMin ==> r == ZoomMin
    ensures ZoomMin <= zoom <= ZoomMax && zoom - yOffset * ScrollStep > ZoomMax ==> r == ZoomMax
    ensures ZoomMin <= zoom <= ZoomMax && yOffset >= 0.0 ==> r <= zoom
    ensures ZoomMin <= zoom <= ZoomMax && yOffset <= 0.0 ==> r >= zoom
    ensures zoom < ZoomMin ==> r == ZoomMin
    ensures zoom > ZoomMax ==> r == ZoomMax
  {
    var z := if ZoomMin <= zoom <= ZoomMax then zoom - yOffset * ScrollStep else zoom;
    var z' := if z <= ZoomMin then ZoomMin else z;
    if z' >= ZoomMax then ZoomMax else z'
  }

  /** The position processKeyboard moves to: a fixed step of speed × 0.05 along
      ± front or ± right, whatever the frame time. */
  function Moved(position: Vec3, direction: CameraMovement, front: Vec3, right: Vec3, speed: real): (r: Vec3)
    ensures r.Minus(position) == (match direction
                                  case Forward => front.Times(speed * KeyStep)
                                  case Backward => front.Times(-(speed * KeyStep))
                                  case Left => right.Times(-(speed * KeyStep))
                                  case Right => right.Times(speed * KeyStep))
  {
    var velocity := speed * KeyStep;
    match direction
    case Forward => position.Plus(front.Times(velocity))
    case Backward => position.Minus(front.Times(velocity))
    case Left => position.Minus(right.Times(velocity))
    case Right => position.Plus(right.Times(velocity))
  }

  function Opposite(d: CameraMovement): CameraMovement
  {
    match d
    case Forward => Backward
    case Backward => Forward
    case Left => Right
    case Right => Left
  }

  /** A move followed by the opposite move restores the position exactly. */
  lemma MoveThenOpposite(position: Vec3, d: CameraMovement, front: Vec3, right: Vec3, speed: real)
    ensures Moved(Moved(position, d, front, right, speed), Opposite(d), front, right, speed) == position
  {
  }

  /** The pitch after any run of mouse movements stays within [-89, 89]. */
  function PitchAfter(pitch: real, sensitivity: real, yOffsets: seq<real>): (r: real)
    ensures |yOffsets| > 0 ==> -PitchLimit <= r <= PitchLimit
    ensures |yOffsets| == 0 ==> r == pitch
  {
    if |yOffsets| == 0 then pitch
    else ClampPitch(PitchAfter(pitch, sensitivity, yOffsets[..|yOffsets| - 1]) + yOffsets[|yOffsets| - 1] * sensitivity)
  }

  /** The zoom after any run of wheel events stays within [1, 120]. */
  function ZoomAfter(zoom: real, scrolls: seq<real>): (r: real)
    ensures |scrolls| > 0 ==> ZoomMin <= r <= ZoomMax
    ensures |scrolls| == 0 ==> r == zoom
  {
    if |scrolls| == 0 then zoom
    else ScrollZoom(ZoomAfter(zoom, scrolls[..|scrolls| - 1]), scrolls[|scrolls| - 1])
  }

  /** Once the zoom is in range, wheel events with positive amounts only ever narrow it. */
  lemma {:induction false} ZoomMonotone(zoom: real, scrolls: seq<real>)
    requires ZoomMin <= zoom <= ZoomMax
    requires forall i :: 0 <= i < |scrolls| ==> scrolls[i] >= 0.0
    ensures ZoomAfter(zoom, scrolls) <= zoom
  {
    if |scrolls| > 0 {
      var init := scrolls[..|scrolls| - 1];
      assert forall i :: 0 <= i < |init| ==> init[i] == scrolls[i];
      ZoomMonotone(zoom, init);
    }
  }

  /** Once the zoom is in range, wheel events with negative amounts only ever widen it. */
  lemma {:induction false} ZoomMonotoneWiden(zoom: real, scrolls: seq<real>)
    requires ZoomMin <= zoom <= ZoomMax
    requires forall i :: 0 <= i < |scrolls| ==> scrolls[i] <= 0.0
    ensures ZoomAfter(zoom, scrolls) >= zoom
  {
    if |scrolls| > 0 {
      var init := scrolls[..|scrolls| - 1];
      assert forall i :: 0 <= i < |init| ==> init[i] == scrolls[i];
      ZoomMonotoneWiden(zoom, init);
    }
  }

  class Camera {
    var position: Vec3
    var front: Vec3
    var up: Vec3
    var right: Vec3
    const worldUp: Vec3
    var yaw: real
    var pitch: real
    var movementSpeed: real
    var mouseSensitivity: real
    var zoom: real
    /** The trigonometry of updateCameraVectors, from (yaw, pitch) in degrees. */
    const orient: (real, real) -> Basis

    /** The basis is always the one derived from the current angles, and pitch
        and zoom are within their clamps. */
    ghost predicate Valid()
      reads this
    {
      Basis(front, right, up) == orient(yaw, pitch) &&
      -PitchLimit <= pitch <= PitchLimit &&
      ZoomMin <= zoom <= ZoomMax
    }

    constructor (position: Vec3, orient: (real, real) -> Basis)
      ensures this.position == position && this.orient == orient
      ensures worldUp == Vec3(0.0, 1.0, 0.0)
      ensures yaw == InitialYaw && pitch == InitialPitch && zoom == InitialZoom
      ensures movementSpeed == 3.0 && mouseSensitivity == 0.05
      ensures Valid()
    {
      this.position := position;
      this.orient := orient;
      worldUp := Vec3(0.0, 1.0, 0.0);
      yaw := InitialYaw;
      pitch := InitialPitch;
      movementSpeed := 3.0;
      mouseSensitivity := 0.05;
      zoom := InitialZoom;
      new;
      UpdateCameraVectors();
    }

    /** Re-derives front, right and up from yaw and pitch. */
    method UpdateCameraVectors()
      modifies this`front, this`right, this`up
      ensures Basis(front, right, up) == orient(yaw, pitch)
    {
      var b := orient(yaw, pitch);
      front, right, up := b.front, b.right, b.up;
    }

    /** processKeyboard: `deltaTime` is accepted and ignored. */
    method ProcessKeyboard(direction: CameraMovement, deltaTime: real)
      requires Valid()
      modifies this`position
      ensures position == Moved(old(position), direction, front, right, movementSpeed)
      ensures Valid()
    {
      var velocity := movementSpeed * KeyStep;
      if direction == Forward {
        position := position.Plus(front.Times(velocity));
      }
      if direction == Backward {
        position := position.Minus(front.Times(velocity));
      }
      if direction == Left {
        position := position.Minus(right.Times(velocity));
      }
      if direction == Right {
        position := position.Plus(right.Times(velocity));
      }
    }

    /** processMouseMovement: yaw grows by the scaled x offset without a bound;
        pitch by the scaled y offset, then clamped. */
    method ProcessMouseMovement(xOffset: real, yOffset: real)
      requires Valid()
      modifies this`yaw, this`pitch, this`front, this`right, this`up
      ensures yaw == old(yaw) + xOffset * mouseSensitivity
      ensures pitch == ClampPitch(old(pitch) + yOffset * mouseSensitivity)
      ensures Valid()
    {
      var dx := xOffset * mouseSensitivity;
      var dy := yOffset * mouseSensitivity;
      yaw := yaw + dx;
      pitch := pitch + dy;
      pitch := ClampPitch(pitch);
      UpdateCameraVectors();
    }

    /** reset: the canonical pose; speed and sensitivity are kept. */
    method Reset()
      requires Valid()
      modifies this`position, this`zoom, this`yaw, this`pitch, this`front, this`right, this`up
      ensures position == ResetPosition && zoom == InitialZoom
      ensures yaw == InitialYaw && pitch == InitialPitch
      ensures Valid()
    {
      position := ResetPosition;
      zoom := InitialZoom;
      yaw := InitialYaw;
      pitch := InitialPitch;
      UpdateCameraVectors();
    }

    /** processMouseScroll. */
    method ProcessMouseScroll(yOffset: real)
      requires Valid()
      modifies this`zoom
      ensures zoom == ScrollZoom(old(zoom), yOffset)
      ensures Valid()
    {
      if ZoomMin <= zoom <= ZoomMax {
        zoom := zoom - yOffset * ScrollStep;
      }
      if zoom <= ZoomMin {
        zoom := ZoomMin;
      }
      if zoom >= ZoomMax {
        zoom := ZoomMax;
      }
    }
  }
}
