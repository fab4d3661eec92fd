/**
 * The free-look camera: a position, a basis (front, right, up) derived from
 * the Euler angles yaw and pitch, and the keyboard and mouse updates.
 * Scalars are reals; sin, cos, the degree-to-radian conversion and vector
 * normalisation are uninterpreted (the camera is given them as total
 * functions), so everything proved here holds whatever those functions are.
 */
module CameraModel {
  import opened Geometry

  /** The four keyboard movements. */
  datatype Movement = For | Back | Left | Right

  /** The numeric collaborators of the basis update, left uninterpreted. */
  datatype Trig = Trig(sin: real -> real, cos: real -> real,
                       radians: real -> real, normalize: Vec3 -> Vec3)

  /** The arguments of the look-at transform: eye, target and up vector. */
  datatype View = LookAt(eye: Vec3, center: Vec3, up: Vec3)

  const PitchLimit: real := 89.0
  const WorldUp: Vec3 := Vec3(0.0, 1.0, 0.0)

  function Dist(a: real, b: real): real {
    if a < b then b - a else a - b
  }

  /** The pitch guard: a value already within the limits is kept, any other
      becomes the nearer limit. */
  function ClampPitch(p: real): (r: real)
    ensures -PitchLimit <= r <= PitchLimit
    ensures -PitchLimit <= p <= PitchLimit ==> r == p
  {
    if p > PitchLimit then PitchLimit
    else if p < -PitchLimit then -PitchLimit
    else p
  }

  /** The clamped pitch is the point of [-89, 89] nearest to the raw pitch. */
  lemma {:induction false} ClampPitchIsNearest(p: real, q: real)
    requires -PitchLimit <= q <= PitchLimit
    ensures Dist(ClampPitch(p), p) <= Dist(q, p)
  {
  }

  /** Above the range the pitch sticks at exactly 89, below it at exactly -89. */
  lemma {:induction false} ClampPitchSaturates(p: real)
    ensures p >= PitchLimit ==> ClampPitch(p) == PitchLimit
    ensures p <= -PitchLimit ==> ClampPitch(p) == -PitchLimit
  {
  }

  /** A zero mouse offset keeps the pitch exactly when it is already in range
      (the constructor does not clamp). */
  lemma {:induction false} ZeroOffsetKeepsPitch(pitch: real, sensitivity: real)
    ensures ClampPitch(pitch + 0.0 * sensitivity) == pitch
        <==> -PitchLimit <= pitch <= PitchLimit
  {
  }

  /** The direction the camera looks in for the given angles (in degrees). */
  function FrontOf(math: Trig, yaw: real, pitch: real): Vec3 {
    var y, p := math.radians(yaw), math.radians(pitch);
    math.normalize(Vec3(math.cos(y) * math.cos(p), math.sin(p), math.sin(y) * math.cos(p)))
  }

  /** Where a keyboard movement takes the position. */
  function Moved(position: Vec3, front: Vec3, right: Vec3,
                 direction: Movement, velocity: real): Vec3
  {
    match direction
    case For => Add(position, Scale(front, velocity))
    case Back => Sub(position, Scale(front, velocity))
    case Left => Sub(position, Scale(right, velocity))
    case Right => Add(position, Scale(right, velocity))
  }

  function Opposite(direction: Movement): Movement {
    match direction
    case For => Back
    case Back => For
    case Left => Right
    case Right => Left
  }

  /** Moving and then moving the opposite way with the same velocity, over
      an unchanged basis, returns to the starting position. */
  lemma {:induction false} MoveThenOppositeRestores(position: Vec3, front: Vec3, right: Vec3,
                                                    direction: Movement, velocity: real)
    ensures Moved(Moved(position, front, right, direction, velocity),
                  front, right, Opposite(direction), velocity) == position
  {
    match direction
    case For => AddSubCancel(position, Scale(front, velocity));
    case Back => AddSubCancel(position, Scale(front, velocity));
    case Left => AddSubCancel(position, Scale(right, velocity));
    case Right => AddSubCancel(position, Scale(right, velocity));
  }

  /** The basis built from the world up vector: right lies in the horizontal
      plane and the three vectors are pairwise orthogonal (not normalised). */
  lemma {:induction false} BasisOrthogonal(front: Vec3)
    ensures Cross(front, WorldUp).y == 0.0
    ensures Orthogonal(Cross(front, WorldUp), front)
    ensures Orthogonal(Cross(Cross(front, WorldUp), front), Cross(front, WorldUp))
    ensures Orthogonal(Cross(Cross(front, WorldUp), front), front)
  {
    CrossOrthogonal(front, WorldUp);
    CrossOrthogonal(Cross(front, WorldUp), front);
  }

  class Camera {
    var position: Vec3
    var front: Vec3
    var up: Vec3
    var worldUp: Vec3
    var right: Vec3
    var yaw: real
    var pitch: real
    var speed: real
    var sensitivity: real
    const math: Trig

    /** The basis is always the one derived from yaw, pitch and world up. */
    ghost predicate Valid()
      reads this
    {
      && worldUp == WorldUp
      && front == FrontOf(math, yaw, pitch)
      && right == Cross(front, worldUp)
      && up == Cross(right, front)
    }

    constructor (posX: real, posY: real, posZ: real, yaw: real, pitch: real,
                 speed: real, sensitivity: real, math: Trig)
      ensures Valid()
      ensures position == Vec3(posX, posY, posZ)
      ensures this.yaw == yaw && this.pitch == pitch
      ensures this.speed == speed && this.sensitivity == sensitivity
      ensures this.math == math
    {
      this.yaw, this.pitch := yaw, pitch;
      this.speed, this.sensitivity := speed, sensitivity;
      this.math := math;
      front := Vec3(0.0, 0.0, -1.0);
      position := Vec3(posX, posY, posZ);
      worldUp := WorldUp;
      up := WorldUp;
      right := Vec3(0.0, 0.0, 0.0);
      new;
      UpdateCamera();
    }

    /** Moves the position by speed * deltaTime along front or right; the
        angles and the basis stay as they are. */
    method HandleKeyboard(direction: Movement, deltaTime: real)
      requires Valid()
      modifies this`position
      ensures Valid()
      ensures position == Moved(old(position), old(front), old(right), direction, old(speed) * deltaTime)
    {
      var velocity := speed * deltaTime;
      position := Moved(position, front, right, direction, velocity);
    }

    /** Turns the camera: yaw accumulates without bound, pitch accumulates
        and is clamped, and the basis is rebuilt. */
    method HandleMouse(xoffset: real, yoffset: real)
      requires worldUp == WorldUp
      modifies this`yaw, this`pitch, this`front, this`right, this`up
      ensures Valid()
      ensures yaw == old(yaw) + xoffset * old(sensitivity)
      ensures pitch == ClampPitch(old(pitch) + yoffset * old(sensitivity))
      ensures -PitchLimit <= pitch <= PitchLimit
    {
      var dx := xoffset * sensitivity;
      var dy := yoffset * sensitivity;
      yaw := yaw + dx;
      pitch := pitch + dy;
      if pitch > PitchLimit {
        pitch := PitchLimit;
      } else if pitch < -PitchLimit {
        pitch := -PitchLimit;
      }
      UpdateCamera();
    }

    /** The look-at transform from the position towards position + front; it
        depends on the position, front and up vectors and on nothing else. */
    function GetView(): (v: View)
      reads this`position, this`front, this`up
      ensures v.eye == position && v.up == up
      ensures Sub(v.center, v.eye) == front
    {
      AddSubCancel(position, front);
      LookAt(position, Add(position, front), up)
    }

    /** Rebuilds front from the angles, then right and up by cross products. */
    method UpdateCamera()
      requires worldUp == WorldUp
      modifies this`front, this`right, this`up
      ensures Valid()
      ensures position == old(position) && yaw == old(yaw) && pitch == old(pitch)
      ensures speed == old(speed) && sensitivity == old(sensitivity)
    {
      front := FrontOf(math, yaw, pitch);
      right := Cross(front, worldUp);
      up := Cross(right, front);
    }

    /** In every valid state right is horizontal and front, right and up are
        pairwise orthogonal. */
    lemma {:induction false} BasisIsOrthogonal()
      requires Valid()
      ensures right.y == 0.0
      ensures Orthogonal(right, front) && Orthogonal(up, right) && Orthogonal(up, front)
    {
      BasisOrthogonal(front);
    }
  }
}
