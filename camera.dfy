/**
 * The camera's per-frame input arithmetic and its bounding-box framing.
 *
 * Numbers are reals. Math.PI is the real 3.141592653589793 and the tangent
 * of half the field of view is a caller-supplied number. The matrix library
 * (lookAt, inverse, translate, rotateX/Y/Z) is not modelled: the view matrix
 * is kept as the term of operations that produced it.
 */
module Camera {

  const Pi: real := 3.141592653589793

  datatype Vec3 = Vec3(x: real, y: real, z: real)

  const Up: Vec3 := Vec3(0.0, 1.0, 0.0)

  /** An axis-aligned box; well formed when min <= max on every axis. */
  datatype BoundingBox = BoundingBox(min: Vec3, max: Vec3)

  predicate WellFormed(b: BoundingBox) {
    b.min.x <= b.max.x && b.min.y <= b.max.y && b.min.z <= b.max.z
  }

  /** The held direction keys. */
  datatype Directions = Directions(
    left: bool, right: bool, up: bool, down: bool, forward: bool, backward: bool)

  /** What the input system reports for one frame: held keys and mouse motion. */
  datatype Input = Input(directions: Directions, mouseX: real, mouseY: real)

  /** The view matrix, as the sequence of operations that produced it:
      a lookAt, then translations and rotations applied in camera space
      (each one inverts the view, transforms, and inverts back). */
  datatype ViewMatrix =
    | LookAt(eye: Vec3, target: Vec3, up: Vec3)
    | Translated(base: ViewMatrix, offset: Vec3)
    | Rotated(base: ViewMatrix, yaw: real, pitch: real, roll: real)

  // ---------------------------------------------------------------------
  // clamp and mod.

  /** Math.min: the smaller of its two arguments. */
  function Min(a: real, b: real): (r: real)
    ensures r <= a && r <= b && (r == a || r == b)
  {
    if a <= b then a else b
  }

  /** Math.max: the larger of its two arguments. */
  function Max(a: real, b: real): (r: real)
    ensures r >= a && r >= b && (r == a || r == b)
  {
    if a >= b then a else b
  }

  /** clamp(x, min, max) = Math.min(Math.max(x, min), max). */
  function Clamp(x: real, lo: real, hi: real): (r: real)
    ensures r <= hi
    ensures lo <= hi ==> lo <= r
    ensures lo <= x <= hi ==> r == x
    ensures x < lo && lo <= hi ==> r == lo
    ensures hi < x ==> r == hi
  {
    Min(Max(x, lo), hi)
  }

  /** Math.sign: +1, -1 or 0 as x is positive, negative or zero. */
  function Sign(x: real): (r: real)
    ensures r == 1.0 <==> x > 0.0
    ensures r == -1.0 <==> x < 0.0
    ensures r == 0.0 <==> x == 0.0
  {
    if x > 0.0 then 1.0 else if x < 0.0 then -1.0 else 0.0
  }

  /** Math.abs. The query-string reader has its own copy: the two source
      files do not share it and neither module imports the other. */
  function Abs(x: real): (r: real)
    ensures r >= 0.0 && (r == x || r == -x)
  {
    if x < 0.0 then -x else x
  }

  /** mod(x, div) = x - floor(|x| / div) * div * sign(x): a remainder that
      takes the sign of x (it truncates the quotient towards zero). */
  function Mod(x: real, d: real): real
    requires d != 0.0
  {
    x - ((Abs(x) / d).Floor as real) * d * Sign(x)
  }

  /** For x >= 0 and d > 0, mod lies in [0, d). */
  lemma ModOfNonNegative(x: real, d: real)
    requires d > 0.0 && x >= 0.0
    ensures 0.0 <= Mod(x, d) < d
  {
    var q := (x / d).Floor as real;
    FloorScaled(x, d, q);
    assert Abs(x) == x;
    if x > 0.0 {
      assert Sign(x) == 1.0;
      assert Mod(x, d) == x - q * d * 1.0;
    } else {
      assert Mod(x, d) == 0.0;
    }
  }

  /** For x < 0 and d > 0, mod lies in (-d, 0]: the result keeps the sign
      of x and is not wrapped into [0, d). */
  lemma ModOfNegative(x: real, d: real)
    requires d > 0.0 && x < 0.0
    ensures -d < Mod(x, d) <= 0.0
  {
    ModOfNonNegative(-x, d);
    ModIsOdd(x, d);
  }

  /** mod is odd in x: mod(-x, d) == -mod(x, d). */
  lemma ModIsOdd(x: real, d: real)
    requires d != 0.0
    ensures Mod(-x, d) == -Mod(x, d)
  {
    assert Abs(-x) == Abs(x);
    assert Sign(-x) == -Sign(x);
  }

  /** A value already in [0, d) is left as it is. */
  lemma ModOfInRange(x: real, d: real)
    requires 0.0 <= x < d
    ensures Mod(x, d) == x
  {
    assert 0.0 <= x / d < 1.0 by { DivBelowOne(x, d); }
  }

  /** x - mod(x, d) is a whole multiple of d. */
  lemma ModOffsetIsMultiple(x: real, d: real)
    requires d != 0.0
    ensures var k := (x - Mod(x, d)) / d; k.Floor as real == k
  {
    var n := (Abs(x) / d).Floor;
    var k := (x - Mod(x, d)) / d;
    assert x - Mod(x, d) == ((n as real) * Sign(x)) * d;
    assert k == (n as real) * Sign(x) by { MulDivCancel((n as real) * Sign(x), d); }
    if x > 0.0 {
      assert k == n as real;
    } else if x < 0.0 {
      assert k == (-n) as real;
    } else {
      assert k == 0.0;
    }
  }

  lemma FloorScaled(x: real, d: real, q: real)
    requires d > 0.0 && q <= x / d < q + 1.0
    ensures q * d <= x < q * d + d
  {
    var r := q + 1.0;
    assert x / d < r;
    assert x < r * d;
    assert q * d <= x;
  }

  lemma MulDivCancel(a: real, d: real)
    requires d != 0.0
    ensures (a * d) / d == a
  {
  }

  lemma DivBelowOne(x: real, d: real)
    requires 0.0 <= x < d
    ensures 0.0 <= x / d < 1.0
  {
  }

  // ---------------------------------------------------------------------
  // Camera.update's arithmetic.

  /** The update's sign helper: +1 when only the positive key is held, -1
      when only the negative one is, 0 when both or neither are. */
  function DirectionSign(positive: bool, negative: bool): (s: real)
    ensures s == 0.0 <==> positive == negative
    ensures s == 1.0 <==> positive && !negative
    ensures s == -1.0 <==> !positive && negative
  {
    (if positive then 1.0 else 0.0) - (if negative then 1.0 else 0.0)
  }

  /** The translation update passes to translate: right, up and back,
      each scaled by deltaTime * movementSpeed. */
  function TranslationDelta(deltaTime: real, movementSpeed: real, d: Directions): (r: Vec3)
    ensures var m := deltaTime * movementSpeed;
      && AxisDelta(r.x, m, d.right, d.left)
      && AxisDelta(r.y, m, d.up, d.down)
      && AxisDelta(r.z, m, d.backward, d.forward)
  {
    var m := deltaTime * movementSpeed;
    Vec3(m * DirectionSign(d.right, d.left),
         m * DirectionSign(d.up, d.down),
         m * DirectionSign(d.backward, d.forward))
  }

  /** One axis of the translation: +m, -m or 0 with m = deltaTime * movementSpeed. */
  predicate AxisDelta(delta: real, m: real, positive: bool, negative: bool) {
    delta == (if positive && !negative then m else if negative && !positive then -m else 0.0)
  }

  /** Holding the opposite keys moves the other way. */
  function Opposite(d: Directions): Directions {
    Directions(d.right, d.left, d.down, d.up, d.backward, d.forward)
  }

  lemma TranslationDeltaOpposite(deltaTime: real, movementSpeed: real, d: Directions)
    ensures var t := TranslationDelta(deltaTime, movementSpeed, d);
      TranslationDelta(deltaTime, movementSpeed, Opposite(d)) == Vec3(-t.x, -t.y, -t.z)
  {
  }

  /** Mouse motion turned into an angle for one frame. */
  function MouseAngle(mouse: real, deltaTime: real, rotationSpeed: real): real {
    mouse * deltaTime * rotationSpeed
  }

  /** The yaw and pitch update passes (negated) to rotate: mouse motion
      scaled by deltaTime * rotationSpeed, yaw through mod 2*pi and pitch
      clamped, so the pitch always lies in [-pi/2, pi/2]. */
  function YawAndPitch(deltaTime: real, rotationSpeed: real, input: Input): (r: (real, real))
    ensures -Pi / 2.0 <= r.1 <= Pi / 2.0
  {
    var yaw := MouseAngle(input.mouseX, deltaTime, rotationSpeed);
    var pitch := MouseAngle(input.mouseY, deltaTime, rotationSpeed);
    (Mod(yaw, Pi * 2.0), Clamp(pitch, -Pi / 2.0, Pi / 2.0))
  }

  /** The yaw lies in (-2*pi, 2*pi) and has the sign of the raw yaw: a
      non-negative raw yaw lands in [0, 2*pi), a negative one in (-2*pi, 0]. */
  lemma YawRange(deltaTime: real, rotationSpeed: real, input: Input)
    ensures var raw := MouseAngle(input.mouseX, deltaTime, rotationSpeed);
      var y := YawAndPitch(deltaTime, rotationSpeed, input).0;
      && (raw >= 0.0 ==> 0.0 <= y < 2.0 * Pi)
      && (raw < 0.0 ==> -2.0 * Pi < y <= 0.0)
      && (0.0 <= raw < 2.0 * Pi ==> y == raw)
  {
    var raw := MouseAngle(input.mouseX, deltaTime, rotationSpeed);
    if raw >= 0.0 {
      ModOfNonNegative(raw, Pi * 2.0);
      if raw < 2.0 * Pi {
        ModOfInRange(raw, Pi * 2.0);
      }
    } else {
      ModOfNegative(raw, Pi * 2.0);
    }
  }

  /** A leftward mouse movement gives a negative yaw: yaw is not wrapped into [0, 2*pi). */
  lemma NegativeYawStaysNegative()
    ensures YawAndPitch(1.0, 1.0, Input(Directions(false, false, false, false, false, false), -1.0, 0.0)).0 == -1.0
  {
    assert (1.0 / (Pi * 2.0)).Floor == 0 by {
      DivBelowOne(1.0, Pi * 2.0);
    }
  }

  // ---------------------------------------------------------------------
  // Camera.focusBoundingBox's arithmetic.

  /** The box's center: inside a well-formed box on every axis. */
  function BoxCenter(b: BoundingBox): (r: Vec3)
    ensures WellFormed(b) ==>
      && b.min.x <= r.x <= b.max.x
      && b.min.y <= r.y <= b.max.y
      && b.min.z <= r.z <= b.max.z
  {
    Vec3((b.min.x + b.max.x) / 2.0, (b.min.y + b.max.y) / 2.0, (b.min.z + b.max.z) / 2.0)
  }

  /** Half the box's size on each axis: never negative for a well-formed box. */
  function HalfExtent(b: BoundingBox): (r: Vec3)
    ensures WellFormed(b) ==> r.x >= 0.0 && r.y >= 0.0 && r.z >= 0.0
  {
    Vec3((b.max.x - b.min.x) / 2.0, (b.max.y - b.min.y) / 2.0, (b.max.z - b.min.z) / 2.0)
  }

  /** The eye focusBoundingBox places: in front of the center along +z by
      halfY / tan(fov / 2) + halfZ. */
  function FocusEye(b: BoundingBox, tanHalfFov: real): (r: Vec3)
    requires tanHalfFov != 0.0
    ensures r.x == BoxCenter(b).x && r.y == BoxCenter(b).y
  {
    var c := BoxCenter(b);
    var h := HalfExtent(b);
    Vec3(c.x, c.y, c.z + h.y / tanHalfFov + h.z)
  }

  /** The center is the box midpoint: center - half extent is min and
      center + half extent is max on every axis. */
  lemma CenterIsMidpoint(b: BoundingBox)
    ensures var c := BoxCenter(b); var h := HalfExtent(b);
      && c.x - h.x == b.min.x && c.x + h.x == b.max.x
      && c.y - h.y == b.min.y && c.y + h.y == b.max.y
      && c.z - h.z == b.min.z && c.z + h.z == b.max.z
  {
  }

  /** The eye shares the center's x and y and sits halfY / tan(fov/2) + halfZ
      in front of it along z. */
  lemma FocusEyeOffset(b: BoundingBox, tanHalfFov: real)
    requires tanHalfFov != 0.0
    ensures var e := FocusEye(b, tanHalfFov); var c := BoxCenter(b);
      && e.x == c.x && e.y == c.y
      && e.z - c.z == (b.max.y - b.min.y) / (2.0 * tanHalfFov) + (b.max.z - b.min.z) / 2.0
  {
  }

  /** The box's x extent plays no part: two boxes with the same y and z
      ranges and the same x midpoint give the same eye and target. */
  lemma FocusIgnoresXExtent(b1: BoundingBox, b2: BoundingBox, tanHalfFov: real)
    requires tanHalfFov != 0.0
    requires b1.min.y == b2.min.y && b1.max.y == b2.max.y
    requires b1.min.z == b2.min.z && b1.max.z == b2.max.z
    requires b1.min.x + b1.max.x == b2.min.x + b2.max.x
    ensures FocusEye(b1, tanHalfFov) == FocusEye(b2, tanHalfFov)
    ensures BoxCenter(b1) == BoxCenter(b2)
  {
  }

  /** For a well-formed box and a positive tan(fov/2) the eye is at or in
      front of the box's front face z = max.z, strictly when the box has
      height. */
  lemma FocusEyeOutsideBox(b: BoundingBox, tanHalfFov: real)
    requires WellFormed(b) && tanHalfFov > 0.0
    ensures FocusEye(b, tanHalfFov).z >= b.max.z
    ensures b.min.y < b.max.y ==> FocusEye(b, tanHalfFov).z > b.max.z
  {
    var h := HalfExtent(b);
    assert h.y / tanHalfFov >= 0.0 by { DivNonNegative(h.y, tanHalfFov); }
    assert b.min.y < b.max.y ==> h.y / tanHalfFov > 0.0 by {
      if b.min.y < b.max.y { DivPositive(h.y, tanHalfFov); }
    }
  }

  lemma DivNonNegative(a: real, t: real)
    requires a >= 0.0 && t > 0.0
    ensures a / t >= 0.0
  {
  }

  lemma DivPositive(a: real, t: real)
    requires a > 0.0 && t > 0.0
    ensures a / t > 0.0
  {
  }

  // ---------------------------------------------------------------------
  // The camera object.

  class Camera {
    var viewMatrix: ViewMatrix

    /** Looks from `position` at `target`. */
    constructor (position: Vec3, target: Vec3)
      ensures viewMatrix == LookAt(position, target, Up)
    {
      viewMatrix := LookAt(position, target, Up);
    }

    /** Looks at the box's center from the framing eye. */
    method FocusBoundingBox(b: BoundingBox, tanHalfFov: real)
      requires tanHalfFov != 0.0
      modifies this
      ensures viewMatrix == LookAt(FocusEye(b, tanHalfFov), BoxCenter(b), Up)
    {
      var center := Vec3((b.min.x + b.max.x) / 2.0, (b.min.y + b.max.y) / 2.0, (b.min.z + b.max.z) / 2.0);
      var halfY := (b.max.y - b.min.y) / 2.0;
      var halfZ := (b.max.z - b.min.z) / 2.0;
      var eye := Vec3(center.x, center.y, center.z + halfY / tanHalfFov + halfZ);
      viewMatrix := LookAt(eye, center, Up);
    }

    method Translate(x: real, y: real, z: real)
      modifies this
      ensures viewMatrix == Translated(old(viewMatrix), Vec3(x, y, z))
    {
      viewMatrix := Translated(viewMatrix, Vec3(x, y, z));
    }

    method Rotate(x: real, y: real, z: real)
      modifies this
      ensures viewMatrix == Rotated(old(viewMatrix), x, y, z)
    {
      viewMatrix := Rotated(viewMatrix, x, y, z);
    }

    /** Moves by the held keys, then turns by the negated yaw and pitch. */
    method Update(deltaTime: real, input: Input, movementSpeed: real, rotationSpeed: real)
      modifies this
      ensures var t := TranslationDelta(deltaTime, movementSpeed, input.directions);
        var yp := YawAndPitch(deltaTime, rotationSpeed, input);
        viewMatrix == Rotated(Translated(old(viewMatrix), t), -yp.0, -yp.1, 0.0)
    {
      var m := deltaTime * movementSpeed;
      var digital := input.directions;
      var deltaRight := m * DirectionSign(digital.right, digital.left);
      var deltaUp := m * DirectionSign(digital.up, digital.down);
      var deltaBack := m * DirectionSign(digital.backward, digital.forward);
      Translate(deltaRight, deltaUp, deltaBack);
      assert Vec3(deltaRight, deltaUp, deltaBack) == TranslationDelta(deltaTime, movementSpeed, digital);

      var yaw := MouseAngle(input.mouseX, deltaTime, rotationSpeed);
      var pitch := MouseAngle(input.mouseY, deltaTime, rotationSpeed);
      yaw := Mod(yaw, Pi * 2.0);
      pitch := Clamp(pitch, -Pi / 2.0, Pi / 2.0);
      Rotate(-yaw, -pitch, 0.0);
    }
  }
}
