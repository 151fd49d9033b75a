/**
 * The engine value types the game's scripts read and write: colours, vectors,
 * rigidbody constraint masks and the placement of a scene object.
 * Unity stores these as single-precision floats; here every channel and
 * coordinate is a `real`, so rounding is not modelled.
 */
module UnityTypes {

  /** `UnityEngine.Color`: red, green, blue and alpha channels. */
  datatype Color = Color(r: real, g: real, b: real, a: real)

  /** `Color.white`, `Color.black` and `Color.clear` as Unity defines them. */
  const White: Color := Color(1.0, 1.0, 1.0, 1.0)
  const Black: Color := Color(0.0, 0.0, 0.0, 1.0)
  const Clear: Color := Color(0.0, 0.0, 0.0, 0.0)

  /** Channel-wise `+` of two colours (alpha included, as Unity does). */
  function AddColors(x: Color, y: Color): Color {
    Color(x.r + y.r, x.g + y.g, x.b + y.b, x.a + y.a)
  }

  /** `k * c`: every channel, alpha included, multiplied by `k`. */
  function ScaleColor(k: real, c: Color): Color {
    Color(k * c.r, k * c.g, k * c.b, k * c.a)
  }

  /** `c / k`: every channel, alpha included, divided by `k`. */
  function DivideColor(c: Color, k: real): Color
    requires k != 0.0
  {
    Color(c.r / k, c.g / k, c.b / k, c.a / k)
  }

  /** The red, green and blue channels agree; alpha may differ. */
  predicate SameRgb(x: Color, y: Color) {
    x.r == y.r && x.g == y.g && x.b == y.b
  }

  /** Every channel lies in [0, 1], the range a colour picker produces. */
  predicate InGamut(c: Color) {
    0.0 <= c.r <= 1.0 && 0.0 <= c.g <= 1.0 && 0.0 <= c.b <= 1.0 && 0.0 <= c.a <= 1.0
  }

  /** `UnityEngine.Vector3`. */
  datatype Vector3 = Vector3(x: real, y: real, z: real)

  const Zero3: Vector3 := Vector3(0.0, 0.0, 0.0)

  function AddVectors(u: Vector3, v: Vector3): Vector3 {
    Vector3(u.x + v.x, u.y + v.y, u.z + v.z)
  }

  function SubVectors(u: Vector3, v: Vector3): Vector3 {
    Vector3(u.x - v.x, u.y - v.y, u.z - v.z)
  }

  function ScaleVector(k: real, v: Vector3): Vector3 {
    Vector3(k * v.x, k * v.y, k * v.z)
  }

  function DivideVector(v: Vector3, k: real): Vector3
    requires k != 0.0
  {
    Vector3(v.x / k, v.y / k, v.z / k)
  }

  /**
   * `UnityEngine.Quaternion`, kept as its four components; the game only
   * passes rotations through, it never composes them.
   */
  datatype Quaternion = Quaternion(x: real, y: real, z: real, w: real)

  /** A scene transform, identified by an opaque number. */
  type TransformId = nat

  /** Where an object is placed: position, rotation and parent transform. */
  datatype Pose = Pose(position: Vector3, rotation: Quaternion, parent: TransformId)

  /**
   * `RigidbodyConstraints`, a flag mask with Unity's own bit values:
   * `None` = 0, `FreezePositionX` = 2, `FreezePositionY` = 4,
   * `FreezePositionZ` = 8, `FreezeRotationX` = 16, `FreezeRotationY` = 32,
   * `FreezeRotationZ` = 64; `FreezeRotation` = 112, `FreezeAll` = 126.
   */
  type RigidbodyConstraints = bv8

  const ConstraintsNone: RigidbodyConstraints := 0
  const FreezePositionX: RigidbodyConstraints := 2
  const FreezePositionY: RigidbodyConstraints := 4
  const FreezePositionZ: RigidbodyConstraints := 8
  const FreezeRotationX: RigidbodyConstraints := 16
  const FreezeRotationY: RigidbodyConstraints := 32
  const FreezeRotationZ: RigidbodyConstraints := 64
  const FreezeRotation: RigidbodyConstraints := 112
  const FreezeAll: RigidbodyConstraints := 126

  /** The mask has every bit of `flag` set. */
  predicate Freezes(mask: RigidbodyConstraints, flag: RigidbodyConstraints) {
    mask & flag == flag
  }

  /** `Mathf.FloorToInt`: the largest integer not above `x`. */
  function FloorToInt(x: real): (n: int)
    ensures n as real <= x < n as real + 1.0
  {
    x.Floor
  }
}
