// Shared value types of the ray caster: results, bytes, unsigned words,
// the small vectors the caster and the buffers store, and decimal text.

module Common {

  datatype Option<T> = None | Some(value: T)

  /** The exceptions the C++ code throws, one constructor per cause. */
  datatype Error =
    | ExpectedBegin(found: string)              // scene file: top-level token is not "begin"
    | MatchFailed(expected: string, found: string) // scene file: closing kind does not match
    | UnknownMaterial(materialName: string)     // scene file: material name not defined earlier
    | BadNumber(token: string)                  // scene file: token is not a number
    | UnterminatedBlock(kind: string)           // scene file: input ends inside a block
    | BufferOverflow                            // buffers: a cursor ran past the reserved storage
    | StaticAccess                              // buffers: update of a buffer created static
    | IndexOutOfRange(index: int)               // element buffer: set outside the buffer
    | SizeMismatch                              // vertex buffer: values do not fill whole vertices
    | DimensionMismatch                         // vertex buffer: add/update with the wrong arity
    | UnsupportedFormat(format: int)            // texture: pixel format without a byte size

  datatype Result<T> = Success(value: T) | Failure(error: Error)

  /** Outcome of an operation that only changes state. */
  datatype Outcome = Pass | Fail(error: Error)

  type Byte = b: int | 0 <= b < 256

  const TwoTo32: int := 0x1_0000_0000

  /** An unsigned 32-bit OpenGL word (GLuint, GLenum). */
  type UInt32 = x: int | 0 <= x < 0x1_0000_0000

  /** The C++ conversion of a signed int to an unsigned 32-bit word. */
  function ToUInt32(x: int): (r: UInt32)
    ensures r == x <==> 0 <= x < TwoTo32
    ensures (r - x) % TwoTo32 == 0
  {
    x % TwoTo32
  }

  function Min(a: int, b: int): int { if a < b then a else b }
  function Max(a: int, b: int): int { if a < b then b else a }

  /** max(min(v, hi), lo): the clamp the source writes out with min and max. */
  function Clamp(v: int, lo: int, hi: int): (r: int)
    requires lo <= hi
    ensures lo <= r <= hi
    ensures lo <= v <= hi ==> r == v
    ensures v < lo ==> r == lo
    ensures v > hi ==> r == hi
  {
    Max(Min(v, hi), lo)
  }

  /** A three-component vector of reals (glm::vec3 without rounding). */
  datatype Vec3 = Vec3(x: real, y: real, z: real)

  /** A four-component vector of reals (glm::vec4 without rounding). */
  datatype Vec4 = Vec4(x: real, y: real, z: real, w: real)

  const Zero3: Vec3 := Vec3(0.0, 0.0, 0.0)

  function Add(a: Vec3, b: Vec3): Vec3 { Vec3(a.x + b.x, a.y + b.y, a.z + b.z) }
  function Sub(a: Vec3, b: Vec3): Vec3 { Vec3(a.x - b.x, a.y - b.y, a.z - b.z) }
  function Neg(a: Vec3): Vec3 { Vec3(-a.x, -a.y, -a.z) }
  function Scale(a: Vec3, f: real): Vec3 { Vec3(a.x * f, a.y * f, a.z * f) }
  /** Component-wise product, as glm's `*` on two vectors. */
  function Mul(a: Vec3, b: Vec3): Vec3 { Vec3(a.x * b.x, a.y * b.y, a.z * b.z) }
  function Dot(a: Vec3, b: Vec3): real { a.x * b.x + a.y * b.y + a.z * b.z }

  /** Scaling distributes over a sum. */
  lemma ScaleAdd(a: Vec3, b: Vec3, f: real)
    ensures Scale(Add(a, b), f) == Add(Scale(a, f), Scale(b, f))
  {
    assert (a.x + b.x) * f == a.x * f + b.x * f;
    assert (a.y + b.y) * f == a.y * f + b.y * f;
    assert (a.z + b.z) * f == a.z * f + b.z * f;
  }

  /** Truncation toward zero, as static_cast<int> of a floating value. */
  function TruncTowardZero(v: real): (r: int)
    ensures v >= 0.0 ==> r as real <= v < r as real + 1.0
    ensures v < 0.0 ==> r as real - 1.0 < v <= r as real
  {
    if v >= 0.0 then v.Floor else -((-v).Floor)
  }
}
