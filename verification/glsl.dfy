/** The GLSL vocabulary the fragment shader is written in: vectors, column-major
    matrices and the built-in functions it calls.

    The built-ins whose values Dafny cannot compute (sin, cos, tan, length,
    normalize, pow and the constant pi) are fields of a `Builtins` record, so every
    operation takes them as a parameter. The few laws a proof relies on are stated
    as predicates over that record and required only by the lemmas that use them.
    `radians`, `reflect`, `cross`, `dot`, `abs`, `min`, `max` and the matrix
    products are defined as GLSL defines them. */
module Glsl {

  datatype Vec2 = Vec2(x: real, y: real)
  datatype Vec3 = Vec3(x: real, y: real, z: real)
  datatype Vec4 = Vec4(x: real, y: real, z: real, w: real)

  /** A mat3 given by its three COLUMNS, as GLSL's `mat3(vec3, vec3, vec3)` builds it. */
  datatype Mat3 = Mat3(c0: Vec3, c1: Vec3, c2: Vec3)

  /** A mat4 given by its four columns. */
  datatype Mat4 = Mat4(c0: Vec4, c1: Vec4, c2: Vec4, c3: Vec4)

  /** The built-ins whose values are left uninterpreted. */
  datatype Builtins = Builtins(
    sin: real -> real,
    cos: real -> real,
    tan: real -> real,
    length: Vec3 -> real,
    length2: Vec2 -> real,
    normalize: Vec3 -> Vec3,
    pow: (real, real) -> real,
    pi: real)

  /** sin and cos are bounded by 1 and lie on the unit circle. */
  ghost predicate TrigLaws(b: Builtins)
  {
    (forall t :: -1.0 <= b.sin(t) <= 1.0) &&
    (forall t :: -1.0 <= b.cos(t) <= 1.0) &&
    (forall t :: b.sin(t) * b.sin(t) + b.cos(t) * b.cos(t) == 1.0)
  }

  /** A length is never negative, is zero exactly for the zero vector, and depends
      only on the squared norm. */
  ghost predicate LengthLaws(b: Builtins)
  {
    (forall v :: 0.0 <= b.length(v)) &&
    (forall v :: b.length(v) == 0.0 <==> v == Zero3) &&
    (forall u, v :: Dot(u, u) == Dot(v, v) ==> b.length(u) == b.length(v)) &&
    (forall v :: 0.0 <= b.length2(v)) &&
    (forall v :: b.length2(v) == 0.0 <==> v == Vec2(0.0, 0.0))
  }

  /** A non-negative base raised to any power is non-negative. */
  ghost predicate PowLaws(b: Builtins)
  {
    forall x, y :: 0.0 <= x ==> 0.0 <= b.pow(x, y)
  }

  function Min(a: real, b: real): real { if a <= b then a else b }
  function Max(a: real, b: real): real { if a >= b then a else b }
  function Abs(a: real): real { if a < 0.0 then -a else a }

  function Radians(b: Builtins, degrees: real): real { degrees * b.pi / 180.0 }

  const Zero3 := Vec3(0.0, 0.0, 0.0)

  function Add(u: Vec3, v: Vec3): Vec3 { Vec3(u.x + v.x, u.y + v.y, u.z + v.z) }
  function Sub(u: Vec3, v: Vec3): Vec3 { Vec3(u.x - v.x, u.y - v.y, u.z - v.z) }
  function Neg(v: Vec3): Vec3 { Vec3(-v.x, -v.y, -v.z) }
  function Scale(k: real, v: Vec3): Vec3 { Vec3(k * v.x, k * v.y, k * v.z) }
  /** Component-wise product, GLSL's `vec3 * vec3`. */
  function Mul(u: Vec3, v: Vec3): Vec3 { Vec3(u.x * v.x, u.y * v.y, u.z * v.z) }
  function Dot(u: Vec3, v: Vec3): real { u.x * v.x + u.y * v.y + u.z * v.z }
  function Cross(u: Vec3, v: Vec3): Vec3
  {
    Vec3(u.y * v.z - u.z * v.y, u.z * v.x - u.x * v.z, u.x * v.y - u.y * v.x)
  }
  function Abs3(v: Vec3): Vec3 { Vec3(Abs(v.x), Abs(v.y), Abs(v.z)) }
  /** GLSL's `max(vec3, float)`. */
  function Max3(v: Vec3, k: real): Vec3 { Vec3(Max(v.x, k), Max(v.y, k), Max(v.z, k)) }
  /** GLSL's `max(vec2, float)`. */
  function Max2(v: Vec2, k: real): Vec2 { Vec2(Max(v.x, k), Max(v.y, k)) }

  /** GLSL's reflect: the incident vector mirrored about the plane with normal n. */
  function Reflect(i: Vec3, n: Vec3): Vec3 { Sub(i, Scale(2.0 * Dot(n, i), n)) }

  /** mat3 * vec3 with a column-major matrix. */
  function MulVec(m: Mat3, v: Vec3): Vec3
  {
    Vec3(v.x * m.c0.x + v.y * m.c1.x + v.z * m.c2.x,
         v.x * m.c0.y + v.y * m.c1.y + v.z * m.c2.y,
         v.x * m.c0.z + v.y * m.c1.z + v.z * m.c2.z)
  }

  /** mat4 * vec4 with a column-major matrix. */
  function MulVec4(m: Mat4, v: Vec4): Vec4
  {
    Vec4(v.x * m.c0.x + v.y * m.c1.x + v.z * m.c2.x + v.w * m.c3.x,
         v.x * m.c0.y + v.y * m.c1.y + v.z * m.c2.y + v.w * m.c3.y,
         v.x * m.c0.z + v.y * m.c1.z + v.z * m.c2.z + v.w * m.c3.z,
         v.x * m.c0.w + v.y * m.c1.w + v.z * m.c2.w + v.w * m.c3.w)
  }

  function Transpose(m: Mat3): Mat3
  {
    Mat3(Vec3(m.c0.x, m.c1.x, m.c2.x),
         Vec3(m.c0.y, m.c1.y, m.c2.y),
         Vec3(m.c0.z, m.c1.z, m.c2.z))
  }

  function MatMul(a: Mat3, m: Mat3): Mat3
  {
    Mat3(MulVec(a, m.c0), MulVec(a, m.c1), MulVec(a, m.c2))
  }

  const Identity := Mat3(Vec3(1.0, 0.0, 0.0), Vec3(0.0, 1.0, 0.0), Vec3(0.0, 0.0, 1.0))

  /** MᵀM = I: the columns are unit vectors and pairwise orthogonal. */
  predicate Orthogonal(m: Mat3) { MatMul(Transpose(m), m) == Identity }

  /** The cross product is orthogonal to both its factors. */
  lemma CrossOrthogonal(u: Vec3, v: Vec3)
    ensures Dot(Cross(u, v), u) == 0.0 && Dot(Cross(u, v), v) == 0.0
  {
  }
}
