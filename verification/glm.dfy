/** The slice of the glm vector library the viewer relies on.

    Vectors and 4x4 matrices are modelled over `real` (IEEE-754 rounding is
    not modelled). The operations whose arithmetic matters to the viewer's
    logic (`glm::scale`, `glm::translate`, matrix times vector) are written
    out exactly as glm defines them on its column-major matrices; the
    transcendental and projective routines are left uninterpreted and are
    handed in as a `Prims` record. */
module Glm {

  datatype Vec2 = Vec2(x: real, y: real)
  datatype Vec3 = Vec3(x: real, y: real, z: real)
  datatype Vec4 = Vec4(x: real, y: real, z: real, w: real)

  /** A column-major matrix, as glm stores it: `c0` .. `c3` are its columns. */
  datatype Mat4 = Mat4(c0: Vec4, c1: Vec4, c2: Vec4, c3: Vec4)

  /** `glm::vec3(a)`: all three components equal to `a`. */
  function Splat(a: real): Vec3 {
    Vec3(a, a, a)
  }

  function Add3(a: Vec3, b: Vec3): Vec3 {
    Vec3(a.x + b.x, a.y + b.y, a.z + b.z)
  }

  function Mul3(v: Vec3, k: real): Vec3 {
    Vec3(v.x * k, v.y * k, v.z * k)
  }

  function LengthSq3(v: Vec3): real {
    v.x * v.x + v.y * v.y + v.z * v.z
  }

  function Add4(a: Vec4, b: Vec4): Vec4 {
    Vec4(a.x + b.x, a.y + b.y, a.z + b.z, a.w + b.w)
  }

  function Mul4(v: Vec4, k: real): Vec4 {
    Vec4(v.x * k, v.y * k, v.z * k, v.w * k)
  }

  function LengthSq4(v: Vec4): real {
    v.x * v.x + v.y * v.y + v.z * v.z + v.w * v.w
  }

  /** `glm::vec3(v)` for a `vec4`: drops the fourth component. */
  function Xyz(v: Vec4): Vec3 {
    Vec3(v.x, v.y, v.z)
  }

  /** `glm::mat4(1)`. */
  function Identity(): Mat4 {
    Mat4(Vec4(1.0, 0.0, 0.0, 0.0), Vec4(0.0, 1.0, 0.0, 0.0),
         Vec4(0.0, 0.0, 1.0, 0.0), Vec4(0.0, 0.0, 0.0, 1.0))
  }

  /** `glm::scale(m, v)`: `m` post-multiplied by the scaling matrix of `v`. */
  function Scale(m: Mat4, v: Vec3): Mat4 {
    Mat4(Mul4(m.c0, v.x), Mul4(m.c1, v.y), Mul4(m.c2, v.z), m.c3)
  }

  /** `glm::translate(m, v)`: `m` post-multiplied by the translation matrix of `v`. */
  function Translate(m: Mat4, v: Vec3): Mat4 {
    Mat4(m.c0, m.c1, m.c2,
         Add4(Add4(Add4(Mul4(m.c0, v.x), Mul4(m.c1, v.y)), Mul4(m.c2, v.z)), m.c3))
  }

  /** `m * v` for a column-major matrix. */
  function Transform(m: Mat4, v: Vec4): Vec4 {
    Add4(Add4(Add4(Mul4(m.c0, v.x), Mul4(m.c1, v.y)), Mul4(m.c2, v.z)), Mul4(m.c3, v.w))
  }

  /** `M_PI` and `M_PI_2` of <math.h>, to the digits the header gives. */
  const Pi: real := 3.14159265358979323846
  const HalfPi: real := 1.57079632679489661923

  /** `glm::radians`. */
  function Radians(degrees: real): real {
    degrees * Pi / 180.0
  }

  /** The routines the model leaves uninterpreted: trigonometry,
      normalisation, matrix inversion, `glm::lookAt` and `glm::perspective`.
      Any total functions may be supplied; no property of the model depends
      on what they compute unless a lemma says so in its `requires`. */
  datatype Prims = Prims(
    sin: real -> real,
    cos: real -> real,
    normalize3: Vec3 -> Vec3,
    normalize4: Vec4 -> Vec4,
    inverse: Mat4 -> Mat4,
    lookAt: (Vec3, Vec3, Vec3) -> Mat4,
    perspective: (real, real, real, real) -> Mat4)
}
