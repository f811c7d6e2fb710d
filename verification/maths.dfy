/**
 * The slice of the vector, matrix and quaternion library that the skeletal
 * animation code depends on. Floats are modelled as reals; the three C
 * library calls the quaternion code makes (`acosf`, `sinf`, `sqrtf`) are
 * uninterpreted functions, so nothing below depends on their values.
 */
module Maths {

  /** `acosf`, `sinf` and `sqrtf` of the C runtime: any functions at all. */
  const Acos: real -> real
  const Sin: real -> real
  const Sqrt: real -> real

  datatype Vec3 = Vec3(x: real, y: real, z: real)

  /** Quaternion with vector part (a, b, c) and scalar part d. */
  datatype Quaternion = Quaternion(a: real, b: real, c: real, d: real)

  /** A 4x4 matrix stored row-major as m[16]; element a[r][c] is m[4 * r + c]. */
  type Matrix = m: seq<real> | |m| == 16
    witness [1.0, 0.0, 0.0, 0.0, 0.0, 1.0, 0.0, 0.0, 0.0, 0.0, 1.0, 0.0, 0.0, 0.0, 0.0, 1.0]

  /** What the default constructor `Matrix()` produces. */
  const Identity: Matrix :=
    [1.0, 0.0, 0.0, 0.0, 0.0, 1.0, 0.0, 0.0, 0.0, 0.0, 1.0, 0.0, 0.0, 0.0, 0.0, 1.0]

  /** Floating-point division where the model has no value for x / 0 (IEEE gives inf or NaN). */
  function Div(x: real, y: real): real
  {
    if y == 0.0 then 0.0 else x / y
  }

  function Clamp(x: real, lo: real, hi: real): real
  {
    if x < lo then lo else if x > hi then hi else x
  }

  /** `AnimationSequence::interpolate` on vectors: p1 * (1 - t) + p2 * t. */
  function Lerp(p1: Vec3, p2: Vec3, t: real): Vec3
  {
    Vec3(p1.x * (1.0 - t) + p2.x * t, p1.y * (1.0 - t) + p2.y * t, p1.z * (1.0 - t) + p2.z * t)
  }

  /** Entry (column-major j, i) of `Matrix::mul`: sum over k of x.m[4k + i] * y.m[j + k]. */
  function Dot(x: Matrix, y: Matrix, i: nat, j: nat): real
    requires i < 4 && j <= 12
  {
    x[i] * y[j] + x[i + 4] * y[j + 1] + x[i + 8] * y[j + 2] + x[i + 12] * y[j + 3]
  }

  /** `Matrix::mul`: ret.m[4j + i] = sum over k of m[4k + i] * matrix.m[4j + k]. */
  function Mul(x: Matrix, y: Matrix): Matrix
  {
    seq(16, k requires 0 <= k < 16 => Dot(x, y, k % 4, k - k % 4))
  }

  /** `Matrix::translation`: the identity with a[0][3], a[1][3], a[2][3] set. */
  function Translation(v: Vec3): Matrix
  {
    Identity[3 := v.x][7 := v.y][11 := v.z]
  }

  /** `Matrix::scaling`: the identity with the diagonal's first three entries set. */
  function Scaling(v: Vec3): Matrix
  {
    Identity[0 := v.x][5 := v.y][10 := v.z]
  }

  /** `Quaternion::toMatrix`. */
  function ToMatrix(q: Quaternion): Matrix
  {
    var aa, ab, ac := q.a * q.a, q.a * q.b, q.a * q.c;
    var bb, cc, bc := q.b * q.b, q.c * q.c, q.b * q.c;
    var da, db, dc := q.d * q.a, q.d * q.b, q.d * q.c;
    [1.0 - 2.0 * (bb + cc), 2.0 * (ab - dc), 2.0 * (ac + db), 0.0,
     2.0 * (ab + dc), 1.0 - 2.0 * (aa + cc), 2.0 * (bc - da), 0.0,
     2.0 * (ac - db), 2.0 * (bc + da), 1.0 - 2.0 * (aa + bb), 0.0,
     0.0, 0.0, 0.0, 1.0]
  }

  /** `Quaternion::Normalize`. */
  function Normalize(q: Quaternion): Quaternion
  {
    var n := Div(1.0, Sqrt(q.a * q.a + q.b * q.b + q.c * q.c + q.d * q.d));
    Quaternion(q.a * n, q.b * n, q.c * n, q.d * n)
  }

  /** `Quaternion::slerp`, taking the shorter arc and returning q1 when the angle is zero. */
  function Slerp(q1: Quaternion, q2: Quaternion, t: real): Quaternion
  {
    var dp := q1.a * q2.a + q1.b * q2.b + q1.c * q2.c + q1.d * q2.d;
    var q11 := if dp < 0.0 then Quaternion(-q1.a, -q1.b, -q1.c, -q1.d) else q1;
    var theta := Acos(Clamp(if dp > 0.0 then dp else -dp, -1.0, 1.0));
    if theta == 0.0 then q1
    else
      var d := Sin(theta);
      var c1 := Div(Sin((1.0 - t) * theta), d);
      var c2 := Div(Sin(t * theta), d);
      Normalize(Quaternion(c1 * q11.a + c2 * q2.a, c1 * q11.b + c2 * q2.b,
                           c1 * q11.c + c2 * q2.c, c1 * q11.d + c2 * q2.d))
  }
}
