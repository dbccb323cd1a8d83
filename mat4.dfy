/** The `mat4` helper object: 4x4 matrices kept in 16-entry buffers in
    column-major order (the entry in row r, column c sits at index 4 * c + r).
    Every operation writes into a caller-supplied buffer `out`. The callers
    pass the source matrix itself as `out` to translate, scale and the
    rotations, a separate buffer to invert, and either to transpose, so each
    method is specified for `out` aliasing `a` as well as not.

    A buffer's contents are read as a `Matrix` value with `Read`. Each method
    is specified against an independent reference: right multiplication
    `Mul(a, T)` by the textbook transform `T`, the cofactor inverse, and so on. */
module Mat4 {
  import opened Basics

  /** Sixteen entries, named by their index in the buffer. */
  datatype Matrix = Matrix(
    m0: real, m1: real, m2: real, m3: real,
    m4: real, m5: real, m6: real, m7: real,
    m8: real, m9: real, m10: real, m11: real,
    m12: real, m13: real, m14: real, m15: real)
  {
    /** The entry at buffer index i. */
    function At(i: nat): real
      requires i < 16
    {
      match i
      case 0 => m0 case 1 => m1 case 2 => m2 case 3 => m3
      case 4 => m4 case 5 => m5 case 6 => m6 case 7 => m7
      case 8 => m8 case 9 => m9 case 10 => m10 case 11 => m11
      case 12 => m12 case 13 => m13 case 14 => m14 case _ => m15
    }
  }

  /** A column of a matrix, or a point in homogeneous coordinates. */
  datatype Vec4 = Vec4(x: real, y: real, z: real, w: real) {
    static const Zero: Vec4 := Vec4(0.0, 0.0, 0.0, 0.0)
    function Plus(o: Vec4): Vec4 { Vec4(x + o.x, y + o.y, z + o.z, w + o.w) }
    function Minus(o: Vec4): Vec4 { Vec4(x - o.x, y - o.y, z - o.z, w - o.w) }
    function Scale(k: real): Vec4 { Vec4(x * k, y * k, z * k, w * k) }
  }

  /** Column j: buffer entries 4j .. 4j + 3. */
  function Column(m: Matrix, j: nat): Vec4
    requires j < 4
  {
    if j == 0 then Vec4(m.m0, m.m1, m.m2, m.m3)
    else if j == 1 then Vec4(m.m4, m.m5, m.m6, m.m7)
    else if j == 2 then Vec4(m.m8, m.m9, m.m10, m.m11)
    else Vec4(m.m12, m.m13, m.m14, m.m15)
  }

  function FromColumns(c0: Vec4, c1: Vec4, c2: Vec4, c3: Vec4): Matrix {
    Matrix(c0.x, c0.y, c0.z, c0.w, c1.x, c1.y, c1.z, c1.w,
           c2.x, c2.y, c2.z, c2.w, c3.x, c3.y, c3.z, c3.w)
  }

  /** The matrix a 16-entry buffer holds. */
  function Read(a: array<real>): Matrix
    requires a.Length == 16
    reads a
  {
    Matrix(a[0], a[1], a[2], a[3], a[4], a[5], a[6], a[7],
           a[8], a[9], a[10], a[11], a[12], a[13], a[14], a[15])
  }

  // ---------------------------------------------------------------------
  // Reference algebra

  const ZeroMatrix: Matrix := Matrix(0.0, 0.0, 0.0, 0.0, 0.0, 0.0, 0.0, 0.0,
                                     0.0, 0.0, 0.0, 0.0, 0.0, 0.0, 0.0, 0.0)

  function IdentityMatrix(): Matrix {
    Matrix(1.0, 0.0, 0.0, 0.0,
           0.0, 1.0, 0.0, 0.0,
           0.0, 0.0, 1.0, 0.0,
           0.0, 0.0, 0.0, 1.0)
  }

  /** The matrix `a` applied to the column vector `v`: the columns of `a`
      weighted by the entries of `v`. */
  function Apply(a: Matrix, v: Vec4): Vec4 {
    Column(a, 0).Scale(v.x).Plus(Column(a, 1).Scale(v.y))
      .Plus(Column(a, 2).Scale(v.z)).Plus(Column(a, 3).Scale(v.w))
  }

  /** The matrix product `a * b`: column j is `a` applied to column j of `b`. */
  function Mul(a: Matrix, b: Matrix): Matrix {
    FromColumns(Apply(a, Column(b, 0)), Apply(a, Column(b, 1)),
                Apply(a, Column(b, 2)), Apply(a, Column(b, 3)))
  }

  /** Every entry of `m` multiplied by `k`. */
  function Scalar(m: Matrix, k: real): Matrix {
    Matrix(m.m0 * k, m.m1 * k, m.m2 * k, m.m3 * k,
           m.m4 * k, m.m5 * k, m.m6 * k, m.m7 * k,
           m.m8 * k, m.m9 * k, m.m10 * k, m.m11 * k,
           m.m12 * k, m.m13 * k, m.m14 * k, m.m15 * k)
  }

  /** Entry (r, c) of the result is entry (c, r) of `a`. */
  function Transposed(a: Matrix): Matrix {
    Matrix(a.m0, a.m4, a.m8, a.m12,
           a.m1, a.m5, a.m9, a.m13,
           a.m2, a.m6, a.m10, a.m14,
           a.m3, a.m7, a.m11, a.m15)
  }

  function TranslationMatrix(v: Vec3): Matrix {
    Matrix(1.0, 0.0, 0.0, 0.0,
           0.0, 1.0, 0.0, 0.0,
           0.0, 0.0, 1.0, 0.0,
           v.x, v.y, v.z, 1.0)
  }

  function ScalingMatrix(v: Vec3): Matrix {
    Matrix(v.x, 0.0, 0.0, 0.0,
           0.0, v.y, 0.0, 0.0,
           0.0, 0.0, v.z, 0.0,
           0.0, 0.0, 0.0, 1.0)
  }

  /** Right-handed rotation about X by the angle whose sine is s and cosine c. */
  function RotationX(s: real, c: real): Matrix {
    Matrix(1.0, 0.0, 0.0, 0.0,
           0.0, c, s, 0.0,
           0.0, -s, c, 0.0,
           0.0, 0.0, 0.0, 1.0)
  }

  /** Right-handed rotation about Y by the angle whose sine is s and cosine c. */
  function RotationY(s: real, c: real): Matrix {
    Matrix(c, 0.0, -s, 0.0,
           0.0, 1.0, 0.0, 0.0,
           s, 0.0, c, 0.0,
           0.0, 0.0, 0.0, 1.0)
  }

  /** Right-handed rotation about Z by the angle whose sine is s and cosine c. */
  function RotationZ(s: real, c: real): Matrix {
    Matrix(c, s, 0.0, 0.0,
           -s, c, 0.0, 0.0,
           0.0, 0.0, 1.0, 0.0,
           0.0, 0.0, 0.0, 1.0)
  }

  /** The point `p` (with w = 1) transformed by `m`, dropping w. */
  function Transform(m: Matrix, p: Vec3): Vec3 {
    Vec3(m.m0 * p.x + m.m4 * p.y + m.m8 * p.z + m.m12,
         m.m1 * p.x + m.m5 * p.y + m.m9 * p.z + m.m13,
         m.m2 * p.x + m.m6 * p.y + m.m10 * p.z + m.m14)
  }

  /** The translation column: where the matrix takes the origin. */
  function Position(m: Matrix): Vec3 { Vec3(m.m12, m.m13, m.m14) }

  /** The determinant as invert computes it, from the 2x2 minors of the
      first two and of the last two columns. */
  function Det(a: Matrix): real {
    var b00 := a.m0 * a.m5 - a.m1 * a.m4;
    var b01 := a.m0 * a.m6 - a.m2 * a.m4;
    var b02 := a.m0 * a.m7 - a.m3 * a.m4;
    var b03 := a.m1 * a.m6 - a.m2 * a.m5;
    var b04 := a.m1 * a.m7 - a.m3 * a.m5;
    var b05 := a.m2 * a.m7 - a.m3 * a.m6;
    var b06 := a.m8 * a.m13 - a.m9 * a.m12;
    var b07 := a.m8 * a.m14 - a.m10 * a.m12;
    var b08 := a.m8 * a.m15 - a.m11 * a.m12;
    var b09 := a.m9 * a.m14 - a.m10 * a.m13;
    var b10 := a.m9 * a.m15 - a.m11 * a.m13;
    var b11 := a.m10 * a.m15 - a.m11 * a.m14;
    b00 * b11 - b01 * b10 + b02 * b09 + b03 * b08 - b04 * b07 + b05 * b06
  }

  /** The cofactor matrix (transposed), which invert scales by 1 / det. */
  function Adjugate(a: Matrix): Matrix {
    var a00, a01, a02, a03 := a.m0, a.m1, a.m2, a.m3;
    var a10, a11, a12, a13 := a.m4, a.m5, a.m6, a.m7;
    var a20, a21, a22, a23 := a.m8, a.m9, a.m10, a.m11;
    var a30, a31, a32, a33 := a.m12, a.m13, a.m14, a.m15;
    var b00 := a00 * a11 - a01 * a10;
    var b01 := a00 * a12 - a02 * a10;
    var b02 := a00 * a13 - a03 * a10;
    var b03 := a01 * a12 - a02 * a11;
    var b04 := a01 * a13 - a03 * a11;
    var b05 := a02 * a13 - a03 * a12;
    var b06 := a20 * a31 - a21 * a30;
    var b07 := a20 * a32 - a22 * a30;
    var b08 := a20 * a33 - a23 * a30;
    var b09 := a21 * a32 - a22 * a31;
    var b10 := a21 * a33 - a23 * a31;
    var b11 := a22 * a33 - a23 * a32;
    Matrix(a11 * b11 - a12 * b10 + a13 * b09,
           a02 * b10 - a01 * b11 - a03 * b09,
           a31 * b05 - a32 * b04 + a33 * b03,
           a22 * b04 - a21 * b05 - a23 * b03,
           a12 * b08 - a10 * b11 - a13 * b07,
           a00 * b11 - a02 * b08 + a03 * b07,
           a32 * b02 - a30 * b05 - a33 * b01,
           a20 * b05 - a22 * b02 + a23 * b01,
           a10 * b10 - a11 * b08 + a13 * b06,
           a01 * b08 - a00 * b10 - a03 * b06,
           a30 * b04 - a31 * b02 + a33 * b00,
           a21 * b02 - a20 * b04 - a23 * b00,
           a11 * b07 - a10 * b09 - a12 * b06,
           a00 * b09 - a01 * b07 + a02 * b06,
           a31 * b01 - a30 * b03 - a32 * b00,
           a20 * b03 - a21 * b01 + a22 * b00)
  }

  /** The value invert produces: nothing (the source's `null`) when the
      determinant is zero, otherwise the adjugate scaled by 1 / det. */
  function Inverted(a: Matrix): Option<Matrix> {
    var det := Det(a);
    if det == 0.0 then None else Some(Scalar(Adjugate(a), 1.0 / det))
  }

  /** perspective(out, fovy, aspect, near, far) with t = tan(fovy / 2). */
  function PerspectiveMatrix(t: real, aspect: real, near: real, far: real): Matrix
    requires t != 0.0 && aspect != 0.0 && near != far
  {
    var f := 1.0 / t;
    Matrix(f / aspect, 0.0, 0.0, 0.0,
           0.0, f, 0.0, 0.0,
           0.0, 0.0, (far + near) / (near - far), -1.0,
           0.0, 0.0, (2.0 * far * near) / (near - far), 0.0)
  }

  /** The camera basis vectors as rows of the rotation part, and the eye
      moved to the origin. */
  function ViewMatrix(x: Vec3, y: Vec3, z: Vec3, eye: Vec3): Matrix {
    Matrix(x.x, y.x, z.x, 0.0,
           x.y, y.y, z.y, 0.0,
           x.z, y.z, z.z, 0.0,
           -x.Dot(eye), -y.Dot(eye), -z.Dot(eye), 1.0)
  }

  /** lookAt's requirement: neither normalisation divides by zero. */
  predicate LookAtDefined(eye: Vec3, center: Vec3, up: Vec3, m: HostMath) {
    var zLen := m.Sqrt(eye.Minus(center).NormSquared());
    zLen != 0.0 && m.Sqrt(up.Cross(eye.Minus(center).Div(zLen)).NormSquared()) != 0.0
  }

  /** The camera's backward axis: from center towards eye, divided by
      `Math.sqrt` of its squared length. */
  function LookAtForward(eye: Vec3, center: Vec3, up: Vec3, m: HostMath): Vec3
    requires LookAtDefined(eye, center, up, m)
  {
    var d := eye.Minus(center);
    d.Div(m.Sqrt(d.NormSquared()))
  }

  /** The camera's right axis: up x forward, divided by its length. */
  function LookAtRight(eye: Vec3, center: Vec3, up: Vec3, m: HostMath): Vec3
    requires LookAtDefined(eye, center, up, m)
  {
    var w := up.Cross(LookAtForward(eye, center, up, m));
    w.Div(m.Sqrt(w.NormSquared()))
  }

  /** The view matrix with basis right, forward x right (the camera's up)
      and forward. */
  function LookAtMatrix(eye: Vec3, center: Vec3, up: Vec3, m: HostMath): Matrix
    requires LookAtDefined(eye, center, up, m)
  {
    var z := LookAtForward(eye, center, up, m);
    var x := LookAtRight(eye, center, up, m);
    ViewMatrix(x, z.Cross(x), z, eye)
  }

  // ---------------------------------------------------------------------
  // The buffer operations

  /** Writes all sixteen entries of `r` into the buffer. */
  method Store(out: array<real>, r: Matrix)
    requires out.Length == 16
    modifies out
    ensures Read(out) == r
  {
    forall i | 0 <= i < 16 {
      out[i] := r.At(i);
    }
  }

  /** create(): a fresh buffer of zeros (a new Float32Array(16)). */
  method Create() returns (out: array<real>)
    ensures fresh(out) && out.Length == 16
    ensures Read(out) == ZeroMatrix
  {
    out := new real[16](_ => 0.0);
  }

  method Identity(out: array<real>)
    requires out.Length == 16
    modifies out
    ensures Read(out) == IdentityMatrix()
  {
    Store(out, Matrix(1.0, 0.0, 0.0, 0.0,
                      0.0, 1.0, 0.0, 0.0,
                      0.0, 0.0, 1.0, 0.0,
                      0.0, 0.0, 0.0, 1.0));
  }

  /** `t` is `Math.tan(fovy / 2)`, which the model takes from the caller. */
  method Perspective(out: array<real>, t: real, aspect: real, near: real, far: real)
    requires out.Length == 16
    requires t != 0.0 && aspect != 0.0 && near != far
    modifies out
    ensures Read(out) == PerspectiveMatrix(t, aspect, near, far)
  {
    var f := 1.0 / t;
    Store(out, Matrix(f / aspect, 0.0, 0.0, 0.0,
                      0.0, f, 0.0, 0.0,
                      0.0, 0.0, (far + near) / (near - far), -1.0,
                      0.0, 0.0, (2.0 * far * near) / (near - far), 0.0));
  }

  /** lookAt(out, eye, center, up). */
  method LookAt(out: array<real>, eye: Vec3, center: Vec3, up: Vec3, m: HostMath)
    requires out.Length == 16
    requires LookAtDefined(eye, center, up, m)
    modifies out
    ensures Read(out) == LookAtMatrix(eye, center, up, m)
  {
    var z := eye.Minus(center);
    var zLen := m.Sqrt(z.NormSquared());
    z := z.Div(zLen);
    var x := up.Cross(z);
    var xLen := m.Sqrt(x.NormSquared());
    x := x.Div(xLen);
    var y := z.Cross(x);
    Store(out, ViewMatrix(x, y, z, eye));
  }

  // The transforming operations store, in one step, the matrix that the
  // function below each of them computes from the operand's old value, so
  // each `ensures` holds also when `out` is `a`. The source assigns the
  // sixteen entries one at a time, reading `a` as it goes; the `...InPlace`
  // functions replay those assignments, in the source's order, on a single
  // buffer (the `out === a` calls the scene makes), and the `...InPlaceAgrees`
  // lemmas show that the replay ends in the same matrix. The `...IsProduct`
  // lemmas identify the functions with right multiplication by the textbook
  // transform.

  /** translate(out, a, v). */
  method Translate(out: array<real>, a: array<real>, v: Vec3)
    requires out.Length == 16 && a.Length == 16
    modifies out
    ensures Read(out) == Translated(old(Read(a)), v)
  {
    Store(out, Translated(Read(a), v));
  }

  /** The basis columns are kept; the translation column becomes
      `a[0..3] * v[0] + a[4..7] * v[1] + a[8..11] * v[2] + a[12..15]`. */
  function Translated(a: Matrix, v: Vec3): Matrix {
    FromColumns(Column(a, 0), Column(a, 1), Column(a, 2),
                Column(a, 0).Scale(v.x).Plus(Column(a, 1).Scale(v.y))
                  .Plus(Column(a, 2).Scale(v.z)).Plus(Column(a, 3)))
  }

  /** translate's assignments, in order, on one buffer b. */
  function TranslateInPlace(b: Matrix, v: Vec3): Matrix {
    var b := b.(m0 := b.m0).(m1 := b.m1).(m2 := b.m2).(m3 := b.m3);
    var b := b.(m4 := b.m4).(m5 := b.m5).(m6 := b.m6).(m7 := b.m7);
    var b := b.(m8 := b.m8).(m9 := b.m9).(m10 := b.m10).(m11 := b.m11);
    var b := b.(m12 := b.m0 * v.x + b.m4 * v.y + b.m8 * v.z + b.m12);
    var b := b.(m13 := b.m1 * v.x + b.m5 * v.y + b.m9 * v.z + b.m13);
    var b := b.(m14 := b.m2 * v.x + b.m6 * v.y + b.m10 * v.z + b.m14);
    b.(m15 := b.m3 * v.x + b.m7 * v.y + b.m11 * v.z + b.m15)
  }

  lemma TranslateInPlaceAgrees(b: Matrix, v: Vec3)
    ensures TranslateInPlace(b, v) == Translated(b, v)
  {
  }

  /** scale(out, a, v). */
  method Scale(out: array<real>, a: array<real>, v: Vec3)
    requires out.Length == 16 && a.Length == 16
    modifies out
    ensures Read(out) == Scaled(old(Read(a)), v)
  {
    Store(out, Scaled(Read(a), v));
  }

  /** Basis column i multiplied by the i-th component of v. */
  function Scaled(a: Matrix, v: Vec3): Matrix {
    FromColumns(Column(a, 0).Scale(v.x), Column(a, 1).Scale(v.y),
                Column(a, 2).Scale(v.z), Column(a, 3))
  }

  /** scale's assignments, in order, on one buffer b. */
  function ScaleInPlace(b: Matrix, v: Vec3): Matrix {
    var b := b.(m0 := b.m0 * v.x).(m1 := b.m1 * v.x).(m2 := b.m2 * v.x).(m3 := b.m3 * v.x);
    var b := b.(m4 := b.m4 * v.y).(m5 := b.m5 * v.y).(m6 := b.m6 * v.y).(m7 := b.m7 * v.y);
    var b := b.(m8 := b.m8 * v.z).(m9 := b.m9 * v.z).(m10 := b.m10 * v.z).(m11 := b.m11 * v.z);
    b.(m12 := b.m12).(m13 := b.m13).(m14 := b.m14).(m15 := b.m15)
  }

  lemma ScaleInPlaceAgrees(b: Matrix, v: Vec3)
    ensures ScaleInPlace(b, v) == Scaled(b, v)
  {
  }

  /** rotateY(out, a, rad). */
  method RotateY(out: array<real>, a: array<real>, rad: real, m: HostMath)
    requires out.Length == 16 && a.Length == 16
    modifies out
    ensures Read(out) == RotatedY(old(Read(a)), m.Sin(rad), m.Cos(rad))
  {
    var s, c := m.Sin(rad), m.Cos(rad);
    Store(out, RotatedY(Read(a), s, c));
  }

  /** Columns 0 and 2 turned by the angle with sine s and cosine c:
      column 0 becomes `col0 * c + col2 * s` (the source adds `a[8] * s`
      into `out[0]`) and column 2 becomes `col2 * c - col0 * s`. */
  function RotatedY(a: Matrix, s: real, c: real): Matrix {
    FromColumns(Column(a, 0).Scale(c).Plus(Column(a, 2).Scale(s)), Column(a, 1),
                Column(a, 2).Scale(c).Minus(Column(a, 0).Scale(s)), Column(a, 3))
  }

  /** rotateY's assignments, in order, on one buffer b: columns 0 and 2 are
      saved first, written, and then columns 1 and 3 are copied onto
      themselves. */
  function RotateYInPlace(b: Matrix, s: real, c: real): Matrix {
    var a00, a01, a02, a03 := b.m0, b.m1, b.m2, b.m3;
    var a20, a21, a22, a23 := b.m8, b.m9, b.m10, b.m11;
    var b := b.(m0 := a00 * c + a20 * s).(m1 := a01 * c + a21 * s);
    var b := b.(m2 := a02 * c + a22 * s).(m3 := a03 * c + a23 * s);
    var b := b.(m8 := a20 * c - a00 * s).(m9 := a21 * c - a01 * s);
    var b := b.(m10 := a22 * c - a02 * s).(m11 := a23 * c - a03 * s);
    var b := b.(m4 := b.m4).(m5 := b.m5).(m6 := b.m6).(m7 := b.m7);
    b.(m12 := b.m12).(m13 := b.m13).(m14 := b.m14).(m15 := b.m15)
  }

  lemma RotateYInPlaceAgrees(b: Matrix, s: real, c: real)
    ensures RotateYInPlace(b, s, c) == RotatedY(b, s, c)
  {
  }

  /** rotateZ(out, a, rad). */
  method RotateZ(out: array<real>, a: array<real>, rad: real, m: HostMath)
    requires out.Length == 16 && a.Length == 16
    modifies out
    ensures Read(out) == RotatedZ(old(Read(a)), m.Sin(rad), m.Cos(rad))
  {
    var s, c := m.Sin(rad), m.Cos(rad);
    Store(out, RotatedZ(Read(a), s, c));
  }

  /** Columns 0 and 1 turned: `col0 * c + col1 * s` and `col1 * c - col0 * s`. */
  function RotatedZ(a: Matrix, s: real, c: real): Matrix {
    FromColumns(Column(a, 0).Scale(c).Plus(Column(a, 1).Scale(s)),
                Column(a, 1).Scale(c).Minus(Column(a, 0).Scale(s)),
                Column(a, 2), Column(a, 3))
  }

  /** rotateZ's assignments, in order, on one buffer b. */
  function RotateZInPlace(b: Matrix, s: real, c: real): Matrix {
    var a00, a01, a02, a03 := b.m0, b.m1, b.m2, b.m3;
    var a10, a11, a12, a13 := b.m4, b.m5, b.m6, b.m7;
    var b := b.(m0 := a00 * c + a10 * s).(m1 := a01 * c + a11 * s);
    var b := b.(m2 := a02 * c + a12 * s).(m3 := a03 * c + a13 * s);
    var b := b.(m4 := a10 * c - a00 * s).(m5 := a11 * c - a01 * s);
    var b := b.(m6 := a12 * c - a02 * s).(m7 := a13 * c - a03 * s);
    var b := b.(m8 := b.m8).(m9 := b.m9).(m10 := b.m10).(m11 := b.m11);
    b.(m12 := b.m12).(m13 := b.m13).(m14 := b.m14).(m15 := b.m15)
  }

  lemma RotateZInPlaceAgrees(b: Matrix, s: real, c: real)
    ensures RotateZInPlace(b, s, c) == RotatedZ(b, s, c)
  {
  }

  /** rotateX(out, a, rad). */
  method RotateX(out: array<real>, a: array<real>, rad: real, m: HostMath)
    requires out.Length == 16 && a.Length == 16
    modifies out
    ensures Read(out) == RotatedX(old(Read(a)), m.Sin(rad), m.Cos(rad))
  {
    var s, c := m.Sin(rad), m.Cos(rad);
    Store(out, RotatedX(Read(a), s, c));
  }

  /** Columns 1 and 2 turned: `col1 * c + col2 * s` and `col2 * c - col1 * s`. */
  function RotatedX(a: Matrix, s: real, c: real): Matrix {
    FromColumns(Column(a, 0),
                Column(a, 1).Scale(c).Plus(Column(a, 2).Scale(s)),
                Column(a, 2).Scale(c).Minus(Column(a, 1).Scale(s)), Column(a, 3))
  }

  /** rotateX's assignments, in order, on one buffer b. */
  function RotateXInPlace(b: Matrix, s: real, c: real): Matrix {
    var a10, a11, a12, a13 := b.m4, b.m5, b.m6, b.m7;
    var a20, a21, a22, a23 := b.m8, b.m9, b.m10, b.m11;
    var b := b.(m4 := a10 * c + a20 * s).(m5 := a11 * c + a21 * s);
    var b := b.(m6 := a12 * c + a22 * s).(m7 := a13 * c + a23 * s);
    var b := b.(m8 := a20 * c - a10 * s).(m9 := a21 * c - a11 * s);
    var b := b.(m10 := a22 * c - a12 * s).(m11 := a23 * c - a13 * s);
    var b := b.(m0 := b.m0).(m1 := b.m1).(m2 := b.m2).(m3 := b.m3);
    b.(m12 := b.m12).(m13 := b.m13).(m14 := b.m14).(m15 := b.m15)
  }

  lemma RotateXInPlaceAgrees(b: Matrix, s: real, c: real)
    ensures RotateXInPlace(b, s, c) == RotatedX(b, s, c)
  {
  }

  /** invert(out, a): `ok` is false where the source returns null, and then
      `out` is left as it was; otherwise `out` holds the adjugate divided by
      the determinant. */
  method Invert(out: array<real>, a: array<real>) returns (ok: bool)
    requires out.Length == 16 && a.Length == 16
    modifies out
    ensures ok == Inverted(old(Read(a))).Some?
    ensures ok <==> Det(old(Read(a))) != 0.0
    ensures !ok ==> Read(out) == old(Read(out))
    ensures ok ==> Read(out) == Inverted(old(Read(a))).value
  {
    var m := Read(a);
    var det := Det(m);
    if det == 0.0 {
      return false;
    }
    Store(out, Scalar(Adjugate(m), 1.0 / det));
    ok := true;
  }

  /** transpose(out, a). In place, the off-diagonal pairs are swapped
      through saved copies of the upper triangle and the diagonal is left
      alone; otherwise all sixteen entries are copied across. Both branches
      produce the transpose. */
  method Transpose(out: array<real>, a: array<real>)
    requires out.Length == 16 && a.Length == 16
    modifies out
    ensures Read(out) == Transposed(old(Read(a)))
  {
    if out == a {
      var a01, a02, a03 := a[1], a[2], a[3];
      var a12, a13 := a[6], a[7];
      var a23 := a[11];
      out[1] := a[4]; out[2] := a[8]; out[3] := a[12];
      out[4] := a01; out[6] := a[9]; out[7] := a[13];
      out[8] := a02; out[9] := a12; out[11] := a[14];
      out[12] := a03; out[13] := a13; out[14] := a23;
    } else {
      Store(out, Transposed(Read(a)));
    }
  }

  // ---------------------------------------------------------------------
  // Properties of the reference algebra

  /** A matrix is the matrix of its columns. */
  lemma ColumnsRebuild(m: Matrix)
    ensures FromColumns(Column(m, 0), Column(m, 1), Column(m, 2), Column(m, 3)) == m
  {
  }

  // Vector algebra the matrix lemmas are assembled from. Each product
  // lemma below names the entries of the vectors it applies, so that the
  // solver meets them as numbers.

  lemma ScaleByZeroOne(u: Vec4)
    ensures u.Scale(0.0) == Vec4.Zero && u.Scale(1.0) == u
  {
  }

  lemma PlusZero(u: Vec4)
    ensures u.Plus(Vec4.Zero) == u && Vec4.Zero.Plus(u) == u
  {
  }

  lemma ScaleSum(u: Vec4, p: real, q: real)
    ensures u.Scale(p + q) == u.Scale(p).Plus(u.Scale(q))
  {
  }

  /** `u * -s + w * c` is `w * c - u * s`. */
  lemma ScaleNegated(u: Vec4, w: Vec4, s: real, c: real)
    ensures u.Scale(-s).Plus(w.Scale(c)) == w.Scale(c).Minus(u.Scale(s))
  {
  }

  /** `Apply` on a vector given by its four entries. */
  lemma ApplyEntries(a: Matrix, p: real, q: real, r: real, t: real)
    ensures Apply(a, Vec4(p, q, r, t))
         == Column(a, 0).Scale(p).Plus(Column(a, 1).Scale(q))
              .Plus(Column(a, 2).Scale(r)).Plus(Column(a, 3).Scale(t))
  {
  }

  /** The vector with k at position j and zeros elsewhere. */
  function Axis(j: nat, k: real): Vec4
    requires j < 4
  {
    if j == 0 then Vec4(k, 0.0, 0.0, 0.0)
    else if j == 1 then Vec4(0.0, k, 0.0, 0.0)
    else if j == 2 then Vec4(0.0, 0.0, k, 0.0)
    else Vec4(0.0, 0.0, 0.0, k)
  }

  /** Applying a matrix to k times the j-th unit vector scales column j by
      k; for k = 1 it picks out column j. */
  lemma ApplyAxis(a: Matrix, j: nat, k: real)
    requires j < 4
    ensures Apply(a, Axis(j, k)) == Column(a, j).Scale(k)
    ensures Apply(a, Axis(j, 1.0)) == Column(a, j)
  {
    ScaleByZeroOne(Column(a, 0)); ScaleByZeroOne(Column(a, 1));
    ScaleByZeroOne(Column(a, 2)); ScaleByZeroOne(Column(a, 3));
    PlusZero(Column(a, j).Scale(k)); PlusZero(Column(a, j));
    PlusZero(Vec4.Zero);
    if j == 0 {
      ApplyEntries(a, k, 0.0, 0.0, 0.0);
      ApplyEntries(a, 1.0, 0.0, 0.0, 0.0);
    } else if j == 1 {
      ApplyEntries(a, 0.0, k, 0.0, 0.0);
      ApplyEntries(a, 0.0, 1.0, 0.0, 0.0);
    } else if j == 2 {
      ApplyEntries(a, 0.0, 0.0, k, 0.0);
      ApplyEntries(a, 0.0, 0.0, 1.0, 0.0);
    } else {
      ApplyEntries(a, 0.0, 0.0, 0.0, k);
      ApplyEntries(a, 0.0, 0.0, 0.0, 1.0);
    }
  }

  /** identity() builds the unit of the product. */
  lemma MulIdentity(a: Matrix)
    ensures Mul(a, IdentityMatrix()) == a
  {
    var i := IdentityMatrix();
    assert Column(i, 0) == Axis(0, 1.0) && Column(i, 1) == Axis(1, 1.0);
    assert Column(i, 2) == Axis(2, 1.0) && Column(i, 3) == Axis(3, 1.0);
    ApplyAxis(a, 0, 1.0); ApplyAxis(a, 1, 1.0); ApplyAxis(a, 2, 1.0); ApplyAxis(a, 3, 1.0);
    ColumnsRebuild(a);
  }

  /** Applying `a` to a point (w = 1) sums its basis columns, weighted by the
      coordinates, and the translation column. */
  lemma ApplyPoint(a: Matrix, v: Vec3)
    ensures Apply(a, Vec4(v.x, v.y, v.z, 1.0))
         == Column(a, 0).Scale(v.x).Plus(Column(a, 1).Scale(v.y))
              .Plus(Column(a, 2).Scale(v.z)).Plus(Column(a, 3))
  {
    ApplyEntries(a, v.x, v.y, v.z, 1.0);
    ScaleByZeroOne(Column(a, 3));
  }

  lemma TranslatedIsProduct(a: Matrix, v: Vec3)
    ensures Translated(a, v) == Mul(a, TranslationMatrix(v))
  {
    var t := TranslationMatrix(v);
    assert Column(t, 0) == Axis(0, 1.0) && Column(t, 1) == Axis(1, 1.0);
    assert Column(t, 2) == Axis(2, 1.0);
    assert Column(t, 3) == Vec4(v.x, v.y, v.z, 1.0);
    ApplyAxis(a, 0, 1.0); ApplyAxis(a, 1, 1.0); ApplyAxis(a, 2, 1.0);
    ApplyPoint(a, v);
  }

  lemma ScaledIsProduct(a: Matrix, v: Vec3)
    ensures Scaled(a, v) == Mul(a, ScalingMatrix(v))
  {
    var t := ScalingMatrix(v);
    assert Column(t, 0) == Axis(0, v.x) && Column(t, 1) == Axis(1, v.y);
    assert Column(t, 2) == Axis(2, v.z) && Column(t, 3) == Axis(3, 1.0);
    ApplyAxis(a, 0, v.x); ApplyAxis(a, 1, v.y); ApplyAxis(a, 2, v.z); ApplyAxis(a, 3, 1.0);
  }

  /** The two turned columns of a rotation about Y, applied. */
  lemma ApplyTurnY(a: Matrix, s: real, c: real)
    ensures Apply(a, Vec4(c, 0.0, s, 0.0)) == Column(a, 0).Scale(c).Plus(Column(a, 2).Scale(s))
    ensures Apply(a, Vec4(-s, 0.0, c, 0.0)) == Column(a, 2).Scale(c).Minus(Column(a, 0).Scale(s))
  {
    ApplyEntries(a, c, 0.0, s, 0.0);
    ApplyEntries(a, -s, 0.0, c, 0.0);
    ScaleByZeroOne(Column(a, 1)); ScaleByZeroOne(Column(a, 3));
    PlusZero(Column(a, 0).Scale(c)); PlusZero(Column(a, 0).Scale(-s));
    PlusZero(Column(a, 0).Scale(c).Plus(Column(a, 2).Scale(s)));
    PlusZero(Column(a, 0).Scale(-s).Plus(Column(a, 2).Scale(c)));
    ScaleNegated(Column(a, 0), Column(a, 2), s, c);
  }

  /** The two turned columns of a rotation about Z, applied. */
  lemma ApplyTurnZ(a: Matrix, s: real, c: real)
    ensures Apply(a, Vec4(c, s, 0.0, 0.0)) == Column(a, 0).Scale(c).Plus(Column(a, 1).Scale(s))
    ensures Apply(a, Vec4(-s, c, 0.0, 0.0)) == Column(a, 1).Scale(c).Minus(Column(a, 0).Scale(s))
  {
    ApplyEntries(a, c, s, 0.0, 0.0);
    ApplyEntries(a, -s, c, 0.0, 0.0);
    ScaleByZeroOne(Column(a, 2)); ScaleByZeroOne(Column(a, 3));
    PlusZero(Column(a, 0).Scale(c).Plus(Column(a, 1).Scale(s)));
    PlusZero(Column(a, 0).Scale(-s).Plus(Column(a, 1).Scale(c)));
    ScaleNegated(Column(a, 0), Column(a, 1), s, c);
  }

  /** The two turned columns of a rotation about X, applied. */
  lemma ApplyTurnX(a: Matrix, s: real, c: real)
    ensures Apply(a, Vec4(0.0, c, s, 0.0)) == Column(a, 1).Scale(c).Plus(Column(a, 2).Scale(s))
    ensures Apply(a, Vec4(0.0, -s, c, 0.0)) == Column(a, 2).Scale(c).Minus(Column(a, 1).Scale(s))
  {
    ApplyEntries(a, 0.0, c, s, 0.0);
    ApplyEntries(a, 0.0, -s, c, 0.0);
    ScaleByZeroOne(Column(a, 0)); ScaleByZeroOne(Column(a, 3));
    PlusZero(Column(a, 1).Scale(c)); PlusZero(Column(a, 1).Scale(-s));
    PlusZero(Column(a, 1).Scale(c).Plus(Column(a, 2).Scale(s)));
    PlusZero(Column(a, 1).Scale(-s).Plus(Column(a, 2).Scale(c)));
    ScaleNegated(Column(a, 1), Column(a, 2), s, c);
  }

  /** rotateY turns by MINUS rad in the right-handed sense (see
      `RotateYTurnsLikeOrbit`); rotateX and rotateZ by plus rad. */
  lemma RotatedYIsProduct(a: Matrix, s: real, c: real)
    ensures RotatedY(a, s, c) == Mul(a, RotationY(-s, c))
  {
    var r := RotationY(-s, c);
    assert Column(r, 0) == Vec4(c, 0.0, s, 0.0);
    assert Column(r, 1) == Axis(1, 1.0);
    assert Column(r, 2) == Vec4(-s, 0.0, c, 0.0);
    assert Column(r, 3) == Axis(3, 1.0);
    ApplyAxis(a, 1, 1.0); ApplyAxis(a, 3, 1.0);
    ApplyTurnY(a, s, c);
  }

  lemma RotatedZIsProduct(a: Matrix, s: real, c: real)
    ensures RotatedZ(a, s, c) == Mul(a, RotationZ(s, c))
  {
    var r := RotationZ(s, c);
    assert Column(r, 0) == Vec4(c, s, 0.0, 0.0);
    assert Column(r, 1) == Vec4(-s, c, 0.0, 0.0);
    assert Column(r, 2) == Axis(2, 1.0);
    assert Column(r, 3) == Axis(3, 1.0);
    ApplyAxis(a, 2, 1.0); ApplyAxis(a, 3, 1.0);
    ApplyTurnZ(a, s, c);
  }

  lemma RotatedXIsProduct(a: Matrix, s: real, c: real)
    ensures RotatedX(a, s, c) == Mul(a, RotationX(s, c))
  {
    var r := RotationX(s, c);
    assert Column(r, 0) == Axis(0, 1.0);
    assert Column(r, 1) == Vec4(0.0, c, s, 0.0);
    assert Column(r, 2) == Vec4(0.0, -s, c, 0.0);
    assert Column(r, 3) == Axis(3, 1.0);
    ApplyAxis(a, 0, 1.0); ApplyAxis(a, 3, 1.0);
    ApplyTurnX(a, s, c);
  }

  /** rotateY then scale, the last two steps of every body's chain. */
  lemma SpinScaleIsProduct(a: Matrix, s: real, c: real, v: Vec3)
    ensures Scaled(RotatedY(a, s, c), v) == Mul(Mul(a, RotationY(-s, c)), ScalingMatrix(v))
  {
    RotatedYIsProduct(a, s, c);
    ScaledIsProduct(RotatedY(a, s, c), v);
  }

  /** rotateX, rotateY, then scale: the ring's last three steps. */
  lemma TiltSpinScaleIsProduct(a: Matrix, st: real, ct: real, s: real, c: real, v: Vec3)
    ensures Scaled(RotatedY(RotatedX(a, st, ct), s, c), v)
         == Mul(Mul(Mul(a, RotationX(st, ct)), RotationY(-s, c)), ScalingMatrix(v))
  {
    RotatedXIsProduct(a, st, ct);
    SpinScaleIsProduct(RotatedX(a, st, ct), s, c, v);
  }

  /** translate twice, from a. */
  lemma TranslateTwiceIsProduct(a: Matrix, u: Vec3, v: Vec3)
    ensures Translated(Translated(a, u), v) == Mul(Mul(a, TranslationMatrix(u)), TranslationMatrix(v))
  {
    TranslatedIsProduct(a, u);
    TranslatedIsProduct(Translated(a, u), v);
  }

  /** translate keeps the basis columns and moves the translation column to
      where `a` sends v. */
  lemma TranslateKeepsBasis(a: Matrix, v: Vec3)
    ensures Column(Translated(a, v), 0) == Column(a, 0)
    ensures Column(Translated(a, v), 1) == Column(a, 1)
    ensures Column(Translated(a, v), 2) == Column(a, 2)
    ensures Position(Translated(a, v)) == Transform(a, v)
  {
  }

  /** Translating by u and then by v is translating by u + v. */
  lemma TranslatedTwice(a: Matrix, u: Vec3, v: Vec3)
    ensures Translated(Translated(a, u), v) == Translated(a, u.Plus(v))
  {
    ScaleSum(Column(a, 0), u.x, v.x);
    ScaleSum(Column(a, 1), u.y, v.y);
    ScaleSum(Column(a, 2), u.z, v.z);
  }

  /** scale keeps the translation column; each rotation keeps the column
      it turns about and the translation column. */
  lemma LinearKeepsColumns(a: Matrix, s: real, c: real, v: Vec3)
    ensures Column(Scaled(a, v), 3) == Column(a, 3)
    ensures Column(RotatedY(a, s, c), 1) == Column(a, 1) && Column(RotatedY(a, s, c), 3) == Column(a, 3)
    ensures Column(RotatedX(a, s, c), 0) == Column(a, 0) && Column(RotatedX(a, s, c), 3) == Column(a, 3)
    ensures Column(RotatedZ(a, s, c), 2) == Column(a, 2) && Column(RotatedZ(a, s, c), 3) == Column(a, 3)
  {
  }

  /** scale and the rotations keep the translation column, so the origin
      of the model lands where the translations put it. */
  lemma KeepPosition(a: Matrix, s: real, c: real, v: Vec3)
    ensures Position(Scaled(a, v)) == Position(a)
    ensures Position(RotatedX(a, s, c)) == Position(a)
    ensures Position(RotatedY(a, s, c)) == Position(a)
    ensures Position(RotatedZ(a, s, c)) == Position(a)
  {
  }

  /** A rotation by sine 0 and cosine 1 leaves the matrix as it was. */
  lemma RotatedByZero(a: Matrix)
    ensures RotatedX(a, 0.0, 1.0) == a
    ensures RotatedY(a, 0.0, 1.0) == a
    ensures RotatedZ(a, 0.0, 1.0) == a
  {
  }

  /** The rotation rotateY applies carries the +x axis towards +z: the same
      sense in which an orbit's angle moves a body from (r, 0, 0) towards
      (0, 0, r). */
  lemma RotateYTurnsLikeOrbit(s: real, c: real)
    ensures Transform(RotationY(-s, c), Vec3(1.0, 0.0, 0.0)) == Vec3(c, 0.0, s)
  {
  }

  lemma TransposeInvolution(a: Matrix)
    ensures Transposed(Transposed(a)) == a
  {
  }

  /** A matrix whose first column is all zero, such as the all-zero fresh
      buffer, is singular, so invert refuses it. */
  lemma InvertZeroColumnFails(a: Matrix)
    requires Column(a, 0) == Vec4.Zero
    ensures Det(a) == 0.0 && Inverted(a).None?
  {
    assert a.m0 == 0.0 && a.m1 == 0.0 && a.m2 == 0.0 && a.m3 == 0.0;
  }

  /** A translation by v is inverted to the translation by -v. */
  lemma InvertTranslation(v: Vec3)
    ensures Inverted(TranslationMatrix(v)) == Some(TranslationMatrix(Vec3(-v.x, -v.y, -v.z)))
  {
    var t := TranslationMatrix(v);
    var back := TranslationMatrix(Vec3(-v.x, -v.y, -v.z));
    var d := Det(t);
    assert d == 1.0;
    var j := Adjugate(t);
    assert j == back;
    assert 1.0 / d == 1.0;
    assert Scalar(j, 1.0 / d) == back;
  }

  /** A scaling is inverted to the scaling by the reciprocal factors, and
      a scaling with a zero factor has no inverse. */
  lemma InvertScaling(v: Vec3)
    ensures v.x == 0.0 || v.y == 0.0 || v.z == 0.0 ==> Inverted(ScalingMatrix(v)).None?
    ensures v.x != 0.0 && v.y != 0.0 && v.z != 0.0 ==>
      Inverted(ScalingMatrix(v)) == Some(ScalingMatrix(Vec3(1.0 / v.x, 1.0 / v.y, 1.0 / v.z)))
  {
    var d := ScalingDet(v);
    if d != 0.0 {
      var k := 1.0 / d;
      var j := ScalingAdjugate(v);
      Reciprocal(v.y * v.z, v.x, d);
      Reciprocal(v.x * v.z, v.y, d);
      Reciprocal(v.x * v.y, v.z, d);
      assert d * k == 1.0;
      assert Scalar(j, k) == ScalingMatrix(Vec3(1.0 / v.x, 1.0 / v.y, 1.0 / v.z));
    }
  }

  lemma ScalingDet(v: Vec3) returns (d: real)
    ensures d == Det(ScalingMatrix(v)) && d == v.x * v.y * v.z
    ensures d == 0.0 <==> v.x == 0.0 || v.y == 0.0 || v.z == 0.0
  {
    d := Det(ScalingMatrix(v));
  }

  lemma ScalingAdjugate(v: Vec3) returns (j: Matrix)
    ensures j == Adjugate(ScalingMatrix(v))
    ensures j == Matrix(v.y * v.z, 0.0, 0.0, 0.0,
                        0.0, v.x * v.z, 0.0, 0.0,
                        0.0, 0.0, v.x * v.y, 0.0,
                        0.0, 0.0, 0.0, v.x * v.y * v.z)
  {
    j := Adjugate(ScalingMatrix(v));
  }

  /** A cofactor p with p * q == d scaled by 1 / d is 1 / q. */
  lemma Reciprocal(p: real, q: real, d: real)
    requires d != 0.0 && p * q == d
    ensures p * (1.0 / d) == 1.0 / q
  {
    assert q != 0.0;
    assert p * (1.0 / d) * q == 1.0;
    CancelFactor(p * (1.0 / d), 1.0 / q, q);
  }

  /** The projection maps the near plane to depth -1 and the far plane to +1
      after the division by w = -z. */
  lemma PerspectiveDepthRange(t: real, aspect: real, near: real, far: real)
    requires t != 0.0 && aspect != 0.0 && near != far && near != 0.0 && far != 0.0
    ensures var p := PerspectiveMatrix(t, aspect, near, far);
      (p.m10 * -near + p.m14) / near == -1.0 && (p.m10 * -far + p.m14) / far == 1.0
  {
    var p := PerspectiveMatrix(t, aspect, near, far);
    var d := near - far;
    assert p.m10 == (far + near) / d && p.m14 == (2.0 * far * near) / d;
    QuotientTimes(far + near, d);
    QuotientTimes(2.0 * far * near, d);
    DepthCancel(near, far, p.m10, p.m14);
    DivSelf(near);
    DivSelf(far);
  }

  lemma QuotientTimes(x: real, d: real)
    requires d != 0.0
    ensures (x / d) * d == x
  {
  }

  lemma DivSelf(x: real)
    requires x != 0.0
    ensures x / x == 1.0 && -x / x == -1.0
  {
  }

  /** The depth row's two entries, known through their products with
      near - far, send -near to -near and -far to far. */
  lemma DepthCancel(near: real, far: real, m10: real, m14: real)
    requires near != far
    requires m10 * (near - far) == far + near
    requires m14 * (near - far) == 2.0 * far * near
    ensures m10 * -near + m14 == -near && m10 * -far + m14 == far
  {
    var d := near - far;
    assert (m10 * -near + m14) * d == -near * d;
    assert (m10 * -far + m14) * d == far * d;
    CancelFactor(m10 * -near + m14, -near, d);
    CancelFactor(m10 * -far + m14, far, d);
  }

  lemma CancelFactor(x: real, y: real, d: real)
    requires d != 0.0 && x * d == y * d
    ensures x == y
  {
    assert (x - y) * d == 0.0;
  }

  /** The view matrix takes the eye to the origin. */
  lemma ViewMatrixMovesEyeToOrigin(x: Vec3, y: Vec3, z: Vec3, eye: Vec3)
    ensures Transform(ViewMatrix(x, y, z, eye), eye) == Origin
  {
  }

  /** u x w is perpendicular to both u and w. */
  lemma CrossPerpendicular(u: Vec3, w: Vec3)
    ensures u.Cross(w).Dot(w) == 0.0 && u.Cross(w).Dot(u) == 0.0
  {
  }

  /** lookAt's matrix puts `center` straight ahead of the camera, on the
      negative view axis at distance |eye - center|. */
  lemma LookAtFacesCenter(eye: Vec3, center: Vec3, up: Vec3, m: HostMath)
    requires Lawful(m) && LookAtDefined(eye, center, up, m)
    ensures Transform(LookAtMatrix(eye, center, up, m), center)
         == Vec3(0.0, 0.0, -m.Sqrt(eye.Minus(center).NormSquared()))
  {
    var d := eye.Minus(center);
    var zLen := m.Sqrt(d.NormSquared());
    var z := LookAtForward(eye, center, up, m);
    var x := LookAtRight(eye, center, up, m);
    var w := up.Cross(z);
    var xLen := m.Sqrt(w.NormSquared());
    assert z == d.Div(zLen) && x == w.Div(xLen);
    assert center == eye.Minus(d);
    ViewAt(x, z.Cross(x), z, eye, d);
    // d = zLen z, so x . d and y . d vanish with x . z and y . z.
    DivBack(d, zLen);
    CrossPerpendicular(up, z);
    DotScale(w, z, zLen);
    DotDiv(w, d, xLen);
    CrossPerpendicular(z, x);
    DotScale(z.Cross(x), z, zLen);
    // z . d = (d . d) / zLen = zLen.
    DotDiv(d, d, zLen);
    assert d.NormSquared() >= 0.0;
    Root(m, d.NormSquared());
    assert zLen * zLen == d.NormSquared() == d.Dot(d);
    SquareOverSelf(zLen);
  }

  /** The view of eye - d is minus the coordinates of d in the basis. */
  lemma ViewAt(x: Vec3, y: Vec3, z: Vec3, eye: Vec3, d: Vec3)
    ensures Transform(ViewMatrix(x, y, z, eye), eye.Minus(d)) == Vec3(-x.Dot(d), -y.Dot(d), -z.Dot(d))
  {
  }

  lemma DivBack(d: Vec3, len: real)
    requires len != 0.0
    ensures d.Div(len).Scale(len) == d
  {
  }

  lemma DotScale(u: Vec3, z: Vec3, k: real)
    ensures u.Dot(z.Scale(k)) == k * u.Dot(z)
  {
  }

  lemma DotDiv(w: Vec3, z: Vec3, k: real)
    requires k != 0.0
    ensures w.Div(k).Dot(z) == w.Dot(z) / k
  {
  }

  lemma SquareOverSelf(l: real)
    requires l != 0.0
    ensures (l * l) / l == l
  {
  }
}
