/** The linear-algebra kernel of the rasteriser and its inclusive interpolation
    (src/math.rs), with `f32` arithmetic taken as exact `real` arithmetic. */
module Math {
  import opened Numeric

  /** A point in model or world space (`Vertex::new` is the constructor). */
  datatype Vertex = Vertex(x: real, y: real, z: real)

  /** A point on the canvas: integer pixel coordinates and a shading factor `h`. */
  datatype Point2 = Point2(x: int, y: int, h: real)

  /** `Point2::xyh`: a point with an explicit shading factor. */
  function XYH(x: int, y: int, h: real): (p: Point2)
    ensures p.x == x && p.y == y && p.h == h
  {
    Point2(x, y, h)
  }

  /** `Point2::xy`: a point with the default full-intensity shading factor. */
  function XY(x: int, y: int): (p: Point2)
    ensures p == XYH(x, y, 1.0)
  {
    Point2(x, y, 1.0)
  }

  /** A homogeneous 4-vector. */
  datatype Vector4 = Vector4(x: real, y: real, z: real, w: real)

  /** An `[f32; 4]`: one column of a matrix, its four entries by row. */
  datatype Array4 = Array4(e0: real, e1: real, e2: real, e3: real)

  /** `From<Vector4> for [f32; 4]`. */
  function ToArray(v: Vector4): Array4
  {
    Array4(v.x, v.y, v.z, v.w)
  }

  /** `From<[f32; 4]> for Vector4`. */
  function FromArray(a: Array4): Vector4
  {
    Vector4(a.e0, a.e1, a.e2, a.e3)
  }

  /** The two conversions are inverse to each other. */
  lemma ArrayConversionsRoundTrip(v: Vector4, a: Array4)
    ensures FromArray(ToArray(v)) == v
    ensures ToArray(FromArray(a)) == a
  {
  }

  /** A 4x4 matrix stored as its four columns. */
  datatype Matrix4 = Matrix4(x: Array4, y: Array4, z: Array4, w: Array4)

  /** The unit vectors along each axis; their images under a matrix are its columns. */
  const E0: Vector4 := Vector4(1.0, 0.0, 0.0, 0.0)
  const E1: Vector4 := Vector4(0.0, 1.0, 0.0, 0.0)
  const E2: Vector4 := Vector4(0.0, 0.0, 1.0, 0.0)
  const E3: Vector4 := Vector4(0.0, 0.0, 0.0, 1.0)

  /** `Matrix4::mul_v`: entry `i` of the result sums entry `i` of each column times the
      matching component of `v`. */
  function MulV(m: Matrix4, v: Vector4): Vector4
  {
    Vector4(
      m.x.e0 * v.x + m.y.e0 * v.y + m.z.e0 * v.z + m.w.e0 * v.w,
      m.x.e1 * v.x + m.y.e1 * v.y + m.z.e1 * v.z + m.w.e1 * v.w,
      m.x.e2 * v.x + m.y.e2 * v.y + m.z.e2 * v.z + m.w.e2 * v.w,
      m.x.e3 * v.x + m.y.e3 * v.y + m.z.e3 * v.z + m.w.e3 * v.w)
  }

  /** `Matrix4::from_cols`: the matrix that sends the unit vectors to the given columns. */
  function FromCols(x: Vector4, y: Vector4, z: Vector4, w: Vector4): (m: Matrix4)
    ensures MulV(m, E0) == x && MulV(m, E1) == y && MulV(m, E2) == z && MulV(m, E3) == w
  {
    Matrix4(ToArray(x), ToArray(y), ToArray(z), ToArray(w))
  }

  /** `Matrix4::from_scale`: the diagonal matrix `(s, s, s, 1)`. */
  function FromScale(s: real): Matrix4
  {
    Matrix4(Array4(s, 0.0, 0.0, 0.0), Array4(0.0, s, 0.0, 0.0), Array4(0.0, 0.0, s, 0.0), Array4(0.0, 0.0, 0.0, 1.0))
  }

  /** `Matrix4::from_translation`: the identity with the translation in the w column. */
  function FromTranslation(t: Vertex): Matrix4
  {
    Matrix4(Array4(1.0, 0.0, 0.0, 0.0), Array4(0.0, 1.0, 0.0, 0.0), Array4(0.0, 0.0, 1.0, 0.0), Array4(t.x, t.y, t.z, 1.0))
  }

  /** `Matrix4::from_rotation_z` with `c` and `s` standing for the cosine and sine of the angle.
      The columns are laid out as in the source: the x column holds `(c, -s)`. */
  function FromRotationZ(c: real, s: real): Matrix4
  {
    Matrix4(Array4(c, -s, 0.0, 0.0), Array4(s, c, 0.0, 0.0), Array4(0.0, 0.0, 1.0, 0.0), Array4(0.0, 0.0, 0.0, 1.0))
  }

  /** `Matrix4::zero`: sends every vector to zero. */
  function Zero(): (m: Matrix4)
    ensures forall v :: MulV(m, v) == Vector4(0.0, 0.0, 0.0, 0.0)
  {
    Matrix4(Array4(0.0, 0.0, 0.0, 0.0), Array4(0.0, 0.0, 0.0, 0.0), Array4(0.0, 0.0, 0.0, 0.0), Array4(0.0, 0.0, 0.0, 0.0))
  }

  /** `Matrix4::identity`: leaves every vector unchanged. */
  function Identity(): (m: Matrix4)
    ensures forall v :: MulV(m, v) == v
  {
    Matrix4(Array4(1.0, 0.0, 0.0, 0.0), Array4(0.0, 1.0, 0.0, 0.0), Array4(0.0, 0.0, 1.0, 0.0), Array4(0.0, 0.0, 0.0, 1.0))
  }

  /** `Matrix4::mul_m`: column `j` of the product is `a` applied to column `j` of `b`. */
  function MulM(a: Matrix4, b: Matrix4): Matrix4
  {
    FromCols(MulV(a, FromArray(b.x)), MulV(a, FromArray(b.y)), MulV(a, FromArray(b.z)), MulV(a, FromArray(b.w)))
  }

  /** `from_scale(s)` scales x, y and z by `s` and keeps w. */
  lemma ScaleAction(s: real, v: Vector4)
    ensures MulV(FromScale(s), v) == Vector4(s * v.x, s * v.y, s * v.z, v.w)
  {
  }

  /** `from_translation(t)` adds `w` times the translation to x, y and z. */
  lemma TranslationAction(t: Vertex, v: Vector4)
    ensures MulV(FromTranslation(t), v) == Vector4(v.x + t.x * v.w, v.y + t.y * v.w, v.z + t.z * v.w, v.w)
  {
  }

  /** `from_rotation_z(c, s)` turns the xy plane and keeps z and w. */
  lemma RotationZAction(c: real, s: real, v: Vector4)
    ensures MulV(FromRotationZ(c, s), v) == Vector4(c * v.x + s * v.y, c * v.y - s * v.x, v.z, v.w)
  {
  }

  /** One entry of `(a * b) * v` equals the same entry of `a * (b * v)`: `q` is a row of `a`,
      `bjk` the entry `k` of column `j` of `b`, `m` the row of `a * b` and `n` the vector `b * v`. */
  lemma ProductRow(q0: real, q1: real, q2: real, q3: real,
                   b00: real, b01: real, b02: real, b03: real, b10: real, b11: real, b12: real, b13: real,
                   b20: real, b21: real, b22: real, b23: real, b30: real, b31: real, b32: real, b33: real,
                   v0: real, v1: real, v2: real, v3: real,
                   m0: real, m1: real, m2: real, m3: real, n0: real, n1: real, n2: real, n3: real)
    requires m0 == q0 * b00 + q1 * b01 + q2 * b02 + q3 * b03
    requires m1 == q0 * b10 + q1 * b11 + q2 * b12 + q3 * b13
    requires m2 == q0 * b20 + q1 * b21 + q2 * b22 + q3 * b23
    requires m3 == q0 * b30 + q1 * b31 + q2 * b32 + q3 * b33
    requires n0 == b00 * v0 + b10 * v1 + b20 * v2 + b30 * v3
    requires n1 == b01 * v0 + b11 * v1 + b21 * v2 + b31 * v3
    requires n2 == b02 * v0 + b12 * v1 + b22 * v2 + b32 * v3
    requires n3 == b03 * v0 + b13 * v1 + b23 * v2 + b33 * v3
    ensures m0 * v0 + m1 * v1 + m2 * v2 + m3 * v3 == q0 * n0 + q1 * n1 + q2 * n2 + q3 * n3
  {
    calc {
      m0 * v0 + m1 * v1 + m2 * v2 + m3 * v3;
      (q0 * b00 + q1 * b01 + q2 * b02 + q3 * b03) * v0 + (q0 * b10 + q1 * b11 + q2 * b12 + q3 * b13) * v1
        + (q0 * b20 + q1 * b21 + q2 * b22 + q3 * b23) * v2 + (q0 * b30 + q1 * b31 + q2 * b32 + q3 * b33) * v3;
      q0 * (b00 * v0 + b10 * v1 + b20 * v2 + b30 * v3) + q1 * (b01 * v0 + b11 * v1 + b21 * v2 + b31 * v3)
        + q2 * (b02 * v0 + b12 * v1 + b22 * v2 + b32 * v3) + q3 * (b03 * v0 + b13 * v1 + b23 * v2 + b33 * v3);
      q0 * n0 + q1 * n1 + q2 * n2 + q3 * n3;
    }
  }

  /** The x entry of the composition law below. */
  lemma MulMComposesX(a: Matrix4, b: Matrix4, v: Vector4)
    ensures MulV(MulM(a, b), v).x == MulV(a, MulV(b, v)).x
  {
    var m, n := MulM(a, b), MulV(b, v);
    ProductRow(a.x.e0, a.y.e0, a.z.e0, a.w.e0,
               b.x.e0, b.x.e1, b.x.e2, b.x.e3, b.y.e0, b.y.e1, b.y.e2, b.y.e3, b.z.e0, b.z.e1, b.z.e2, b.z.e3, b.w.e0, b.w.e1, b.w.e2, b.w.e3,
               v.x, v.y, v.z, v.w, m.x.e0, m.y.e0, m.z.e0, m.w.e0, n.x, n.y, n.z, n.w);
  }

  /** The y entry of the composition law below. */
  lemma MulMComposesY(a: Matrix4, b: Matrix4, v: Vector4)
    ensures MulV(MulM(a, b), v).y == MulV(a, MulV(b, v)).y
  {
    var m, n := MulM(a, b), MulV(b, v);
    ProductRow(a.x.e1, a.y.e1, a.z.e1, a.w.e1,
               b.x.e0, b.x.e1, b.x.e2, b.x.e3, b.y.e0, b.y.e1, b.y.e2, b.y.e3, b.z.e0, b.z.e1, b.z.e2, b.z.e3, b.w.e0, b.w.e1, b.w.e2, b.w.e3,
               v.x, v.y, v.z, v.w, m.x.e1, m.y.e1, m.z.e1, m.w.e1, n.x, n.y, n.z, n.w);
  }

  /** The z entry of the composition law below. */
  lemma MulMComposesZ(a: Matrix4, b: Matrix4, v: Vector4)
    ensures MulV(MulM(a, b), v).z == MulV(a, MulV(b, v)).z
  {
    var m, n := MulM(a, b), MulV(b, v);
    ProductRow(a.x.e2, a.y.e2, a.z.e2, a.w.e2,
               b.x.e0, b.x.e1, b.x.e2, b.x.e3, b.y.e0, b.y.e1, b.y.e2, b.y.e3, b.z.e0, b.z.e1, b.z.e2, b.z.e3, b.w.e0, b.w.e1, b.w.e2, b.w.e3,
               v.x, v.y, v.z, v.w, m.x.e2, m.y.e2, m.z.e2, m.w.e2, n.x, n.y, n.z, n.w);
  }

  /** The w entry of the composition law below. */
  lemma MulMComposesW(a: Matrix4, b: Matrix4, v: Vector4)
    ensures MulV(MulM(a, b), v).w == MulV(a, MulV(b, v)).w
  {
    var m, n := MulM(a, b), MulV(b, v);
    ProductRow(a.x.e3, a.y.e3, a.z.e3, a.w.e3,
               b.x.e0, b.x.e1, b.x.e2, b.x.e3, b.y.e0, b.y.e1, b.y.e2, b.y.e3, b.z.e0, b.z.e1, b.z.e2, b.z.e3, b.w.e0, b.w.e1, b.w.e2, b.w.e3,
               v.x, v.y, v.z, v.w, m.x.e3, m.y.e3, m.z.e3, m.w.e3, n.x, n.y, n.z, n.w);
  }

  /** Multiplying by `a.mul_m(b)` is multiplying by `b`, then by `a`. */
  lemma MulMComposes(a: Matrix4, b: Matrix4, v: Vector4)
    ensures MulV(MulM(a, b), v) == MulV(a, MulV(b, v))
  {
    MulMComposesX(a, b, v);
    MulMComposesY(a, b, v);
    MulMComposesZ(a, b, v);
    MulMComposesW(a, b, v);
  }

  /** The image of a unit vector is the matching column. */
  lemma ColumnOfMatrix(m: Matrix4)
    ensures ToArray(MulV(m, E0)) == m.x && ToArray(MulV(m, E1)) == m.y
    ensures ToArray(MulV(m, E2)) == m.z && ToArray(MulV(m, E3)) == m.w
  {
  }

  /** Two matrices that agree on the four unit vectors are equal. */
  lemma MatrixExtensionality(a: Matrix4, b: Matrix4)
    requires MulV(a, E0) == MulV(b, E0) && MulV(a, E1) == MulV(b, E1)
    requires MulV(a, E2) == MulV(b, E2) && MulV(a, E3) == MulV(b, E3)
    ensures a == b
  {
    ColumnOfMatrix(a);
    ColumnOfMatrix(b);
  }

  /** Matrix multiplication is associative. */
  lemma MulMAssociative(a: Matrix4, b: Matrix4, c: Matrix4)
    ensures MulM(MulM(a, b), c) == MulM(a, MulM(b, c))
  {
    forall e | e in {E0, E1, E2, E3}
      ensures MulV(MulM(MulM(a, b), c), e) == MulV(MulM(a, MulM(b, c)), e)
    {
      MulMComposes(MulM(a, b), c, e);
      MulMComposes(a, b, MulV(c, e));
      MulMComposes(a, MulM(b, c), e);
      MulMComposes(b, c, e);
    }
    MatrixExtensionality(MulM(MulM(a, b), c), MulM(a, MulM(b, c)));
  }

  /** The identity is neutral on both sides of `mul_m`. */
  lemma IdentityNeutral(m: Matrix4)
    ensures MulM(Identity(), m) == m && MulM(m, Identity()) == m
  {
    forall e | e in {E0, E1, E2, E3}
      ensures MulV(MulM(Identity(), m), e) == MulV(m, e) && MulV(MulM(m, Identity()), e) == MulV(m, e)
    {
      MulMComposes(Identity(), m, e);
      MulMComposes(m, Identity(), e);
    }
    MatrixExtensionality(MulM(Identity(), m), m);
    MatrixExtensionality(MulM(m, Identity()), m);
  }

  /** A translation moves a point (w = 1) by the translation vector; the origin lands on it. */
  lemma TranslationMovesPoint(t: Vertex, x: real, y: real, z: real)
    ensures MulV(FromTranslation(t), Vector4(x, y, z, 1.0)) == Vector4(x + t.x, y + t.y, z + t.z, 1.0)
    ensures MulV(FromTranslation(t), Vector4(0.0, 0.0, 0.0, 1.0)) == Vector4(t.x, t.y, t.z, 1.0)
  {
  }

  /** The matrix whose columns are the four unit vectors is the identity. */
  lemma UnitColumnsAreIdentity()
    ensures FromCols(E0, E1, E2, E3) == Identity()
  {
  }

  /** `from_translation(t)` sends the columns of `from_translation(-t)` to the unit vectors. */
  lemma TranslationUndoesColumns(t: Vertex)
    ensures MulV(FromTranslation(t), E0) == E0 && MulV(FromTranslation(t), E1) == E1
    ensures MulV(FromTranslation(t), E2) == E2
    ensures MulV(FromTranslation(t), Vector4(-t.x, -t.y, -t.z, 1.0)) == E3
  {
  }

  /** Translating by `t` and then by `-t` is the identity. */
  lemma TranslationInverse(t: Vertex)
    ensures MulM(FromTranslation(t), FromTranslation(Vertex(-t.x, -t.y, -t.z))) == Identity()
  {
    var b := FromTranslation(Vertex(-t.x, -t.y, -t.z));
    assert FromArray(b.x) == E0 && FromArray(b.y) == E1 && FromArray(b.z) == E2;
    assert FromArray(b.w) == Vector4(-t.x, -t.y, -t.z, 1.0);
    TranslationUndoesColumns(t);
    UnitColumnsAreIdentity();
  }

  /** One entry of a matrix-vector product whose vector lies in the xy plane. */
  lemma RowInPlane(m0: real, m1: real, m2: real, m3: real, v0: real, v1: real, v2: real, v3: real,
                   r: real, p: real, q: real, x: real, y: real)
    requires r == m0 * v0 + m1 * v1 + m2 * v2 + m3 * v3
    requires m0 == p && m1 == q && v0 == x && v1 == y && v2 == 0.0 && v3 == 0.0
    ensures r == p * x + q * y
  {
  }

  /** A matrix with the x and y columns of a z-rotation, applied to a vector in the xy plane. */
  lemma RotationInPlane(m: Matrix4, c: real, s: real, x: real, y: real, rx: real, ry: real)
    requires m.x == Array4(c, -s, 0.0, 0.0) && m.y == Array4(s, c, 0.0, 0.0)
    requires rx == c * x + s * y && ry == -s * x + c * y
    ensures MulV(m, Vector4(x, y, 0.0, 0.0)) == Vector4(rx, ry, 0.0, 0.0)
  {
    var v := Vector4(x, y, 0.0, 0.0);
    var r := MulV(m, v);
    RowInPlane(m.x.e0, m.y.e0, m.z.e0, m.w.e0, v.x, v.y, v.z, v.w, r.x, c, s, x, y);
    RowInPlane(m.x.e1, m.y.e1, m.z.e1, m.w.e1, v.x, v.y, v.z, v.w, r.y, -s, c, x, y);
  }

  /** The columns of the rotation by `(c, -s)`. */
  lemma InverseRotationColumns(c: real, s: real)
    ensures FromArray(FromRotationZ(c, -s).x) == Vector4(c, s, 0.0, 0.0)
    ensures FromArray(FromRotationZ(c, -s).y) == Vector4(-s, c, 0.0, 0.0)
    ensures FromArray(FromRotationZ(c, -s).z) == E2 && FromArray(FromRotationZ(c, -s).w) == E3
  {
  }

  /** The products that make a rotation by `(c, s)` undo one by `(c, -s)`. */
  lemma UnitCircle(c: real, s: real)
    requires c * c + s * s == 1.0
    ensures -s * c + c * s == 0.0
    ensures c * -s + s * c == 0.0 && -s * -s + c * c == 1.0
  {
  }

  /** The rotation by `(c, s)` sends the x column of the rotation by `(c, -s)` back to `E0`. */
  lemma RotationUndoesX(c: real, s: real)
    requires c * c + s * s == 1.0
    ensures MulV(FromRotationZ(c, s), FromArray(FromRotationZ(c, -s).x)) == E0
  {
    InverseRotationColumns(c, s);
    RotationInPlane(FromRotationZ(c, s), c, s, c, s, 1.0, 0.0);
  }

  /** The rotation by `(c, s)` sends the y column of the rotation by `(c, -s)` back to `E1`. */
  lemma RotationUndoesY(c: real, s: real)
    requires c * c + s * s == 1.0
    ensures MulV(FromRotationZ(c, s), FromArray(FromRotationZ(c, -s).y)) == E1
  {
    InverseRotationColumns(c, s);
    RotationInPlane(FromRotationZ(c, s), c, s, -s, c, 0.0, 1.0);
  }

  /** Rotating by the angle with cosine `c` and sine `s`, then by its negation (cosine `c`,
      sine `-s`), is the identity when `c*c + s*s == 1`. */
  lemma RotationZInverse(c: real, s: real)
    requires c * c + s * s == 1.0
    ensures MulM(FromRotationZ(c, s), FromRotationZ(c, -s)) == Identity()
  {
    InverseRotationColumns(c, s);
    UnitCircle(c, s);
    RotationUndoesX(c, s);
    RotationUndoesY(c, s);
    assert MulV(FromRotationZ(c, s), E2) == E2 && MulV(FromRotationZ(c, s), E3) == E3;
    UnitColumnsAreIdentity();
  }

  /** Both coordinates rotated as `from_rotation_z` does keep the sum of their squares. */
  lemma RotatedSquares(c: real, s: real, x: real, y: real, rx: real, ry: real)
    requires c * c + s * s == 1.0
    requires rx == c * x + s * y && ry == c * y - s * x
    ensures rx * rx + ry * ry == x * x + y * y
  {
    assert rx * rx + ry * ry == (c * c + s * s) * (x * x + y * y);
  }

  /** A z-rotation keeps the distance of a point from the z axis. */
  lemma RotationZPreservesLength(c: real, s: real, v: Vector4)
    requires c * c + s * s == 1.0
    ensures MulV(FromRotationZ(c, s), v).x * MulV(FromRotationZ(c, s), v).x
          + MulV(FromRotationZ(c, s), v).y * MulV(FromRotationZ(c, s), v).y
         == v.x * v.x + v.y * v.y
  {
    RotationZAction(c, s, v);
    RotatedSquares(c, s, v.x, v.y, MulV(FromRotationZ(c, s), v).x, MulV(FromRotationZ(c, s), v).y);
  }

  /** An instance transform with a scale, a rotation angle and a translation. */
  datatype Transform = Transform(scale: real, rotation: real, translation: Vertex)

  /** `Transform::apply`: in the source this ignores the transform and returns the vertex. */
  function Apply(t: Transform, vertex: Vertex): (r: Vertex)
    ensures r == vertex
  {
    vertex
  }

  /** The values pushed by a loop that starts with `d`, and `n` times pushes it and adds `step`. */
  function Ramp(d: real, step: real, n: nat): (r: seq<real>)
    ensures |r| == n
    decreases n
  {
    if n == 0 then [] else [d] + Ramp(d + step, step, n - 1)
  }

  /** Element `k` of a ramp is the start plus `k` steps. */
  lemma {:induction false} RampAt(d: real, step: real, n: nat, k: nat)
    requires k < n
    ensures Ramp(d, step, n)[k] == d + k as real * step
    decreases n
  {
    if k > 0 {
      RampAt(d + step, step, n - 1, k - 1);
    }
  }

  /** A shorter ramp is a prefix of a longer one. */
  lemma {:induction false} RampPrefix(d: real, step: real, n: nat, m: nat)
    requires m <= n
    ensures Ramp(d, step, n)[..m] == Ramp(d, step, m)
    decreases n
  {
    if m > 0 {
      RampPrefix(d + step, step, n - 1, m - 1);
      assert Ramp(d, step, n)[..m] == [d] + Ramp(d + step, step, n - 1)[..m - 1];
    }
  }

  /** The constant step `a = (d1 - d0) / (i1 - i0)`. */
  function Slope(i0: int, d0: real, i1: int, d1: real): real
    requires i0 != i1
  {
    (d1 - d0) / (i1 as real - i0 as real)
  }

  /** What src/math.rs `interpolate` returns: `[d0]` for an empty span, otherwise one value
      per integer of the inclusive range `i0..=i1`. */
  function Interpolation(i0: int, d0: real, i1: int, d1: real): (r: seq<real>)
    ensures |r| == if i0 == i1 then 1 else if i0 < i1 then i1 - i0 + 1 else 0
  {
    if i0 == i1 then [d0] else Ramp(d0, Slope(i0, d0, i1, d1), Span(i0, i1 + 1))
  }

  /** src/math.rs `interpolate`: pushes `d` and adds the slope once per value of `i0..i1 + 1`. */
  method Interpolate(i0: int, d0: real, i1: int, d1: real) returns (values: seq<real>)
    ensures values == Interpolation(i0, d0, i1, d1)
  {
    if i0 == i1 {
      return [d0];
    }
    values := [];
    var a := (d1 - d0) / (i1 as real - i0 as real);
    var d := d0;
    var i := i0;
    while i < i1 + 1
      invariant values + Ramp(d, a, Span(i, i1 + 1)) == Ramp(d0, a, Span(i0, i1 + 1))
    {
      assert Ramp(d, a, Span(i, i1 + 1)) == [d] + Ramp(d + a, a, Span(i + 1, i1 + 1));
      values := values + [d];
      d := d + a;
      i := i + 1;
    }
  }

  /** Walking the slope across the whole span lands on the end value. */
  lemma SlopeReachesEnd(d0: real, d1: real, n: real, a: real, last: real)
    requires n != 0.0 && a == (d1 - d0) / n && last == d0 + n * a
    ensures last == d1
  {
  }

  /** Element `k` is `d0 + k*a`: the first is `d0` and, when `i0 < i1`, the last is `d1`
      (when `i0 == i1` the single value is `d0`, whatever `d1` is). */
  lemma InterpolationValues(i0: int, d0: real, i1: int, d1: real)
    ensures i0 != i1 ==> forall k :: 0 <= k < |Interpolation(i0, d0, i1, d1)| ==>
      Interpolation(i0, d0, i1, d1)[k] == d0 + k as real * Slope(i0, d0, i1, d1)
    ensures i0 <= i1 ==> Interpolation(i0, d0, i1, d1)[0] == d0
    ensures i0 < i1 ==> Interpolation(i0, d0, i1, d1)[i1 - i0] == d1
  {
    var r := Interpolation(i0, d0, i1, d1);
    if i0 != i1 {
      var a := Slope(i0, d0, i1, d1);
      forall k | 0 <= k < |r| ensures r[k] == d0 + k as real * a {
        RampAt(d0, a, |r|, k);
      }
      if i0 < i1 {
        assert r[i1 - i0] == d0 + (i1 - i0) as real * a;
        SlopeReachesEnd(d0, d1, (i1 - i0) as real, a, r[i1 - i0]);
      }
    }
  }

  /** A positive span gives a slope with the sign of `d1 - d0`. */
  lemma SlopeSign(d0: real, d1: real, n: real, a: real)
    requires 0.0 < n && a == (d1 - d0) / n
    ensures d0 <= d1 ==> 0.0 <= a
    ensures d1 <= d0 ==> a <= 0.0
  {
  }

  /** Along a ramp with a non-negative step the values rise; with a non-positive one they fall. */
  lemma RampOrder(d: real, a: real, j: real, k: real, rj: real, rk: real)
    requires j <= k && rj == d + j * a && rk == d + k * a
    ensures 0.0 <= a ==> rj <= rk
    ensures a <= 0.0 ==> rk <= rj
  {
    if 0.0 <= a {
      ProductNonNegative(k - j, a);
    }
    if a <= 0.0 {
      ProductNonNegative(k - j, -a);
    }
  }

  /** A ramp with a non-negative step rises; one with a non-positive step falls. */
  lemma RampMonotone(d: real, a: real, n: nat, j: nat, k: nat)
    requires j <= k < n
    ensures 0.0 <= a ==> Ramp(d, a, n)[j] <= Ramp(d, a, n)[k]
    ensures a <= 0.0 ==> Ramp(d, a, n)[k] <= Ramp(d, a, n)[j]
  {
    RampAt(d, a, n, j);
    RampAt(d, a, n, k);
    RampOrder(d, a, j as real, k as real, Ramp(d, a, n)[j], Ramp(d, a, n)[k]);
  }

  /** A product of two non-negative reals is non-negative. */
  lemma ProductNonNegative(p: real, q: real)
    requires 0.0 <= p && 0.0 <= q
    ensures 0.0 <= p * q
  {
  }

  /** The values rise from `d0` towards `d1` when `d0 <= d1` and fall when `d1 <= d0`. */
  lemma InterpolationMonotone(i0: int, d0: real, i1: int, d1: real, j: nat, k: nat)
    requires j <= k < |Interpolation(i0, d0, i1, d1)|
    ensures d0 <= d1 ==> Interpolation(i0, d0, i1, d1)[j] <= Interpolation(i0, d0, i1, d1)[k]
    ensures d1 <= d0 ==> Interpolation(i0, d0, i1, d1)[k] <= Interpolation(i0, d0, i1, d1)[j]
  {
    if i0 != i1 {
      var a := Slope(i0, d0, i1, d1);
      SlopeSign(d0, d1, (i1 - i0) as real, a);
      RampMonotone(d0, a, Span(i0, i1 + 1), j, k);
    }
  }

  /** Every value lies between `d0` and `d1`. */
  lemma InterpolationBetween(i0: int, d0: real, i1: int, d1: real, k: nat)
    requires k < |Interpolation(i0, d0, i1, d1)|
    ensures var v := Interpolation(i0, d0, i1, d1)[k];
      (d0 <= v <= d1) || (d1 <= v <= d0)
  {
    if i0 != i1 {
      InterpolationValues(i0, d0, i1, d1);
      InterpolationMonotone(i0, d0, i1, d1, 0, k);
      InterpolationMonotone(i0, d0, i1, d1, k, i1 - i0);
    }
  }
}
