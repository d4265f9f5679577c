/**
  The algebra behind a geometrical transformation of scuff-EM:
  a record (3x3 matrix M, displacement DX, two type flags) that stands for
  the affine map x |-> M*x + DX.

  Vectors and matrices are values here; the fixed three-trip loops of the
  C code that form matrix-vector and matrix-matrix products are their
  closed forms.  The rotation matrix itself (built with sqrt, sin and cos)
  is never computed: it is an input, and where a property needs it to be a
  rotation the lemma asks for an orthogonal matrix.
*/
module Affine {

  datatype Vec3 = Vec3(x: real, y: real, z: real)

  /** A 3x3 matrix given by its three rows. */
  datatype Mat3 = Mat3(r0: Vec3, r1: Vec3, r2: Vec3)

  function Zero(): Vec3 { Vec3(0.0, 0.0, 0.0) }

  function Add(u: Vec3, v: Vec3): Vec3 { Vec3(u.x + v.x, u.y + v.y, u.z + v.z) }

  function Sub(u: Vec3, v: Vec3): Vec3 { Vec3(u.x - v.x, u.y - v.y, u.z - v.z) }

  function Dot(u: Vec3, v: Vec3): real { u.x * v.x + u.y * v.y + u.z * v.z }

  function Identity(): Mat3
  {
    Mat3(Vec3(1.0, 0.0, 0.0), Vec3(0.0, 1.0, 0.0), Vec3(0.0, 0.0, 1.0))
  }

  function Transpose(m: Mat3): Mat3
  {
    Mat3(Vec3(m.r0.x, m.r1.x, m.r2.x),
         Vec3(m.r0.y, m.r1.y, m.r2.y),
         Vec3(m.r0.z, m.r1.z, m.r2.z))
  }

  /** (M*v)[i] = sum over j of M[i][j]*v[j] */
  function MatVec(m: Mat3, v: Vec3): Vec3
  {
    Vec3(Dot(m.r0, v), Dot(m.r1, v), Dot(m.r2, v))
  }

  /** (A*B)[i][j] = sum over k of A[i][k]*B[k][j]; row i of A*B is B^T * (row i of A). */
  function MatMul(a: Mat3, b: Mat3): Mat3
  {
    var bt := Transpose(b);
    Mat3(MatVec(bt, a.r0), MatVec(bt, a.r1), MatVec(bt, a.r2))
  }

  /** M^T * M is the identity: M is a rotation (or a reflection). */
  predicate Orthogonal(m: Mat3)
  {
    MatMul(Transpose(m), m) == Identity()
  }

  lemma MatVecIdentity(v: Vec3)
    ensures MatVec(Identity(), v) == v
  {
  }

  lemma MatVecAdd(m: Mat3, u: Vec3, v: Vec3)
    ensures MatVec(m, Add(u, v)) == Add(MatVec(m, u), MatVec(m, v))
  {
  }

  lemma MatVecSub(m: Mat3, u: Vec3, v: Vec3)
    ensures MatVec(m, Sub(u, v)) == Sub(MatVec(m, u), MatVec(m, v))
  {
  }

  /** Multiplying by A*B is multiplying by B, then by A. */
  lemma MatMulMatVec(a: Mat3, b: Mat3, v: Vec3)
    ensures MatVec(MatMul(a, b), v) == MatVec(a, MatVec(b, v))
  {
    var p := MatMul(a, b);
    var w := MatVec(b, v);
    assert Dot(p.r0, v) == Dot(a.r0, w);
    assert Dot(p.r1, v) == Dot(a.r1, w);
    assert Dot(p.r2, v) == Dot(a.r2, w);
  }

  lemma MatMulAssoc(a: Mat3, b: Mat3, c: Mat3)
    ensures MatMul(MatMul(a, b), c) == MatMul(a, MatMul(b, c))
  {
    var l := MatMul(MatMul(a, b), c);
    var r := MatMul(a, MatMul(b, c));
    // row i of both sides is (row i of a) * B * C
    assert l.r0 == r.r0 by { MatMulMatVecRow(a.r0, b, c); }
    assert l.r1 == r.r1 by { MatMulMatVecRow(a.r1, b, c); }
    assert l.r2 == r.r2 by { MatMulMatVecRow(a.r2, b, c); }
  }

  /** A row vector times B, then times C, is the row vector times B*C. */
  lemma MatMulMatVecRow(row: Vec3, b: Mat3, c: Mat3)
    ensures MatVec(Transpose(c), MatVec(Transpose(b), row)) == MatVec(Transpose(MatMul(b, c)), row)
  {
    var bt := Transpose(b);
    var ct := Transpose(c);
    var bc := MatMul(b, c);
    assert Transpose(bc) == MatMul(ct, bt);
    MatMulMatVec(ct, bt, row);
  }

  lemma MatMulIdentityLeft(m: Mat3)
    ensures MatMul(Identity(), m) == m
  {
  }

  lemma TransposeMatMul(a: Mat3, b: Mat3)
    ensures Transpose(MatMul(a, b)) == MatMul(Transpose(b), Transpose(a))
  {
  }

  /** A product of orthogonal matrices is orthogonal. */
  lemma {:induction false} OrthogonalMatMul(a: Mat3, b: Mat3)
    requires Orthogonal(a) && Orthogonal(b)
    ensures Orthogonal(MatMul(a, b))
  {
    var at, bt := Transpose(a), Transpose(b);
    calc {
      MatMul(Transpose(MatMul(a, b)), MatMul(a, b));
      { TransposeMatMul(a, b); }
      MatMul(MatMul(bt, at), MatMul(a, b));
      { MatMulAssoc(bt, at, MatMul(a, b)); }
      MatMul(bt, MatMul(at, MatMul(a, b)));
      { MatMulAssoc(at, a, b); }
      MatMul(bt, MatMul(MatMul(at, a), b));
      { MatMulIdentityLeft(b); }
      MatMul(bt, b);
      Identity();
    }
  }

  /** An orthogonal M is undone by its transpose. */
  lemma OrthogonalInverse(m: Mat3, v: Vec3)
    requires Orthogonal(m)
    ensures MatVec(Transpose(m), MatVec(m, v)) == v
  {
    MatMulMatVec(Transpose(m), m, v);
    MatVecIdentity(v);
  }
}
