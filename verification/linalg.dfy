/** Exact real linear algebra on row-major matrices: the numeric layer the
    pose container stores its elements in. Matrices are sequences of rows;
    the group layer only ever uses 3x3 and 4x4 square matrices, but the
    products are proved for any size. */
module LinAlg {

  type Vector = seq<real>
  type Matrix = seq<seq<real>>

  /** Every row of `m` has `cols` entries and there are `rows` rows. */
  predicate IsMat(m: Matrix, rows: nat, cols: nat) {
    |m| == rows && forall i | 0 <= i < |m| :: |m[i]| == cols
  }

  /** An n-by-n matrix, n being the number of rows. */
  predicate IsSquare(m: Matrix) {
    IsMat(m, |m|, |m|)
  }

  function Zeros(n: nat): (z: Vector)
    ensures |z| == n
    ensures forall i | 0 <= i < n :: z[i] == 0.0
  {
    seq(n, i => 0.0)
  }

  /** The i-th standard basis vector of length n. */
  function Unit(n: nat, j: nat): (e: Vector)
    ensures |e| == n
    ensures forall i | 0 <= i < n :: e[i] == (if i == j then 1.0 else 0.0)
  {
    seq(n, i => if i == j then 1.0 else 0.0)
  }

  function VAdd(u: Vector, v: Vector): (w: Vector)
    requires |u| == |v|
    ensures |w| == |u|
    ensures forall i | 0 <= i < |w| :: w[i] == u[i] + v[i]
  {
    seq(|u|, i requires 0 <= i < |u| => u[i] + v[i])
  }

  function VScale(c: real, v: Vector): (w: Vector)
    ensures |w| == |v|
    ensures forall i | 0 <= i < |w| :: w[i] == c * v[i]
  {
    seq(|v|, i requires 0 <= i < |v| => c * v[i])
  }

  function VNeg(v: Vector): (w: Vector)
    ensures |w| == |v|
    ensures forall i | 0 <= i < |w| :: w[i] == -v[i]
  {
    seq(|v|, i requires 0 <= i < |v| => -v[i])
  }

  /** Inner product, summed from the front; the last term is peeled off so
      that a vector and its prefix are related by one unfolding. */
  function Dot(u: Vector, v: Vector): real
    requires |u| == |v|
    decreases |u|
  {
    if |u| == 0 then 0.0
    else Dot(u[..|u| - 1], v[..|v| - 1]) + u[|u| - 1] * v[|v| - 1]
  }

  /** Column j of m. */
  function Col(m: Matrix, j: nat): (c: Vector)
    requires forall i | 0 <= i < |m| :: j < |m[i]|
    ensures |c| == |m|
    ensures forall i | 0 <= i < |m| :: c[i] == m[i][j]
  {
    seq(|m|, i requires 0 <= i < |m| => m[i][j])
  }

  /** Matrix times column vector. */
  function MatVec(m: Matrix, v: Vector): (w: Vector)
    requires forall i | 0 <= i < |m| :: |m[i]| == |v|
    ensures |w| == |m|
    ensures forall i | 0 <= i < |m| :: w[i] == Dot(m[i], v)
  {
    seq(|m|, i requires 0 <= i < |m| => Dot(m[i], v))
  }

  /** Row vector times an |u|-by-n matrix. */
  function VecMat(u: Vector, m: Matrix, n: nat): (w: Vector)
    requires IsMat(m, |u|, n)
    ensures |w| == n
    ensures forall j | 0 <= j < n :: w[j] == Dot(u, Col(m, j))
  {
    seq(n, j requires 0 <= j < n => Dot(u, Col(m, j)))
  }

  function Identity(n: nat): (m: Matrix)
    ensures IsSquare(m) && |m| == n
    ensures forall i | 0 <= i < n :: m[i] == Unit(n, i)
  {
    seq(n, i requires 0 <= i < n => Unit(n, i))
  }

  function Transpose(m: Matrix): (t: Matrix)
    requires IsSquare(m)
    ensures IsSquare(t) && |t| == |m|
    ensures forall i, j | 0 <= i < |m| && 0 <= j < |m| :: t[i][j] == m[j][i]
  {
    seq(|m|, i requires 0 <= i < |m| => Col(m, i))
  }

  /** Matrix product of two n-by-n matrices: entry (i, j) is row i of a
      against column j of b. */
  function Mul(a: Matrix, b: Matrix): (c: Matrix)
    requires IsSquare(a) && IsSquare(b) && |a| == |b|
    ensures IsSquare(c) && |c| == |a|
    ensures forall i, j | 0 <= i < |a| && 0 <= j < |a| :: c[i][j] == Dot(a[i], Col(b, j))
  {
    seq(|a|, i requires 0 <= i < |a| => VecMat(a[i], b, |a|))
  }

  /** Entrywise sum of two matrices of the same shape. */
  function MAdd(a: Matrix, b: Matrix): (c: Matrix)
    requires IsSquare(a) && IsSquare(b) && |a| == |b|
    ensures IsSquare(c) && |c| == |a|
    ensures forall i, j | 0 <= i < |a| && 0 <= j < |a| :: c[i][j] == a[i][j] + b[i][j]
  {
    seq(|a|, i requires 0 <= i < |a| => VAdd(a[i], b[i]))
  }

  /** Entrywise difference of two matrices of the same shape. */
  function MSub(a: Matrix, b: Matrix): (c: Matrix)
    requires IsSquare(a) && IsSquare(b) && |a| == |b|
    ensures IsSquare(c) && |c| == |a|
    ensures forall i, j | 0 <= i < |a| && 0 <= j < |a| :: c[i][j] == a[i][j] - b[i][j]
  {
    seq(|a|, i requires 0 <= i < |a| => VAdd(a[i], VNeg(b[i])))
  }

  /** The scalar c added to every entry (not only the diagonal). */
  function MAddScalar(a: Matrix, c: real): (r: Matrix)
    requires IsSquare(a)
    ensures IsSquare(r) && |r| == |a|
    ensures forall i, j | 0 <= i < |a| && 0 <= j < |a| :: r[i][j] == a[i][j] + c
  {
    seq(|a|, i requires 0 <= i < |a| => seq(|a[i]|, j requires 0 <= j < |a[i]| => a[i][j] + c))
  }

  /** Every entry multiplied by c. */
  function MScale(c: real, a: Matrix): (r: Matrix)
    requires IsSquare(a)
    ensures IsSquare(r) && |r| == |a|
    ensures forall i, j | 0 <= i < |a| && 0 <= j < |a| :: r[i][j] == c * a[i][j]
  {
    seq(|a|, i requires 0 <= i < |a| => VScale(c, a[i]))
  }

  /** Determinant of a 3x3 matrix, expanded along the first row. */
  function Det3(m: Matrix): real
    requires IsMat(m, 3, 3)
  {
    D3(m[0][0], m[0][1], m[0][2], m[1][0], m[1][1], m[1][2], m[2][0], m[2][1], m[2][2])
  }

  function D3(a: real, b: real, c: real, d: real, e: real, f: real, g: real, h: real, i: real): real
  {
    a * (e * i - f * h) - b * (d * i - f * g) + c * (d * h - e * g)
  }

  // ---------------------------------------------------------------------
  // Lemmas

  /** Two matrices of the same shape are equal when their entries are. */
  lemma MatrixExt(a: Matrix, b: Matrix)
    requires IsSquare(a) && IsSquare(b) && |a| == |b|
    requires forall i, j | 0 <= i < |a| && 0 <= j < |a| :: a[i][j] == b[i][j]
    ensures a == b
  {
    forall i | 0 <= i < |a|
      ensures a[i] == b[i]
    {
      assert |a[i]| == |b[i]|;
      forall j | 0 <= j < |a[i]|
        ensures a[i][j] == b[i][j]
      {
      }
    }
  }

  /** Entrywise equality of two 3x3 matrices, one entry at a time. */
  lemma Ext3(a: Matrix, b: Matrix)
    requires IsMat(a, 3, 3) && IsMat(b, 3, 3)
    requires a[0][0] == b[0][0] && a[0][1] == b[0][1] && a[0][2] == b[0][2]
    requires a[1][0] == b[1][0] && a[1][1] == b[1][1] && a[1][2] == b[1][2]
    requires a[2][0] == b[2][0] && a[2][1] == b[2][1] && a[2][2] == b[2][2]
    ensures a == b
  {
    assert a[0] == b[0];
    assert a[1] == b[1];
    assert a[2] == b[2];
  }

  /** Entrywise equality of two 4x4 matrices, one entry at a time. */
  lemma Ext4(a: Matrix, b: Matrix)
    requires IsMat(a, 4, 4) && IsMat(b, 4, 4)
    requires a[0][0] == b[0][0] && a[0][1] == b[0][1] && a[0][2] == b[0][2] && a[0][3] == b[0][3]
    requires a[1][0] == b[1][0] && a[1][1] == b[1][1] && a[1][2] == b[1][2] && a[1][3] == b[1][3]
    requires a[2][0] == b[2][0] && a[2][1] == b[2][1] && a[2][2] == b[2][2] && a[2][3] == b[2][3]
    requires a[3][0] == b[3][0] && a[3][1] == b[3][1] && a[3][2] == b[3][2] && a[3][3] == b[3][3]
    ensures a == b
  {
    assert a[0] == b[0];
    assert a[1] == b[1];
    assert a[2] == b[2];
    assert a[3] == b[3];
  }

  lemma DotSnoc(u: Vector, v: Vector, x: real, y: real)
    requires |u| == |v|
    ensures Dot(u + [x], v + [y]) == Dot(u, v) + x * y
  {
    assert (u + [x])[..|u|] == u;
    assert (v + [y])[..|v|] == v;
  }

  /** One unfolding of Dot, as a fact to instantiate. */
  lemma DotUnfold(u: Vector, w: Vector)
    requires |u| == |w| && |u| > 0
    ensures Dot(u, w) == Dot(u[..|u| - 1], w[..|w| - 1]) + u[|u| - 1] * w[|w| - 1]
  {
  }

  lemma {:induction false} DotSymmetric(u: Vector, v: Vector)
    requires |u| == |v|
    ensures Dot(u, v) == Dot(v, u)
  {
    if |u| > 0 {
      DotSymmetric(u[..|u| - 1], v[..|v| - 1]);
    }
  }

  lemma {:induction false} DotZeroLeft(u: Vector)
    ensures Dot(Zeros(|u|), u) == 0.0
  {
    if |u| > 0 {
      assert Zeros(|u|)[..|u| - 1] == Zeros(|u| - 1);
      DotZeroLeft(u[..|u| - 1]);
    }
  }

  /** Dot against a basis vector picks one coordinate. */
  lemma {:induction false} DotUnitRight(u: Vector, j: nat)
    requires j < |u|
    ensures Dot(u, Unit(|u|, j)) == u[j]
  {
    var n := |u|;
    if j == n - 1 {
      assert Unit(n, j)[..n - 1] == Zeros(n - 1);
      DotSymmetric(u[..n - 1], Zeros(n - 1));
      DotZeroLeft(u[..n - 1]);
    } else {
      assert Unit(n, j)[..n - 1] == Unit(n - 1, j);
      DotUnitRight(u[..n - 1], j);
    }
  }

  lemma DotUnitLeft(u: Vector, j: nat)
    requires j < |u|
    ensures Dot(Unit(|u|, j), u) == u[j]
  {
    DotUnitRight(u, j);
    DotSymmetric(u, Unit(|u|, j));
  }

  lemma {:induction false} DotAddLeft(u: Vector, v: Vector, w: Vector)
    requires |u| == |v| == |w|
    ensures Dot(VAdd(u, v), w) == Dot(u, w) + Dot(v, w)
  {
    if |u| > 0 {
      var k := |u| - 1;
      assert VAdd(u, v)[..k] == VAdd(u[..k], v[..k]);
      DotAddLeft(u[..k], v[..k], w[..k]);
    }
  }

  lemma {:induction false} DotScaleLeft(c: real, v: Vector, w: Vector)
    requires |v| == |w|
    ensures Dot(VScale(c, v), w) == c * Dot(v, w)
  {
    if |v| > 0 {
      var k := |v| - 1;
      forall i | 0 <= i < k
        ensures VScale(c, v)[..k][i] == VScale(c, v[..k])[i]
      {
      }
      assert VScale(c, v)[..k] == VScale(c, v[..k]);
      DotScaleLeft(c, v[..k], w[..k]);
    }
  }

  lemma {:induction false} DotNegRight(u: Vector, v: Vector)
    requires |u| == |v|
    ensures Dot(u, VNeg(v)) == -Dot(u, v)
  {
    if |u| > 0 {
      var k := |u| - 1;
      assert VNeg(v)[..k] == VNeg(v[..k]);
      DotNegRight(u[..k], v[..k]);
    }
  }

  lemma DotAddRight(u: Vector, v: Vector, w: Vector)
    requires |u| == |v| == |w|
    ensures Dot(u, VAdd(v, w)) == Dot(u, v) + Dot(u, w)
  {
    DotSymmetric(u, VAdd(v, w));
    DotAddLeft(v, w, u);
    DotSymmetric(u, v);
    DotSymmetric(u, w);
  }

  /** Moving a matrix across an inner product: u . (B v) == (u B) . v.
      This is the exchange of a double sum on which associativity rests. */
  lemma DotMatVec(u: Vector, b: Matrix, v: Vector)
    requires IsMat(b, |u|, |v|)
    ensures Dot(u, MatVec(b, v)) == Dot(VecMat(u, b, |v|), v)
  {
    DotRows(u, b, v, MatVec(b, v));
  }

  /** The exchange, for any w whose entries are the rows of b dotted with v. */
  lemma {:induction false} DotRows(u: Vector, b: Matrix, v: Vector, w: Vector)
    requires IsMat(b, |u|, |v|) && |w| == |u|
    requires forall i | 0 <= i < |w| :: w[i] == Dot(b[i], v)
    ensures Dot(u, w) == Dot(VecMat(u, b, |v|), v)
  {
    var n := |v|;
    if |u| == 0 {
      assert VecMat(u, b, n) == Zeros(n);
      DotZeroLeft(v);
    } else {
      var k := |u| - 1;
      var u', b', w' := u[..k], b[..k], w[..k];
      forall i | 0 <= i < k
        ensures w'[i] == Dot(b'[i], v)
      {
        assert w'[i] == w[i] && b'[i] == b[i];
      }
      var rest := VecMat(u', b', n);
      var last := VScale(u[k], b[k]);
      calc {
        Dot(u, w);
        { DotUnfold(u, w); }
        Dot(u', w') + u[k] * Dot(b[k], v);
        { DotRows(u', b', v, w'); DotScaleLeft(u[k], b[k], v); }
        Dot(rest, v) + Dot(last, v);
        { DotAddLeft(rest, last, v); }
        Dot(VAdd(rest, last), v);
        { VecMatSnoc(u, b, n); }
        Dot(VecMat(u, b, n), v);
      }
    }
  }

  /** Peeling the last row of b off a row-vector product. */
  lemma VecMatSnoc(u: Vector, b: Matrix, n: nat)
    requires IsMat(b, |u|, n) && |u| > 0
    ensures VecMat(u, b, n)
            == VAdd(VecMat(u[..|u| - 1], b[..|u| - 1], n), VScale(u[|u| - 1], b[|u| - 1]))
  {
    var k := |u| - 1;
    var rest := VecMat(u[..k], b[..k], n);
    var last := VScale(u[k], b[k]);
    forall j | 0 <= j < n
      ensures VecMat(u, b, n)[j] == VAdd(rest, last)[j]
    {
      assert Col(b, j)[..k] == Col(b[..k], j);
    }
  }

  lemma ColOfMul(a: Matrix, b: Matrix, j: nat)
    requires IsSquare(a) && IsSquare(b) && |a| == |b| && j < |a|
    ensures Col(Mul(a, b), j) == MatVec(a, Col(b, j))
  {
  }

  /** Matrix multiplication is associative. */
  lemma MulAssoc(a: Matrix, b: Matrix, c: Matrix)
    requires IsSquare(a) && IsSquare(b) && IsSquare(c) && |a| == |b| == |c|
    ensures Mul(Mul(a, b), c) == Mul(a, Mul(b, c))
  {
    var n := |a|;
    forall i, j | 0 <= i < n && 0 <= j < n
      ensures Mul(Mul(a, b), c)[i][j] == Mul(a, Mul(b, c))[i][j]
    {
      assert Mul(a, b)[i] == VecMat(a[i], b, n);
      ColOfMul(b, c, j);
      DotMatVec(a[i], b, Col(c, j));
    }
    MatrixExt(Mul(Mul(a, b), c), Mul(a, Mul(b, c)));
  }

  /** Applying a product to a vector applies the factors in turn. */
  lemma MatVecMul(a: Matrix, b: Matrix, v: Vector)
    requires IsSquare(a) && IsSquare(b) && |a| == |b| == |v|
    ensures MatVec(Mul(a, b), v) == MatVec(a, MatVec(b, v))
  {
    var n := |a|;
    forall i | 0 <= i < n
      ensures MatVec(Mul(a, b), v)[i] == MatVec(a, MatVec(b, v))[i]
    {
      assert Mul(a, b)[i] == VecMat(a[i], b, n);
      DotMatVec(a[i], b, v);
    }
  }

  lemma MulIdentityLeft(a: Matrix)
    requires IsSquare(a)
    ensures Mul(Identity(|a|), a) == a
  {
    var n := |a|;
    forall i, j | 0 <= i < n && 0 <= j < n
      ensures Mul(Identity(n), a)[i][j] == a[i][j]
    {
      DotUnitLeft(Col(a, j), i);
    }
    MatrixExt(Mul(Identity(n), a), a);
  }

  lemma MulIdentityRight(a: Matrix)
    requires IsSquare(a)
    ensures Mul(a, Identity(|a|)) == a
  {
    var n := |a|;
    forall i, j | 0 <= i < n && 0 <= j < n
      ensures Mul(a, Identity(n))[i][j] == a[i][j]
    {
      assert Col(Identity(n), j) == Unit(n, j);
      DotUnitRight(a[i], j);
    }
    MatrixExt(Mul(a, Identity(n)), a);
  }

  lemma MatVecIdentity(v: Vector)
    ensures MatVec(Identity(|v|), v) == v
  {
    forall i | 0 <= i < |v|
      ensures MatVec(Identity(|v|), v)[i] == v[i]
    {
      DotUnitLeft(v, i);
    }
  }

  lemma MatVecNeg(a: Matrix, v: Vector)
    requires IsMat(a, |a|, |v|)
    ensures MatVec(a, VNeg(v)) == VNeg(MatVec(a, v))
  {
    forall i | 0 <= i < |a|
      ensures MatVec(a, VNeg(v))[i] == VNeg(MatVec(a, v))[i]
    {
      DotNegRight(a[i], v);
    }
  }

  lemma MatVecAdd(a: Matrix, u: Vector, v: Vector)
    requires |u| == |v| && IsMat(a, |a|, |u|)
    ensures MatVec(a, VAdd(u, v)) == VAdd(MatVec(a, u), MatVec(a, v))
  {
    forall i | 0 <= i < |a|
      ensures MatVec(a, VAdd(u, v))[i] == VAdd(MatVec(a, u), MatVec(a, v))[i]
    {
      DotAddRight(a[i], u, v);
    }
  }

  lemma TransposeTranspose(a: Matrix)
    requires IsSquare(a)
    ensures Transpose(Transpose(a)) == a
  {
    MatrixExt(Transpose(Transpose(a)), a);
  }

  /** (a b)ᵀ == bᵀ aᵀ */
  lemma TransposeMul(a: Matrix, b: Matrix)
    requires IsSquare(a) && IsSquare(b) && |a| == |b|
    ensures Transpose(Mul(a, b)) == Mul(Transpose(b), Transpose(a))
  {
    var n := |a|;
    forall i, j | 0 <= i < n && 0 <= j < n
      ensures Transpose(Mul(a, b))[i][j] == Mul(Transpose(b), Transpose(a))[i][j]
    {
      assert Transpose(b)[i] == Col(b, i);
      assert Col(Transpose(a), j) == a[j];
      DotSymmetric(a[j], Col(b, i));
    }
    MatrixExt(Transpose(Mul(a, b)), Mul(Transpose(b), Transpose(a)));
  }

  lemma DetTranspose(a: Matrix)
    requires IsMat(a, 3, 3)
    ensures Det3(Transpose(a)) == Det3(a)
  {
  }

  /** Scaling a 3x3 matrix by c scales its determinant by c cubed. */
  lemma DetScale(c: real, m: Matrix)
    requires IsMat(m, 3, 3)
    ensures Det3(MScale(c, m)) == c * c * c * Det3(m)
  {
    var s := MScale(c, m);
    var a11, a12, a13 := m[0][0], m[0][1], m[0][2];
    var a21, a22, a23 := m[1][0], m[1][1], m[1][2];
    var a31, a32, a33 := m[2][0], m[2][1], m[2][2];
    assert Det3(s) == D3(c * a11, c * a12, c * a13, c * a21, c * a22, c * a23, c * a31, c * a32, c * a33);
    D3Scale(c, a11, a12, a13, a21, a22, a23, a31, a32, a33,
            c * a11, c * a12, c * a13, c * a21, c * a22, c * a23, c * a31, c * a32, c * a33);
  }

  /** The polynomial identity behind DetScale: every s entry is c times the
      matching a entry. */
  lemma D3Scale(c: real, a11: real, a12: real, a13: real, a21: real, a22: real, a23: real,
                a31: real, a32: real, a33: real,
                s11: real, s12: real, s13: real, s21: real, s22: real, s23: real,
                s31: real, s32: real, s33: real)
    requires s11 == c * a11 && s12 == c * a12 && s13 == c * a13
    requires s21 == c * a21 && s22 == c * a22 && s23 == c * a23
    requires s31 == c * a31 && s32 == c * a32 && s33 == c * a33
    ensures D3(s11, s12, s13, s21, s22, s23, s31, s32, s33)
            == c * c * c * D3(a11, a12, a13, a21, a22, a23, a31, a32, a33)
  {
  }

  /** det(a b) == det(a) det(b) for 3x3 matrices. */
  lemma DetMul(a: Matrix, b: Matrix)
    requires IsMat(a, 3, 3) && IsMat(b, 3, 3)
    ensures Det3(Mul(a, b)) == Det3(a) * Det3(b)
  {
    var c := Mul(a, b);
    forall i, j | 0 <= i < 3 && 0 <= j < 3
      ensures c[i][j] == a[i][0] * b[0][j] + a[i][1] * b[1][j] + a[i][2] * b[2][j]
    {
      Dot3(a[i], Col(b, j));
    }
    DetMulEntries(a[0][0], a[0][1], a[0][2], a[1][0], a[1][1], a[1][2], a[2][0], a[2][1], a[2][2],
                  b[0][0], b[0][1], b[0][2], b[1][0], b[1][1], b[1][2], b[2][0], b[2][1], b[2][2],
                  c[0][0], c[0][1], c[0][2], c[1][0], c[1][1], c[1][2], c[2][0], c[2][1], c[2][2]);
  }

  /** Entry (i, j) of a 3x3 product written out. */
  function Row3Col(a: Matrix, b: Matrix, i: nat, j: nat): real
    requires IsMat(a, 3, 3) && IsMat(b, 3, 3) && i < 3 && j < 3
  {
    a[i][0] * b[0][j] + a[i][1] * b[1][j] + a[i][2] * b[2][j]
  }

  /** Every 3x3 product written out entry by entry. */
  lemma Mul3(a: Matrix, b: Matrix)
    requires IsMat(a, 3, 3) && IsMat(b, 3, 3)
    ensures Mul(a, b) == [[Row3Col(a, b, 0, 0), Row3Col(a, b, 0, 1), Row3Col(a, b, 0, 2)],
                          [Row3Col(a, b, 1, 0), Row3Col(a, b, 1, 1), Row3Col(a, b, 1, 2)],
                          [Row3Col(a, b, 2, 0), Row3Col(a, b, 2, 1), Row3Col(a, b, 2, 2)]]
  {
    var c := Mul(a, b);
    forall i, j | 0 <= i < 3 && 0 <= j < 3
      ensures c[i][j] == Row3Col(a, b, i, j)
    {
      Dot3(a[i], Col(b, j));
    }
    MatrixExt(c, [[Row3Col(a, b, 0, 0), Row3Col(a, b, 0, 1), Row3Col(a, b, 0, 2)],
                  [Row3Col(a, b, 1, 0), Row3Col(a, b, 1, 1), Row3Col(a, b, 1, 2)],
                  [Row3Col(a, b, 2, 0), Row3Col(a, b, 2, 1), Row3Col(a, b, 2, 2)]]);
  }

  lemma Dot3(u: Vector, v: Vector)
    requires |u| == |v| == 3
    ensures Dot(u, v) == u[0] * v[0] + u[1] * v[1] + u[2] * v[2]
  {
    assert Dot(u[..1], v[..1]) == u[0] * v[0] by {
      assert u[..1][..0] == [] && v[..1][..0] == [];
    }
    assert u[..2][..1] == u[..1] && v[..2][..1] == v[..1];
    assert Dot(u[..2], v[..2]) == u[0] * v[0] + u[1] * v[1];
  }

  /** A 3x3 matrix times a 3-vector, written out. */
  lemma MatVec3(m: Matrix, v: Vector)
    requires IsMat(m, 3, 3) && |v| == 3
    ensures MatVec(m, v) == [m[0][0] * v[0] + m[0][1] * v[1] + m[0][2] * v[2],
                             m[1][0] * v[0] + m[1][1] * v[1] + m[1][2] * v[2],
                             m[2][0] * v[0] + m[2][1] * v[1] + m[2][2] * v[2]]
  {
    Dot3(m[0], v);
    Dot3(m[1], v);
    Dot3(m[2], v);
    var w := MatVec(m, v);
    assert w[0] == Dot(m[0], v) && w[1] == Dot(m[1], v) && w[2] == Dot(m[2], v);
    assert w[0] == m[0][0] * v[0] + m[0][1] * v[1] + m[0][2] * v[2];
    assert w[1] == m[1][0] * v[0] + m[1][1] * v[1] + m[1][2] * v[2];
    assert w[2] == m[2][0] * v[0] + m[2][1] * v[1] + m[2][2] * v[2];
    assert w == [w[0], w[1], w[2]];
  }

  lemma Dot4(u: Vector, v: Vector)
    requires |u| == |v| == 4
    ensures Dot(u, v) == Dot(u[..3], v[..3]) + u[3] * v[3]
  {
  }

  /** The polynomial identity behind DetMul: c is the product of a and b. */
  lemma DetMulEntries(a11: real, a12: real, a13: real, a21: real, a22: real, a23: real,
                      a31: real, a32: real, a33: real,
                      b11: real, b12: real, b13: real, b21: real, b22: real, b23: real,
                      b31: real, b32: real, b33: real,
                      c11: real, c12: real, c13: real, c21: real, c22: real, c23: real,
                      c31: real, c32: real, c33: real)
    requires c11 == a11 * b11 + a12 * b21 + a13 * b31
    requires c12 == a11 * b12 + a12 * b22 + a13 * b32
    requires c13 == a11 * b13 + a12 * b23 + a13 * b33
    requires c21 == a21 * b11 + a22 * b21 + a23 * b31
    requires c22 == a21 * b12 + a22 * b22 + a23 * b32
    requires c23 == a21 * b13 + a22 * b23 + a23 * b33
    requires c31 == a31 * b11 + a32 * b21 + a33 * b31
    requires c32 == a31 * b12 + a32 * b22 + a33 * b32
    requires c33 == a31 * b13 + a32 * b23 + a33 * b33
    ensures D3(c11, c12, c13, c21, c22, c23, c31, c32, c33)
            == D3(a11, a12, a13, a21, a22, a23, a31, a32, a33)
               * D3(b11, b12, b13, b21, b22, b23, b31, b32, b33)
  {
    DetMulExpanded(a11, a12, a13, a21, a22, a23, a31, a32, a33,
                   b11, b12, b13, b21, b22, b23, b31, b32, b33);
  }

  lemma DetMulExpanded(a11: real, a12: real, a13: real, a21: real, a22: real, a23: real,
                       a31: real, a32: real, a33: real,
                       b11: real, b12: real, b13: real, b21: real, b22: real, b23: real,
                       b31: real, b32: real, b33: real)
    ensures D3(a11 * b11 + a12 * b21 + a13 * b31, a11 * b12 + a12 * b22 + a13 * b32,
               a11 * b13 + a12 * b23 + a13 * b33,
               a21 * b11 + a22 * b21 + a23 * b31, a21 * b12 + a22 * b22 + a23 * b32,
               a21 * b13 + a22 * b23 + a23 * b33,
               a31 * b11 + a32 * b21 + a33 * b31, a31 * b12 + a32 * b22 + a33 * b32,
               a31 * b13 + a32 * b23 + a33 * b33)
            == D3(a11, a12, a13, a21, a22, a23, a31, a32, a33)
               * D3(b11, b12, b13, b21, b22, b23, b31, b32, b33)
  {
  }
}
