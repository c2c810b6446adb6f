/** The two groups a pose container can hold: SO(3), stored as 3x3
    rotation matrices, and SE(3), stored as 4x4 homogeneous transforms
    [R t; 0 1]. This module is the group-element validator and the
    element-level algebra (composition, closed-form inverse, action on
    vectors) that the operator dispatcher applies pairwise. */
module Groups {
  import opened LinAlg

  datatype Kind = SO3 | SE3

  /** Side of the stored matrix: the `shape` of an element is Size x Size. */
  function Size(k: Kind): nat {
    match k
    case SO3 => 3
    case SE3 => 4
  }

  /** Dimension of the space the group acts on (the `N` property). It is 3
      for both kinds and is not the matrix size. */
  function Dim(k: Kind): nat {
    3
  }

  /** An element-sized square matrix, member of the group or not. */
  predicate Shaped(k: Kind, m: Matrix) {
    IsSquare(m) && |m| == Size(k)
  }

  /** SO(3) membership, exactly: orthogonal on both sides and determinant +1. */
  predicate IsRot(m: Matrix) {
    && IsMat(m, 3, 3)
    && Mul(Transpose(m), m) == Identity(3)
    && Mul(m, Transpose(m)) == Identity(3)
    && Det3(m) == 1.0
  }

  /** The homogeneous matrix [r t; 0 0 0 1]. */
  function Hom(r: Matrix, t: Vector): (h: Matrix)
    requires IsMat(r, 3, 3) && |t| == 3
    ensures IsMat(h, 4, 4)
    ensures forall i, j | 0 <= i < 3 && 0 <= j < 3 :: h[i][j] == r[i][j]
    ensures forall i | 0 <= i < 3 :: h[i][3] == t[i]
    ensures h[3] == [0.0, 0.0, 0.0, 1.0]
  {
    seq(4, i requires 0 <= i < 4 => if i < 3 then r[i] + [t[i]] else [0.0, 0.0, 0.0, 1.0])
  }

  /** Top-left 3x3 block of a 4x4 matrix. */
  function RotPart(m: Matrix): (r: Matrix)
    requires IsMat(m, 4, 4)
    ensures IsMat(r, 3, 3)
    ensures forall i, j | 0 <= i < 3 && 0 <= j < 3 :: r[i][j] == m[i][j]
  {
    seq(3, i requires 0 <= i < 3 => m[i][..3])
  }

  /** First three entries of the last column of a 4x4 matrix. */
  function TransPart(m: Matrix): (t: Vector)
    requires IsMat(m, 4, 4)
    ensures |t| == 3
    ensures forall i | 0 <= i < 3 :: t[i] == m[i][3]
  {
    seq(3, i requires 0 <= i < 3 => m[i][3])
  }

  /** SE(3) membership: bottom row [0 0 0 1] and a rotation block in SO(3);
      the translation column is unconstrained. */
  predicate IsHom(m: Matrix) {
    && IsMat(m, 4, 4)
    && m[3] == [0.0, 0.0, 0.0, 1.0]
    && IsRot(RotPart(m))
  }

  /** The validator: is m an element of the group k? */
  predicate IsMember(k: Kind, m: Matrix) {
    match k
    case SO3 => IsRot(m)
    case SE3 => IsHom(m)
  }

  /** Group composition: the matrix product. */
  function Compose(k: Kind, a: Matrix, b: Matrix): (c: Matrix)
    requires Shaped(k, a) && Shaped(k, b)
    ensures Shaped(k, c)
  {
    Mul(a, b)
  }

  /** Closed-form inverse: Rᵀ for SO(3), [Rᵀ, -Rᵀt; 0 1] for SE(3); never a
      general matrix inversion. */
  function Inverse(k: Kind, m: Matrix): (r: Matrix)
    requires Shaped(k, m)
    ensures Shaped(k, r)
  {
    match k
    case SO3 => Transpose(m)
    case SE3 =>
      var rt := Transpose(RotPart(m));
      Hom(rt, VNeg(MatVec(rt, TransPart(m))))
  }

  /** Action on a 3-vector: R v for SO(3), R v + t for SE(3). */
  function Act(k: Kind, m: Matrix, v: Vector): (w: Vector)
    requires Shaped(k, m) && |v| == 3
    ensures |w| == 3
  {
    match k
    case SO3 => MatVec(m, v)
    case SE3 => VAdd(MatVec(RotPart(m), v), TransPart(m))
  }

  // ---------------------------------------------------------------------
  // Canonical constructors. The angle-to-matrix conversion is external, so
  // each rotation takes the cosine c and sine s of its angle.

  function RotX(c: real, s: real): (m: Matrix)
    ensures IsMat(m, 3, 3)
  {
    [[1.0, 0.0, 0.0], [0.0, c, -s], [0.0, s, c]]
  }

  function RotY(c: real, s: real): (m: Matrix)
    ensures IsMat(m, 3, 3)
  {
    [[c, 0.0, s], [0.0, 1.0, 0.0], [-s, 0.0, c]]
  }

  function RotZ(c: real, s: real): (m: Matrix)
    ensures IsMat(m, 3, 3)
  {
    [[c, -s, 0.0], [s, c, 0.0], [0.0, 0.0, 1.0]]
  }

  /** A pure translation by t (the `transl`/`trans` builder). */
  function Transl(t: Vector): (m: Matrix)
    requires |t| == 3
    ensures IsMat(m, 4, 4)
  {
    Hom(Identity(3), t)
  }

  /** A rotation embedded in SE(3) with zero translation (`trotx` etc.). */
  function HomRot(r: Matrix): (m: Matrix)
    requires IsMat(r, 3, 3)
    ensures IsMat(m, 4, 4)
  {
    Hom(r, Zeros(3))
  }

  // ---------------------------------------------------------------------
  // Block structure of homogeneous matrices

  /** Building from blocks and taking the blocks apart are inverse. */
  lemma HomParts(r: Matrix, t: Vector)
    requires IsMat(r, 3, 3) && |t| == 3
    ensures RotPart(Hom(r, t)) == r
    ensures TransPart(Hom(r, t)) == t
  {
    var h := Hom(r, t);
    forall i | 0 <= i < 3
      ensures RotPart(h)[i] == r[i]
    {
      assert h[i] == r[i] + [t[i]];
    }
  }

  /** A 4x4 matrix with bottom row [0 0 0 1] is the Hom of its blocks. */
  lemma HomOfParts(m: Matrix)
    requires IsMat(m, 4, 4) && m[3] == [0.0, 0.0, 0.0, 1.0]
    ensures Hom(RotPart(m), TransPart(m)) == m
  {
    MatrixExt(Hom(RotPart(m), TransPart(m)), m);
  }

  lemma HomIdentity()
    ensures Hom(Identity(3), Zeros(3)) == Identity(4)
  {
    MatrixExt(Hom(Identity(3), Zeros(3)), Identity(4));
  }

  /** Entry (i, j) of a product of two homogeneous matrices. */
  lemma HomMulEntry(r1: Matrix, t1: Vector, r2: Matrix, t2: Vector, i: nat, j: nat)
    requires IsMat(r1, 3, 3) && |t1| == 3 && IsMat(r2, 3, 3) && |t2| == 3
    requires i < 4 && j < 4
    ensures Mul(Hom(r1, t1), Hom(r2, t2))[i][j]
            == Hom(Mul(r1, r2), VAdd(MatVec(r1, t2), t1))[i][j]
  {
    var h1, h2 := Hom(r1, t1), Hom(r2, t2);
    var col := Col(h2, j);
    Dot4(h1[i], col);
    if i < 3 {
      assert h1[i][..3] == r1[i];
      if j < 3 {
        assert col[..3] == Col(r2, j);
      } else {
        assert col[..3] == t2;
      }
    } else {
      assert h1[i][..3] == Zeros(3);
      DotZeroLeft(col[..3]);
    }
  }

  /** [r1 t1; 0 1] [r2 t2; 0 1] == [r1 r2, r1 t2 + t1; 0 1] */
  lemma HomMul(r1: Matrix, t1: Vector, r2: Matrix, t2: Vector)
    requires IsMat(r1, 3, 3) && |t1| == 3 && IsMat(r2, 3, 3) && |t2| == 3
    ensures Mul(Hom(r1, t1), Hom(r2, t2)) == Hom(Mul(r1, r2), VAdd(MatVec(r1, t2), t1))
  {
    forall i, j | 0 <= i < 4 && 0 <= j < 4
      ensures Mul(Hom(r1, t1), Hom(r2, t2))[i][j]
              == Hom(Mul(r1, r2), VAdd(MatVec(r1, t2), t1))[i][j]
    {
      HomMulEntry(r1, t1, r2, t2, i, j);
    }
    MatrixExt(Mul(Hom(r1, t1), Hom(r2, t2)), Hom(Mul(r1, r2), VAdd(MatVec(r1, t2), t1)));
  }

  // ---------------------------------------------------------------------
  // Group laws

  lemma MemberShaped(k: Kind, m: Matrix)
    requires IsMember(k, m)
    ensures Shaped(k, m)
  {
  }

  lemma IdentityIsRot()
    ensures IsRot(Identity(3))
  {
    MatrixExt(Transpose(Identity(3)), Identity(3));
    MulIdentityLeft(Identity(3));
  }

  /** The identity matrix of each kind is a member (the null constructor). */
  lemma IdentityIsMember(k: Kind)
    ensures IsMember(k, Identity(Size(k)))
  {
    IdentityIsRot();
    if k == SE3 {
      HomIdentity();
      HomParts(Identity(3), Zeros(3));
    }
  }

  /** SO(3) is closed under products. */
  lemma RotMulClosed(a: Matrix, b: Matrix)
    requires IsRot(a) && IsRot(b)
    ensures IsRot(Mul(a, b))
  {
    var at, bt := Transpose(a), Transpose(b);
    TransposeMul(a, b);
    calc {
      Mul(Transpose(Mul(a, b)), Mul(a, b));
      Mul(Mul(bt, at), Mul(a, b));
      { MulAssoc(bt, at, Mul(a, b)); }
      Mul(bt, Mul(at, Mul(a, b)));
      { MulAssoc(at, a, b); }
      Mul(bt, Mul(Identity(3), b));
      { MulIdentityLeft(b); }
      Identity(3);
    }
    calc {
      Mul(Mul(a, b), Transpose(Mul(a, b)));
      Mul(Mul(a, b), Mul(bt, at));
      { MulAssoc(a, b, Mul(bt, at)); }
      Mul(a, Mul(b, Mul(bt, at)));
      { MulAssoc(b, bt, at); }
      Mul(a, Mul(Identity(3), at));
      { MulIdentityLeft(at); }
      Identity(3);
    }
    DetMul(a, b);
  }

  /** SO(3) is closed under transposition. */
  lemma RotTransposeClosed(a: Matrix)
    requires IsRot(a)
    ensures IsRot(Transpose(a))
  {
    TransposeTranspose(a);
    DetTranspose(a);
  }

  /** Closure: composing two members of a group gives a member. */
  lemma ComposeClosed(k: Kind, a: Matrix, b: Matrix)
    requires IsMember(k, a) && IsMember(k, b)
    ensures IsMember(k, Compose(k, a, b))
  {
    match k
    case SO3 =>
      RotMulClosed(a, b);
    case SE3 =>
      var ra, ta, rb, tb := RotPart(a), TransPart(a), RotPart(b), TransPart(b);
      HomOfParts(a);
      HomOfParts(b);
      HomMul(ra, ta, rb, tb);
      HomParts(Mul(ra, rb), VAdd(MatVec(ra, tb), ta));
      RotMulClosed(ra, rb);
  }

  /** Closure: the closed-form inverse of a member is a member. */
  lemma InverseClosed(k: Kind, a: Matrix)
    requires IsMember(k, a)
    ensures IsMember(k, Inverse(k, a))
  {
    match k
    case SO3 =>
      RotTransposeClosed(a);
    case SE3 =>
      var rt := Transpose(RotPart(a));
      RotTransposeClosed(RotPart(a));
      HomParts(rt, VNeg(MatVec(rt, TransPart(a))));
  }

  lemma VAddNeg(v: Vector)
    ensures VAdd(v, VNeg(v)) == Zeros(|v|)
    ensures VAdd(VNeg(v), v) == Zeros(|v|)
  {
  }

  /** Inverse law: inverse(a) ∘ a and a ∘ inverse(a) are both the identity. */
  lemma InverseLaw(k: Kind, a: Matrix)
    requires IsMember(k, a)
    ensures Compose(k, Inverse(k, a), a) == Identity(Size(k))
    ensures Compose(k, a, Inverse(k, a)) == Identity(Size(k))
  {
    match k
    case SO3 =>
    case SE3 =>
      var r, t := RotPart(a), TransPart(a);
      var rt := Transpose(r);
      var u := VNeg(MatVec(rt, t));
      HomOfParts(a);
      HomMul(rt, u, r, t);
      VAddNeg(MatVec(rt, t));
      HomMul(r, t, rt, u);
      calc {
        MatVec(r, u);
        { MatVecNeg(r, MatVec(rt, t)); }
        VNeg(MatVec(r, MatVec(rt, t)));
        { MatVecMul(r, rt, t); }
        VNeg(MatVec(Identity(3), t));
        { MatVecIdentity(t); }
        VNeg(t);
      }
      VAddNeg(t);
      HomIdentity();
  }

  /** Taking the inverse twice gives back the element. */
  lemma InverseInvolution(k: Kind, a: Matrix)
    requires IsMember(k, a)
    ensures Inverse(k, Inverse(k, a)) == a
  {
    match k
    case SO3 =>
      TransposeTranspose(a);
    case SE3 =>
      var r, t := RotPart(a), TransPart(a);
      var rt := Transpose(r);
      var u := VNeg(MatVec(rt, t));
      HomParts(rt, u);
      TransposeTranspose(r);
      calc {
        VNeg(MatVec(r, u));
        { MatVecNeg(r, MatVec(rt, t)); }
        VNeg(VNeg(MatVec(r, MatVec(rt, t))));
        { MatVecMul(r, rt, t); }
        VNeg(VNeg(MatVec(Identity(3), t)));
        { MatVecIdentity(t); }
        t;
      }
      HomOfParts(a);
  }

  lemma ComposeAssoc(k: Kind, a: Matrix, b: Matrix, c: Matrix)
    requires Shaped(k, a) && Shaped(k, b) && Shaped(k, c)
    ensures Compose(k, Compose(k, a, b), c) == Compose(k, a, Compose(k, b, c))
  {
    MulAssoc(a, b, c);
  }

  lemma ComposeIdentity(k: Kind, a: Matrix)
    requires Shaped(k, a)
    ensures Compose(k, Identity(Size(k)), a) == a
    ensures Compose(k, a, Identity(Size(k))) == a
  {
    MulIdentityLeft(a);
    MulIdentityRight(a);
  }

  /** The SE(3) action is the 4x4 matrix applied to the homogeneous vector
      [v; 1], keeping the first three entries. */
  lemma ActHomogeneous(m: Matrix, v: Vector)
    requires IsMat(m, 4, 4) && |v| == 3
    ensures MatVec(m, v + [1.0])[..3] == Act(SE3, m, v)
  {
    forall i | 0 <= i < 3
      ensures MatVec(m, v + [1.0])[i] == Act(SE3, m, v)[i]
    {
      assert m[i] == m[i][..3] + [m[i][3]];
      assert m[i][..3] == RotPart(m)[i];
      DotSnoc(m[i][..3], v, m[i][3], 1.0);
    }
  }

  /** The action is a group action: acting by a ∘ b is acting by b, then a. */
  lemma ActCompose(k: Kind, a: Matrix, b: Matrix, v: Vector)
    requires IsMember(k, a) && IsMember(k, b) && |v| == 3
    ensures Act(k, Compose(k, a, b), v) == Act(k, a, Act(k, b, v))
  {
    match k
    case SO3 =>
      MatVecMul(a, b, v);
    case SE3 =>
      var ra, ta, rb, tb := RotPart(a), TransPart(a), RotPart(b), TransPart(b);
      HomOfParts(a);
      HomOfParts(b);
      HomMul(ra, ta, rb, tb);
      HomParts(Mul(ra, rb), VAdd(MatVec(ra, tb), ta));
      MatVecMul(ra, rb, v);
      MatVecAdd(ra, MatVec(rb, v), tb);
  }

  lemma ActIdentity(k: Kind, v: Vector)
    requires |v| == 3
    ensures Act(k, Identity(Size(k)), v) == v
  {
    MatVecIdentity(v);
    if k == SE3 {
      HomIdentity();
      HomParts(Identity(3), Zeros(3));
    }
  }

  /** Acting by the inverse undoes the action. */
  lemma ActInverse(k: Kind, a: Matrix, v: Vector)
    requires IsMember(k, a) && |v| == 3
    ensures Act(k, Inverse(k, a), Act(k, a, v)) == v
  {
    InverseClosed(k, a);
    ActCompose(k, Inverse(k, a), a, v);
    InverseLaw(k, a);
    ActIdentity(k, v);
  }

  // ---------------------------------------------------------------------
  // Constructors produce members

  lemma Identity3()
    ensures Identity(3) == [[1.0, 0.0, 0.0], [0.0, 1.0, 0.0], [0.0, 0.0, 1.0]]
  {
    MatrixExt(Identity(3), [[1.0, 0.0, 0.0], [0.0, 1.0, 0.0], [0.0, 0.0, 1.0]]);
  }

  lemma DiagIsIdentity(x: real, y: real, z: real)
    ensures [[x, 0.0, 0.0], [0.0, y, 0.0], [0.0, 0.0, z]] == Identity(3)
            <==> x == 1.0 && y == 1.0 && z == 1.0
  {
    Identity3();
  }

  /** A basic rotation is in SO(3) exactly when (c, s) lies on the unit circle. */
  lemma RotXIsRot(c: real, s: real)
    ensures IsRot(RotX(c, s)) <==> c * c + s * s == 1.0
  {
    var m, t := RotX(c, s), [[1.0, 0.0, 0.0], [0.0, c, s], [0.0, -s, c]];
    var q := c * c + s * s;
    MatrixExt(Transpose(m), t);
    Mul3(t, m);
    Mul3(m, t);
    Ext3(Mul(t, m), [[1.0, 0.0, 0.0], [0.0, q, 0.0], [0.0, 0.0, q]]);
    Ext3(Mul(m, t), [[1.0, 0.0, 0.0], [0.0, q, 0.0], [0.0, 0.0, q]]);
    DiagIsIdentity(1.0, q, q);
  }

  lemma RotYIsRot(c: real, s: real)
    ensures IsRot(RotY(c, s)) <==> c * c + s * s == 1.0
  {
    var m, t := RotY(c, s), [[c, 0.0, -s], [0.0, 1.0, 0.0], [s, 0.0, c]];
    var q := c * c + s * s;
    MatrixExt(Transpose(m), t);
    Mul3(t, m);
    Mul3(m, t);
    Ext3(Mul(t, m), [[q, 0.0, 0.0], [0.0, 1.0, 0.0], [0.0, 0.0, q]]);
    Ext3(Mul(m, t), [[q, 0.0, 0.0], [0.0, 1.0, 0.0], [0.0, 0.0, q]]);
    DiagIsIdentity(q, 1.0, q);
  }

  lemma RotZIsRot(c: real, s: real)
    ensures IsRot(RotZ(c, s)) <==> c * c + s * s == 1.0
  {
    var m, t := RotZ(c, s), [[c, s, 0.0], [-s, c, 0.0], [0.0, 0.0, 1.0]];
    var q := c * c + s * s;
    MatrixExt(Transpose(m), t);
    Mul3(t, m);
    Mul3(m, t);
    Ext3(Mul(t, m), [[q, 0.0, 0.0], [0.0, q, 0.0], [0.0, 0.0, 1.0]]);
    Ext3(Mul(m, t), [[q, 0.0, 0.0], [0.0, q, 0.0], [0.0, 0.0, 1.0]]);
    DiagIsIdentity(q, q, 1.0);
  }

  /** Every translation is in SE(3), and its blocks are I and t. */
  lemma TranslIsHom(t: Vector)
    requires |t| == 3
    ensures IsHom(Transl(t))
    ensures RotPart(Transl(t)) == Identity(3) && TransPart(Transl(t)) == t
  {
    HomParts(Identity(3), t);
    IdentityIsRot();
  }

  /** A rotation lifted to SE(3) is in SE(3) exactly when it is in SO(3). */
  lemma HomRotIsHom(r: Matrix)
    requires IsMat(r, 3, 3)
    ensures IsHom(HomRot(r)) <==> IsRot(r)
  {
    HomParts(r, Zeros(3));
  }

  /** Translations compose by adding their offsets. */
  lemma TranslCompose(t1: Vector, t2: Vector)
    requires |t1| == 3 && |t2| == 3
    ensures Compose(SE3, Transl(t1), Transl(t2)) == Transl(VAdd(t1, t2))
  {
    HomMul(Identity(3), t1, Identity(3), t2);
    MulIdentityLeft(Identity(3));
    MatVecIdentity(t2);
    assert VAdd(t2, t1) == VAdd(t1, t2);
  }

  lemma MatVecZeros(r: Matrix)
    requires IsMat(r, 3, 3)
    ensures MatVec(r, Zeros(3)) == Zeros(3)
  {
    forall i | 0 <= i < 3
      ensures MatVec(r, Zeros(3))[i] == 0.0
    {
      DotSymmetric(r[i], Zeros(3));
      DotZeroLeft(r[i]);
    }
  }

  /** Rotations lifted to SE(3) compose as the rotations do. */
  lemma HomRotCompose(a: Matrix, b: Matrix)
    requires IsMat(a, 3, 3) && IsMat(b, 3, 3)
    ensures Compose(SE3, HomRot(a), HomRot(b)) == HomRot(Mul(a, b))
  {
    HomMul(a, Zeros(3), b, Zeros(3));
    MatVecZeros(a);
    assert VAdd(Zeros(3), Zeros(3)) == Zeros(3);
  }

  /** A rotation lifted to SE(3) acts on vectors as the rotation does. */
  lemma HomRotAct(r: Matrix, v: Vector)
    requires IsMat(r, 3, 3) && |v| == 3
    ensures Act(SE3, HomRot(r), v) == Act(SO3, r, v)
  {
    HomParts(r, Zeros(3));
    assert VAdd(MatVec(r, v), Zeros(3)) == MatVec(r, v);
  }
}
