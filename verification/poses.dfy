/** The pose container shared by SO3 and SE3: a group kind and a non-empty
    ordered sequence of elements of that kind. Construction validates every
    element once; the container is an immutable value, so "mutating"
    operations return a new container. */
module Poses {
  import opened LinAlg
  import opened Groups
  import opened Results

  datatype Pose = Pose(kind: Kind, elems: seq<Matrix>)

  /** Non-empty, and every element has the element shape of the kind. This
      is all the operators rely on. */
  predicate WellShaped(p: Pose) {
    |p.elems| >= 1 && forall i | 0 <= i < |p.elems| :: Shaped(p.kind, p.elems[i])
  }

  predicate AllMembers(k: Kind, ms: seq<Matrix>) {
    forall i | 0 <= i < |ms| :: IsMember(k, ms[i])
  }

  /** The construction invariant: non-empty and every element is a member. */
  predicate Valid(p: Pose) {
    |p.elems| >= 1 && AllMembers(p.kind, p.elems)
  }

  lemma ValidIsWellShaped(p: Pose)
    requires Valid(p)
    ensures WellShaped(p)
  {
  }

  /** `len(R)` */
  function Len(p: Pose): nat {
    |p.elems|
  }

  // ---------------------------------------------------------------------
  // Construction

  /** The null constructor `SO3()` / `SE3()`: one identity element. */
  function Null(k: Kind): (p: Pose)
    ensures Valid(p) && p.kind == k && Len(p) == 1
    ensures p.elems[0] == Identity(Size(k))
  {
    IdentityIsMember(k);
    Pose(k, [Identity(Size(k))])
  }

  /** Construction from a single matrix, which must pass the validator. */
  function FromMatrix(k: Kind, m: Matrix): (r: Result<Pose>)
    ensures r.Ok? <==> IsMember(k, m)
    ensures r.Ok? ==> Valid(r.value) && r.value.kind == k && r.value.elems == [m]
    ensures r.Err? ==> r.error == InvalidGroupElement
  {
    if IsMember(k, m) then Ok(Pose(k, [m])) else Err(InvalidGroupElement)
  }

  /** Construction from a list of matrices, each validated; order is kept. */
  function FromMatrices(k: Kind, ms: seq<Matrix>): (r: Result<Pose>)
    ensures r.Ok? <==> |ms| >= 1 && AllMembers(k, ms)
    ensures r.Ok? ==> Valid(r.value) && r.value.kind == k && r.value.elems == ms
    ensures |ms| == 0 ==> r == Err(EmptyContainer)
    ensures |ms| >= 1 && !AllMembers(k, ms) ==> r == Err(InvalidGroupElement)
  {
    if |ms| == 0 then Err(EmptyContainer)
    else if !AllMembers(k, ms) then Err(InvalidGroupElement)
    else Ok(Pose(k, ms))
  }

  /** The elements of a list of containers, in order. */
  function Flatten(ps: seq<Pose>): (ms: seq<Matrix>)
    ensures (forall i | 0 <= i < |ps| :: |ps[i].elems| == 1) ==>
              |ms| == |ps| && forall i | 0 <= i < |ps| :: ms[i] == ps[i].elems[0]
    decreases |ps|
  {
    if |ps| == 0 then []
    else Flatten(ps[..|ps| - 1]) + ps[|ps| - 1].elems
  }

  /** Construction from a list of containers of the same kind, e.g.
      `SO3([SO3.Rx(0.1), SO3.Rx(0.2)])`. */
  function FromPoses(k: Kind, ps: seq<Pose>): (r: Result<Pose>)
    requires forall i | 0 <= i < |ps| :: Valid(ps[i])
    ensures r.Ok? <==> |ps| >= 1 && forall i | 0 <= i < |ps| :: ps[i].kind == k
    ensures r.Ok? ==> Valid(r.value) && r.value.kind == k
    ensures r.Ok? && (forall i | 0 <= i < |ps| :: |ps[i].elems| == 1) ==>
              Len(r.value) == |ps| && forall i | 0 <= i < |ps| :: r.value.elems[i] == ps[i].elems[0]
    ensures |ps| == 0 ==> r == Err(EmptyContainer)
    ensures |ps| >= 1 && r.Err? ==> r.error == DimensionMismatch
  {
    if |ps| == 0 then Err(EmptyContainer)
    else if exists i | 0 <= i < |ps| :: ps[i].kind != k then Err(DimensionMismatch)
    else
      var ms := Flatten(ps);
      assert |ms| >= |ps[0].elems| by { FlattenLength(ps); }
      assert AllMembers(k, ms) by { FlattenMembers(k, ps); }
      Ok(Pose(k, ms))
  }

  /** Every element of the flattened list is a member, when every
      container is a valid one of kind k. */
  lemma {:induction false} FlattenMembers(k: Kind, ps: seq<Pose>)
    requires forall i | 0 <= i < |ps| :: ps[i].kind == k && Valid(ps[i])
    ensures AllMembers(k, Flatten(ps))
  {
    if |ps| > 0 {
      FlattenMembers(k, ps[..|ps| - 1]);
    }
  }

  lemma {:induction false} FlattenLength(ps: seq<Pose>)
    requires |ps| >= 1
    ensures |Flatten(ps)| >= |ps[0].elems|
  {
    if |ps| > 1 {
      FlattenLength(ps[..|ps| - 1]);
    }
  }

  /** `R.append(x)`: the elements of x are added after those of R. */
  function Append(p: Pose, q: Pose): (r: Result<Pose>)
    requires Valid(p) && Valid(q)
    ensures r.Ok? <==> q.kind == p.kind
    ensures r.Err? ==> r.error == DimensionMismatch
    ensures r.Ok? ==> && Valid(r.value) && r.value.kind == p.kind
                      && Len(r.value) == Len(p) + Len(q)
                      && r.value.elems[..Len(p)] == p.elems
                      && r.value.elems[Len(p)..] == q.elems
  {
    if q.kind != p.kind then Err(DimensionMismatch)
    else Ok(Pose(p.kind, p.elems + q.elems))
  }

  /** `R.append(m)` for a raw matrix, which is validated first. */
  function AppendMatrix(p: Pose, m: Matrix): (r: Result<Pose>)
    requires Valid(p)
    ensures r.Ok? <==> IsMember(p.kind, m)
    ensures r.Err? ==> r.error == InvalidGroupElement
    ensures r.Ok? ==> && Valid(r.value) && r.value.kind == p.kind
                      && Len(r.value) == Len(p) + 1
                      && r.value.elems[..Len(p)] == p.elems
                      && r.value.elems[Len(p)] == m
  {
    var single :- FromMatrix(p.kind, m);
    Append(p, single)
  }

  /** The two forms of append agree: `R.append(SO3.Rx(0.2))` appends the
      one-element container built from a matrix, which is the same as
      appending the matrix itself; a non-member is refused by both routes. */
  lemma AppendForms(p: Pose, m: Matrix)
    requires Valid(p)
    ensures FromMatrix(p.kind, m).Ok? <==> AppendMatrix(p, m).Ok?
    ensures FromMatrix(p.kind, m).Ok? ==>
              Append(p, FromMatrix(p.kind, m).value) == AppendMatrix(p, m)
  {
  }

  /** `R[i]`: the i-th element as a container of length one. */
  function At(p: Pose, i: int): (r: Result<Pose>)
    ensures r.Ok? <==> 0 <= i < Len(p)
    ensures r.Ok? ==> r.value.kind == p.kind && r.value.elems == [p.elems[i]]
    ensures r.Ok? && Valid(p) ==> Valid(r.value)
    ensures r.Err? ==> r.error == IndexOutOfRange
  {
    if 0 <= i < |p.elems| then Ok(Pose(p.kind, [p.elems[i]])) else Err(IndexOutOfRange)
  }

  /** `R.inv`: the closed-form inverse of every element, order kept. */
  function Inv(p: Pose): (r: Pose)
    requires WellShaped(p)
    ensures WellShaped(r) && r.kind == p.kind && Len(r) == Len(p)
    ensures forall i | 0 <= i < Len(p) :: r.elems[i] == Inverse(p.kind, p.elems[i])
  {
    Pose(p.kind, seq(|p.elems|, i requires 0 <= i < |p.elems| => Inverse(p.kind, p.elems[i])))
  }

  /** Inversion keeps the container valid and undoes itself. */
  lemma InvValid(p: Pose)
    requires Valid(p)
    ensures Valid(Inv(p))
    ensures Inv(Inv(p)) == p
  {
    forall i | 0 <= i < Len(p)
      ensures IsMember(p.kind, Inv(p).elems[i])
      ensures Inv(Inv(p)).elems[i] == p.elems[i]
    {
      InverseClosed(p.kind, p.elems[i]);
      InverseInvolution(p.kind, p.elems[i]);
    }
  }

  // ---------------------------------------------------------------------
  // Accessors

  /** `isrot()`: a 3x3 rotation representation. */
  function IsRotRep(p: Pose): bool {
    p.kind == SO3
  }

  /** `ishom()`: a 4x4 homogeneous representation. */
  function IsHomRep(p: Pose): bool {
    p.kind == SE3
  }

  /** `isrot2()`: a 2D rotation representation; never, for these groups. */
  function IsRot2Rep(p: Pose): bool {
    false
  }

  /** `ishom2()`: a 2D homogeneous representation; never, for these groups. */
  function IsHom2Rep(p: Pose): bool {
    false
  }

  /** The `isSO` property. */
  function IsSO(p: Pose): bool {
    p.kind == SO3
  }

  /** The `isSE` property. */
  function IsSE(p: Pose): bool {
    p.kind == SE3
  }

  /** The `N` property: dimension of the space acted on. */
  function N(p: Pose): nat {
    Dim(p.kind)
  }

  /** The `shape` property: the shape of one element's matrix. */
  function Shape(p: Pose): (nat, nat) {
    (Size(p.kind), Size(p.kind))
  }

  /** The introspection predicates agree with the kind tag, with the
      element shape and with validation. */
  lemma AccessorsAgree(p: Pose)
    ensures IsSO(p) != IsSE(p)
    ensures IsRotRep(p) == IsSO(p) && IsHomRep(p) == IsSE(p)
    ensures !IsRot2Rep(p) && !IsHom2Rep(p)
    ensures N(p) == 3
    ensures IsSO(p) <==> Shape(p) == (3, 3)
    ensures IsSE(p) <==> Shape(p) == (4, 4)
    ensures Shape(p).0 == N(p) + (if IsSE(p) then 1 else 0)
    ensures Valid(p) && IsSO(p) ==> forall i | 0 <= i < Len(p) :: IsRot(p.elems[i])
    ensures Valid(p) && IsSE(p) ==> forall i | 0 <= i < Len(p) :: IsHom(p.elems[i])
  {
  }

  /** The rotation block of an element: the element itself for SO(3), its
      top-left 3x3 block for SE(3). */
  function RotationOf(k: Kind, m: Matrix): (r: Matrix)
    requires Shaped(k, m)
    ensures IsMat(r, 3, 3)
  {
    match k
    case SO3 => m
    case SE3 => RotPart(m)
  }

  /** The `n` property: first column of the rotation block. */
  function NVec(p: Pose): (v: Vector)
    requires WellShaped(p) && Len(p) == 1
    ensures |v| == 3
  {
    Col(RotationOf(p.kind, p.elems[0]), 0)
  }

  /** The `o` property: second column of the rotation block. */
  function OVec(p: Pose): (v: Vector)
    requires WellShaped(p) && Len(p) == 1
    ensures |v| == 3
  {
    Col(RotationOf(p.kind, p.elems[0]), 1)
  }

  /** The `a` property: third column of the rotation block. */
  function AVec(p: Pose): (v: Vector)
    requires WellShaped(p) && Len(p) == 1
    ensures |v| == 3
  {
    Col(RotationOf(p.kind, p.elems[0]), 2)
  }

  /** The n, o, a columns of a valid element are orthonormal. */
  lemma NOAOrthonormal(p: Pose)
    requires Valid(p) && Len(p) == 1
    ensures Dot(NVec(p), NVec(p)) == 1.0 && Dot(OVec(p), OVec(p)) == 1.0
    ensures Dot(AVec(p), AVec(p)) == 1.0
    ensures Dot(NVec(p), OVec(p)) == 0.0 && Dot(NVec(p), AVec(p)) == 0.0
    ensures Dot(OVec(p), AVec(p)) == 0.0
  {
    var r := RotationOf(p.kind, p.elems[0]);
    assert IsRot(r);
    forall i, j | 0 <= i < 3 && 0 <= j < 3
      ensures Dot(Col(r, i), Col(r, j)) == (if i == j then 1.0 else 0.0)
    {
      assert Transpose(r)[i] == Col(r, i);
      assert Mul(Transpose(r), r)[i][j] == Identity(3)[i][j];
    }
  }

  /** The null container's n, o, a are the coordinate axes. */
  lemma NullNOA(k: Kind)
    ensures NVec(Null(k)) == [1.0, 0.0, 0.0]
    ensures OVec(Null(k)) == [0.0, 1.0, 0.0]
    ensures AVec(Null(k)) == [0.0, 0.0, 1.0]
  {
    if k == SE3 {
      HomIdentity();
      HomParts(Identity(3), Zeros(3));
    }
  }
}
