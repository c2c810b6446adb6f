/** The behaviour the pose tests pin down, stated on the model: the exact
    quarter-turn and translation tables, the results of the arithmetic
    operators on identities and translations, the three-element
    broadcasting tables, construction by append, and in-place rebinding.
    Quarter turns have cosine 0 and sine +-1, so every entry is exact. */
module Scenarios {
  import opened LinAlg
  import opened Groups
  import opened Results
  import opened Poses
  import opened Dispatch

  const RX90: Matrix := RotX(0.0, 1.0)
  const RY90: Matrix := RotY(0.0, 1.0)
  const RZ90: Matrix := RotZ(0.0, 1.0)
  const RXM90: Matrix := RotX(0.0, -1.0)

  const VX: Vector := [1.0, 0.0, 0.0]
  const VY: Vector := [0.0, 1.0, 0.0]
  const VZ: Vector := [0.0, 0.0, 1.0]

  /** A container holding the single element m. */
  function Single(k: Kind, m: Matrix): (p: Pose)
    ensures Len(p) == 1 && p.kind == k
  {
    Pose(k, [m])
  }

  // ---------------------------------------------------------------------
  // Broadcasting of one element against one, and of three against one

  lemma BroadcastOne(k: Kind, op: ElemOp, x: Matrix, y: Matrix)
    requires Shaped(k, x) && Shaped(k, y)
    ensures Broadcast(k, op, [x], [y]) == Ok([Combine(k, op, x, y)])
  {
    var r := Broadcast(k, op, [x], [y]).value;
    assert r == [r[0]];
  }

  /** Three elements against one: every element is combined with it. */
  lemma BroadcastThreeOne(k: Kind, op: ElemOp, x: Matrix, y: Matrix, z: Matrix, u: Matrix)
    requires Shaped(k, x) && Shaped(k, y) && Shaped(k, z) && Shaped(k, u)
    ensures Broadcast(k, op, [x, y, z], [u])
            == Ok([Combine(k, op, x, u), Combine(k, op, y, u), Combine(k, op, z, u)])
  {
    var xs := [x, y, z];
    var a := Broadcast(k, op, xs, [u]).value;
    assert |a| == 3;
    assert a[0] == Combine(k, op, xs[0], u);
    assert a[1] == Combine(k, op, xs[1], u);
    assert a[2] == Combine(k, op, xs[2], u);
    assert a == [a[0], a[1], a[2]];
  }

  /** One element against three: it is combined with every element. */
  lemma BroadcastOneThree(k: Kind, op: ElemOp, x: Matrix, y: Matrix, z: Matrix, u: Matrix)
    requires Shaped(k, x) && Shaped(k, y) && Shaped(k, z) && Shaped(k, u)
    ensures Broadcast(k, op, [u], [x, y, z])
            == Ok([Combine(k, op, u, x), Combine(k, op, u, y), Combine(k, op, u, z)])
  {
    var ys := [x, y, z];
    var b := Broadcast(k, op, [u], ys).value;
    assert |b| == 3;
    assert b[0] == Combine(k, op, u, ys[0]);
    assert b[1] == Combine(k, op, u, ys[1]);
    assert b[2] == Combine(k, op, u, ys[2]);
    assert b == [b[0], b[1], b[2]];
  }

  /** Three elements against the same three: paired index by index. */
  lemma BroadcastPaired(k: Kind, op: ElemOp, x: Matrix, y: Matrix, z: Matrix)
    requires Shaped(k, x) && Shaped(k, y) && Shaped(k, z)
    ensures Broadcast(k, op, [x, y, z], [x, y, z])
            == Ok([Combine(k, op, x, x), Combine(k, op, y, y), Combine(k, op, z, z)])
  {
    var xs := [x, y, z];
    var c := Broadcast(k, op, xs, xs).value;
    assert |c| == 3;
    assert c[0] == Combine(k, op, xs[0], xs[0]);
    assert c[1] == Combine(k, op, xs[1], xs[1]);
    assert c[2] == Combine(k, op, xs[2], xs[2]);
    assert c == [c[0], c[1], c[2]];
  }

  /** The three broadcasting shapes the tests exercise for an operator: a
      three-element container against a one-element one, either way round,
      and against itself. */
  lemma BroadcastThree(k: Kind, op: ElemOp, x: Matrix, y: Matrix, z: Matrix, u: Matrix)
    requires Shaped(k, x) && Shaped(k, y) && Shaped(k, z) && Shaped(k, u)
    ensures Broadcast(k, op, [x, y, z], [u])
            == Ok([Combine(k, op, x, u), Combine(k, op, y, u), Combine(k, op, z, u)])
    ensures Broadcast(k, op, [u], [x, y, z])
            == Ok([Combine(k, op, u, x), Combine(k, op, u, y), Combine(k, op, u, z)])
    ensures Broadcast(k, op, [x, y, z], [x, y, z])
            == Ok([Combine(k, op, x, x), Combine(k, op, y, y), Combine(k, op, z, z)])
  {
    BroadcastThreeOne(k, op, x, y, z, u);
    BroadcastOneThree(k, op, x, y, z, u);
    BroadcastPaired(k, op, x, y, z);
  }

  /** `R * rx`, `rx * R`, `R * R` for R = [x, y, z] and rx = [u]: always a
      group-typed container of length 3, combined pairwise. */
  lemma ComposeTable(k: Kind, x: Matrix, y: Matrix, z: Matrix, u: Matrix)
    requires Shaped(k, x) && Shaped(k, y) && Shaped(k, z) && Shaped(k, u)
    ensures Times(Pose(k, [x, y, z]), Container(Single(k, u)))
            == Ok(Group(Pose(k, [Compose(k, x, u), Compose(k, y, u), Compose(k, z, u)])))
    ensures Times(Single(k, u), Container(Pose(k, [x, y, z])))
            == Ok(Group(Pose(k, [Compose(k, u, x), Compose(k, u, y), Compose(k, u, z)])))
    ensures Times(Pose(k, [x, y, z]), Container(Pose(k, [x, y, z])))
            == Ok(Group(Pose(k, [Compose(k, x, x), Compose(k, y, y), Compose(k, z, z)])))
  {
    BroadcastThree(k, ComposeOp, x, y, z, u);
  }

  /** `R / R` on three valid elements is three identities. */
  lemma DivideSelfThree(k: Kind, x: Matrix, y: Matrix, z: Matrix)
    requires IsMember(k, x) && IsMember(k, y) && IsMember(k, z)
    ensures Divide(Pose(k, [x, y, z]), Container(Pose(k, [x, y, z])))
            == Ok(Group(Pose(k, [Identity(Size(k)), Identity(Size(k)), Identity(Size(k))])))
  {
    DivideSelf(Pose(k, [x, y, z]));
    assert Identities(k, 3).elems == [Identity(Size(k)), Identity(Size(k)), Identity(Size(k))];
  }

  /** `R / rx`, `rx / R`, `R / R`: composition with the inverse, pairwise,
      and group-typed; on valid elements `R / R` is three identities. */
  lemma DivideTable(k: Kind, x: Matrix, y: Matrix, z: Matrix, u: Matrix)
    requires Shaped(k, x) && Shaped(k, y) && Shaped(k, z) && Shaped(k, u)
    ensures Divide(Pose(k, [x, y, z]), Container(Single(k, u)))
            == Ok(Group(Pose(k, [Compose(k, x, Inverse(k, u)), Compose(k, y, Inverse(k, u)),
                                 Compose(k, z, Inverse(k, u))])))
    ensures Divide(Single(k, u), Container(Pose(k, [x, y, z])))
            == Ok(Group(Pose(k, [Compose(k, u, Inverse(k, x)), Compose(k, u, Inverse(k, y)),
                                 Compose(k, u, Inverse(k, z))])))
    ensures IsMember(k, x) && IsMember(k, y) && IsMember(k, z) ==>
              Divide(Pose(k, [x, y, z]), Container(Pose(k, [x, y, z])))
              == Ok(Group(Pose(k, [Identity(Size(k)), Identity(Size(k)), Identity(Size(k))])))
  {
    BroadcastThreeOne(k, DivideOp, x, y, z, u);
    BroadcastOneThree(k, DivideOp, x, y, z, u);
    if IsMember(k, x) && IsMember(k, y) && IsMember(k, z) {
      DivideSelfThree(k, x, y, z);
    }
  }

  /** `R + rx`, `rx + R`, `R + R` and the same for `-`: raw, pairwise. */
  lemma AdditiveTable(k: Kind, x: Matrix, y: Matrix, z: Matrix, u: Matrix)
    requires Shaped(k, x) && Shaped(k, y) && Shaped(k, z) && Shaped(k, u)
    ensures Plus(Pose(k, [x, y, z]), Container(Single(k, u)))
            == Ok(Raw([MAdd(x, u), MAdd(y, u), MAdd(z, u)]))
    ensures Plus(Single(k, u), Container(Pose(k, [x, y, z])))
            == Ok(Raw([MAdd(u, x), MAdd(u, y), MAdd(u, z)]))
    ensures Plus(Pose(k, [x, y, z]), Container(Pose(k, [x, y, z])))
            == Ok(Raw([MAdd(x, x), MAdd(y, y), MAdd(z, z)]))
    ensures Minus(Pose(k, [x, y, z]), Container(Single(k, u)))
            == Ok(Raw([MSub(x, u), MSub(y, u), MSub(z, u)]))
    ensures Minus(Single(k, u), Container(Pose(k, [x, y, z])))
            == Ok(Raw([MSub(u, x), MSub(u, y), MSub(u, z)]))
    ensures Minus(Pose(k, [x, y, z]), Container(Pose(k, [x, y, z])))
            == Ok(Raw([MSub(x, x), MSub(y, y), MSub(z, z)]))
  {
    BroadcastThree(k, PlusOp, x, y, z, u);
    BroadcastThree(k, MinusOp, x, y, z, u);
  }

  /** `R * 2`, `2 * R`, `R / 2`, `R + 1`, `R - 1` on three elements: raw,
      element by element. */
  lemma ScalarTable(k: Kind, x: Matrix, y: Matrix, z: Matrix)
    requires Shaped(k, x) && Shaped(k, y) && Shaped(k, z)
    ensures Times(Pose(k, [x, y, z]), Scalar(2.0)) == Ok(Raw([MScale(2.0, x), MScale(2.0, y), MScale(2.0, z)]))
    ensures RTimes(2.0, Pose(k, [x, y, z])) == Raw([MScale(2.0, x), MScale(2.0, y), MScale(2.0, z)])
    ensures Divide(Pose(k, [x, y, z]), Scalar(2.0)) == Ok(Raw([MScale(0.5, x), MScale(0.5, y), MScale(0.5, z)]))
    ensures Plus(Pose(k, [x, y, z]), Scalar(1.0))
            == Ok(Raw([MAddScalar(x, 1.0), MAddScalar(y, 1.0), MAddScalar(z, 1.0)]))
    ensures Minus(Pose(k, [x, y, z]), Scalar(1.0))
            == Ok(Raw([MAddScalar(x, -1.0), MAddScalar(y, -1.0), MAddScalar(z, -1.0)]))
  {
    var ms := [x, y, z];
    var a := ScaleEach(k, 2.0, ms);
    var b := ScaleEach(k, 0.5, ms);
    var c := ShiftEach(k, 1.0, ms);
    var d := ShiftEach(k, -1.0, ms);
    assert a == [a[0], a[1], a[2]];
    assert b == [b[0], b[1], b[2]];
    assert c == [c[0], c[1], c[2]];
    assert d == [d[0], d[1], d[2]];
  }

  /** `R * v` for three elements and one vector gives one column per element;
      `rx * [u v w]` for one element and three columns gives one column per
      column. */
  lemma VectorTable(k: Kind, x: Matrix, y: Matrix, z: Matrix, u: Vector, v: Vector, w: Vector)
    requires Shaped(k, x) && Shaped(k, y) && Shaped(k, z)
    requires |u| == 3 && |v| == 3 && |w| == 3
    ensures Times(Pose(k, [x, y, z]), Vector(u)) == Ok(Columns([Act(k, x, u), Act(k, y, u), Act(k, z, u)]))
    ensures Times(Single(k, x), Array([[u[0], v[0], w[0]], [u[1], v[1], w[1]], [u[2], v[2], w[2]]]))
            == Ok(Columns([Act(k, x, u), Act(k, x, v), Act(k, x, w)]))
  {
    var a := Times(Pose(k, [x, y, z]), Vector(u)).value.cols;
    assert a == [a[0], a[1], a[2]];
    var m := [[u[0], v[0], w[0]], [u[1], v[1], w[1]], [u[2], v[2], w[2]]];
    assert Col(m, 0) == u && Col(m, 1) == v && Col(m, 2) == w;
    var b := Times(Single(k, x), Array(m)).value.cols;
    assert b == [b[0], b[1], b[2]];
  }

  /** `a = R; a *= rx` and then `a = R; a *= R`: the second in-place product
      still sees the original R, because the first only rebound a. */
  lemma RebindTable(k: Kind, x: Matrix, y: Matrix, z: Matrix, u: Matrix)
    requires Shaped(k, x) && Shaped(k, y) && Shaped(k, z) && Shaped(k, u)
    ensures var env := map["R" := Group(Pose(k, [x, y, z]))];
            var first := InPlace(env["a" := env["R"]], "a", MulAssign, Container(Single(k, u)));
            && first.Ok?
            && first.value == map["R" := Group(Pose(k, [x, y, z])),
                                  "a" := Group(Pose(k, [Compose(k, x, u), Compose(k, y, u), Compose(k, z, u)]))]
            && InPlace(first.value["a" := first.value["R"]], "a", MulAssign, Container(Pose(k, [x, y, z])))
               == Ok(map["R" := Group(Pose(k, [x, y, z])),
                         "a" := Group(Pose(k, [Compose(k, x, x), Compose(k, y, y), Compose(k, z, z)]))])
  {
    ComposeTable(k, x, y, z, u);
    var r := Group(Pose(k, [x, y, z]));
    var env := map["R" := r];
    var env1 := env["a" := env["R"]];
    assert env1 == map["R" := r, "a" := r];
    var first := InPlace(env1, "a", MulAssign, Container(Single(k, u)));
    var ru := Group(Pose(k, [Compose(k, x, u), Compose(k, y, u), Compose(k, z, u)]));
    assert Apply(MulAssign, Pose(k, [x, y, z]), Container(Single(k, u))) == Ok(ru);
    assert first == Ok(env1["a" := ru]);
    assert first.value == map["R" := r, "a" := ru];
    var env2 := first.value["a" := first.value["R"]];
    assert env2 == map["R" := r, "a" := r];
    var rr := Group(Pose(k, [Compose(k, x, x), Compose(k, y, y), Compose(k, z, z)]));
    assert Apply(MulAssign, Pose(k, [x, y, z]), Container(Pose(k, [x, y, z]))) == Ok(rr);
    assert InPlace(env2, "a", MulAssign, Container(Pose(k, [x, y, z]))) == Ok(env2["a" := rr]);
    assert env2["a" := rr] == map["R" := r, "a" := rr];
  }

  // ---------------------------------------------------------------------
  // Construction

  lemma SingleValid(k: Kind, m: Matrix)
    requires IsMember(k, m)
    ensures Valid(Single(k, m))
  {
  }

  /** `R = SO3(); R.append(a); R.append(b)`: three elements in order. */
  lemma AppendTwice(k: Kind, a: Matrix, b: Matrix)
    requires IsMember(k, a) && IsMember(k, b)
    ensures Append(Null(k), Single(k, a)).Ok?
    ensures Append(Append(Null(k), Single(k, a)).value, Single(k, b))
            == Ok(Pose(k, [Identity(Size(k)), a, b]))
  {
    SingleValid(k, a);
    SingleValid(k, b);
    var r1 := Append(Null(k), Single(k, a)).value;
    assert r1.elems == [Identity(Size(k)), a];
    assert r1.elems + [b] == [Identity(Size(k)), a, b];
  }

  /** Building from three matrices or from three one-element containers
      keeps length and order. */
  lemma BuildFromList(k: Kind, a: Matrix, b: Matrix, c: Matrix)
    requires IsMember(k, a) && IsMember(k, b) && IsMember(k, c)
    ensures FromMatrices(k, [a, b, c]) == Ok(Pose(k, [a, b, c]))
    ensures FromPoses(k, [Single(k, a), Single(k, b), Single(k, c)]) == Ok(Pose(k, [a, b, c]))
  {
    SingleValid(k, a);
    SingleValid(k, b);
    SingleValid(k, c);
    var r := FromPoses(k, [Single(k, a), Single(k, b), Single(k, c)]).value;
    assert r.elems == [r.elems[0], r.elems[1], r.elems[2]];
  }

  // ---------------------------------------------------------------------
  // Quarter turns

  /** The quarter turns are rotations, and lift to SE(3) elements. */
  lemma QuarterTurnsAreMembers()
    ensures IsRot(RX90) && IsRot(RY90) && IsRot(RZ90) && IsRot(RXM90)
    ensures IsHom(HomRot(RX90)) && IsHom(HomRot(RY90)) && IsHom(HomRot(RZ90)) && IsHom(HomRot(RXM90))
  {
    RotXIsRot(0.0, 1.0);
    RotYIsRot(0.0, 1.0);
    RotZIsRot(0.0, 1.0);
    RotXIsRot(0.0, -1.0);
    HomRotIsHom(RX90);
    HomRotIsHom(RY90);
    HomRotIsHom(RZ90);
    HomRotIsHom(RXM90);
  }

  /** A quarter turn as an element of the given kind. */
  function Lift(k: Kind, r: Matrix): (m: Matrix)
    requires IsMat(r, 3, 3)
    ensures Shaped(k, m)
  {
    match k
    case SO3 => r
    case SE3 => HomRot(r)
  }

  lemma TimesSingles(k: Kind, a: Matrix, b: Matrix)
    requires Shaped(k, a) && Shaped(k, b)
    ensures Times(Single(k, a), Container(Single(k, b))) == Ok(Group(Single(k, Compose(k, a, b))))
  {
    BroadcastOne(k, ComposeOp, a, b);
  }

  /** `Rx(90) * Ry(90) * Rx(-90) == Rz(90)`, for both kinds. */
  lemma QuarterTurnProduct(k: Kind)
    ensures Times(Single(k, Lift(k, RX90)), Container(Single(k, Lift(k, RY90)))).Ok?
    ensures Times(Times(Single(k, Lift(k, RX90)), Container(Single(k, Lift(k, RY90)))).value.pose,
                  Container(Single(k, Lift(k, RXM90))))
            == Ok(Group(Single(k, Lift(k, RZ90))))
  {
    var p := [[0.0, 0.0, 1.0], [1.0, 0.0, 0.0], [0.0, 1.0, 0.0]];
    Mul3(RX90, RY90);
    Ext3(Mul(RX90, RY90), p);
    Mul3(p, RXM90);
    Ext3(Mul(p, RXM90), RZ90);
    if k == SE3 {
      HomRotCompose(RX90, RY90);
      HomRotCompose(p, RXM90);
    }
    TimesSingles(k, Lift(k, RX90), Lift(k, RY90));
    TimesSingles(k, Compose(k, Lift(k, RX90), Lift(k, RY90)), Lift(k, RXM90));
  }

  /** `x * v` on one element and one vector is a single raw column. */
  predicate ActsAs(k: Kind, m: Matrix, v: Vector, w: Vector)
    requires Shaped(k, m) && |v| == 3
  {
    Times(Single(k, m), Vector(v)) == Ok(Columns([w]))
  }

  lemma ActSingle(k: Kind, r: Matrix, v: Vector, w: Vector)
    requires IsMat(r, 3, 3) && |v| == 3
    requires MatVec(r, v) == w
    ensures ActsAs(k, Lift(k, r), v, w)
  {
    if k == SE3 {
      HomRotAct(r, v);
    }
    var cs := Times(Single(k, Lift(k, r)), Vector(v)).value.cols;
    assert cs == [cs[0]];
  }

  /** The quarter-turn action table on the unit vectors, for both kinds. */
  lemma QuarterTurnActions(k: Kind)
    ensures ActsAs(k, Lift(k, RX90), VX, VX)
    ensures ActsAs(k, Lift(k, RX90), VY, VZ)
    ensures ActsAs(k, Lift(k, RX90), VZ, [0.0, -1.0, 0.0])
    ensures ActsAs(k, Lift(k, RY90), VX, [0.0, 0.0, -1.0])
    ensures ActsAs(k, Lift(k, RY90), VY, VY)
    ensures ActsAs(k, Lift(k, RY90), VZ, VX)
    ensures ActsAs(k, Lift(k, RZ90), VX, VY)
    ensures ActsAs(k, Lift(k, RZ90), VY, [-1.0, 0.0, 0.0])
    ensures ActsAs(k, Lift(k, RZ90), VZ, VZ)
  {
    MatVec3(RX90, VX); ActSingle(k, RX90, VX, VX);
    MatVec3(RX90, VY); ActSingle(k, RX90, VY, VZ);
    MatVec3(RX90, VZ); ActSingle(k, RX90, VZ, [0.0, -1.0, 0.0]);
    MatVec3(RY90, VX); ActSingle(k, RY90, VX, [0.0, 0.0, -1.0]);
    MatVec3(RY90, VY); ActSingle(k, RY90, VY, VY);
    MatVec3(RY90, VZ); ActSingle(k, RY90, VZ, VX);
    MatVec3(RZ90, VX); ActSingle(k, RZ90, VX, VY);
    MatVec3(RZ90, VY); ActSingle(k, RZ90, VY, [-1.0, 0.0, 0.0]);
    MatVec3(RZ90, VZ); ActSingle(k, RZ90, VZ, VZ);
  }

  // ---------------------------------------------------------------------
  // Translations and identities as displays

  const T123: Matrix := Transl([1.0, 2.0, 3.0])

  const TWO3: Matrix := [[2.0, 0.0, 0.0], [0.0, 2.0, 0.0], [0.0, 0.0, 2.0]]
  const ZERO3: Matrix := [[0.0, 0.0, 0.0], [0.0, 0.0, 0.0], [0.0, 0.0, 0.0]]
  const EYE3_PLUS1: Matrix := [[2.0, 1.0, 1.0], [1.0, 2.0, 1.0], [1.0, 1.0, 2.0]]
  const EYE3_MINUS1: Matrix := [[0.0, -1.0, -1.0], [-1.0, 0.0, -1.0], [-1.0, -1.0, 0.0]]
  const TWO4: Matrix := [[2.0, 0.0, 0.0, 0.0], [0.0, 2.0, 0.0, 0.0], [0.0, 0.0, 2.0, 0.0], [0.0, 0.0, 0.0, 2.0]]
  const ZERO4: Matrix := [[0.0, 0.0, 0.0, 0.0], [0.0, 0.0, 0.0, 0.0], [0.0, 0.0, 0.0, 0.0], [0.0, 0.0, 0.0, 0.0]]

  /** trans(1, 2, 3) doubled, shifted by one and by the identity, both ways. */
  const T_TWICE: Matrix := [[2.0, 0.0, 0.0, 2.0], [0.0, 2.0, 0.0, 4.0], [0.0, 0.0, 2.0, 6.0], [0.0, 0.0, 0.0, 2.0]]
  const T_PLUS1: Matrix := [[2.0, 1.0, 1.0, 2.0], [1.0, 2.0, 1.0, 3.0], [1.0, 1.0, 2.0, 4.0], [1.0, 1.0, 1.0, 2.0]]
  const T_PLUS_EYE: Matrix := [[2.0, 0.0, 0.0, 1.0], [0.0, 2.0, 0.0, 2.0], [0.0, 0.0, 2.0, 3.0], [0.0, 0.0, 0.0, 2.0]]
  const T_MINUS1: Matrix := [[0.0, -1.0, -1.0, 0.0], [-1.0, 0.0, -1.0, 1.0], [-1.0, -1.0, 0.0, 2.0], [-1.0, -1.0, -1.0, 0.0]]
  const T_MINUS_EYE: Matrix := [[0.0, 0.0, 0.0, 1.0], [0.0, 0.0, 0.0, 2.0], [0.0, 0.0, 0.0, 3.0], [0.0, 0.0, 0.0, 0.0]]

  /** trans(1, 2, 3) followed by a quarter turn about y. */
  const T_RY90: Matrix := [[0.0, 0.0, 1.0, 1.0], [0.0, 1.0, 0.0, 2.0], [-1.0, 0.0, 0.0, 3.0], [0.0, 0.0, 0.0, 1.0]]

  lemma TranslDisplay(x: real, y: real, z: real)
    ensures Transl([x, y, z])
            == [[1.0, 0.0, 0.0, x], [0.0, 1.0, 0.0, y], [0.0, 0.0, 1.0, z], [0.0, 0.0, 0.0, 1.0]]
  {
    Identity3();
    Ext4(Transl([x, y, z]),
         [[1.0, 0.0, 0.0, x], [0.0, 1.0, 0.0, y], [0.0, 0.0, 1.0, z], [0.0, 0.0, 0.0, 1.0]]);
  }

  lemma Identity4()
    ensures Identity(4)
            == [[1.0, 0.0, 0.0, 0.0], [0.0, 1.0, 0.0, 0.0], [0.0, 0.0, 1.0, 0.0], [0.0, 0.0, 0.0, 1.0]]
  {
    MatrixExt(Identity(4),
              [[1.0, 0.0, 0.0, 0.0], [0.0, 1.0, 0.0, 0.0], [0.0, 0.0, 1.0, 0.0], [0.0, 0.0, 0.0, 1.0]]);
  }

  lemma NullIsSingle(k: Kind)
    ensures Null(k) == Single(k, Identity(Size(k)))
  {
    assert Null(k).elems == [Identity(Size(k))];
  }

  // Entry arithmetic on the displays, one fact per lemma.

  lemma EyeSums()
    ensures MAdd(Identity(3), Identity(3)) == TWO3
    ensures MSub(Identity(3), Identity(3)) == ZERO3
  {
    Identity3();
    Ext3(MAdd(Identity(3), Identity(3)), TWO3);
    Ext3(MSub(Identity(3), Identity(3)), ZERO3);
  }

  lemma EyeShifts()
    ensures MAddScalar(Identity(3), 1.0) == EYE3_PLUS1
    ensures MAddScalar(Identity(3), -1.0) == EYE3_MINUS1
  {
    Identity3();
    Ext3(MAddScalar(Identity(3), 1.0), EYE3_PLUS1);
    Ext3(MAddScalar(Identity(3), -1.0), EYE3_MINUS1);
  }

  lemma EyeDoubled()
    ensures MScale(2.0, Identity(3)) == TWO3
    ensures MScale(2.0, Identity(4)) == TWO4
  {
    Identity3();
    Identity4();
    Ext3(MScale(2.0, Identity(3)), TWO3);
    Ext4(MScale(2.0, Identity(4)), TWO4);
  }

  lemma TranslAddSelf()
    ensures MAdd(T123, T123) == T_TWICE
  {
    TranslDisplay(1.0, 2.0, 3.0);
    Ext4(MAdd(T123, T123), T_TWICE);
  }

  lemma TranslScaled()
    ensures MScale(2.0, T123) == T_TWICE
  {
    TranslDisplay(1.0, 2.0, 3.0);
    Ext4(MScale(2.0, T123), T_TWICE);
  }

  lemma TranslAddOne()
    ensures MAddScalar(T123, 1.0) == T_PLUS1
  {
    TranslDisplay(1.0, 2.0, 3.0);
    Ext4(MAddScalar(T123, 1.0), T_PLUS1);
  }

  lemma TranslAddEye()
    ensures MAdd(T123, Identity(4)) == T_PLUS_EYE
  {
    TranslDisplay(1.0, 2.0, 3.0);
    Identity4();
    Ext4(MAdd(T123, Identity(4)), T_PLUS_EYE);
  }

  lemma TranslSubSelf()
    ensures MSub(T123, T123) == ZERO4
  {
    TranslDisplay(1.0, 2.0, 3.0);
    Ext4(MSub(T123, T123), ZERO4);
  }

  lemma TranslSubOne()
    ensures MAddScalar(T123, -1.0) == T_MINUS1
  {
    TranslDisplay(1.0, 2.0, 3.0);
    Ext4(MAddScalar(T123, -1.0), T_MINUS1);
  }

  lemma TranslSubEye()
    ensures MSub(T123, Identity(4)) == T_MINUS_EYE
  {
    TranslDisplay(1.0, 2.0, 3.0);
    Identity4();
    Ext4(MSub(T123, Identity(4)), T_MINUS_EYE);
  }

  // Arithmetic on one-element containers.

  /** `x + y`, `x + Y`, `x + c` and the same for `-`, where x and y are
      one-element containers and Y an element-sized array: one raw matrix. */
  lemma AdditiveSingles(k: Kind, x: Matrix, y: Matrix, c: real)
    requires Shaped(k, x) && Shaped(k, y)
    ensures Plus(Single(k, x), Container(Single(k, y))) == Ok(Raw([MAdd(x, y)]))
    ensures Plus(Single(k, x), Array(y)) == Ok(Raw([MAdd(x, y)]))
    ensures Plus(Single(k, x), Scalar(c)) == Ok(Raw([MAddScalar(x, c)]))
    ensures Minus(Single(k, x), Container(Single(k, y))) == Ok(Raw([MSub(x, y)]))
    ensures Minus(Single(k, x), Array(y)) == Ok(Raw([MSub(x, y)]))
    ensures Minus(Single(k, x), Scalar(c)) == Ok(Raw([MAddScalar(x, -c)]))
  {
    BroadcastOne(k, PlusOp, x, y);
    BroadcastOne(k, MinusOp, x, y);
    var a := Plus(Single(k, x), Array(y)).value.mats;
    assert a == [a[0]];
    var b := Plus(Single(k, x), Scalar(c)).value.mats;
    assert b == [b[0]];
    var d := Minus(Single(k, x), Array(y)).value.mats;
    assert d == [d[0]];
    var e := Minus(Single(k, x), Scalar(c)).value.mats;
    assert e == [e[0]];
  }

  /** `x * c` and `c * x` on a one-element container: one raw matrix. */
  lemma ScaledSingle(k: Kind, x: Matrix, c: real)
    requires Shaped(k, x)
    ensures Times(Single(k, x), Scalar(c)) == Ok(Raw([MScale(c, x)]))
    ensures RTimes(c, Single(k, x)) == Raw([MScale(c, x)])
  {
    var a := Times(Single(k, x), Scalar(c)).value.mats;
    assert a == [a[0]];
    var b := RTimes(c, Single(k, x)).mats;
    assert b == [b[0]];
  }

  /** `SO3() + SO3()`, `+ 1`, `+ eye(3)`, and the same for `-`. */
  lemma IdentitySums()
    ensures Plus(Null(SO3), Container(Null(SO3))) == Ok(Raw([TWO3]))
    ensures Plus(Null(SO3), Scalar(1.0)) == Ok(Raw([EYE3_PLUS1]))
    ensures Plus(Null(SO3), Array(Identity(3))) == Ok(Raw([TWO3]))
    ensures Minus(Null(SO3), Container(Null(SO3))) == Ok(Raw([ZERO3]))
    ensures Minus(Null(SO3), Scalar(1.0)) == Ok(Raw([EYE3_MINUS1]))
    ensures Minus(Null(SO3), Array(Identity(3))) == Ok(Raw([ZERO3]))
  {
    NullIsSingle(SO3);
    AdditiveSingles(SO3, Identity(3), Identity(3), 1.0);
    EyeSums();
    EyeShifts();
  }

  /** `SO3() * SO3()` is the identity container; `SO3() * 2`, `2 * SO3()`
      and `SE3() * 2` are raw doubled identities. */
  lemma IdentityProducts()
    ensures Times(Null(SO3), Container(Null(SO3))) == Ok(Group(Null(SO3)))
    ensures Times(Null(SO3), Scalar(2.0)) == Ok(Raw([TWO3]))
    ensures RTimes(2.0, Null(SO3)) == Raw([TWO3])
    ensures Times(Null(SE3), Scalar(2.0)) == Ok(Raw([TWO4]))
  {
    NullIsSingle(SO3);
    NullIsSingle(SE3);
    TimesSingles(SO3, Identity(3), Identity(3));
    MulIdentityLeft(Identity(3));
    ScaledSingle(SO3, Identity(3), 2.0);
    ScaledSingle(SE3, Identity(4), 2.0);
    EyeDoubled();
  }

  /** `T + T`, `T + 1`, `T + eye(4)` for T = trans(1, 2, 3). */
  lemma TranslationSums()
    ensures Plus(Single(SE3, T123), Container(Single(SE3, T123))) == Ok(Raw([T_TWICE]))
    ensures Plus(Single(SE3, T123), Scalar(1.0)) == Ok(Raw([T_PLUS1]))
    ensures Plus(Single(SE3, T123), Array(Identity(4))) == Ok(Raw([T_PLUS_EYE]))
  {
    AdditiveSingles(SE3, T123, T123, 1.0);
    AdditiveSingles(SE3, T123, Identity(4), 1.0);
    TranslAddSelf();
    TranslAddOne();
    TranslAddEye();
  }

  /** `T - T`, `T - 1`, `T - eye(4)` for T = trans(1, 2, 3). */
  lemma TranslationDifferences()
    ensures Minus(Single(SE3, T123), Container(Single(SE3, T123))) == Ok(Raw([ZERO4]))
    ensures Minus(Single(SE3, T123), Scalar(1.0)) == Ok(Raw([T_MINUS1]))
    ensures Minus(Single(SE3, T123), Array(Identity(4))) == Ok(Raw([T_MINUS_EYE]))
  {
    AdditiveSingles(SE3, T123, T123, 1.0);
    AdditiveSingles(SE3, T123, Identity(4), 1.0);
    TranslSubSelf();
    TranslSubOne();
    TranslSubEye();
  }

  /** `T * T == trans(2, 4, 6)`, a group element; `T * 2` and `2 * T` are
      raw doubled matrices. */
  lemma TranslationProducts()
    ensures Times(Single(SE3, T123), Container(Single(SE3, T123)))
            == Ok(Group(Single(SE3, Transl([2.0, 4.0, 6.0]))))
    ensures Times(Single(SE3, T123), Scalar(2.0)) == Ok(Raw([T_TWICE]))
    ensures RTimes(2.0, Single(SE3, T123)) == Raw([T_TWICE])
  {
    TimesSingles(SE3, T123, T123);
    TranslCompose([1.0, 2.0, 3.0], [1.0, 2.0, 3.0]);
    assert VAdd([1.0, 2.0, 3.0], [1.0, 2.0, 3.0]) == [2.0, 4.0, 6.0];
    ScaledSingle(SE3, T123, 2.0);
    TranslScaled();
  }

  /** trans(1, 2, 3) composed with the lifted quarter turn about y. */
  lemma TranslQuarterTurn()
    ensures Compose(SE3, T123, HomRot(RY90)) == T_RY90
  {
    var t := [1.0, 2.0, 3.0];
    HomMul(Identity(3), t, RY90, Zeros(3));
    MulIdentityLeft(RY90);
    MatVecIdentity(Zeros(3));
    assert VAdd(Zeros(3), t) == t;
    Ext4(Hom(RY90, t), T_RY90);
  }

  /** `T = trans(1, 2, 3); T *= Ry(90)` rebinds T to the translated quarter
      turn, still a group element; `T = SE3(); T *= 2` rebinds T to a raw
      doubled identity. */
  lemma TranslationThenQuarterTurn()
    ensures InPlace(map["T" := Group(Single(SE3, T123))], "T", MulAssign, Container(Single(SE3, HomRot(RY90))))
            == Ok(map["T" := Group(Single(SE3, T_RY90))])
    ensures InPlace(map["T" := Group(Null(SE3))], "T", MulAssign, Scalar(2.0)) == Ok(map["T" := Raw([TWO4])])
  {
    IdentityProducts();
    InPlaceSingleton("T", Null(SE3), MulAssign, Scalar(2.0), Raw([TWO4]));
    TranslQuarterTurn();
    TimesSingles(SE3, T123, HomRot(RY90));
    InPlaceSingleton("T", Single(SE3, T123), MulAssign, Container(Single(SE3, HomRot(RY90))),
                     Group(Single(SE3, T_RY90)));
  }

  // ---------------------------------------------------------------------
  // In-place forms

  /** In an environment binding only name, `name op= x` rebinds name to the
      operator's result. */
  lemma InPlaceSingleton(name: string, p: Pose, op: AugOp, x: Operand, v: Value)
    requires WellShaped(p) && OperandOk(x)
    requires Apply(op, p, x) == Ok(v)
    ensures InPlace(map[name := Group(p)], name, op, x) == Ok(map[name := v])
  {
    assert map[name := Group(p)][name := v] == map[name := v];
  }

  /** `R = SO3(); R *= rx` keeps the container type. */
  lemma IdentityTimesInPlace()
    ensures InPlace(map["R" := Group(Null(SO3))], "R", MulAssign, Container(Single(SO3, RX90)))
            == Ok(map["R" := Group(Single(SO3, RX90))])
  {
    NullIsSingle(SO3);
    TimesSingles(SO3, Identity(3), RX90);
    MulIdentityLeft(RX90);
    InPlaceSingleton("R", Null(SO3), MulAssign, Container(Single(SO3, RX90)), Group(Single(SO3, RX90)));
  }

  /** `R = SO3(); R *= x`: a group operand keeps the container type, a
      scalar demotes the name to a raw array. */
  lemma IdentityInPlace()
    ensures InPlace(map["R" := Group(Null(SO3))], "R", MulAssign, Container(Single(SO3, RX90)))
            == Ok(map["R" := Group(Single(SO3, RX90))])
    ensures InPlace(map["R" := Group(Null(SO3))], "R", MulAssign, Scalar(2.0)) == Ok(map["R" := Raw([TWO3])])
  {
    IdentityTimesInPlace();
    IdentityProducts();
    InPlaceSingleton("R", Null(SO3), MulAssign, Scalar(2.0), Raw([TWO3]));
  }

  /** `R = SO3(); R += 1`, `R -= SO3()`, `R -= 1`: additive in-place forms
      always demote the name to a raw array. */
  lemma IdentityShiftInPlace()
    ensures InPlace(map["R" := Group(Null(SO3))], "R", AddAssign, Scalar(1.0)) == Ok(map["R" := Raw([EYE3_PLUS1])])
    ensures InPlace(map["R" := Group(Null(SO3))], "R", SubAssign, Container(Null(SO3)))
            == Ok(map["R" := Raw([ZERO3])])
    ensures InPlace(map["R" := Group(Null(SO3))], "R", SubAssign, Scalar(1.0)) == Ok(map["R" := Raw([EYE3_MINUS1])])
  {
    IdentitySums();
    InPlaceSingleton("R", Null(SO3), AddAssign, Scalar(1.0), Raw([EYE3_PLUS1]));
    InPlaceSingleton("R", Null(SO3), SubAssign, Container(Null(SO3)), Raw([ZERO3]));
    InPlaceSingleton("R", Null(SO3), SubAssign, Scalar(1.0), Raw([EYE3_MINUS1]));
  }

  /** Rebinding a at v in the environment {T: t, a: t}. */
  lemma RebindA(t: Value, v: Value)
    ensures map["T" := t, "a" := t]["a" := v] == map["T" := t, "a" := v]
    ensures map["T" := t, "a" := v]["a" := t] == map["T" := t, "a" := t]
  {
  }

  /** `a = T; a += T` and then `a = T; a += 1` (and the same with `-=`): the
      second step still sees the original T, and T itself stays bound to
      the translation throughout. */
  lemma TranslationRebind()
    ensures var t := Group(Single(SE3, T123));
            var env := map["T" := t, "a" := t];
            && InPlace(env, "a", AddAssign, Container(Single(SE3, T123)))
               == Ok(map["T" := t, "a" := Raw([T_TWICE])])
            && InPlace(InPlace(env, "a", AddAssign, Container(Single(SE3, T123))).value["a" := t],
                       "a", AddAssign, Scalar(1.0))
               == Ok(map["T" := t, "a" := Raw([T_PLUS1])])
            && InPlace(env, "a", SubAssign, Container(Single(SE3, T123)))
               == Ok(map["T" := t, "a" := Raw([ZERO4])])
            && InPlace(InPlace(env, "a", SubAssign, Container(Single(SE3, T123))).value["a" := t],
                       "a", SubAssign, Scalar(1.0))
               == Ok(map["T" := t, "a" := Raw([T_MINUS1])])
  {
    TranslationSums();
    TranslationDifferences();
    var t := Group(Single(SE3, T123));
    RebindA(t, Raw([T_TWICE]));
    RebindA(t, Raw([T_PLUS1]));
    RebindA(t, Raw([ZERO4]));
    RebindA(t, Raw([T_MINUS1]));
  }
}
