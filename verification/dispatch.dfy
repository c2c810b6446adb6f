/** The operator dispatcher of the pose container. Each binary operator
    classifies its right operand (container, scalar, vector, 2-D array) and
    returns a tagged value: a group-typed container for composition and
    division between two group operands, and a raw array for everything
    else. Container lengths combine by one broadcasting rule: equal lengths
    pair up, and a length-1 operand is applied against every element of the
    other. */
module Dispatch {
  import opened LinAlg
  import opened Groups
  import opened Results
  import opened Poses

  /** The classified right-hand operand of an operator. */
  datatype Operand =
    | Container(pose: Pose)   // an SO3 / SE3 object
    | Scalar(c: real)         // a plain number
    | Vector(v: Vector)       // a flat list or one-dimensional array
    | Array(rows: Matrix)     // a two-dimensional array, row by row

  /** The result of an operator: a group-typed container or a raw array. */
  datatype Value =
    | Group(pose: Pose)             // still an SO3 / SE3 object
    | Raw(mats: seq<Matrix>)        // one plain matrix per element
    | Columns(cols: seq<Vector>)    // a plain 3 x n array, column by column

  /** A container operand satisfies the container's own shape invariant. */
  predicate OperandOk(x: Operand) {
    x.Container? ==> WellShaped(x.pose)
  }

  predicate AllShaped(k: Kind, ms: seq<Matrix>) {
    forall i | 0 <= i < |ms| :: Shaped(k, ms[i])
  }

  // ---------------------------------------------------------------------
  // Broadcasting

  /** Two lengths combine when they are equal or one of them is 1. */
  predicate Broadcastable(m: nat, n: nat) {
    m == n || m == 1 || n == 1
  }

  function Max(m: nat, n: nat): nat {
    if m < n then n else m
  }

  /** Index into an operand of length len for result position i: a length-1
      operand always contributes its only element. */
  function Pick(i: nat, len: nat): nat {
    if len == 1 then 0 else i
  }

  /** The pairwise operations the dispatcher broadcasts. */
  datatype ElemOp = ComposeOp | DivideOp | PlusOp | MinusOp

  /** One pair of elements combined: x ∘ y, x ∘ y⁻¹, x + y or x - y. */
  function Combine(k: Kind, op: ElemOp, x: Matrix, y: Matrix): (z: Matrix)
    requires Shaped(k, x) && Shaped(k, y)
    ensures Shaped(k, z)
  {
    match op
    case ComposeOp => Compose(k, x, y)
    case DivideOp => Compose(k, x, Inverse(k, y))
    case PlusOp => MAdd(x, y)
    case MinusOp => MSub(x, y)
  }

  /** Pairwise combination of two element lists under the broadcasting rule. */
  function Broadcast(k: Kind, op: ElemOp, xs: seq<Matrix>, ys: seq<Matrix>): (r: Result<seq<Matrix>>)
    requires |xs| >= 1 && |ys| >= 1 && AllShaped(k, xs) && AllShaped(k, ys)
    ensures r.Ok? <==> Broadcastable(|xs|, |ys|)
    ensures r.Err? ==> r.error == BroadcastMismatch
    ensures r.Ok? ==> |r.value| == Max(|xs|, |ys|) && AllShaped(k, r.value)
    ensures r.Ok? && |xs| == |ys| ==>
              forall i | 0 <= i < |xs| :: r.value[i] == Combine(k, op, xs[i], ys[i])
    ensures r.Ok? && |xs| == 1 ==>
              forall i | 0 <= i < |ys| :: r.value[i] == Combine(k, op, xs[0], ys[i])
    ensures r.Ok? && |ys| == 1 ==>
              forall i | 0 <= i < |xs| :: r.value[i] == Combine(k, op, xs[i], ys[0])
  {
    if !Broadcastable(|xs|, |ys|) then Err(BroadcastMismatch)
    else
      var n := if |xs| == 1 then |ys| else |xs|;
      Ok(seq(n, i requires 0 <= i < n =>
        Combine(k, op, xs[Pick(i, |xs|)], ys[Pick(i, |ys|)])))
  }

  /** Position i of a broadcast result combines the elements the two
      operands contribute at that position. */
  lemma BroadcastAt(k: Kind, op: ElemOp, xs: seq<Matrix>, ys: seq<Matrix>, i: nat)
    requires |xs| >= 1 && |ys| >= 1 && AllShaped(k, xs) && AllShaped(k, ys)
    requires Broadcastable(|xs|, |ys|) && i < Max(|xs|, |ys|)
    ensures Pick(i, |xs|) < |xs| && Pick(i, |ys|) < |ys|
    ensures i < |Broadcast(k, op, xs, ys).value|
    ensures Broadcast(k, op, xs, ys).value[i] == Combine(k, op, xs[Pick(i, |xs|)], ys[Pick(i, |ys|)])
  {
  }

  /** Group action of a list of elements on a list of 3-vectors, under the
      same broadcasting rule. */
  function ActEach(k: Kind, ms: seq<Matrix>, vs: seq<Vector>): (r: Result<seq<Vector>>)
    requires |ms| >= 1 && AllShaped(k, ms)
    requires forall j | 0 <= j < |vs| :: |vs[j]| == 3
    ensures r.Ok? <==> Broadcastable(|ms|, |vs|)
    ensures r.Err? ==> r.error == BroadcastMismatch
    ensures r.Ok? && |ms| == |vs| ==>
              |r.value| == |ms| && forall i | 0 <= i < |ms| :: r.value[i] == Act(k, ms[i], vs[i])
    ensures r.Ok? && |ms| == 1 ==>
              |r.value| == |vs| && forall j | 0 <= j < |vs| :: r.value[j] == Act(k, ms[0], vs[j])
    ensures r.Ok? && |vs| == 1 ==>
              |r.value| == |ms| && forall i | 0 <= i < |ms| :: r.value[i] == Act(k, ms[i], vs[0])
  {
    if !Broadcastable(|ms|, |vs|) then Err(BroadcastMismatch)
    else
      var n := if |ms| == 1 then |vs| else |ms|;
      Ok(seq(n, i requires 0 <= i < n => Act(k, ms[Pick(i, |ms|)], vs[Pick(i, |vs|)])))
  }

  /** A 3 x w array of w stacked column vectors. */
  predicate IsPointArray(m: Matrix) {
    |m| == 3 && IsMat(m, 3, |m[0]|)
  }

  function ColumnsOf(m: Matrix): (cs: seq<Vector>)
    requires IsPointArray(m)
    ensures |cs| == |m[0]|
    ensures forall j | 0 <= j < |cs| :: cs[j] == Col(m, j)
  {
    seq(|m[0]|, j requires 0 <= j < |m[0]| => Col(m, j))
  }

  // ---------------------------------------------------------------------
  // Elementwise, group-breaking helpers

  function ScaleEach(k: Kind, c: real, ms: seq<Matrix>): (r: seq<Matrix>)
    requires AllShaped(k, ms)
    ensures |r| == |ms|
    ensures forall i | 0 <= i < |ms| :: r[i] == MScale(c, ms[i])
  {
    seq(|ms|, i requires 0 <= i < |ms| => MScale(c, ms[i]))
  }

  function ShiftEach(k: Kind, c: real, ms: seq<Matrix>): (r: seq<Matrix>)
    requires AllShaped(k, ms)
    ensures |r| == |ms|
    ensures forall i | 0 <= i < |ms| :: r[i] == MAddScalar(ms[i], c)
  {
    seq(|ms|, i requires 0 <= i < |ms| => MAddScalar(ms[i], c))
  }

  /** ms holds, element by element and entry by entry, c times base. */
  predicate EntriesScaled(k: Kind, ms: seq<Matrix>, base: seq<Matrix>, c: real)
    requires AllShaped(k, base)
  {
    && |ms| == |base|
    && AllShaped(k, ms)
    && (forall i, a, b | 0 <= i < |ms| && 0 <= a < Size(k) && 0 <= b < Size(k) ::
          ms[i][a][b] == c * base[i][a][b])
  }

  /** ms holds, element by element and entry by entry, base plus c. */
  predicate EntriesShifted(k: Kind, ms: seq<Matrix>, base: seq<Matrix>, c: real)
    requires AllShaped(k, base)
  {
    && |ms| == |base|
    && AllShaped(k, ms)
    && (forall i, a, b | 0 <= i < |ms| && 0 <= a < Size(k) && 0 <= b < Size(k) ::
          ms[i][a][b] == base[i][a][b] + c)
  }

  // ---------------------------------------------------------------------
  // Operators with a container on the left

  /** `p * x`: composition with a container (group-typed), scaling by a
      scalar (raw), or the group action on vectors (raw columns). */
  function Times(p: Pose, x: Operand): (r: Result<Value>)
    requires WellShaped(p) && OperandOk(x)
    ensures x.Container? ==>
              (r.Ok? <==> x.pose.kind == p.kind && Broadcastable(Len(p), Len(x.pose)))
    ensures x.Container? && r.Ok? ==> r.value.Group? && r.value.pose.kind == p.kind
    ensures x.Container? && r.Ok? ==>
              r.value.pose.elems == Broadcast(p.kind, ComposeOp, p.elems, x.pose.elems).value
    ensures x.Container? && x.pose.kind != p.kind ==> r == Err(DimensionMismatch)
    ensures x.Container? && x.pose.kind == p.kind && !Broadcastable(Len(p), Len(x.pose)) ==>
              r == Err(BroadcastMismatch)
    ensures x.Scalar? ==> r.Ok? && r.value.Raw? && EntriesScaled(p.kind, r.value.mats, p.elems, x.c)
    ensures x.Vector? ==> (r.Ok? <==> |x.v| == 3)
    ensures x.Vector? && |x.v| != 3 ==> r == Err(DimensionMismatch)
    ensures x.Vector? && r.Ok? ==>
              && r.value.Columns? && |r.value.cols| == Len(p)
              && forall i | 0 <= i < Len(p) :: r.value.cols[i] == Act(p.kind, p.elems[i], x.v)
    ensures x.Array? ==> (r.Ok? <==> IsPointArray(x.rows) && Broadcastable(Len(p), |x.rows[0]|))
    ensures x.Array? && !IsPointArray(x.rows) ==> r == Err(DimensionMismatch)
    ensures x.Array? && IsPointArray(x.rows) && !Broadcastable(Len(p), |x.rows[0]|) ==>
              r == Err(BroadcastMismatch)
    ensures x.Array? && r.Ok? ==>
              r.value.Columns? && r.value.cols == ActEach(p.kind, p.elems, ColumnsOf(x.rows)).value
    ensures x.Array? && Len(p) == 1 ==> (r.Ok? <==> IsPointArray(x.rows))
    ensures x.Array? && Len(p) == 1 && r.Ok? ==>
              && |r.value.cols| == |x.rows[0]|
              && forall j | 0 <= j < |x.rows[0]| ::
                   r.value.cols[j] == Act(p.kind, p.elems[0], Col(x.rows, j))
  {
    match x
    case Container(q) =>
      if q.kind != p.kind then Err(DimensionMismatch)
      else
        var ms :- Broadcast(p.kind, ComposeOp, p.elems, q.elems);
        Ok(Group(Pose(p.kind, ms)))
    case Scalar(c) =>
      Ok(Raw(ScaleEach(p.kind, c, p.elems)))
    case Vector(v) =>
      if |v| != 3 then Err(DimensionMismatch)
      else
        Ok(Columns(ActEach(p.kind, p.elems, [v]).value))
    case Array(m) =>
      if !IsPointArray(m) then Err(DimensionMismatch)
      else
        var cs :- ActEach(p.kind, p.elems, ColumnsOf(m));
        Ok(Columns(cs))
  }

  /** `c * p`: a scalar on the left scales every entry; the result is raw. */
  function RTimes(c: real, p: Pose): (r: Value)
    requires WellShaped(p)
    ensures r.Raw? && EntriesScaled(p.kind, r.mats, p.elems, c)
  {
    Raw(ScaleEach(p.kind, c, p.elems))
  }

  /** `p / x`: composition with the inverse of a container (group-typed), or
      division of every entry by a non-zero scalar (raw). */
  function Divide(p: Pose, x: Operand): (r: Result<Value>)
    requires WellShaped(p) && OperandOk(x)
    ensures x.Container? ==>
              (r.Ok? <==> x.pose.kind == p.kind && Broadcastable(Len(p), Len(x.pose)))
    ensures x.Container? && r.Ok? ==> r.value.Group? && r.value.pose.kind == p.kind
    ensures x.Container? && r.Ok? ==>
              r.value.pose.elems == Broadcast(p.kind, DivideOp, p.elems, x.pose.elems).value
    ensures x.Container? && x.pose.kind != p.kind ==> r == Err(DimensionMismatch)
    ensures x.Container? && x.pose.kind == p.kind && !Broadcastable(Len(p), Len(x.pose)) ==>
              r == Err(BroadcastMismatch)
    ensures x.Scalar? ==> (r.Ok? <==> x.c != 0.0)
    ensures x.Scalar? && x.c == 0.0 ==> r == Err(ZeroDivision)
    ensures x.Scalar? && r.Ok? ==> r.value.Raw? && EntriesScaled(p.kind, r.value.mats, p.elems, 1.0 / x.c)
    ensures x.Vector? || x.Array? ==> r == Err(Unsupported)
  {
    match x
    case Container(q) =>
      if q.kind != p.kind then Err(DimensionMismatch)
      else
        var ms :- Broadcast(p.kind, DivideOp, p.elems, q.elems);
        Ok(Group(Pose(p.kind, ms)))
    case Scalar(c) =>
      if c == 0.0 then Err(ZeroDivision) else Ok(Raw(ScaleEach(p.kind, 1.0 / c, p.elems)))
    case _ =>
      Err(Unsupported)
  }

  /** The element list a container or an element-shaped array contributes to
      `+` and `-`; anything else is refused. */
  function AdditiveElems(k: Kind, x: Operand): (r: Result<seq<Matrix>>)
    requires OperandOk(x)
    ensures r.Ok? ==> |r.value| >= 1 && AllShaped(k, r.value)
    ensures x.Container? ==> (r.Ok? <==> x.pose.kind == k)
    ensures x.Container? && r.Ok? ==> r.value == x.pose.elems
    ensures x.Array? ==> (r.Ok? <==> Shaped(k, x.rows))
    ensures x.Array? && r.Ok? ==> r.value == [x.rows]
    ensures r.Err? ==> r.error == (if x.Container? || x.Array? then DimensionMismatch else Unsupported)
  {
    match x
    case Container(q) =>
      if q.kind != k then Err(DimensionMismatch) else Ok(q.elems)
    case Array(m) =>
      if !Shaped(k, m) then Err(DimensionMismatch) else Ok([m])
    case _ =>
      Err(Unsupported)
  }

  /** `p + x`: never group-closed. A container or matrix adds elementwise
      under broadcasting; a scalar is added to every entry of every element. */
  function Plus(p: Pose, x: Operand): (r: Result<Value>)
    requires WellShaped(p) && OperandOk(x)
    ensures r.Ok? ==> r.value.Raw?
    ensures x.Scalar? ==> r.Ok? && EntriesShifted(p.kind, r.value.mats, p.elems, x.c)
    ensures x.Container? ==>
              (r.Ok? <==> x.pose.kind == p.kind && Broadcastable(Len(p), Len(x.pose)))
    ensures x.Container? && r.Ok? ==>
              r == Ok(Raw(Broadcast(p.kind, PlusOp, p.elems, x.pose.elems).value))
    ensures x.Container? && x.pose.kind != p.kind ==> r == Err(DimensionMismatch)
    ensures x.Container? && x.pose.kind == p.kind && !Broadcastable(Len(p), Len(x.pose)) ==>
              r == Err(BroadcastMismatch)
    ensures x.Array? ==> (r.Ok? <==> Shaped(p.kind, x.rows))
    ensures x.Array? && !Shaped(p.kind, x.rows) ==> r == Err(DimensionMismatch)
    ensures x.Array? && r.Ok? ==>
              |r.value.mats| == Len(p)
              && forall i | 0 <= i < Len(p) :: r.value.mats[i] == MAdd(p.elems[i], x.rows)
    ensures x.Vector? ==> r == Err(Unsupported)
  {
    if x.Scalar? then Ok(Raw(ShiftEach(p.kind, x.c, p.elems)))
    else
      var ys :- AdditiveElems(p.kind, x);
      var ms :- Broadcast(p.kind, PlusOp, p.elems, ys);
      Ok(Raw(ms))
  }

  /** `p - x`: as `+`, with subtraction. */
  function Minus(p: Pose, x: Operand): (r: Result<Value>)
    requires WellShaped(p) && OperandOk(x)
    ensures r.Ok? ==> r.value.Raw?
    ensures x.Scalar? ==> r.Ok? && EntriesShifted(p.kind, r.value.mats, p.elems, -x.c)
    ensures x.Container? ==>
              (r.Ok? <==> x.pose.kind == p.kind && Broadcastable(Len(p), Len(x.pose)))
    ensures x.Container? && r.Ok? ==>
              r == Ok(Raw(Broadcast(p.kind, MinusOp, p.elems, x.pose.elems).value))
    ensures x.Container? && x.pose.kind != p.kind ==> r == Err(DimensionMismatch)
    ensures x.Container? && x.pose.kind == p.kind && !Broadcastable(Len(p), Len(x.pose)) ==>
              r == Err(BroadcastMismatch)
    ensures x.Array? ==> (r.Ok? <==> Shaped(p.kind, x.rows))
    ensures x.Array? && !Shaped(p.kind, x.rows) ==> r == Err(DimensionMismatch)
    ensures x.Array? && r.Ok? ==>
              |r.value.mats| == Len(p)
              && forall i | 0 <= i < Len(p) :: r.value.mats[i] == MSub(p.elems[i], x.rows)
    ensures x.Vector? ==> r == Err(Unsupported)
  {
    if x.Scalar? then Ok(Raw(ShiftEach(p.kind, -x.c, p.elems)))
    else
      var ys :- AdditiveElems(p.kind, x);
      var ms :- Broadcast(p.kind, MinusOp, p.elems, ys);
      Ok(Raw(ms))
  }

  // ---------------------------------------------------------------------
  // In-place operators: rebinding a name in an environment of values

  datatype AugOp = MulAssign | DivAssign | AddAssign | SubAssign

  /** The operator an augmented assignment stands for. */
  function Apply(op: AugOp, p: Pose, x: Operand): Result<Value>
    requires WellShaped(p) && OperandOk(x)
  {
    match op
    case MulAssign => Times(p, x)
    case DivAssign => Divide(p, x)
    case AddAssign => Plus(p, x)
    case SubAssign => Minus(p, x)
  }

  type Env = map<string, Value>

  predicate EnvOk(env: Env) {
    forall n | n in env :: env[n].Group? ==> WellShaped(env[n].pose)
  }

  /** `name op= x`: applies the operator to the value bound to name and
      rebinds name to the result; no other binding changes, so a value that
      was also bound under another name is not affected. Augmented
      assignment on a name that is unbound or already holds a raw array is
      outside the container's operators. */
  function InPlace(env: Env, name: string, op: AugOp, x: Operand): (r: Result<Env>)
    requires EnvOk(env) && OperandOk(x)
    ensures !(name in env && env[name].Group?) ==> r == Err(Unsupported)
    ensures name in env && env[name].Group? ==>
              (r.Ok? <==> Apply(op, env[name].pose, x).Ok?)
    ensures r.Ok? ==> && name in env && env[name].Group?
                      && r.value.Keys == env.Keys
                      && Apply(op, env[name].pose, x) == Ok(r.value[name])
                      && forall n | n in env && n != name :: r.value[n] == env[n]
    ensures r.Ok? ==>
              (r.value[name].Group? <==> (op == MulAssign || op == DivAssign) && x.Container?)
  {
    if name !in env || !env[name].Group? then Err(Unsupported)
    else
      var v :- Apply(op, env[name].pose, x);
      Ok(env[name := v])
  }

  // ---------------------------------------------------------------------
  // Laws of the dispatcher

  /** Composition and division of valid containers give valid containers. */
  lemma TimesDivideValid(p: Pose, q: Pose)
    requires Valid(p) && Valid(q)
    ensures Times(p, Container(q)).Ok? ==> Valid(Times(p, Container(q)).value.pose)
    ensures Divide(p, Container(q)).Ok? ==> Valid(Divide(p, Container(q)).value.pose)
  {
    if q.kind == p.kind && Broadcastable(Len(p), Len(q)) {
      var k := p.kind;
      var n := Max(Len(p), Len(q));
      var ts := Times(p, Container(q)).value.pose.elems;
      var ds := Divide(p, Container(q)).value.pose.elems;
      forall i | 0 <= i < n
        ensures IsMember(k, ts[i]) && IsMember(k, ds[i])
      {
        BroadcastAt(k, ComposeOp, p.elems, q.elems, i);
        BroadcastAt(k, DivideOp, p.elems, q.elems, i);
        var x, y := p.elems[Pick(i, Len(p))], q.elems[Pick(i, Len(q))];
        ComposeClosed(k, x, y);
        InverseClosed(k, y);
        ComposeClosed(k, x, Inverse(k, y));
      }
      assert AllMembers(k, ts) && AllMembers(k, ds);
    }
  }

  /** Division is composition with the inverse, under the same broadcasting. */
  lemma DivideIsTimesInverse(p: Pose, q: Pose)
    requires WellShaped(p) && WellShaped(q)
    ensures Divide(p, Container(q)) == Times(p, Container(Inv(q)))
  {
    if q.kind == p.kind && Broadcastable(Len(p), Len(q)) {
      var ds := Divide(p, Container(q)).value.pose.elems;
      var ts := Times(p, Container(Inv(q))).value.pose.elems;
      assert |ds| == |ts|;
      forall i | 0 <= i < |ds|
        ensures ds[i] == ts[i]
      {
        BroadcastAt(p.kind, DivideOp, p.elems, q.elems, i);
        BroadcastAt(p.kind, ComposeOp, p.elems, Inv(q).elems, i);
      }
      assert ds == ts;
    }
  }

  /** The container of n identity elements. */
  function Identities(k: Kind, n: nat): (p: Pose)
    ensures p.kind == k && Len(p) == n
    ensures forall i | 0 <= i < n :: p.elems[i] == Identity(Size(k))
  {
    Pose(k, seq(n, i => Identity(Size(k))))
  }

  /** `R / R` and `R.inv * R` are identities, one per element. */
  lemma DivideSelf(p: Pose)
    requires Valid(p)
    ensures Divide(p, Container(p)) == Ok(Group(Identities(p.kind, Len(p))))
    ensures Times(Inv(p), Container(p)) == Ok(Group(Identities(p.kind, Len(p))))
  {
    var k := p.kind;
    var ds := Divide(p, Container(p)).value.pose.elems;
    var ts := Times(Inv(p), Container(p)).value.pose.elems;
    forall i | 0 <= i < Len(p)
      ensures ds[i] == Identity(Size(k)) && ts[i] == Identity(Size(k))
    {
      InverseLaw(k, p.elems[i]);
    }
    assert ds == Identities(k, Len(p)).elems;
    assert ts == Identities(k, Len(p)).elems;
  }

  /** A length-1 identity on either side of a composition changes nothing. */
  lemma TimesIdentity(p: Pose)
    requires WellShaped(p)
    ensures Times(p, Container(Identities(p.kind, 1))) == Ok(Group(p))
    ensures Times(Identities(p.kind, 1), Container(p)) == Ok(Group(p))
  {
    var k := p.kind;
    var a := Times(p, Container(Identities(k, 1))).value.pose.elems;
    var b := Times(Identities(k, 1), Container(p)).value.pose.elems;
    forall i | 0 <= i < Len(p)
      ensures a[i] == p.elems[i] && b[i] == p.elems[i]
    {
      ComposeIdentity(k, p.elems[i]);
    }
    assert a == p.elems;
    assert b == p.elems;
  }

  /** Composition of containers is associative whenever both groupings are
      defined. */
  lemma TimesAssoc(p: Pose, q: Pose, s: Pose)
    requires WellShaped(p) && WellShaped(q) && WellShaped(s)
    requires p.kind == q.kind == s.kind
    requires Broadcastable(Len(p), Len(q)) && Broadcastable(Len(q), Len(s))
    ensures Times(p, Container(q)).Ok? && Times(q, Container(s)).Ok?
    ensures Times(Times(p, Container(q)).value.pose, Container(s))
            == Times(p, Container(Times(q, Container(s)).value.pose))
  {
    var k := p.kind;
    var pq := Times(p, Container(q)).value.pose;
    var qs := Times(q, Container(s)).value.pose;
    var lhs := Times(pq, Container(s));
    var rhs := Times(p, Container(qs));
    assert lhs.Ok? == rhs.Ok?;
    if lhs.Ok? {
      var l, r := lhs.value.pose.elems, rhs.value.pose.elems;
      assert |l| == |r|;
      forall i | 0 <= i < |l|
        ensures l[i] == r[i]
      {
        BroadcastAt(k, ComposeOp, pq.elems, s.elems, i);
        BroadcastAt(k, ComposeOp, p.elems, qs.elems, i);
        BroadcastAt(k, ComposeOp, p.elems, q.elems, Pick(i, Len(pq)));
        BroadcastAt(k, ComposeOp, q.elems, s.elems, Pick(i, Len(qs)));
        var x, y, z := p.elems[Pick(i, Len(p))], q.elems[Pick(i, Len(q))], s.elems[Pick(i, Len(s))];
        ComposeAssoc(k, x, y, z);
      }
      assert l == r;
    }
  }

  /** Scalar multiplication is the same from either side. */
  lemma TimesScalarCommutes(p: Pose, c: real)
    requires WellShaped(p)
    ensures Times(p, Scalar(c)) == Ok(RTimes(c, p))
  {
  }

  /** Dividing by a scalar is multiplying by its reciprocal. */
  lemma DivideScalarIsReciprocal(p: Pose, c: real)
    requires WellShaped(p) && c != 0.0
    ensures Divide(p, Scalar(c)) == Times(p, Scalar(1.0 / c))
  {
  }

  /** Addition of containers is commutative: `R + rx` and `rx + R` agree. */
  lemma PlusCommutes(p: Pose, q: Pose)
    requires WellShaped(p) && WellShaped(q) && p.kind == q.kind
    ensures Plus(p, Container(q)) == Plus(q, Container(p))
  {
    if Broadcastable(Len(p), Len(q)) {
      var a := Plus(p, Container(q)).value.mats;
      var b := Plus(q, Container(p)).value.mats;
      assert |a| == |b|;
      forall i | 0 <= i < |a|
        ensures a[i] == b[i]
      {
        BroadcastAt(p.kind, PlusOp, p.elems, q.elems, i);
        BroadcastAt(p.kind, PlusOp, q.elems, p.elems, i);
        var x, y := p.elems[Pick(i, Len(p))], q.elems[Pick(i, Len(q))];
        MatrixExt(MAdd(x, y), MAdd(y, x));
      }
      assert a == b;
    }
  }

  /** Subtraction of containers is anti-commutative. */
  lemma MinusAntiCommutes(p: Pose, q: Pose)
    requires WellShaped(p) && WellShaped(q) && p.kind == q.kind
    ensures Minus(p, Container(q)).Ok? <==> Minus(q, Container(p)).Ok?
    ensures Minus(p, Container(q)).Ok? ==>
              var a, b := Minus(p, Container(q)).value.mats, Minus(q, Container(p)).value.mats;
              |a| == |b| && forall i | 0 <= i < |a| :: a[i] == MScale(-1.0, b[i])
  {
    if Broadcastable(Len(p), Len(q)) {
      var a := Minus(p, Container(q)).value.mats;
      var b := Minus(q, Container(p)).value.mats;
      forall i | 0 <= i < |a|
        ensures a[i] == MScale(-1.0, b[i])
      {
        BroadcastAt(p.kind, MinusOp, p.elems, q.elems, i);
        BroadcastAt(p.kind, MinusOp, q.elems, p.elems, i);
        var x, y := p.elems[Pick(i, Len(p))], q.elems[Pick(i, Len(q))];
        MatrixExt(MSub(x, y), MScale(-1.0, MSub(y, x)));
      }
    }
  }

  /** Subtracting a scalar is adding its negation. */
  lemma MinusScalarIsPlusNegated(p: Pose, c: real)
    requires WellShaped(p)
    ensures Minus(p, Scalar(c)) == Plus(p, Scalar(-c))
  {
  }

  lemma CubeIsOne(c: real)
    ensures c * c * c == 1.0 <==> c == 1.0
  {
    assert c * c * c - 1.0 == (c - 1.0) * (c * c + c + 1.0);
    assert c * c + c + 1.0 == (c + 0.5) * (c + 0.5) + 0.75;
  }

  /** A member scaled by c is a member exactly when c is 1: scaling never
      stays in the group otherwise. */
  lemma ScaledMember(k: Kind, m: Matrix, c: real)
    requires IsMember(k, m)
    ensures IsMember(k, MScale(c, m)) <==> c == 1.0
  {
    if c == 1.0 {
      MatrixExt(MScale(c, m), m);
    } else {
      match k
      case SO3 =>
        DetScale(c, m);
        CubeIsOne(c);
      case SE3 =>
        assert MScale(c, m)[3][3] == c;
    }
  }

  /** Non-closure: every element of `p * c` (c != 1) and of `p + p` is
      outside the group. */
  lemma ArithmeticLeavesGroup(p: Pose, c: real)
    requires Valid(p) && c != 1.0
    ensures forall i | 0 <= i < Len(p) :: !IsMember(p.kind, Times(p, Scalar(c)).value.mats[i])
    ensures Plus(p, Container(p)).Ok?
    ensures forall i | 0 <= i < Len(p) :: !IsMember(p.kind, Plus(p, Container(p)).value.mats[i])
  {
    var k := p.kind;
    forall i | 0 <= i < Len(p)
      ensures !IsMember(k, Times(p, Scalar(c)).value.mats[i])
      ensures !IsMember(k, Plus(p, Container(p)).value.mats[i])
    {
      var m := p.elems[i];
      ScaledMember(k, m, c);
      ScaledMember(k, m, 2.0);
      MatrixExt(MScale(c, m), Times(p, Scalar(c)).value.mats[i]);
      MatrixExt(MScale(2.0, m), MAdd(m, m));
    }
  }

  /** Adding a non-zero scalar to an SE(3) element disturbs its bottom row. */
  lemma ShiftLeavesSE3(p: Pose, c: real)
    requires Valid(p) && p.kind == SE3 && c != 0.0
    ensures forall i | 0 <= i < Len(p) :: !IsMember(SE3, Plus(p, Scalar(c)).value.mats[i])
  {
    forall i | 0 <= i < Len(p)
      ensures !IsMember(SE3, Plus(p, Scalar(c)).value.mats[i])
    {
      assert Plus(p, Scalar(c)).value.mats[i][3][0] == c;
    }
  }

  /** Acting by a composition is acting by the factors in turn, for every
      element of the containers. */
  lemma TimesActCompose(p: Pose, q: Pose, v: Vector)
    requires Valid(p) && Valid(q) && p.kind == q.kind && Broadcastable(Len(p), Len(q)) && |v| == 3
    ensures Times(p, Container(q)).Ok?
    ensures Times(Times(p, Container(q)).value.pose, Vector(v)).Ok?
    ensures |Times(Times(p, Container(q)).value.pose, Vector(v)).value.cols| == Max(Len(p), Len(q))
    ensures forall i | 0 <= i < Max(Len(p), Len(q)) ::
              && Pick(i, Len(p)) < Len(p) && Pick(i, Len(q)) < Len(q)
              && Times(Times(p, Container(q)).value.pose, Vector(v)).value.cols[i]
                 == Act(p.kind, p.elems[Pick(i, Len(p))], Act(p.kind, q.elems[Pick(i, Len(q))], v))
  {
    var k := p.kind;
    var pq := Times(p, Container(q)).value.pose;
    forall i | 0 <= i < Max(Len(p), Len(q))
      ensures Pick(i, Len(p)) < Len(p) && Pick(i, Len(q)) < Len(q)
      ensures Act(k, pq.elems[i], v)
              == Act(k, p.elems[Pick(i, Len(p))], Act(k, q.elems[Pick(i, Len(q))], v))
    {
      BroadcastAt(k, ComposeOp, p.elems, q.elems, i);
      ActCompose(k, p.elems[Pick(i, Len(p))], q.elems[Pick(i, Len(q))], v);
    }
  }


  /** Augmented assignment never changes the value bound to another name:
      after `a = R; a op= x`, R is still bound to the original container. */
  lemma InPlaceDoesNotMutate(env: Env, a: string, src: string, op: AugOp, x: Operand)
    requires EnvOk(env) && OperandOk(x)
    requires src in env && env[src].Group? && a != src
    ensures EnvOk(env[a := env[src]])
    ensures InPlace(env[a := env[src]], a, op, x).Ok? ==>
              && InPlace(env[a := env[src]], a, op, x).value[src] == env[src]
              && Apply(op, env[src].pose, x) == Ok(InPlace(env[a := env[src]], a, op, x).value[a])
  {
  }
}
