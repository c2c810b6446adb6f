# Pose container and operator dispatch of spatialmath (SO3 / SE3)

This project models the 3-D pose container of the spatialmath Python
library. A pose value is a non-empty, ordered sequence of same-kind group
elements: 3×3 rotation matrices for `SO3`, 4×4 homogeneous transforms
`[R t; 0 1]` for `SE3`. The library's arithmetic operators classify their
right operand as a container, a 2-D array, a scalar or a vector. They return
either a group-typed container or a raw array:

- **Group-typed:** composition `*` and division `/` between two group operands.
- **Raw:** `+`, `-`, scalar `*` and `/`, and the group action on vectors.

Container lengths combine by one broadcasting rule:

- equal lengths pair up;
- a length-1 operand is applied against every element of the other;
- any other combination is a `BroadcastMismatch`.

In-place forms rebind a name to the operator's result. The result follows the
operator's result-type rule, and no other binding changes.

Everything is over exact reals (`real`). The group laws are proved in
general. The behaviour the library's test suite asserts is proved as concrete
tables, using quarter turns (cosine 0, sine ±1) and integer translations.

Modules, one file each:

| file | module | contents |
|---|---|---|
| `results.dfy` | `Results` | the error taxonomy and a failure-compatible `Result` |
| `linalg.dfy` | `LinAlg` | vectors and square matrices: dot product, product, transpose, 3×3 determinant, with associativity, `(ab)ᵀ = bᵀaᵀ` and `det(ab) = det a · det b` |
| `groups.dfy` | `Groups` | the kinds SO3/SE3, the membership validator, composition, closed-form inverse, action on vectors, canonical rotations and translations; closure, inverse law, associativity, identity, action laws |
| `poses.dfy` | `Poses` | the container: construction, append, indexing, inverse, the accessor family |
| `dispatch.dfy` | `Dispatch` | operand classification, broadcasting, `*` `/` `+` `-` with scalar-on-left `*`, in-place rebinding, and the laws relating them |
| `scenarios.dfy` | `Scenarios` | the concrete tables of the test suite |

Design decisions:

- **Membership is exact.** An SO(3) member satisfies `RᵀR = I`, `RRᵀ = I` and `det R = 1`. An SE(3) member has bottom row `[0 0 0 1]` and an SO(3) rotation block. The library checks `RᵀR ≈ I` and `det ≈ 1` within a tolerance. Over exact reals the two orthogonality equations are equivalent for square matrices, but the model states both so that `R / R = I` follows directly.
- **Rotations take cosine and sine.** The canonical rotations `RotX`, `RotY` and `RotZ` take the cosine and sine of the angle as parameters, because the angle-to-matrix conversion is outside the container. `RotXIsRot` and its siblings prove that each is a rotation exactly when `c² + s² = 1`.
- **`N` is 3 for both kinds.** The test suite asserts `N == 3` for both SO3 and SE3 (`spatialmath/test_pose3d.py:166`, `:746`). `Poses.N` is the dimension of the space acted on, and `Shape` gives the matrix size.
- **Division by the scalar 0 is an error.** It is modelled as the error `ZeroDivision`. numpy would produce infinities.
- **`At` returns a length-1 container.** Negative indices are refused with `IndexOutOfRange`.

## Model

| member | source | states |
|---|---|---|
| `Poses.Null` | spatialmath/test_pose3d.py:27-30 | the null constructor gives a valid container of length 1 whose only element is the identity of the kind's size |
| `Poses.FromMatrix` | spatialmath/test_pose3d.py:32-35 | construction from one matrix succeeds exactly when the matrix passes the validator, giving a valid length-1 container holding that matrix; otherwise `InvalidGroupElement` |
| `Poses.FromMatrices` | spatialmath/test_pose3d.py:132-137 | construction from a list of matrices succeeds exactly when the list is non-empty and every matrix is a member; the result holds the matrices in the given order; an empty list is `EmptyContainer` |
| `Poses.FromPoses` | spatialmath/test_pose3d.py:139-144 | construction from a list of containers succeeds exactly when it is non-empty and every item has the requested kind (else `DimensionMismatch`); from one-element items the result has one element per item, in order, and is valid |
| `Poses.Append` | spatialmath/test_pose3d.py:118-130 | appending a container of the same kind keeps the earlier elements as a prefix, adds the new ones after them in order, adds the lengths and stays valid; a kind mismatch is `DimensionMismatch` |
| `Poses.AppendMatrix` | spatialmath/test_pose3d.py:118-127 | appending a raw matrix validates it first (`InvalidGroupElement` otherwise) and then grows the container by exactly that element, earlier elements unchanged; the tests append one-element containers, which `Poses.AppendForms` shows is the same |
| `Poses.AppendForms` | spatialmath/test_pose3d.py:120-127 | appending `R1 = SO3.Rx(0.2)`, the one-element container built from a matrix, gives the same result as appending the matrix, and a non-member is refused by both routes |
| `Poses.At` | spatialmath/test_pose3d.py:128-130 | indexing succeeds exactly for 0 <= i < length, giving the i-th element as a length-1 container of the same kind (valid if the container is); otherwise `IndexOutOfRange` |
| `Poses.InvValid` | spatialmath/test_pose3d.py:169-170 | the elementwise inverse of a valid container is valid, of the same length, and inverting twice gives back the container |
| `Poses.AccessorsAgree` | spatialmath/test_pose3d.py:146-167 | exactly one of `isSO`/`isSE` holds; `isrot`/`ishom` agree with them; `isrot2`/`ishom2` are false; `N` is 3 for both kinds; `shape` is (3,3) exactly for SO3 and (4,4) exactly for SE3 |
| `Poses.NullNOA` | spatialmath/test_pose3d.py:162-164 | the n, o, a columns of the null container are the unit vectors x, y, z, for both kinds |
| `Poses.NOAOrthonormal` | spatialmath/test_pose3d.py:742-744 | for a valid one-element container the n, o, a columns are unit length and mutually orthogonal |
| `Groups.ComposeClosed` | spatialmath/test_pose3d.py:239-241 | composing two members of a kind gives a member of that kind, so `*` between group operands may stay group-typed |
| `Groups.InverseClosed` | spatialmath/test_pose3d.py:288-291 | the closed-form inverse of a member is a member |
| `Groups.InverseLaw` | spatialmath/test_pose3d.py:169-170 | a member composed with its closed-form inverse, on either side, is the identity |
| `Groups.InverseInvolution` | spatialmath/test_pose3d.py:288-292 | the closed-form inverse undoes itself on members |
| `Groups.ComposeAssoc` | spatialmath/test_pose3d.py:263 | composition is associative, so the unparenthesised chain `Rx(90) * Ry(90) * Rx(-90)` has one meaning |
| `Groups.ComposeIdentity` | spatialmath/test_pose3d.py:239-243 | the identity is neutral on both sides of composition |
| `Groups.ActHomogeneous` | spatialmath/test_pose3d.py:842-844 | the SE(3) action `R v + t` is the first three entries of the 4×4 matrix applied to the homogeneous vector `(v, 1)` |
| `Groups.ActCompose` | spatialmath/test_pose3d.py:263-286 | acting by a product of members is acting by the factors in turn |
| `Groups.ActInverse` | spatialmath/test_pose3d.py:263-286 | acting by a member and then by its inverse gives back the vector |
| `Groups.RotXIsRot` | spatialmath/test_pose3d.py:39-42 | the x-axis rotation built from (c, s) is in SO(3) exactly when c² + s² = 1 |
| `Groups.RotYIsRot` | spatialmath/test_pose3d.py:44-47 | the y-axis rotation built from (c, s) is in SO(3) exactly when c² + s² = 1 |
| `Groups.RotZIsRot` | spatialmath/test_pose3d.py:49-52 | the z-axis rotation built from (c, s) is in SO(3) exactly when c² + s² = 1 |
| `Groups.TranslIsHom` | spatialmath/test_pose3d.py:750 | every translation is in SE(3), with identity rotation block and translation column t |
| `Groups.HomRotIsHom` | spatialmath/test_pose3d.py:842 | a rotation lifted to SE(3) is in SE(3) exactly when it is in SO(3) |
| `Groups.TranslCompose` | spatialmath/test_pose3d.py:817-822 | translations compose by adding their offsets, so `trans(1, 2, 3) * trans(1, 2, 3)` is `trans(2, 4, 6)` |
| `Groups.HomRotCompose` | spatialmath/test_pose3d.py:842 | lifted rotations compose as the rotations do |
| `Groups.HomRotAct` | spatialmath/test_pose3d.py:852-865 | a lifted rotation acts on vectors as the rotation does |
| `Dispatch.Broadcast` | spatialmath/test_pose3d.py:306-326 | pairwise combination succeeds exactly when the lengths are equal or one is 1 (else `BroadcastMismatch`); the result has the larger length; equal lengths pair index by index; a length-1 side is combined with every element of the other |
| `Dispatch.ActEach` | spatialmath/test_pose3d.py:379-387 | vector action succeeds exactly under the same length rule; n elements on one vector give n columns, element i applied to the vector; one element on k columns gives k columns, column j transformed by the element |
| `Dispatch.Times` | spatialmath/test_pose3d.py:238-286 | `*` with a container is `DimensionMismatch` on a kind mismatch, `BroadcastMismatch` when the lengths do not broadcast, and otherwise the group-typed container of the pairwise compositions under broadcasting; with a scalar it is raw and scales every entry of every element; with a vector it succeeds exactly for 3-vectors and gives one raw column per element; with a 3×k array it succeeds exactly when the lengths broadcast and gives the elements' action on the columns |
| `Dispatch.RTimes` | spatialmath/test_pose3d.py:247-251 | a scalar on the left scales every entry of every element and is raw |
| `Dispatch.Divide` | spatialmath/test_pose3d.py:288-296 | `/` with a container is `DimensionMismatch` on a kind mismatch, `BroadcastMismatch` when the lengths do not broadcast, and otherwise the group-typed container of pairwise compositions with the inverse; with a scalar it is raw, every entry divided by it, and fails with `ZeroDivision` exactly for 0; vectors and arrays are `Unsupported` |
| `Dispatch.Plus` | spatialmath/test_pose3d.py:172-199 | `+` is never group-typed: with a container it is raw and pairwise under broadcasting, `DimensionMismatch` on a kind mismatch and `BroadcastMismatch` when the lengths do not broadcast; with a scalar every entry, off-diagonal ones included, is increased; an element-sized matrix is added to every element, and any other matrix shape is `DimensionMismatch`; a vector is `Unsupported` |
| `Dispatch.Minus` | spatialmath/test_pose3d.py:201-236 | `-` is the same with subtraction, with the same error codes |
| `Dispatch.InPlace` | spatialmath/test_pose3d.py:253-261 | `name op= x` rebinds only name, to the operator's result, keeping every other binding; it is group-typed exactly for `*=` and `/=` with a container operand; a name not bound to a container is `Unsupported` |
| `Dispatch.TimesDivideValid` | spatialmath/test_pose3d.py:306-326 | composing or dividing valid containers gives a valid container |
| `Dispatch.DivideIsTimesInverse` | spatialmath/test_pose3d.py:390-410 | `p / q` equals `p * q.inv` for all containers, errors included |
| `Dispatch.DivideSelf` | spatialmath/test_pose3d.py:404-410 | for a valid container, `R / R` and `R.inv * R` are identity containers of the same length |
| `Dispatch.TimesIdentity` | spatialmath/test_pose3d.py:239-243 | composing with a length-1 identity container, on either side, gives the container back |
| `Dispatch.TimesAssoc` | spatialmath/test_pose3d.py:263 | container composition is associative for all lengths where each adjacent pair broadcasts: both groupings then succeed with the same container, or fail with the same error |
| `Dispatch.TimesScalarCommutes` | spatialmath/test_pose3d.py:245-251 | `p * c` and `c * p` give the same raw array |
| `Dispatch.DivideScalarIsReciprocal` | spatialmath/test_pose3d.py:294-296 | division by a non-zero scalar is multiplication by its reciprocal |
| `Dispatch.PlusCommutes` | spatialmath/test_pose3d.py:452-465 | container addition is commutative: `R + rx` and `rx + R` give the same raw array |
| `Dispatch.MinusAntiCommutes` | spatialmath/test_pose3d.py:516-529 | `p - q` and `q - p` are defined together and are negatives of each other |
| `Dispatch.MinusScalarIsPlusNegated` | spatialmath/test_pose3d.py:213-215 | subtracting a scalar is adding its negation |
| `Dispatch.ScaledMember` | spatialmath/test_pose3d.py:245-246 | a member scaled by c is a member exactly when c = 1 |
| `Dispatch.ArithmeticLeavesGroup` | spatialmath/test_pose3d.py:175-177 | for a valid container, every element of `p * c` (c ≠ 1) and of `p + p` lies outside the group, which is why these results are raw |
| `Dispatch.ShiftLeavesSE3` | spatialmath/test_pose3d.py:757-759 | adding a non-zero scalar to an SE(3) element leaves SE(3) |
| `Dispatch.TimesActCompose` | spatialmath/test_pose3d.py:379-382 | applying the container product `p * q` to a vector, for any broadcasting lengths, gives one column per result element: column i applies the q element paired with i and then the p element paired with i |
| `Dispatch.InPlaceDoesNotMutate` | spatialmath/test_pose3d.py:342-358 | after `a = R; a op= x`, R is still bound to the original container and a holds the operator's result on it |
| `Scenarios.ComposeTable` | spatialmath/test_pose3d.py:306-326 | for R = [x, y, z] and rx = [u]: `R * rx` = [x∘u, y∘u, z∘u], `rx * R` = [u∘x, u∘y, u∘z], `R * R` = [x∘x, y∘y, z∘z], all group-typed |
| `Scenarios.DivideTable` | spatialmath/test_pose3d.py:390-410 | `R / rx`, `rx / R` compose pairwise with the inverse and are group-typed; for members `R / R` is three identities |
| `Scenarios.AdditiveTable` | spatialmath/test_pose3d.py:452-572 | `R ± rx`, `rx ± R`, `R ± R` are raw and pairwise |
| `Scenarios.ScalarTable` | spatialmath/test_pose3d.py:328-340 | `R * 2`, `2 * R`, `R / 2`, `R + 1`, `R - 1` are raw, element by element |
| `Scenarios.VectorTable` | spatialmath/test_pose3d.py:379-387 | `R * v` gives the columns [x v, y v, z v]; `rx * [u v w]` gives [x u, x v, x w] |
| `Scenarios.RebindTable` | spatialmath/test_pose3d.py:342-358 | `a = R; a *= rx` and then `a = R; a *= R` yield [x∘u, y∘u, z∘u] and then [x∘x, y∘y, z∘z], with R unchanged |
| `Scenarios.AppendTwice` | spatialmath/test_pose3d.py:118-130 | the null container after two appends holds the identity and the two appended elements, in order |
| `Scenarios.BuildFromList` | spatialmath/test_pose3d.py:132-144 | building from three matrices or from three one-element containers gives those three elements in order |
| `Scenarios.QuarterTurnsAreMembers` | spatialmath/test_pose3d.py:263 | the four quarter turns of the triple product are rotations and their lifts are SE(3) members |
| `Scenarios.QuarterTurnProduct` | spatialmath/test_pose3d.py:263 | `Rx(90) * Ry(90) * Rx(-90)` is the group-typed `Rz(90)`, for SO3 and for SE3 (the SE3 form is line 842) |
| `Scenarios.QuarterTurnActions` | spatialmath/test_pose3d.py:263-286 | the nine quarter-turn actions on the unit vectors, for both kinds, each a single raw column |
| `Scenarios.IdentitySums` | spatialmath/test_pose3d.py:175-227 | `I + I`, `I + 1`, `I + eye(3)`, `I - I`, `I - 1`, `I - eye(3)` as exact raw matrices |
| `Scenarios.IdentityProducts` | spatialmath/test_pose3d.py:238-251 | `I * I` is the group-typed identity; `I * 2`, `2 * I` and `SE3() * 2` are raw doubled identities |
| `Scenarios.IdentityInPlace` | spatialmath/test_pose3d.py:253-261 | `R = SO3(); R *= Rx(90)` rebinds R to a container holding the quarter turn; `R *= 2` rebinds it to a raw doubled identity |
| `Scenarios.IdentityShiftInPlace` | spatialmath/test_pose3d.py:201-236 | `R += 1`, `R -= R` and `R -= 1` on the identity rebind R to the exact raw matrices, never a container |
| `Scenarios.TranslationSums` | spatialmath/test_pose3d.py:753-767 | `T + T`, `T + 1`, `T + eye(4)` for T = trans(1, 2, 3), as exact raw matrices, the bottom row included |
| `Scenarios.TranslationDifferences` | spatialmath/test_pose3d.py:784-804 | `T - T`, `T - 1`, `T - eye(4)` as exact raw matrices |
| `Scenarios.TranslationProducts` | spatialmath/test_pose3d.py:816-827 | `T * T` is the group-typed trans(2, 4, 6); `T * 2` and `2 * T` are raw doubled matrices |
| `Scenarios.TranslationThenQuarterTurn` | spatialmath/test_pose3d.py:832-840 | `T = trans(1, 2, 3); T *= Ry(90)` rebinds T to the container `[[0,0,1,1],[0,1,0,2],[-1,0,0,3],[0,0,0,1]]`; `T = SE3(); T *= 2` rebinds T to the raw `2 * eye(4)` |
| `Scenarios.TranslationRebind` | spatialmath/test_pose3d.py:769-782 | `a = T; a += T` then `a = T; a += 1` (and the same with `-=`) give the exact raw matrices, and T stays bound to the translation |

## Left out

- The angle-to-matrix conversions (`rotx`, `trotx`, `Eul`, `RPY` with unit and order flags, `AngVec`, `OA`) are floating-point trigonometry in a module that is not part of this model. Rotations take cosine and sine instead, and the scenarios use exact quarter turns. Scenarios built on non-quarter angles (`Rx(0.3)`) are covered by the general laws, not by tables.
- `Rand()` draws random samples. Its only observable property is "length 1, right kind".
- Tolerance-based validation and the approximate comparison used by the tests are replaced by exact equality over reals.
- Right-hand scalar and array addition and subtraction (`1 + R`, `eye(3) + R`) are not modelled. They are commented out in the tests and unresolved in the library.
- Column-versus-flat result shapes for vector actions are numpy detail. A vector result is a sequence of 3-vectors (`Columns`), one per column.
- `Dispatch.Plus`: a container against a raw array is modelled only for one element-sized matrix, broadcast to every element. numpy's own broadcasting of other array shapes is outside the container's rules.
- Arithmetic on a name already demoted to a raw array (`a += R` after `a` became raw) is numpy arithmetic. `InPlace` refuses it as `Unsupported`.
- `FromPoses`: the order-and-length guarantee is stated for one-element items. Longer items are flattened in order, and only validity and kind are stated for them.
- A raw result of length 1 is a one-element list `Raw([m])`, where numpy returns the bare N×N array (`spatialmath/test_pose3d.py:261`). Both hold the same entries.
- `Poses.Append` returns the grown container as a new value, where the library mutates R in place (`spatialmath/test_pose3d.py:123-125`). A caller that rebinds R to the result observes the same container.
- `Poses.AppendMatrix`: no test appends a raw matrix. Its contract follows the container's validation rule, and `Poses.AppendForms` ties it to the container append the tests use.
- Construction from a list that mixes raw matrices and one-element containers is not modelled. Lists are either all matrices (`FromMatrices`) or all containers (`FromPoses`), as in the tests.
- The 2-D groups, the empty test stubs `test_functions` and `test_functions_vect`, printing and plotting are not modelled.
- The implementation files `spatialmath/pose3d.py` and `spatialmath/super_pose.py` are not part of this model. The behaviour modelled is the one the test suite asserts.
