# Quaternion library of the BVH motion-capture player

This project models the quaternion algebra that the motion-capture player
uses for joint rotations, and proves properties of it. The algebra is the
class `QuaternionUtils`, whose members are all static. It provides the Hamilton product
(`Multiply`), the conjugate, the rotation of a vector quaternion by the
sandwich q·v·conj(q) (`HamiltonProduct`), axis-angle construction, and
`FromEuler`. `FromEuler` composes three axis rotations in a rotation order
given as an integer triple. Each entry of the triple is the step (0, 1 or 2)
at which its axis is multiplied in. `UNITY_ROTATION_ORDER = (1, 2, 0)` is
Unity's own order. It multiplies in the Z rotation first, then X, then Y,
giving the product Z·X·Y. By `HamiltonProductComposes`, that product rotates
a vector about Y first, then about X, then about Z
(`UnityRotationOrderApplies`).

Scalars are Dafny `real`s. Quaternions are a datatype `Quaternion(x, y, z, w)`
laid out like Unity's `Vector4`. The functions are pure, as in the source.
`FromEuler` is a method whose `for` loop reassigns the accumulator, also as in
the source. Its postcondition ties the result to `EulerProduct`, a
closed-form description of the three-step fold. The lemmas about
`EulerProduct` state what the fold computes.

Files:
- `quaternion_utils.dfy`, module `QuaternionUtils`: the model and its lemmas.
- `real_identities.dfy`, module `RealIdentities`: polynomial identities over
  plain real variables. The solver proves these unaided, but fails on the
  same identities stated over datatype fields. The quaternion lemmas expand
  both sides into this form, one component at a time, and then appeal to
  them.

The rest of the player, `Assets/CharacterAnimator.cs`, is left without
behaviour in the code: `GetFrameNumber` and `GetFrameIntervalTime` return 0,
`TransformJoint` is empty, `RotateTowardsVector` returns the zero matrix and
`CreateCylinderBetweenPoints` returns null. There is nothing there to model.
The comment on `UNITY_ROTATION_ORDER` (Assets/QuaternionUtils.cs:6) says only
that it is Unity's default order. The code (line 52) reads each entry of an
order as the step at which its axis is folded in (`AxisAtStep`). When no
entry matches a step, the code falls back to the Z rotation.

## Model

| member | source | states |
|---|---|---|
| `QuaternionUtils.Multiply` | Assets/QuaternionUtils.cs:10-17 | definition: the source's four component formulas of the Hamilton product; its contract is stated by the lemma rows below |
| `QuaternionUtils.Conjugate` | Assets/QuaternionUtils.cs:21-24 | definition: the vector part negated, w kept |
| `QuaternionUtils.HamiltonProduct` | Assets/QuaternionUtils.cs:27-30 | definition: (q·v)·conj(q), grouped as in the source |
| `QuaternionUtils.Normalized` | Assets/QuaternionUtils.cs:35 | definition: Unity's `Vector3.Normalize`, given the magnitude |
| `QuaternionUtils.AxisAngle` | Assets/QuaternionUtils.cs:33-40 | definition: (sin(θ/2)·n, cos(θ/2)) for the normalized axis n |
| `QuaternionUtils.AxisAtStep` | Assets/QuaternionUtils.cs:52 | definition: the nested conditional choosing the rotation of step i |
| `QuaternionUtils.EulerProduct` | Assets/QuaternionUtils.cs:49-54 | definition: the loop's three right multiplications written out |
| `QuaternionUtils.UNITY_ROTATION_ORDER` | Assets/QuaternionUtils.cs:7 | definition: the constant (1, 2, 0) |
| `QuaternionUtils.MultiplyIdentity` | Assets/QuaternionUtils.cs:10-17 | the identity (0,0,0,1), which seeds the Euler accumulator, is a left and a right neutral element of the Hamilton product |
| `QuaternionUtils.MultiplyIsScalarVectorProduct` | Assets/QuaternionUtils.cs:10-17 | the component formulas equal the textbook scalar-vector product (s1 s2 − v1·v2, s1 v2 + s2 v1 + v1×v2) |
| `QuaternionUtils.MultiplyNotCommutative` | Assets/QuaternionUtils.cs:10-17 | the product does not commute: i·j = k but j·i = −k |
| `QuaternionUtils.MultiplyAssociative` | Assets/QuaternionUtils.cs:10-17 | (a·b)·c = a·(b·c) for all quaternions |
| `QuaternionUtils.ConjugateInvolution` | Assets/QuaternionUtils.cs:21-24 | conjugating twice gives the quaternion back; w is unchanged and the vector part is negated |
| `QuaternionUtils.ConjugateReversesProduct` | Assets/QuaternionUtils.cs:10-24 | conj(a·b) = conj(b)·conj(a) |
| `QuaternionUtils.MultiplyByConjugate` | Assets/QuaternionUtils.cs:10-24 | q·conj(q) and conj(q)·q both have zero vector part and w = x²+y²+z²+w² |
| `QuaternionUtils.NormSquaredMultiplicative` | Assets/QuaternionUtils.cs:10-17 | the squared norm of a product is the product of the squared norms, so unit quaternions multiply to unit quaternions |
| `QuaternionUtils.HamiltonProductGrouping` | Assets/QuaternionUtils.cs:27-30 | the sandwich's grouping (q·v)·conj(q) equals q·(v·conj(q)) |
| `QuaternionUtils.HamiltonProductKeepsPure` | Assets/QuaternionUtils.cs:27-30 | the sandwich's w is NormSquared(q)·v.w, so a pure vector quaternion stays pure for every q |
| `QuaternionUtils.HamiltonProductRotates` | Assets/QuaternionUtils.cs:27-30 | the vector part of the sandwich is the rotation formula (w²−u·u)v + 2(u·v)u + 2w(u×v) |
| `QuaternionUtils.HamiltonProductIdentity` | Assets/QuaternionUtils.cs:27-30 | sandwiching by the identity leaves every quaternion unchanged |
| `QuaternionUtils.HamiltonProductComposes` | Assets/QuaternionUtils.cs:27-30 | sandwiching by a·b means sandwiching by b, then by a |
| `QuaternionUtils.HamiltonProductNorm` | Assets/QuaternionUtils.cs:27-30 | the sandwich multiplies the squared norm by NormSquared(q)², so a unit q preserves length |
| `QuaternionUtils.NormalizedIsUnit` | Assets/QuaternionUtils.cs:35 | normalizing a vector longer than Unity's epsilon gives a unit vector pointing the same way; a shorter vector becomes zero |
| `QuaternionUtils.AxisAngleOfZero` | Assets/QuaternionUtils.cs:33-40 | an angle of 0 gives the identity quaternion, whatever the axis |
| `QuaternionUtils.AxisAngleIsUnit` | Assets/QuaternionUtils.cs:33-40 | w is cos(θ/2) and the vector part is parallel to the axis; for a genuine angle and a non-degenerate axis the quaternion has unit norm |
| `QuaternionUtils.AxisAngleAlongAxis` | Assets/QuaternionUtils.cs:33-40 | for an axis longer than Unity's epsilon, magnitude times the vector part is sin(θ/2) times the axis, so the vector part points along the axis, not against it; for a shorter axis the vector part is zero |
| `QuaternionUtils.AxisQuaternionOfZero` | Assets/QuaternionUtils.cs:45-47 | each of the three axis rotations built by FromEuler is the identity when its angle is 0 |
| `QuaternionUtils.AxisQuaternionIsUnit` | Assets/QuaternionUtils.cs:45-47 | each of the three axis rotations built by FromEuler has unit norm for a genuine angle |
| `QuaternionUtils.FromEuler` | Assets/QuaternionUtils.cs:43-54 | the loop yields Identity·A(0)·A(1)·A(2), multiplied left to right, where A(i) is the axis rotation dispatched at step i |
| `QuaternionUtils.AxisAtStepDispatch` | Assets/QuaternionUtils.cs:52 | step i picks X exactly when the x entry is i, Y exactly when the x entry is not i and the y entry is i, and otherwise falls back to Z |
| `QuaternionUtils.PermutationStep` | Assets/QuaternionUtils.cs:50-53 | for an order that permutes {0,1,2}, step k folds in axis a exactly when a's entry is k |
| `QuaternionUtils.PermutationFoldsEachAxisOnce` | Assets/QuaternionUtils.cs:50-53 | for a permutation, the three steps fold in three different axes, so each axis exactly once |
| `QuaternionUtils.EulerProductOfPermutation` | Assets/QuaternionUtils.cs:49-54 | for a permutation, the result is A0·A1·A2, where Ak is the axis rotation whose entry is k |
| `QuaternionUtils.UnityRotationOrder` | Assets/QuaternionUtils.cs:7 | (1,2,0) is a permutation; the fold picks Z at step 0, X at step 1 and Y at step 2, so the result is Z·(X·Y) |
| `QuaternionUtils.UnityRotationOrderApplies` | Assets/QuaternionUtils.cs:7 | rotating a vector by the quaternion built in Unity's order means rotating it about Y, then about X, then about Z |
| `QuaternionUtils.EulerProductOfZeroAngles` | Assets/QuaternionUtils.cs:43-54 | three zero angles give the identity (0,0,0,1) for every rotation order, permutation or not |
| `QuaternionUtils.EulerProductIsUnit` | Assets/QuaternionUtils.cs:43-55 | for genuine angles the accumulator already has unit norm, so the final normalization leaves it unchanged in exact arithmetic |

## Left out

- `Slerp` (Assets/QuaternionUtils.cs:59-75) is not modelled. It relies on `Acos`, `Sin`, a floating-point test `Sin(theta) == 0` and normalization, and has no real-number contract to state.
- Trigonometry is not modelled. An angle θ is given by the pair (sin(θ/2), cos(θ/2)), the datatype `HalfAngle`, which is all `AxisAngle` uses. The conversion from degrees (`theta * Deg2Rad / 2`) and the sine and cosine themselves are outside the model. `IsAngle` states that the pair lies on the unit circle.
- Square roots are not modelled. `Normalized` and `AxisAngle` take the axis's magnitude as a parameter. The lemmas about them require that magnitude to be the non-negative root of the squared length. The functions themselves have no such precondition, because the solver handles that precondition badly at every call site.
- `Normalized` follows Unity's documented `Vector3.Normalize`: it divides by the magnitude, or gives the zero vector when the magnitude is at most `kEpsilon` = 0.00001. Unity's own code is not part of this model.
- QuaternionUtils.FromEuler: returns the accumulator before the final `.normalized` (line 55). `EulerProductIsUnit` shows that for genuine angles the accumulator already has norm 1, so in exact arithmetic normalizing would not change it.
- Floating point is not modelled. All arithmetic is exact over `real`, so `float` rounding is outside the model, and so is any tolerance a
comparison of rotations would need.
- `Assets/CharacterAnimator.cs` is not modelled. It is Unity scene plumbing (GameObject creation, transforms, `Time.time`) and unimplemented stubs: `RotateTowardsVector` returns the zero matrix, `CreateCylinderBetweenPoints` returns null, `TransformJoint` is empty, and `GetFrameNumber` and `GetFrameIntervalTime` return 0.
- The BVH parser, `MatrixUtils` and the Unity types are not part of this model.
