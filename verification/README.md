# Matrix and vector helpers of ThreeDThings, in Dafny

This project models the numeric core of `ThreeDThings.js`:

- the 2D helpers `m3`, which work on 3x3 matrices;
- the 3D helpers `m4`, which work on 4x4 matrices and 3-vectors;
- `webGLUtils.guessNumComponentsFromName`.

It then proves what these helpers are meant to do.

Conventions:

- **Layout.** A matrix is a datatype whose fields `m0`..`m15` (or `m0`..`m8`) are the entries of the library's column-major `Float32Array`.
  - `M4.Get`, `M4.ToSeq` and `M4.FromSeq` give the index view.
  - Entry `m[c * 4 + r]` is row `r` of column `c`.
- **Numbers.** Numbers are `real`. Float32 rounding is not modelled.
- **Parameters.** The library calls `Math.cos`, `Math.sin`, `Math.tan`, `Math.sqrt` and `Math.PI`. Their values are parameters:
  - the cosine and sine of an angle are `c` and `s`;
  - `perspective`'s focal value is `f`;
  - `Math.PI` is `pi`;
  - the square root is a function `sqrt`.
  - A lemma that needs a true square root requires `IsSqrtAt(sqrt, x)` (a non-negative root of `x`) at the points it uses.
- **Fresh results.** Every builder returns a fresh, zero-filled result. The optional `dst` buffer is not modelled.
- **Failures:**
  - A JavaScript `null` becomes `Option.None`.
  - A thrown exception becomes `Result.Failure`.
  - A division by zero would give an infinite or NaN entry. `real` has neither, so such divisions are excluded by a `requires`.

Modules:

- **Wrappers, Reals:** shared types, plus `Abs`, `IsSqrtAt` and small real-arithmetic lemmas.
- **Vectors:** the 3-vector helpers of `m4`.
- **M3:** all of `m3`.
- **M4:** the representation, plus `copy`, `identity`, `multiply`, `transpose` and the `transform*` functions.
- **M4Inverse:** `determinate`, `cofactor`, `inverse` and `transformNormal`.
- **M4Builders:** translation, scaling, rotation and axis rotation, together with their post-multiplying forms.
- **M4Projections:** `orthographic`, `frustum` and `perspective`.
- **M4LookAt:** `lookAt`.
- **M4Compose:** `compose` and `quatFromRotationMatrix`.
- **M4Decompose:** `decompose`.
- **WebGLUtils:** `guessNumComponentsFromName`.

## Model

| member | source | states |
|---|---|---|
| M3.DegToRad | ThreeDThings.js:47 | 180 degrees is `pi` radians |
| M3.RadToDegUndoesDegToRad | ThreeDThings.js:112 | `radToDeg` undoes `degToRad` for every angle |
| M3.DegToRadUndoesRadToDeg | ThreeDThings.js:47 | `degToRad` undoes `radToDeg` for every angle |
| M3.Distance | ThreeDThings.js:48-52 | the 2D distance is the 3D distance of the points lifted to `z = 0`; with a true root it is non-negative and zero exactly for equal points |
| M3.DotIsInnerProduct | ThreeDThings.js:53 | `dot` is symmetric, and the dot of a vector with itself is non-negative and zero exactly for the zero vector |
| M3.DistanceIsDotNorm | ThreeDThings.js:48-53 | with a true root, `distance` is non-negative and its square is the dot of the difference with itself; `distance` is symmetric in its two points |
| M3.DistanceAlongLine | ThreeDThings.js:48-52 | with a true root, points on a horizontal line are their x difference apart, and the distances through a point between two others add up |
| M3.Normalize | ThreeDThings.js:101-104 | the 2D normalize agrees with the 3D one at `z = 0`, including its cut-off for short vectors |
| M3.Reflect | ThreeDThings.js:113-116 | the reflected vector differs from the incident one along the normal only; for a unit normal the normal component changes sign |
| M3.ReflectInvolution | ThreeDThings.js:113-116 | reflecting twice about a unit normal gives the incident vector back |
| M3.ReflectPreservesLength | ThreeDThings.js:113-116 | reflection about a unit normal keeps the length |
| M3.ApplyIdentity | ThreeDThings.js:54-60 | the identity matrix fixes every vector |
| M3.MultiplyApply | ThreeDThings.js:82-100 | applying a product applies the right factor first, then the left one |
| M3.MultiplyIdentity | ThreeDThings.js:82-100 | the identity is a two-sided unit of `multiply` |
| M3.MultiplyAssociative | ThreeDThings.js:82-100 | `multiply` is associative |
| M3.AdjugateColumns | ThreeDThings.js:66-79 | the columns of the unscaled inverse are cross products of rows |
| M3.DeterminantIsTripleProduct | ThreeDThings.js:66-69 | the determinant `inverse` divides by is the triple product of the columns, and also of the rows |
| M3.MultiplyAdjugate | ThreeDThings.js:61-81 | the matrix times its adjugate, on either side, is the determinant times the identity |
| M3.InverseIsTwoSided | ThreeDThings.js:61-81 | for a nonzero determinant, `inverse` is a left and right inverse |
| M3.ProjectionMapsCanvas | ThreeDThings.js:105-111 | `projection` maps pixel coordinates to clip space, with the top-left corner going to `(-1, 1)` and the bottom-right corner to `(1, -1)` |
| M3.ProjectionCorners | ThreeDThings.js:105-111 | through `transformPoint`, with weight 1, the canvas's top-left corner lands on clip `(-1, 1)` and its bottom-right corner on `(1, -1)` |
| M3.ProjectApply | ThreeDThings.js:157-160 | `project` applies the pixel-to-clip mapping before `m` |
| M3.RotationCompose | ThreeDThings.js:117-125 | two rotations compose to the rotation by the sum of the angles (angle addition on cosines and sines) |
| M3.RotationInverse | ThreeDThings.js:117-125 | the zero angle gives the identity, and the opposite angle undoes a rotation |
| M3.RotationPreservesLength | ThreeDThings.js:117-125 | a rotation keeps lengths and the homogeneous coordinate |
| M3.RotateTwice | ThreeDThings.js:126-128 | rotating twice is rotating by the sum of the angles |
| M3.ScalingApply | ThreeDThings.js:129-135 | `scaling` stretches each coordinate by its factor |
| M3.ScalingCompose | ThreeDThings.js:129-135 | scalings compose by multiplying their factors |
| M3.ScaleTwice | ThreeDThings.js:136-138 | scaling twice multiplies the factors |
| M3.TranslationApply | ThreeDThings.js:147-153 | `translation` moves each point by the offset |
| M3.TranslationCompose | ThreeDThings.js:147-153 | translations compose by adding their offsets |
| M3.TranslateTwice | ThreeDThings.js:154-156 | translating twice adds the offsets |
| M3.TransformPoint | ThreeDThings.js:139-146 | `transformPoint` is the homogeneous product divided by its weight |
| M3.BuildersAreAffine | ThreeDThings.js:117-153 | identity, rotation, scaling and translation keep the last row `(0, 0, 1)` |
| M3.TransformPointMultiply | ThreeDThings.js:139-146 | for affine matrices, transforming by a product transforms by the right factor first |
| M4.SeqRoundTrip | ThreeDThings.js:163-167 | the field view and the 16-entry array view of a matrix convert into each other without loss |
| M4.Copy | ThreeDThings.js:163-167 | `copy` returns a matrix equal to its argument |
| M4.TransformVectorLoop | ThreeDThings.js:435-444 | the double loop of `transformVector` computes the matrix-vector product |
| M4.TransformVectorIdentity | ThreeDThings.js:435-444 | the identity fixes every 4-vector |
| M4.MultiplyLoop | ThreeDThings.js:406-418 | the triple loop of `multiply` computes the matrix product |
| M4.MultiplyArrays | ThreeDThings.js:406-418 | the same loop on the flat arrays fills all 16 sums of products |
| M4.MultiplyEntry | ThreeDThings.js:406-418 | entry `i * 4 + j` of the product is the sum over `k` of `a[k * 4 + j] * b[i * 4 + k]` |
| M4.MultiplyTransformVector | ThreeDThings.js:406-418 | transforming by a product transforms by the right factor first |
| M4.MultiplyColumn | ThreeDThings.js:406-418 | column `c` of a product is the left factor applied to column `c` of the right factor |
| M4.MultiplyIdentity | ThreeDThings.js:406-418 | the identity is a two-sided unit of `multiply` |
| M4.MultiplyAssociative | ThreeDThings.js:406-418 | `multiply` is associative |
| M4.TransposeLoop | ThreeDThings.js:262-270 | the loop of `transpose` produces the transposed matrix |
| M4.TransposeEntry | ThreeDThings.js:262-270 | entry `(i, j)` of the transpose is entry `(j, i)` of the matrix |
| M4.TransposeInvolution | ThreeDThings.js:262-270 | transposing twice gives the matrix back, and the identity is symmetric |
| M4.TransformVectorDeterminesMatrix | ThreeDThings.js:435-444 | two matrices that act alike on the unit vectors are equal |
| M4.Weight | ThreeDThings.js:445-453 | the divisor of `transformPoint` is the `w` component of the homogeneous product with the point |
| M4.TransformPointDivides | ThreeDThings.js:445-453 | `transformPoint` is the homogeneous product with `(v, 1)` divided by its `w` |
| M4.TransformDirection | ThreeDThings.js:454-461 | `transformDirection` is the homogeneous product with `(v, 0)`, so a direction ignores the translation |
| M4.AffineTransformPoint | ThreeDThings.js:445-453 | for an affine matrix the weight is 1 and `transformPoint` is the plain product |
| M4.TransformPointMultiply | ThreeDThings.js:445-453 | transforming a point by a product equals transforming it twice, when the right factor is affine |
| M4.TransformDirectionMultiply | ThreeDThings.js:454-461 | the same for directions |
| M4Inverse.GatheredIsMinor | ThreeDThings.js:521-537 | the 3x3 minor `cofactor` gathers is the matrix with one row and one column struck out |
| M4Inverse.CollectMinor | ThreeDThings.js:521-537 | the gathering loop of `cofactor` yields that minor |
| M4Inverse.Inverse | ThreeDThings.js:419-434 | `inverse` returns `null` exactly when the determinant's magnitude is below `0.000001` |
| M4Inverse.AdjugateRight | ThreeDThings.js:419-434 | the matrix times the transposed cofactor matrix is the determinant times the identity, column by column |
| M4Inverse.AdjugateLeft | ThreeDThings.js:419-434 | the same product in the other order |
| M4Inverse.InverseIsTwoSided | ThreeDThings.js:419-434 | when `inverse` returns a matrix, it is a left and right inverse |
| M4Inverse.InverseUnique | ThreeDThings.js:419-434 | any one-sided inverse equals the one `inverse` returns |
| M4Inverse.InverseInverse | ThreeDThings.js:419-434 | inverting twice gives the matrix back |
| M4Inverse.TransformNormal | ThreeDThings.js:462-470 | `transformNormal` throws a `TypeError` exactly when `inverse` returns `null` |
| M4Inverse.TransformNormalTransposed | ThreeDThings.js:462-470 | `transformNormal` applies the transposed inverse as a direction |
| M4Inverse.TransformNormalDot | ThreeDThings.js:462-470 | for an affine matrix, transformed normals keep their dot product with transformed directions, so surface normals stay perpendicular |
| M4Builders.TranslationMovesPoints | ThreeDThings.js:300-305 | `translation` adds the offset to every point, with weight 1 |
| M4Builders.TranslationKeepsDirections | ThreeDThings.js:300-305 | `translation` leaves directions unchanged |
| M4Builders.TranslationCompose | ThreeDThings.js:300-305 | translations compose by adding their offsets |
| M4Builders.TranslateIsMultiply | ThreeDThings.js:306-314 | `translate` is post-multiplication by `translation` |
| M4Builders.TranslateTwice | ThreeDThings.js:306-314 | translating twice adds the offsets |
| M4Builders.TranslateKeepsDirections | ThreeDThings.js:306-314 | `translate` does not change how a matrix moves directions |
| M4Builders.ScalingStretchesPoints | ThreeDThings.js:393-397 | `scaling` stretches each coordinate by its factor, with weight 1 |
| M4Builders.ScalingCompose | ThreeDThings.js:393-397 | scalings compose by multiplying their factors |
| M4Builders.ScaleIsMultiply | ThreeDThings.js:398-405 | `scale` is post-multiplication by `scaling` |
| M4Builders.XRotationKeepsLength | ThreeDThings.js:315-322 | `xRotation` keeps the length of every direction |
| M4Builders.YRotationKeepsLength | ThreeDThings.js:323-330 | `yRotation` keeps the length of every direction |
| M4Builders.ZRotationKeepsLength | ThreeDThings.js:331-336 | `zRotation` keeps the length of every direction |
| M4Builders.XRotateIsMultiply | ThreeDThings.js:337-346 | the intended `xRotate` is post-multiplication by `xRotation` |
| M4Builders.YRotateIsMultiply | ThreeDThings.js:347-356 | the intended `yRotate` is post-multiplication by `yRotation` |
| M4Builders.ZRotateIsMultiply | ThreeDThings.js:357-366 | `zRotate` is post-multiplication by `zRotation` |
| M4Builders.XRotateAsWrittenDiffers | ThreeDThings.js:337-346 | the library's `xRotate` of the identity by angle 0 is not the identity |
| M4Builders.YRotateAsWrittenDiffers | ThreeDThings.js:347-356 | the same for `yRotate` |
| M4Builders.XRotateAsWrittenIsMultiply | ThreeDThings.js:337-346 | the library's `xRotate` equals post-multiplication by `xRotation` exactly when columns 0 and 3 of `m` are zero |
| M4Builders.YRotateAsWrittenIsMultiply | ThreeDThings.js:347-356 | the library's `yRotate` equals post-multiplication by `yRotation` exactly when columns 1 and 3 of `m` are zero |
| M4Builders.XRotateAsWrittenAgrees | ThreeDThings.js:337-346 | the library's `xRotate` agrees with the intended one exactly when columns 0 and 3 of `m` are zero |
| M4Builders.YRotateAsWrittenAgrees | ThreeDThings.js:347-356 | the library's `yRotate` agrees with the intended one exactly when columns 1 and 3 of `m` are zero |
| M4Builders.FillUndefined | ThreeDThings.js:337-346 | the fill loop puts `m[i]` into exactly the slots that are `undefined` and keeps the others |
| M4Builders.FillUndefinedCases | ThreeDThings.js:337-356 | on an array with no `undefined` slot, such as a fresh `Float32Array`, the fill loop changes nothing |
| M4Builders.XRotateFilled | ThreeDThings.js:337-346 | writing entries 4..11 and running the fill loop gives the library's `xRotate` result from a zero-filled `dst` and the intended one from an all-`undefined` `dst` |
| M4Builders.YRotateFilled | ThreeDThings.js:347-356 | writing entries 0..3 and 8..11 and running the fill loop gives the library's `yRotate` result from a zero-filled `dst` and the intended one from an all-`undefined` `dst` |
| M4Builders.AxisRotationZeroAngle | ThreeDThings.js:367-389 | `axisRotation` by angle 0 about any axis is the identity |
| M4Builders.AxisRotationX | ThreeDThings.js:367-389 | `axisRotation` about the x axis is `xRotation` |
| M4Builders.AxisRotationY | ThreeDThings.js:367-389 | `axisRotation` about the y axis is `yRotation` |
| M4Builders.AxisRotationZ | ThreeDThings.js:367-389 | `axisRotation` about the z axis is `zRotation` |
| M4Builders.AxisRotateX | ThreeDThings.js:390-392 | `axisRotate` about the x axis is the intended `xRotate` |
| M4Builders.AxisRotateY | ThreeDThings.js:390-392 | `axisRotate` about the y axis is the intended `yRotate` |
| M4Builders.AxisRotateZ | ThreeDThings.js:390-392 | `axisRotate` about the z axis is `zRotate` |
| M4Builders.AxisRotationFixesAxis | ThreeDThings.js:367-389 | `axisRotation` leaves its own axis fixed, whatever the angle |
| M4Builders.TransformDirectionScales | ThreeDThings.js:454-461 | `transformDirection` is linear in the scaling of its argument |
| M4Projections.OrthographicIsAffine | ThreeDThings.js:273-281 | `orthographic` never divides: its matrix is affine |
| M4Projections.OrthographicNearCorner | ThreeDThings.js:273-281 | the near bottom-left corner of the box goes to `(-1, -1, -1)` |
| M4Projections.OrthographicFarCorner | ThreeDThings.js:273-281 | the far top-right corner of the box goes to `(1, 1, 1)` |
| M4Projections.FrustumNearPlane | ThreeDThings.js:282-290 | every point on the near plane gets depth -1 |
| M4Projections.FrustumFarPlane | ThreeDThings.js:282-290 | every point on the far plane gets depth 1 |
| M4Projections.FrustumNearLowCorner | ThreeDThings.js:282-290 | the bottom-left corner of the near rectangle goes to `(-1, -1, -1)` |
| M4Projections.FrustumNearHighCorner | ThreeDThings.js:282-290 | the top-right corner of the near rectangle goes to `(1, 1, -1)` |
| M4Projections.PerspectiveNearPlane | ThreeDThings.js:291-299 | every point on the near plane gets depth -1 |
| M4Projections.PerspectiveFarPlane | ThreeDThings.js:291-299 | every point on the far plane gets depth 1 |
| M4Projections.PerspectiveIsFrustum | ThreeDThings.js:282-299 | `perspective` is the frustum symmetric about the view axis, with the near rectangle set by the aspect and the focal value |
| M4LookAt.LookAtPlacesCamera | ThreeDThings.js:168-178 | the camera matrix is affine and puts the origin at the camera position |
| M4LookAt.LookAtAxes | ThreeDThings.js:168-178 | the camera matrix sends the unit directions to the camera's x, y and z axes |
| M4LookAt.ZAxisFacesCamera | ThreeDThings.js:168-178 | the z axis is a non-negative multiple of the direction from the target to the camera |
| M4LookAt.AxesPerpendicular | ThreeDThings.js:168-178 | the three camera axes are pairwise perpendicular for every input |
| M4LookAt.AxesUnit | ThreeDThings.js:168-178 | away from the degenerate cases, the three axes are unit vectors |
| M4Compose.ComposeIsAffine | ThreeDThings.js:210-232 | `compose` builds an affine matrix that moves the origin to the translation |
| M4Compose.ComposeNoRotation | ThreeDThings.js:210-232 | the identity quaternion composes to a scaling followed by the translation, that is `scale(translation(t), sx, sy, sz)` |
| M4Compose.QuatRecoversRotation | ThreeDThings.js:476-506 | `quatFromRotationMatrix` recovers a unit quaternion from its rotation matrix, up to sign |
| M4Decompose.DecomposeAsWritten | ThreeDThings.js:240-254 | the library's `decompose` throws exactly when the determinant is negative; otherwise it reports column 3 as the translation and the column lengths as the scale, agreeing with the intended one |
| M4Decompose.DecomposeRoundTrip | ThreeDThings.js:210-254 | the intended `decompose` undoes `compose`: it gives back the translation, the signed scale, and the quaternion up to sign |
| M4Decompose.DecomposeAsWrittenRoundTrip | ThreeDThings.js:210-254 | with every scale positive, the library's `decompose` succeeds on what `compose` built and gives back the translation, the scale, and the quaternion up to sign |
| M4Decompose.DecomposeAsWrittenThrows | ThreeDThings.js:240-254 | the library's `decompose` throws on every matrix `compose` builds from a unit quaternion with a negative x scale and positive y and z scales |
| M4Decompose.DecomposeAsWrittenThrowsExactly | ThreeDThings.js:210-254 | on a matrix `compose` builds from a unit quaternion, the library's `decompose` throws exactly when the product of the three scales is negative, so `(-1, -1, 1)` does not throw |
| M4Decompose.MirrorThrows | ThreeDThings.js:240-254 | the library's `decompose` throws on the mirror `scaling(-1, 1, 1)` |
| Vectors.CrossPerpendicular | ThreeDThings.js:233-239 | the cross product is perpendicular to both arguments |
| Vectors.CrossAntiCommutes | ThreeDThings.js:233-239 | swapping the arguments of `cross` negates it |
| Vectors.CrossLengthSq | ThreeDThings.js:233-239 | Lagrange's identity links `cross`, `dot` and `lengthSq` |
| Vectors.UnitCross | ThreeDThings.js:233-239 | two perpendicular unit vectors have a unit cross product |
| Vectors.TripleProductCyclic | ThreeDThings.js:233-239 | the triple product is invariant under cyclic shifts |
| Vectors.AddSubtractInverse | ThreeDThings.js:179-188 | `subtractVectors` undoes `addVectors`, and the other way round |
| Vectors.DotScaleVector | ThreeDThings.js:189-193 | scaling a vector scales its dot products |
| Vectors.LengthSq | ThreeDThings.js:272 | the squared length is non-negative and zero only for the zero vector |
| Vectors.Length | ThreeDThings.js:271 | with a true root, the length is non-negative and zero only for the zero vector |
| Vectors.DistanceSq | ThreeDThings.js:198-201 | `distanceSq` is the squared length of the difference, and zero only for equal points |
| Vectors.DistanceSqSymmetric | ThreeDThings.js:198-201 | `distanceSq` is symmetric |
| Vectors.Distance | ThreeDThings.js:194-197 | `distance` is the length of the difference, and zero only for equal points |
| Vectors.Normalize | ThreeDThings.js:202-209 | `normalize` returns a unit vector pointing the same way when the length exceeds `0.00001`, and the zero vector otherwise |
| Vectors.NormalizeKeepsPerpendicular | ThreeDThings.js:202-209 | normalizing keeps a vector perpendicular to whatever it was perpendicular to |
| WebGLUtils.IncludesOccurs | ThreeDThings.js:860-861 | the search standing for `includes` succeeds exactly when the part occurs in the name |
| WebGLUtils.GuessNumComponentsFromName | ThreeDThings.js:858-865 | a success is 2, 3 or 4 and divides the length; a failure is the thrown `'Can not guess numComponents'` |
| WebGLUtils.GuessFromOccurrences | ThreeDThings.js:858-865 | `coord` gives 2 and wins over `color`, which gives 4; otherwise 3; the guess is returned exactly when it divides the length |
| WebGLUtils.GuessSplitsLength | ThreeDThings.js:863-864 | a successful guess splits the array into whole vertices |

## Left out

- `m4.setDefaultType` (ThreeDThings.js:471-475) swaps the global `Float32Array` constructor. The model has no global state, and every result is modelled as a fresh array of numbers.
- The rest of `webGLUtils`: buffer, attribute and shader set-up. It talks to the GPU and the DOM.
- Float32 rounding. All arithmetic is exact over `real`, so the inequalities against `0.000001` and `0.00001` are compared exactly.
- `Math.cos`, `Math.sin`, `Math.tan`, `Math.sqrt` and `Math.PI` are parameters.
  - The rotation lemmas require `c * c + s * s == 1` where they need a true angle.
  - The lemmas that need a true square root require `IsSqrtAt` at the points they use.
- The `dst` out-arguments and aliasing between `dst` and an input are left out. Every result is fresh. For example, `transpose(m, m)` would overwrite entries it still has to read; the model does not represent that call.
- `decompose`'s `translation`, `quaternion` and `scale` out-arguments become the fields of the returned `Parts`.
- Divisions by zero, which give `Infinity` or `NaN` in JavaScript, are excluded by `requires` clauses:
  - `M3.Inverse` (zero determinant), `M3.Projection` and `M3.Project` (zero width or height);
  - `M3.TransformPoint` and `M4.TransformPoint` (zero weight), `M3.RadToDeg` (zero `pi`);
  - `M4Projections.Orthographic`, `Frustum` and `Perspective` (equal planes, zero aspect);
  - `M4Builders.AxisRotation` and `AxisRotate` (zero-length axis);
  - `M4Compose.QuatFromRotationMatrix` (zero root);
  - `M4Decompose.Decompose` and `DecomposeAsWritten` (zero column length or zero root).
- M4Compose.QuatRecoversRotation: stated for unit quaternions only. The quaternion comes back up to sign, because `q` and `-q` give the same matrix.
- M4Decompose.DecomposeRoundTrip: stated for a scale whose y and z factors are positive. Column lengths cannot tell the sign of the y or z scale, and `decompose` puts a negative determinant on x only.
- M4LookAt.AxesUnit: the axes are unit vectors only away from the degenerate inputs. These are a camera at its target and an `up` parallel to the view direction, where `normalize` returns the zero vector. `AxesPerpendicular` covers every input.
- M4Inverse.Inverse: `InverseInverse` requires that the second inversion also succeeds. With exact arithmetic the threshold `0.000001` can reject the inverse of an accepted matrix.
- M3.Normalize: the 2D `normalize` reuses the 3D model at `z = 0`. Its contract states that agreement, not the unit-length facts directly; those come from `Vectors.Normalize`.

## Findings

| source | as written | input that shows it | evidently intended | confidence | as-written member | corrected member |
|---|---|---|---|---|---|---|
| ThreeDThings.js:337-346 | `xRotate` copies `m[i]` only into entries of `dst` that are `undefined`. A fresh `Float32Array` is zero-filled, so columns 0 and 3 stay zero. | `xRotate(identity(), 0)` has entries 0 and 15 equal to zero | columns 0 and 3 copied from `m`, so that `xRotate(m, a)` is `multiply(m, xRotation(a))` | not executed | M4Builders.XRotateAsWrittenDiffers | M4Builders.XRotateIsMultiply |
| ThreeDThings.js:347-356 | `yRotate` has the same fill loop, so columns 1 and 3 stay zero | `yRotate(identity(), 0)` has entries 5 and 15 equal to zero | columns 1 and 3 copied from `m`, so that `yRotate(m, a)` is `multiply(m, yRotation(a))` | not executed | M4Builders.YRotateAsWrittenDiffers | M4Builders.YRotateIsMultiply |
| ThreeDThings.js:240-254 | `decompose` binds the x scale with `const` and then assigns `sx = -sx` when the determinant is negative. That assignment throws a `TypeError`. | `decompose(scaling(-1, 1, 1), t, q, s)` | the x scale negated, so that `decompose` undoes `compose` for mirrored transforms | not executed | M4Decompose.MirrorThrows | M4Decompose.DecomposeRoundTrip |
