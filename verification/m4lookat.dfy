/** `m4.lookAt(cameraPosition, target, up)`: the camera matrix whose
    columns are the camera's axes and position. The z axis points from the
    target back to the camera, the x axis is `up x z` and the y axis
    `z x x`, each passed through `normalize`; column 3 is the camera
    position. The square root inside `normalize` is the parameter `sqrt`. */
module M4LookAt {
  import opened Reals
  import opened M4
  import V = Vectors

  /** The camera's z axis: `normalize(cameraPosition - target)`. */
  function ZAxis(camera: V.Vec3, target: V.Vec3, sqrt: real -> real): V.Vec3
  {
    V.Normalize(V.Subtract(camera, target), sqrt)
  }

  /** The camera's x axis: `normalize(up x zAxis)`. */
  function XAxis(camera: V.Vec3, target: V.Vec3, up: V.Vec3, sqrt: real -> real): V.Vec3
  {
    V.Normalize(V.Cross(up, ZAxis(camera, target, sqrt)), sqrt)
  }

  /** The camera's y axis: `normalize(zAxis x xAxis)`. */
  function YAxis(camera: V.Vec3, target: V.Vec3, up: V.Vec3, sqrt: real -> real): V.Vec3
  {
    V.Normalize(V.Cross(ZAxis(camera, target, sqrt), XAxis(camera, target, up, sqrt)), sqrt)
  }

  /** `lookAt(cameraPosition, target, up)`. */
  function LookAt(camera: V.Vec3, target: V.Vec3, up: V.Vec3, sqrt: real -> real): Matrix4
  {
    var z := ZAxis(camera, target, sqrt);
    var x := XAxis(camera, target, up, sqrt);
    var y := YAxis(camera, target, up, sqrt);
    Matrix4(x.x, x.y, x.z, 0.0, y.x, y.y, y.z, 0.0, z.x, z.y, z.z, 0.0, camera.x, camera.y, camera.z, 1.0)
  }

  /** The camera matrix is affine and takes the origin to the camera. */
  lemma LookAtPlacesCamera(camera: V.Vec3, target: V.Vec3, up: V.Vec3, sqrt: real -> real)
    ensures IsAffine(LookAt(camera, target, up, sqrt))
    ensures TransformPoint(LookAt(camera, target, up, sqrt), V.Zero) == camera
  {
  }

  /** The camera matrix takes the unit directions to the camera's axes. */
  lemma LookAtAxes(camera: V.Vec3, target: V.Vec3, up: V.Vec3, sqrt: real -> real)
    ensures TransformDirection(LookAt(camera, target, up, sqrt), V.Vec3(1.0, 0.0, 0.0)) == XAxis(camera, target, up, sqrt)
    ensures TransformDirection(LookAt(camera, target, up, sqrt), V.Vec3(0.0, 1.0, 0.0)) == YAxis(camera, target, up, sqrt)
    ensures TransformDirection(LookAt(camera, target, up, sqrt), V.Vec3(0.0, 0.0, 1.0)) == ZAxis(camera, target, sqrt)
  {
  }

  /** The z axis points from the target to the camera: it is a non-negative
      multiple of `cameraPosition - target` (zero when the two are closer
      than `normalize` tolerates). */
  lemma ZAxisFacesCamera(camera: V.Vec3, target: V.Vec3, sqrt: real -> real)
    requires IsSqrtAt(sqrt, V.LengthSq(V.Subtract(camera, target)))
    ensures V.Cross(ZAxis(camera, target, sqrt), V.Subtract(camera, target)) == V.Zero
    ensures V.Dot(ZAxis(camera, target, sqrt), V.Subtract(camera, target)) >= 0.0
  {
  }

  /** The three axes are pairwise perpendicular, whatever the inputs: a
      degenerate axis is the zero vector, which is perpendicular to all. */
  lemma AxesPerpendicular(camera: V.Vec3, target: V.Vec3, up: V.Vec3, sqrt: real -> real)
    ensures V.Dot(XAxis(camera, target, up, sqrt), ZAxis(camera, target, sqrt)) == 0.0
    ensures V.Dot(YAxis(camera, target, up, sqrt), ZAxis(camera, target, sqrt)) == 0.0
    ensures V.Dot(YAxis(camera, target, up, sqrt), XAxis(camera, target, up, sqrt)) == 0.0
  {
    var z := ZAxis(camera, target, sqrt);
    var cx := V.Cross(up, z);
    V.CrossPerpendicular(up, z);
    V.DotSymmetric(z, cx);
    V.NormalizeKeepsPerpendicular(cx, z, sqrt);
    var x := XAxis(camera, target, up, sqrt);
    var cy := V.Cross(z, x);
    V.CrossPerpendicular(z, x);
    V.DotSymmetric(z, cy);
    V.DotSymmetric(x, cy);
    V.NormalizeKeepsPerpendicular(cy, z, sqrt);
    V.NormalizeKeepsPerpendicular(cy, x, sqrt);
  }

  /** With an exact square root, a camera away from its target and an `up`
      not parallel to the view direction, the three axes are unit vectors:
      together with `AxesPerpendicular`, the upper 3x3 block is a rotation
      basis. */
  lemma AxesUnit(camera: V.Vec3, target: V.Vec3, up: V.Vec3, sqrt: real -> real)
    requires IsSqrtAt(sqrt, V.LengthSq(V.Subtract(camera, target)))
    requires sqrt(V.LengthSq(V.Subtract(camera, target))) > V.NormalizeEpsilon
    requires IsSqrtAt(sqrt, V.LengthSq(V.Cross(up, ZAxis(camera, target, sqrt))))
    requires sqrt(V.LengthSq(V.Cross(up, ZAxis(camera, target, sqrt)))) > V.NormalizeEpsilon
    requires IsSqrtAt(sqrt, 1.0)
    ensures V.LengthSq(ZAxis(camera, target, sqrt)) == 1.0
    ensures V.LengthSq(XAxis(camera, target, up, sqrt)) == 1.0
    ensures V.LengthSq(YAxis(camera, target, up, sqrt)) == 1.0
  {
    var z := ZAxis(camera, target, sqrt);
    var x := XAxis(camera, target, up, sqrt);
    AxesPerpendicular(camera, target, up, sqrt);
    V.DotSymmetric(x, z);
    V.UnitCross(z, x);
    SqrtAtLeastOne(sqrt, 1.0);
  }
}
