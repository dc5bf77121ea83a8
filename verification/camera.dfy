/** The camera: rayDirection builds the view-space direction of a fragment and
    view builds the view-to-world matrix of a camera looking at a centre. The
    fragment shader fixes the camera at (8,5,7), looking at the origin with y up,
    and a field of view of 45 degrees. */
module Camera {
  import opened Glsl

  const CameraPos := Vec3(8.0, 5.0, 7.0)
  const FieldOfView := 45.0

  function Xyz(v: Vec4): Vec3 { Vec3(v.x, v.y, v.z) }

  /** rayDirection: normalize(vec3(fragCoord, -size.y / tan(radians(fov)/2))). */
  function RayDirection(b: Builtins, fieldOfView: real, size: Vec2, fragCoord: Vec2): Vec3
    requires b.tan(Radians(b, fieldOfView) / 2.0) != 0.0
  {
    var z := size.y / b.tan(Radians(b, fieldOfView) / 2.0);
    b.normalize(Vec3(fragCoord.x, fragCoord.y, -z))
  }

  /** The forward, side and up vectors of view, in that order of construction. */
  function Forward(b: Builtins, cam: Vec3, center: Vec3): Vec3 { b.normalize(Sub(center, cam)) }
  function Side(b: Builtins, cam: Vec3, center: Vec3, up: Vec3): Vec3 { b.normalize(Cross(Forward(b, cam, center), up)) }
  function Up(b: Builtins, cam: Vec3, center: Vec3, up: Vec3): Vec3
  {
    Cross(Side(b, cam, center, up), Forward(b, cam, center))
  }

  /** view: the columns (s, 0), (u, 0), (-f, 0) and (0, 0, 0, 1). */
  function View(b: Builtins, cam: Vec3, center: Vec3, up: Vec3): Mat4
  {
    var f := Forward(b, cam, center);
    var s := Side(b, cam, center, up);
    var u := Up(b, cam, center, up);
    Mat4(Vec4(s.x, s.y, s.z, 0.0), Vec4(u.x, u.y, u.z, 0.0), Vec4(-f.x, -f.y, -f.z, 0.0),
         Vec4(0.0, 0.0, 0.0, 1.0))
  }

  /** The world-space direction of the primary ray through a fragment. */
  function WorldDirection(b: Builtins, resolution: Vec2, fragXY: Vec2): Vec3
    requires b.tan(Radians(b, FieldOfView) / 2.0) != 0.0
  {
    var viewDir := RayDirection(b, FieldOfView, resolution, fragXY);
    var viewToWorld := View(b, CameraPos, Zero3, Vec3(0.0, 1.0, 0.0));
    Xyz(MulVec4(viewToWorld, Vec4(viewDir.x, viewDir.y, viewDir.z, 0.0)))
  }

  /** The recomputed up vector is orthogonal to the side and forward vectors, and
      the view matrix sends a direction (w = 0) to the combination
      x·side + y·up - z·forward, again a direction. */
  lemma ViewBasis(b: Builtins, cam: Vec3, center: Vec3, up: Vec3, d: Vec3)
    ensures var f, s, u := Forward(b, cam, center), Side(b, cam, center, up), Up(b, cam, center, up);
      Dot(u, s) == 0.0 && Dot(u, f) == 0.0
      && MulVec4(View(b, cam, center, up), Vec4(d.x, d.y, d.z, 0.0)).w == 0.0
      && Xyz(MulVec4(View(b, cam, center, up), Vec4(d.x, d.y, d.z, 0.0)))
         == Add(Add(Scale(d.x, s), Scale(d.y, u)), Scale(d.z, Neg(f)))
  {
    CrossOrthogonal(Side(b, cam, center, up), Forward(b, cam, center));
  }
}
