/** The fragment shader's main: march the primary ray of the fragment against the
    scene field; a result above END - EPSILON paints the background sentinel, blue
    with alpha 0, and any other result is shaded with the Phong model and painted
    with alpha 1. */
module Fragment {
  import opened Glsl
  import opened Scene
  import opened RayMarcher
  import opened Shading
  import opened Camera

  const Background := Vec4(0.0, 0.0, 1.0, 0.0)
  const Ka := Vec3(0.2, 0.2, 0.2)
  const Kd := Vec3(0.7, 0.2, 0.2)
  const Ks := Vec3(1.0, 1.0, 1.0)
  const Shininess := 100.0

  /** The step the marcher returns for the fragment at fragXY. */
  function MarchedStep(b: Builtins, u: Uniforms, resolution: Vec2, fragXY: Vec2): real
    requires b.tan(Radians(b, FieldOfView) / 2.0) != 0.0
  {
    March(SceneField(b, u), CameraPos, WorldDirection(b, resolution, fragXY), START, END, MAX_STEPS)
  }

  /** main: the colour of the fragment at v_pos.xy = fragXY. */
  method Shade(b: Builtins, u: Uniforms, resolution: Vec2, fragXY: Vec2) returns (fragColor: Vec4)
    requires b.tan(Radians(b, FieldOfView) / 2.0) != 0.0
    ensures var dist := MarchedStep(b, u, resolution, fragXY);
      var p := At(CameraPos, WorldDirection(b, resolution, fragXY), dist);
      (dist > END - EPSILON ==> fragColor == Background)
      && (dist <= END - EPSILON ==>
            fragColor.w == 1.0
            && SceneSDF(b, u, p) < EPSILON
            && Xyz(fragColor) == PhongIllumination(b, u, Ka, Kd, Ks, Shininess, p, CameraPos))
    ensures fragColor.w == 0.0 || fragColor.w == 1.0
  {
    var viewDir := RayDirection(b, FieldOfView, resolution, fragXY);
    var cam := CameraPos;
    var viewToWorld := View(b, cam, Zero3, Vec3(0.0, 1.0, 0.0));
    var worldDir := Xyz(MulVec4(viewToWorld, Vec4(viewDir.x, viewDir.y, viewDir.z, 0.0)));

    var dist, _ := RayMarch(SceneField(b, u), cam, worldDir, START, END);

    if dist > END - EPSILON {
      return Background;
    }

    var p := At(cam, worldDir, dist);
    var color := PhongIllumination(b, u, Ka, Kd, Ks, Shininess, p, cam);
    fragColor := Vec4(color.x, color.y, color.z, 1.0);
  }

  /** The marched step lies in [START, END]; a step the shader shades (at most
      END - EPSILON) is a hit: the ray point there has scene distance below EPSILON. */
  lemma HitIsOnSurface(b: Builtins, u: Uniforms, resolution: Vec2, fragXY: Vec2)
    requires b.tan(Radians(b, FieldOfView) / 2.0) != 0.0
    ensures START <= MarchedStep(b, u, resolution, fragXY) <= END
    ensures MarchedStep(b, u, resolution, fragXY) <= END - EPSILON ==>
      SceneSDF(b, u, At(CameraPos, WorldDirection(b, resolution, fragXY), MarchedStep(b, u, resolution, fragXY))) < EPSILON
  {
    var dir := WorldDirection(b, resolution, fragXY);
    MarchBounds(SceneField(b, u), CameraPos, dir, START, END, MAX_STEPS);
    MarchHit(SceneField(b, u), CameraPos, dir, START, END, MAX_STEPS);
  }
}
