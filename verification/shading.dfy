/** Surface normals and Phong lighting: estimateNormal, phongContribForLight and
    PhongIllumination with its two orbiting lights. */
module Shading {
  import opened Glsl
  import opened Scene
  import opened RayMarcher

  /** The central differences of the scene field along x, y and z, with step EPSILON. */
  function Gradient(b: Builtins, u: Uniforms, p: Vec3): Vec3
  {
    Vec3(SceneSDF(b, u, Vec3(p.x + EPSILON, p.y, p.z)) - SceneSDF(b, u, Vec3(p.x - EPSILON, p.y, p.z)),
         SceneSDF(b, u, Vec3(p.x, p.y + EPSILON, p.z)) - SceneSDF(b, u, Vec3(p.x, p.y - EPSILON, p.z)),
         SceneSDF(b, u, Vec3(p.x, p.y, p.z + EPSILON)) - SceneSDF(b, u, Vec3(p.x, p.y, p.z - EPSILON)))
  }

  /** estimateNormal */
  function EstimateNormal(b: Builtins, u: Uniforms, p: Vec3): Vec3 { b.normalize(Gradient(b, u, p)) }

  /** Lambert's diffuse term lightIntensity · (k_d · dotLN). */
  function Diffuse(kd: Vec3, dotLN: real, intensity: Vec3): Vec3 { Mul(intensity, Scale(dotLN, kd)) }

  /** The diffuse term plus the specular lobe: lightIntensity · (k_d · dotLN + k_s · dotRV^alpha). */
  function DiffuseSpecular(b: Builtins, kd: Vec3, ks: Vec3, alpha: real, dotLN: real, dotRV: real, intensity: Vec3): Vec3
  {
    Mul(intensity, Add(Scale(dotLN, kd), Scale(b.pow(dotRV, alpha), ks)))
  }

  /** The three-way choice of phongContribForLight once dot(L,N) and dot(R,V) are known. */
  function LightTerm(b: Builtins, kd: Vec3, ks: Vec3, alpha: real, dotLN: real, dotRV: real, intensity: Vec3): Vec3
  {
    if dotLN < 0.0 then Zero3
    else if dotRV < 0.0 then Diffuse(kd, dotLN, intensity)
    else DiffuseSpecular(b, kd, ks, alpha, dotLN, dotRV, intensity)
  }

  /** The unit vectors phongContribForLight works with: normal N, to-light L, to-camera V,
      and R, the normalized reflection of -L about N. */
  function ToLight(b: Builtins, p: Vec3, lightPos: Vec3): Vec3 { b.normalize(Sub(lightPos, p)) }
  function ToCamera(b: Builtins, p: Vec3, cam: Vec3): Vec3 { b.normalize(Sub(cam, p)) }
  function Reflected(b: Builtins, u: Uniforms, p: Vec3, lightPos: Vec3): Vec3
  {
    b.normalize(Reflect(Neg(ToLight(b, p, lightPos)), EstimateNormal(b, u, p)))
  }

  /** phongContribForLight */
  function PhongContribForLight(b: Builtins, u: Uniforms, kd: Vec3, ks: Vec3, alpha: real,
                                p: Vec3, cam: Vec3, lightPos: Vec3, lightIntensity: Vec3): Vec3
  {
    var N := EstimateNormal(b, u, p);
    var L := ToLight(b, p, lightPos);
    var V := ToCamera(b, p, cam);
    var R := Reflected(b, u, p, lightPos);
    LightTerm(b, kd, ks, alpha, Dot(L, N), Dot(R, V), lightIntensity)
  }

  /** A light behind the surface (dot(L,N) < 0) contributes exactly nothing; one in
      front with the reflection facing away from the camera (dot(R,V) < 0)
      contributes the diffuse term alone; otherwise the diffuse and specular terms. */
  lemma PhongCases(b: Builtins, u: Uniforms, kd: Vec3, ks: Vec3, alpha: real,
                   p: Vec3, cam: Vec3, lightPos: Vec3, lightIntensity: Vec3)
    ensures var dotLN := Dot(ToLight(b, p, lightPos), EstimateNormal(b, u, p));
      var dotRV := Dot(Reflected(b, u, p, lightPos), ToCamera(b, p, cam));
      var c := PhongContribForLight(b, u, kd, ks, alpha, p, cam, lightPos, lightIntensity);
      (dotLN < 0.0 ==> c == Zero3)
      && (dotLN >= 0.0 && dotRV < 0.0 ==> c == Diffuse(kd, dotLN, lightIntensity))
      && (dotLN >= 0.0 && dotRV >= 0.0 ==> c == DiffuseSpecular(b, kd, ks, alpha, dotLN, dotRV, lightIntensity))
  {
  }

  predicate NonNeg(v: Vec3) { 0.0 <= v.x && 0.0 <= v.y && 0.0 <= v.z }

  /** Component-wise u <= v. */
  predicate Below(u: Vec3, v: Vec3) { u.x <= v.x && u.y <= v.y && u.z <= v.z }

  /** With non-negative material and light colours, no light term is negative, and
      the specular lobe only ever adds to the diffuse term. */
  lemma LightTermNonNeg(b: Builtins, kd: Vec3, ks: Vec3, alpha: real, dotLN: real, dotRV: real, intensity: Vec3)
    requires PowLaws(b) && NonNeg(kd) && NonNeg(ks) && NonNeg(intensity)
    ensures NonNeg(LightTerm(b, kd, ks, alpha, dotLN, dotRV, intensity))
    ensures dotLN >= 0.0 ==> Below(Diffuse(kd, dotLN, intensity), LightTerm(b, kd, ks, alpha, dotLN, dotRV, intensity))
  {
    if dotLN >= 0.0 {
      var d := Scale(dotLN, kd);
      assert NonNeg(d) by { NonNegProduct(dotLN, kd.x); NonNegProduct(dotLN, kd.y); NonNegProduct(dotLN, kd.z); }
      NonNegMul(intensity, d);
      if dotRV >= 0.0 {
        var pw := b.pow(dotRV, alpha);
        assert 0.0 <= pw;
        var sp := Scale(pw, ks);
        assert NonNeg(sp) by { NonNegProduct(pw, ks.x); NonNegProduct(pw, ks.y); NonNegProduct(pw, ks.z); }
        NonNegMul(intensity, sp);
        MulDistributes(intensity, d, sp);
      }
    }
  }

  lemma NonNegProduct(x: real, y: real)
    requires 0.0 <= x && 0.0 <= y
    ensures 0.0 <= x * y
  {
  }

  lemma NonNegMul(u: Vec3, v: Vec3)
    requires NonNeg(u) && NonNeg(v)
    ensures NonNeg(Mul(u, v))
  {
    NonNegProduct(u.x, v.x); NonNegProduct(u.y, v.y); NonNegProduct(u.z, v.z);
  }

  lemma MulDistributes(i: Vec3, d: Vec3, s: Vec3)
    ensures Mul(i, Add(d, s)) == Add(Mul(i, d), Mul(i, s))
  {
    assert i.x * (d.x + s.x) == i.x * d.x + i.x * s.x;
    assert i.y * (d.y + s.y) == i.y * d.y + i.y * s.y;
    assert i.z * (d.z + s.z) == i.z * d.z + i.z * s.z;
  }

  /** Both lights have intensity 0.6 in every channel. */
  const LightIntensity := Vec3(0.6, 0.6, 0.6)

  /** Light 1 circles the y axis at radius 4 and height 2, at one radian per unit of time. */
  function Light1Pos(b: Builtins, time: real): Vec3 { Vec3(4.0 * b.sin(time), 2.0, 4.0 * b.cos(time)) }

  /** The phase 0.37·time of light 2. */
  function Light2Phase(time: real): real { 0.37 * time }

  /** Light 2 circles the z axis at radius 2 in the plane z = 2, at 0.37 radians per unit of time. */
  function Light2Pos(b: Builtins, time: real): Vec3
  {
    Vec3(2.0 * b.sin(Light2Phase(time)), 2.0 * b.cos(Light2Phase(time)), 2.0)
  }

  /** The ambient term 0.5·(1,1,1) ⊙ k_a. */
  function Ambient(ka: Vec3): Vec3 { Mul(Scale(0.5, Vec3(1.0, 1.0, 1.0)), ka) }

  /** PhongIllumination: the ambient term plus the contribution of each light. */
  function PhongIllumination(b: Builtins, u: Uniforms, ka: Vec3, kd: Vec3, ks: Vec3, alpha: real,
                             p: Vec3, cam: Vec3): Vec3
  {
    var color0 := Ambient(ka);
    var color1 := Add(color0, PhongContribForLight(b, u, kd, ks, alpha, p, cam, Light1Pos(b, u.time), LightIntensity));
    Add(color1, PhongContribForLight(b, u, kd, ks, alpha, p, cam, Light2Pos(b, u.time), LightIntensity))
  }

  /** The lights move on their circles: light 1 at distance 4 from the y axis and
      height 2, light 2 at distance 2 from the z axis in the plane z = 2. */
  lemma LightOrbits(b: Builtins, time: real)
    requires TrigLaws(b)
    ensures var l1 := Light1Pos(b, time); l1.x * l1.x + l1.z * l1.z == 16.0 && l1.y == 2.0
    ensures var l2 := Light2Pos(b, time); l2.x * l2.x + l2.y * l2.y == 4.0 && l2.z == 2.0
  {
    var s1, c1 := b.sin(time), b.cos(time);
    assert s1 * s1 + c1 * c1 == 1.0;
    assert (4.0 * s1) * (4.0 * s1) + (4.0 * c1) * (4.0 * c1) == 16.0 * (s1 * s1 + c1 * c1);
    var s2, c2 := b.sin(Light2Phase(time)), b.cos(Light2Phase(time));
    assert s2 * s2 + c2 * c2 == 1.0;
    assert (2.0 * s2) * (2.0 * s2) + (2.0 * c2) * (2.0 * c2) == 4.0 * (s2 * s2 + c2 * c2);
  }

  /** With non-negative material colours, the lit colour is never below the
      ambient term in any channel: lights only add. */
  lemma IlluminationAtLeastAmbient(b: Builtins, u: Uniforms, ka: Vec3, kd: Vec3, ks: Vec3, alpha: real,
                                   p: Vec3, cam: Vec3)
    requires PowLaws(b) && NonNeg(kd) && NonNeg(ks)
    ensures Below(Ambient(ka), PhongIllumination(b, u, ka, kd, ks, alpha, p, cam))
  {
    var l1 := Light1Pos(b, u.time);
    var l2 := Light2Pos(b, u.time);
    LightTermNonNeg(b, kd, ks, alpha,
      Dot(ToLight(b, p, l1), EstimateNormal(b, u, p)),
      Dot(Reflected(b, u, p, l1), ToCamera(b, p, cam)), LightIntensity);
    LightTermNonNeg(b, kd, ks, alpha,
      Dot(ToLight(b, p, l2), EstimateNormal(b, u, p)),
      Dot(Reflected(b, u, p, l2), ToCamera(b, p, cam)), LightIntensity);
  }
}
