# Signed-distance-field shader kernel in Dafny

This project models the fragment shader of `Homework3/js/sdf-shader.js`: a
single animated solid described only by a signed distance field (SDF), drawn by
sphere tracing each camera ray against that field and shading the hit point with
a two-light Phong model. The shader's GLSL is restated as Dafny over `real`:

- `glsl.dfy` (module `Glsl`): vectors, column-major `mat3`/`mat4`, `dot`, `cross`,
  `reflect`, `radians`, and a `Builtins` record whose fields are the built-ins
  Dafny cannot compute (`sin`, `cos`, `tan`, `length`, `normalize`, `pow`, π).
  Their laws (`TrigLaws`, `LengthLaws`, `PowLaws`) are predicates that only the
  lemmas needing them require.
- `transform.dfy` (`Transform`): `rotateX`, `rotateY`, `rotateZ`.
- `csg.dfy` (`Csg`): `intersectSDF`, `unionSDF`, `differenceSDF`.
- `primitives.dfy` (`Primitives`): `boxSDF`, `sphereSDF`, `cylinderSDF`.
- `scene.dfy` (`Scene`): `sceneSDF` with the uniforms `time`, `Ball_Speed` and
  `Hole_Speed` as a `Uniforms` parameter.
- `raymarch.dfy` (`RayMarcher`): `rayMarch` as a method with its `for` loop,
  proved against the recursive specification `March`. `Probes` lists the steps
  at which the field is evaluated. The marched field is any `Vec3 -> real`.
- `shading.dfy` (`Shading`): `estimateNormal`, `phongContribForLight`,
  `PhongIllumination` and the two orbiting lights.
- `camera.dfy` (`Camera`): `rayDirection` and `view`.
- `fragment.dfy` (`Fragment`): the shader's `main`, as the method `Shade`.

Each GLSL function of the shader has one Dafny counterpart:

| GLSL | Dafny |
|---|---|
| `rotateX`, `rotateY`, `rotateZ` | `Transform.RotateX`, `Transform.RotateY`, `Transform.RotateZ` |
| `intersectSDF`, `unionSDF`, `differenceSDF` | `Csg.Intersect`, `Csg.Union`, `Csg.Difference` |
| `boxSDF`, `sphereSDF`, `cylinderSDF` | `Primitives.BoxSDF`, `Primitives.SphereSDF`, `Primitives.CylinderSDF` |
| `sceneSDF` | `Scene.SceneSDF` |
| `rayMarch` | `RayMarcher.RayMarch`, specified by `RayMarcher.March` and `RayMarcher.Probes` |
| `rayDirection` | `Camera.RayDirection` |
| `estimateNormal` | `Shading.EstimateNormal` |
| `phongContribForLight` | `Shading.PhongContribForLight` |
| `PhongIllumination` | `Shading.PhongIllumination` |
| `view` | `Camera.View` |
| `main` | `Fragment.Shade` |

Three details of the shader matter for the model:

- GLSL's `mat3(vec3, vec3, vec3)` takes columns. So the matrices that `rotateX/Y/Z`
  build are the transposes of the textbook right-handed rotations: they turn a
  point by minus the angle. They are still orthogonal.
- `rayMarch` returns a single float. `main` treats any result above
  `END - EPSILON` as a miss, so a hit closer than `EPSILON` to `END` is painted
  as background.
- Each step added in `rayMarch` is at least `EPSILON`, so the steps strictly
  increase.

## Model

| member | source | states |
|---|---|---|
| `Glsl.CrossOrthogonal` | Homework3/js/sdf-shader.js:186-187 | the cross product `view` uses is orthogonal to both factors |
| `Transform.RotationsOrthogonal` | Homework3/js/sdf-shader.js:23-51 | for c² + s² = 1 each rotation matrix M has MᵀM = I and MMᵀ = I |
| `Transform.RotateOrthogonal` | Homework3/js/sdf-shader.js:23-51 | with the built-in sin and cos, `rotateX/Y/Z(θ)` is orthogonal for every θ |
| `Transform.RotationsIdentity` | Homework3/js/sdf-shader.js:23-51 | with c = 1 and s = 0 each rotation is the identity |
| `Transform.RotationsPreserveNorm` | Homework3/js/sdf-shader.js:23-51 | for c² + s² = 1 each rotation keeps the squared norm of the point it turns |
| `Csg.Intersect` | Homework3/js/sdf-shader.js:53-55 | the result is the larger distance; it is negative iff both are negative |
| `Csg.Union` | Homework3/js/sdf-shader.js:57-59 | the result is the smaller distance; it is negative iff either is negative |
| `Csg.Difference` | Homework3/js/sdf-shader.js:61-63 | `differenceSDF(a, b) == intersectSDF(a, -b)`; negative iff inside a and strictly outside b |
| `Csg.Lattice` | Homework3/js/sdf-shader.js:53-59 | union and intersect are commutative, associative, idempotent and absorb each other |
| `Csg.DeMorgan` | Homework3/js/sdf-shader.js:57-63 | negation turns union into intersection; subtracting b then c is subtracting their union |
| `Primitives.BoxTerms` | Homework3/js/sdf-shader.js:65-73 | inside term ≤ 0, outside term ≥ 0, at most one non-zero; outside term is 0 when every offset ≤ 0 and positive when one is positive |
| `Primitives.BoxSign` | Homework3/js/sdf-shader.js:65-73 | the box field is the largest offset when all offsets are negative and the outside term when one is positive; negative iff strictly inside, positive iff outside |
| `Primitives.SphereSign` | Homework3/js/sdf-shader.js:75-77 | the sphere field is 0 iff length(p) = r, negative iff length(p) < r, positive iff length(p) > r, and -r at the centre |
| `Primitives.CylinderTerms` | Homework3/js/sdf-shader.js:79-89 | the same inside/outside split for the pair (radial, axial) |
| `Primitives.CylinderSign` | Homework3/js/sdf-shader.js:79-89 | negative iff within the radius and between the caps; positive iff beyond either |
| `Scene.HoleRadius` | Homework3/js/sdf-shader.js:94 | for a sine in [-1, 1] the bore radius is in [0.4, 1.0]; 0.7 at sine 0, 0.4 at -1, 1.0 at 1 |
| `Scene.BallDistance` | Homework3/js/sdf-shader.js:103 | for a sine in [-1, 1] the ball offset is in [0.4, 2.4]; 1.4 at sine 0 |
| `Scene.AnimationBounds` | Homework3/js/sdf-shader.js:94-103 | with the built-in sin, `cylinderRadius` ∈ [0.4, 1.0] and `ballOffset` ∈ [0.4, 2.4], 0.7 and 1.4 when the sine is 0 |
| `Scene.BallCentersLayout` | Homework3/js/sdf-shader.js:103-110 | ball centres 2k and 2k+1 sit at +offset and -offset on axis k and at 0 on the other axes; at rest they are (±1.4,0,0), (0,±1.4,0), (0,0,±1.4) |
| `Scene.BallsNearest` | Homework3/js/sdf-shader.js:105-110 | the six successive unions give the distance to the nearest ball: no ball field is below it and one equals it |
| `Scene.NutMembership` | Homework3/js/sdf-shader.js:95-113 | a point is inside `csgNut` iff it is inside the cube and the sphere and outside all three bores |
| `Scene.SceneMembership` | Homework3/js/sdf-shader.js:91-116 | a point is inside the scene iff, after the spin, it is inside one of the six balls or inside the nut |
| `Scene.BoresAlongAxes` | Homework3/js/sdf-shader.js:96-97 | if cos(radians(90)) = 0 and sin = 1, bores 2 and 3 are cylinders whose axial coordinate is y, respectively x |
| `Scene.SphereIgnoresSpin` | Homework3/js/sdf-shader.js:92-101 | the spin `rotateY(time/2)` leaves the sphere term unchanged |
| `RayMarcher.ProbesShape` | Homework3/js/sdf-shader.js:119-135 | the field is evaluated at most 255 times, first at `start`; each later step is the previous one plus a field value ≥ EPSILON, and lies before `end` |
| `RayMarcher.ProbesIncrease` | Homework3/js/sdf-shader.js:122-131 | the evaluated steps strictly increase |
| `RayMarcher.MarchResult` | Homework3/js/sdf-shader.js:119-135 | the result is either `end` or the last evaluated step, where the field is below EPSILON; at every earlier step it was at least EPSILON |
| `RayMarcher.MarchStops` | Homework3/js/sdf-shader.js:122-134 | when the last probe is not a hit, the loop stopped there because all its iterations were spent or because the move from it reaches `end` |
| `RayMarcher.MarchMiss` | Homework3/js/sdf-shader.js:119-135 | with at least one iteration the field is evaluated at least once, and a last probe that is not a hit means the result is `end`, for one of those two reasons |
| `RayMarcher.MarchBounds` | Homework3/js/sdf-shader.js:119-135 | from `start` ≤ `end`, the result lies in [start, end] |
| `RayMarcher.MarchHit` | Homework3/js/sdf-shader.js:123-134 | the result is `end` or a step at which the field is below EPSILON |
| `RayMarcher.RayMarch` | Homework3/js/sdf-shader.js:119-135 | the loop returns the value of `March` and evaluates the field at exactly the steps `Probes` lists, at most 255 of them; the result is `end` or a hit, and lies in [start, end] when start ≤ end; a last probe that is not a hit means the result is `end`, after all 255 iterations or because the move from it reaches `end` |
| `Shading.PhongCases` | Homework3/js/sdf-shader.js:151-165 | contribution is zero when dot(L,N) < 0; the diffuse term alone when dot(L,N) ≥ 0 and dot(R,V) < 0; diffuse plus specular otherwise |
| `Shading.LightTermNonNeg` | Homework3/js/sdf-shader.js:157-164 | with non-negative colours a light's contribution is non-negative, and the specular lobe only adds to the diffuse term |
| `Shading.LightOrbits` | Homework3/js/sdf-shader.js:171-176 | light 1 moves on the circle of radius 4 about the y axis at height 2; light 2 on the circle of radius 2 about the z axis in the plane z = 2 |
| `Shading.IlluminationAtLeastAmbient` | Homework3/js/sdf-shader.js:167-182 | with non-negative material colours the lit colour is at least the ambient term in every channel |
| `Camera.ViewBasis` | Homework3/js/sdf-shader.js:184-193 | the recomputed up vector is orthogonal to side and forward; `view` maps a direction to x·side + y·up - z·forward with w = 0 |
| `Fragment.Shade` | Homework3/js/sdf-shader.js:195-221 | a march result above END - EPSILON paints (0,0,1,0); any other result paints alpha 1 with the Phong colour of the ray point there, where the scene field is below EPSILON |
| `Fragment.HitIsOnSurface` | Homework3/js/sdf-shader.js:204-211 | the marched step lies in [START, END]; a shaded step is a point whose scene distance is below EPSILON |

## Left out

- The vertex shader (`sphereDFVShader`, lines 1-8) only passes the position through the GPU's projection matrices.
- `Homework3/js/cmgine.js`, the scene-graph and render-loop driver, is not part of this model. It only supplies the uniforms and displays the colours.
- Floating-point rounding and GPU precision: all arithmetic is over exact reals.
- `sin`, `cos`, `tan`, `length`, `normalize`, `pow` and π are uninterpreted. Only their laws are assumed: sin and cos bounded and on the unit circle; `length` non-negative, zero exactly at the zero vector, and a function of the squared norm; `length(vec2)` only non-negative and zero exactly at the zero vector; pow non-negative on a non-negative base.
- Camera.RayDirection: requires `tan(radians(fov)/2) != 0`, because GLSL leaves division by zero undefined; `Fragment.Shade` passes that requirement on for the fixed 45° field of view.
- Shading.EstimateNormal: has no contract. Its unit length is a property of the built-in `normalize`, not of the shader.
- Camera.WorldDirection: has no unit-length contract, for the same reason.
- The claim that sphere tracing never overshoots a surface needs a Lipschitz bound on `sceneSDF`. The code does not establish one, and the CSG operators give only bounds.
- Concrete renders (a ray from (8,5,7) hitting the solid) would need actual values of sqrt, sin and cos.
- Scene.BoresAlongAxes: takes cos(radians(90)) = 0 and sin(radians(90)) = 1 as hypotheses, since π and the trigonometric built-ins are uninterpreted.
