/** sceneSDF: the one time-dependent distance field of the scene. The point is
    first turned about y by time/2; a cube of side 1.8 is intersected with a sphere
    of radius 1.2, three bores of height 2 and animated radius are drilled through
    it along the three axes, and six balls of radius 0.3 at an animated offset
    along ±x, ±y and ±z are added to it. */
module Scene {
  import opened Glsl
  import opened Transform
  import opened Csg
  import opened Primitives

  /** The per-frame uniforms time, Ball_Speed and Hole_Speed. */
  datatype Uniforms = Uniforms(time: real, ballSpeed: real, holeSpeed: real)

  const BallRadius := 0.3
  const BoreHeight := 2.0
  const CubeSize := Vec3(1.8, 1.8, 1.8)
  const SphereRadius := 1.2

  /** The bore radius 0.4 + (1.0 - 0.4)·(1 + s)/2 for s = sin(Hole_Speed·time). */
  function HoleRadius(s: real): (r: real)
    ensures -1.0 <= s <= 1.0 ==> 0.4 <= r <= 1.0
    ensures s == 0.0 ==> r == 0.7
    ensures s == -1.0 ==> r == 0.4
    ensures s == 1.0 ==> r == 1.0
  {
    0.4 + (1.0 - 0.4) * (1.0 + s) / 2.0
  }

  /** The ball offset 0.4 + 1.0 + s for s = sin(Ball_Speed·time). */
  function BallDistance(s: real): (r: real)
    ensures -1.0 <= s <= 1.0 ==> 0.4 <= r <= 2.4
    ensures s == 0.0 ==> r == 1.4
  {
    0.4 + 1.0 + s
  }

  /** The phase Hole_Speed·time of the bore animation. */
  function HolePhase(u: Uniforms): real { u.holeSpeed * u.time }

  /** The phase Ball_Speed·time of the ball animation. */
  function BallPhase(u: Uniforms): real { u.ballSpeed * u.time }

  function CylinderRadius(b: Builtins, u: Uniforms): real { HoleRadius(b.sin(HolePhase(u))) }

  function BallOffset(b: Builtins, u: Uniforms): real { BallDistance(b.sin(BallPhase(u))) }

  /** With the built-in sin, the animated radius and offset stay in their ranges,
      and at rest (sin = 0) they are 0.7 and 1.4. */
  lemma AnimationBounds(b: Builtins, u: Uniforms)
    requires TrigLaws(b)
    ensures 0.4 <= CylinderRadius(b, u) <= 1.0
    ensures 0.4 <= BallOffset(b, u) <= 2.4
    ensures b.sin(HolePhase(u)) == 0.0 ==> CylinderRadius(b, u) == 0.7
    ensures b.sin(BallPhase(u)) == 0.0 ==> BallOffset(b, u) == 1.4
  {
    var hs, bs := b.sin(HolePhase(u)), b.sin(BallPhase(u));
    assert -1.0 <= hs <= 1.0 && CylinderRadius(b, u) == HoleRadius(hs);
    assert -1.0 <= bs <= 1.0 && BallOffset(b, u) == BallDistance(bs);
  }

  /** The six ball centres, in the order the field adds them. */
  function BallCenters(off: real): (cs: seq<Vec3>)
    ensures |cs| == 6
  {
    [Vec3(off, 0.0, 0.0), Vec3(-off, 0.0, 0.0),
     Vec3(0.0, off, 0.0), Vec3(0.0, -off, 0.0),
     Vec3(0.0, 0.0, off), Vec3(0.0, 0.0, -off)]
  }

  /** Coordinate k (0, 1 or 2 for x, y or z) of v. */
  function Coord(v: Vec3, k: int): real
  {
    if k == 0 then v.x else if k == 1 then v.y else v.z
  }

  /** Centres 2k and 2k+1 lie at +off and -off on axis k and at zero on the other
      two axes; at rest they are (±1.4,0,0), (0,±1.4,0) and (0,0,±1.4). */
  lemma BallCentersLayout(off: real)
    ensures forall i, k :: 0 <= i < 6 && 0 <= k < 3 ==>
      Coord(BallCenters(off)[i], k) == (if k != i / 2 then 0.0 else if i % 2 == 0 then off else -off)
    ensures off == BallDistance(0.0) ==>
      BallCenters(off) ==
        [Vec3(1.4, 0.0, 0.0), Vec3(-1.4, 0.0, 0.0), Vec3(0.0, 1.4, 0.0),
         Vec3(0.0, -1.4, 0.0), Vec3(0.0, 0.0, 1.4), Vec3(0.0, 0.0, -1.4)]
  {
  }

  /** The balls term, as the shader accumulates it: six sphere fields at
      pos ∓ offset along each axis, folded with union. Its value is the distance
      to the nearest of the six balls. */
  function Balls(b: Builtins, pos: Vec3, off: real, radius: real): real
  {
    var balls0 := SphereSDF(b, Sub(pos, Vec3(off, 0.0, 0.0)), radius);
    var balls1 := Union(balls0, SphereSDF(b, Add(pos, Vec3(off, 0.0, 0.0)), radius));
    var balls2 := Union(balls1, SphereSDF(b, Sub(pos, Vec3(0.0, off, 0.0)), radius));
    var balls3 := Union(balls2, SphereSDF(b, Add(pos, Vec3(0.0, off, 0.0)), radius));
    var balls4 := Union(balls3, SphereSDF(b, Sub(pos, Vec3(0.0, 0.0, off)), radius));
    Union(balls4, SphereSDF(b, Add(pos, Vec3(0.0, 0.0, off)), radius))
  }

  /** Distance from pos to the field of ball i. */
  function BallSDF(b: Builtins, pos: Vec3, off: real, radius: real, i: int): real
    requires 0 <= i < 6
  {
    SphereSDF(b, Sub(pos, BallCenters(off)[i]), radius)
  }

  /** The folded unions give the distance to the nearest of the six balls: no ball
      field is below it, and one of them equals it. */
  lemma BallsNearest(b: Builtins, pos: Vec3, off: real, radius: real)
    ensures forall i :: 0 <= i < 6 ==> Balls(b, pos, off, radius) <= BallSDF(b, pos, off, radius, i)
    ensures exists i :: 0 <= i < 6 && Balls(b, pos, off, radius) == BallSDF(b, pos, off, radius, i)
  {
    var cs := BallCenters(off);
    assert Add(pos, Vec3(off, 0.0, 0.0)) == Sub(pos, cs[1]);
    assert Add(pos, Vec3(0.0, off, 0.0)) == Sub(pos, cs[3]);
    assert Add(pos, Vec3(0.0, 0.0, off)) == Sub(pos, cs[5]);
    var r := Balls(b, pos, off, radius);
    if r == BallSDF(b, pos, off, radius, 0) {
    } else if r == BallSDF(b, pos, off, radius, 1) {
    } else if r == BallSDF(b, pos, off, radius, 2) {
    } else if r == BallSDF(b, pos, off, radius, 3) {
    } else if r == BallSDF(b, pos, off, radius, 4) {
    } else {
      assert r == BallSDF(b, pos, off, radius, 5);
    }
  }

  /** The point in the shape's frame: pos turned by rotateY(time/2). */
  function Spin(b: Builtins, u: Uniforms, pos: Vec3): Vec3 { MulVec(RotateY(b, u.time / 2.0), pos) }

  /** The three bores: one along the frame's z axis, one through rotateX(90°) and
      one through rotateY(90°), unioned. */
  function Bores(b: Builtins, u: Uniforms, pos: Vec3): real
  {
    var cylinderRadius := CylinderRadius(b, u);
    var cylinder1 := CylinderSDF(b, pos, BoreHeight, cylinderRadius);
    var cylinder2 := CylinderSDF(b, MulVec(RotateX(b, Radians(b, 90.0)), pos), BoreHeight, cylinderRadius);
    var cylinder3 := CylinderSDF(b, MulVec(RotateY(b, Radians(b, 90.0)), pos), BoreHeight, cylinderRadius);
    Union(cylinder1, Union(cylinder2, cylinder3))
  }

  /** csgNut: the cube-sphere intersection with the bores subtracted. */
  function Nut(b: Builtins, u: Uniforms, pos: Vec3): real
  {
    var cube := BoxSDF(b, pos, CubeSize);
    var sphere := SphereSDF(b, pos, SphereRadius);
    Difference(Intersect(cube, sphere), Bores(b, u, pos))
  }

  /** sceneSDF */
  function SceneSDF(b: Builtins, u: Uniforms, p: Vec3): real
  {
    var pos := Spin(b, u, p);
    var balls := Balls(b, pos, BallOffset(b, u), BallRadius);
    var csgNut := Nut(b, u, pos);
    Union(balls, csgNut)
  }

  /** The scene field as a value of function type, for the ray marcher and the
      normal estimator. */
  function SceneField(b: Builtins, u: Uniforms): Vec3 -> real
  {
    p => SceneSDF(b, u, p)
  }

  /** A point of the shape's frame is inside the nut exactly when it is inside the
      cube, inside the sphere and outside all three bores. */
  lemma NutMembership(b: Builtins, u: Uniforms, pos: Vec3)
    requires LengthLaws(b)
    ensures var rad := CylinderRadius(b, u);
      Nut(b, u, pos) < 0.0 <==>
        (Abs(pos.x) < 0.9 && Abs(pos.y) < 0.9 && Abs(pos.z) < 0.9)
        && b.length(pos) < SphereRadius
        && CylinderSDF(b, pos, BoreHeight, rad) > 0.0
        && CylinderSDF(b, MulVec(RotateX(b, Radians(b, 90.0)), pos), BoreHeight, rad) > 0.0
        && CylinderSDF(b, MulVec(RotateY(b, Radians(b, 90.0)), pos), BoreHeight, rad) > 0.0
  {
    BoxSign(b, pos, CubeSize);
    SphereSign(b, pos, SphereRadius);
  }

  /** A point is inside the scene exactly when, in the shape's frame, it is inside
      one of the six balls or inside the nut. */
  lemma SceneMembership(b: Builtins, u: Uniforms, p: Vec3)
    requires LengthLaws(b)
    ensures var pos := Spin(b, u, p);
      SceneSDF(b, u, p) < 0.0 <==>
        (exists i :: 0 <= i < 6 && b.length(Sub(pos, BallCenters(BallOffset(b, u))[i])) < BallRadius)
        || Nut(b, u, pos) < 0.0
  {
    var pos := Spin(b, u, p);
    var off := BallOffset(b, u);
    BallsNearest(b, pos, off, BallRadius);
    var balls := Balls(b, pos, off, BallRadius);
    if balls < 0.0 {
      var i :| 0 <= i < 6 && balls == BallSDF(b, pos, off, BallRadius, i);
      assert b.length(Sub(pos, BallCenters(off)[i])) < BallRadius;
    }
    if i :| 0 <= i < 6 && b.length(Sub(pos, BallCenters(off)[i])) < BallRadius {
      assert BallSDF(b, pos, off, BallRadius, i) < 0.0;
    }
  }

  /** When radians(90) has cosine 0 and sine 1, the second and third bores run
      along y and x: their axial coordinate is y, respectively x, and their radial
      plane is spanned by the other two axes. */
  lemma BoresAlongAxes(b: Builtins, u: Uniforms, pos: Vec3)
    requires b.cos(Radians(b, 90.0)) == 0.0 && b.sin(Radians(b, 90.0)) == 1.0
    ensures var rad := CylinderRadius(b, u);
      CylinderSDF(b, MulVec(RotateX(b, Radians(b, 90.0)), pos), BoreHeight, rad)
        == CylinderSDF(b, Vec3(pos.x, pos.z, -pos.y), BoreHeight, rad)
      && CylinderSDF(b, MulVec(RotateY(b, Radians(b, 90.0)), pos), BoreHeight, rad)
        == CylinderSDF(b, Vec3(-pos.z, pos.y, pos.x), BoreHeight, rad)
    ensures CylinderAxial(Vec3(pos.x, pos.z, -pos.y), BoreHeight) == Abs(pos.y) - 1.0
    ensures CylinderAxial(Vec3(-pos.z, pos.y, pos.x), BoreHeight) == Abs(pos.x) - 1.0
  {
    var q2 := MulVec(RotateX(b, Radians(b, 90.0)), pos);
    assert q2 == Vec3(pos.x, pos.z, -pos.y);
    var q3 := MulVec(RotateY(b, Radians(b, 90.0)), pos);
    assert q3 == Vec3(-pos.z, pos.y, pos.x);
  }

  /** The spin about y leaves the sphere term unchanged: a sphere about the origin
      is invariant under rotation. */
  lemma SphereIgnoresSpin(b: Builtins, u: Uniforms, p: Vec3)
    requires TrigLaws(b) && LengthLaws(b)
    ensures SphereSDF(b, Spin(b, u, p), SphereRadius) == SphereSDF(b, p, SphereRadius)
  {
    var t := u.time / 2.0;
    assert b.cos(t) * b.cos(t) + b.sin(t) * b.sin(t) == 1.0;
    RotationsPreserveNorm(b.cos(t), b.sin(t), p);
  }
}
