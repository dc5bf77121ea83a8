/** The primitive signed-distance fields: an axis-aligned box, a sphere and a
    capped cylinder along z, all centred at the origin of their own frame. Box and
    cylinder add an inside term, the largest per-axis offset clamped to at most
    zero, to an outside term, the length of the offsets clamped to at least zero. */
module Primitives {
  import opened Glsl

  /** Per-axis offset of pos from the box faces: abs(pos) - size/2. */
  function BoxOffset(pos: Vec3, size: Vec3): Vec3
  {
    Sub(Abs3(pos), Vec3(size.x / 2.0, size.y / 2.0, size.z / 2.0))
  }

  function BoxInside(d: Vec3): real { Min(Max(d.x, Max(d.y, d.z)), 0.0) }

  function BoxOutside(b: Builtins, d: Vec3): real { b.length(Max3(d, 0.0)) }

  /** boxSDF */
  function BoxSDF(b: Builtins, pos: Vec3, size: Vec3): real
  {
    var d := BoxOffset(pos, size);
    BoxInside(d) + BoxOutside(b, d)
  }

  /** The inside term is never positive, the outside term never negative, and at
      most one of them is non-zero: the inside term when every offset is at most
      zero, the outside term when some offset is positive. */
  lemma BoxTerms(b: Builtins, d: Vec3)
    requires LengthLaws(b)
    ensures BoxInside(d) <= 0.0 && 0.0 <= BoxOutside(b, d)
    ensures BoxInside(d) == 0.0 || BoxOutside(b, d) == 0.0
    ensures d.x <= 0.0 && d.y <= 0.0 && d.z <= 0.0 ==> BoxOutside(b, d) == 0.0
    ensures d.x > 0.0 || d.y > 0.0 || d.z > 0.0 ==> BoxInside(d) == 0.0 && 0.0 < BoxOutside(b, d)
  {
    var m := Max3(d, 0.0);
    assert m == Zero3 <==> d.x <= 0.0 && d.y <= 0.0 && d.z <= 0.0;
  }

  /** The box field is negative strictly inside the box, zero on its surface and
      positive outside; inside it equals the largest offset, outside the outside term. */
  lemma BoxSign(b: Builtins, pos: Vec3, size: Vec3)
    requires LengthLaws(b)
    ensures var d := BoxOffset(pos, size);
      (d.x < 0.0 && d.y < 0.0 && d.z < 0.0 ==> BoxSDF(b, pos, size) == Max(d.x, Max(d.y, d.z)))
      && (d.x > 0.0 || d.y > 0.0 || d.z > 0.0 ==> BoxSDF(b, pos, size) == BoxOutside(b, d))
    ensures BoxSDF(b, pos, size) < 0.0 <==>
      Abs(pos.x) < size.x / 2.0 && Abs(pos.y) < size.y / 2.0 && Abs(pos.z) < size.z / 2.0
    ensures BoxSDF(b, pos, size) > 0.0 <==>
      Abs(pos.x) > size.x / 2.0 || Abs(pos.y) > size.y / 2.0 || Abs(pos.z) > size.z / 2.0
  {
    BoxTerms(b, BoxOffset(pos, size));
  }

  /** sphereSDF */
  function SphereSDF(b: Builtins, pos: Vec3, r: real): real { b.length(pos) - r }

  /** The sphere field is zero exactly on the sphere, negative inside, positive
      outside, and equal to -r at the centre. */
  lemma SphereSign(b: Builtins, pos: Vec3, r: real)
    requires LengthLaws(b)
    ensures SphereSDF(b, pos, r) == 0.0 <==> b.length(pos) == r
    ensures SphereSDF(b, pos, r) < 0.0 <==> b.length(pos) < r
    ensures SphereSDF(b, pos, r) > 0.0 <==> b.length(pos) > r
    ensures SphereSDF(b, Zero3, r) == -r
    ensures SphereSDF(b, pos, r) >= -r
  {
  }

  /** Radial offset of pos from the cylinder's side: length(pos.xy) - r. */
  function CylinderRadial(b: Builtins, pos: Vec3, r: real): real { b.length2(Vec2(pos.x, pos.y)) - r }

  /** Axial offset of pos from the cylinder's caps: abs(pos.z) - h/2. */
  function CylinderAxial(pos: Vec3, h: real): real { Abs(pos.z) - h / 2.0 }

  function CylinderInside(radial: real, axial: real): real { Min(Max(radial, axial), 0.0) }

  function CylinderOutside(b: Builtins, radial: real, axial: real): real
  {
    b.length2(Max2(Vec2(radial, axial), 0.0))
  }

  /** cylinderSDF: a capped cylinder of height h and radius r along z. */
  function CylinderSDF(b: Builtins, pos: Vec3, h: real, r: real): real
  {
    var inOutRadius := CylinderRadial(b, pos, r);
    var inOutHeight := CylinderAxial(pos, h);
    CylinderInside(inOutRadius, inOutHeight) + CylinderOutside(b, inOutRadius, inOutHeight)
  }

  /** The same inside/outside split as the box, over the pair (radial, axial). */
  lemma CylinderTerms(b: Builtins, radial: real, axial: real)
    requires LengthLaws(b)
    ensures CylinderInside(radial, axial) <= 0.0 && 0.0 <= CylinderOutside(b, radial, axial)
    ensures CylinderInside(radial, axial) == 0.0 || CylinderOutside(b, radial, axial) == 0.0
    ensures radial <= 0.0 && axial <= 0.0 ==> CylinderOutside(b, radial, axial) == 0.0
    ensures radial > 0.0 || axial > 0.0 ==>
      CylinderInside(radial, axial) == 0.0 && 0.0 < CylinderOutside(b, radial, axial)
  {
    var m := Max2(Vec2(radial, axial), 0.0);
    assert m == Vec2(0.0, 0.0) <==> radial <= 0.0 && axial <= 0.0;
  }

  /** The cylinder field is negative exactly when the point is within the radius
      and between the caps, and positive exactly when it is beyond either. */
  lemma CylinderSign(b: Builtins, pos: Vec3, h: real, r: real)
    requires LengthLaws(b)
    ensures var radial, axial := CylinderRadial(b, pos, r), CylinderAxial(pos, h);
      (radial < 0.0 && axial < 0.0 ==> CylinderSDF(b, pos, h, r) == Max(radial, axial))
      && (radial > 0.0 || axial > 0.0 ==> CylinderSDF(b, pos, h, r) == CylinderOutside(b, radial, axial))
    ensures CylinderSDF(b, pos, h, r) < 0.0 <==>
      b.length2(Vec2(pos.x, pos.y)) < r && Abs(pos.z) < h / 2.0
    ensures CylinderSDF(b, pos, h, r) > 0.0 <==>
      b.length2(Vec2(pos.x, pos.y)) > r || Abs(pos.z) > h / 2.0
  {
    CylinderTerms(b, CylinderRadial(b, pos, r), CylinderAxial(pos, h));
  }
}
