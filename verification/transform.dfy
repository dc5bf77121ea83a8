/** The rotation constructors rotateX, rotateY and rotateZ. Each builds a mat3 from
    the cosine c and sine s of its angle; `RotX`, `RotY` and `RotZ` are the same
    matrices as functions of (c, s), so that their algebra can be stated for any
    c and s with c² + s² = 1. Because a GLSL mat3 is filled column by column, the
    matrices as written are the transposes of the textbook right-handed
    rotations: `MulVec(RotateX(b, t), p)` turns p by -t about the x axis. */
module Transform {
  import opened Glsl

  function RotX(c: real, s: real): Mat3
  {
    Mat3(Vec3(1.0, 0.0, 0.0), Vec3(0.0, c, -s), Vec3(0.0, s, c))
  }

  function RotY(c: real, s: real): Mat3
  {
    Mat3(Vec3(c, 0.0, s), Vec3(0.0, 1.0, 0.0), Vec3(-s, 0.0, c))
  }

  function RotZ(c: real, s: real): Mat3
  {
    Mat3(Vec3(c, -s, 0.0), Vec3(s, c, 0.0), Vec3(0.0, 0.0, 1.0))
  }

  function RotateX(b: Builtins, theta: real): Mat3 { RotX(b.cos(theta), b.sin(theta)) }
  function RotateY(b: Builtins, theta: real): Mat3 { RotY(b.cos(theta), b.sin(theta)) }
  function RotateZ(b: Builtins, theta: real): Mat3 { RotZ(b.cos(theta), b.sin(theta)) }

  /** The three matrices are orthogonal whenever (c, s) lies on the unit circle. */
  lemma RotationsOrthogonal(c: real, s: real)
    requires c * c + s * s == 1.0
    ensures Orthogonal(RotX(c, s)) && Orthogonal(Transpose(RotX(c, s)))
    ensures Orthogonal(RotY(c, s)) && Orthogonal(Transpose(RotY(c, s)))
    ensures Orthogonal(RotZ(c, s)) && Orthogonal(Transpose(RotZ(c, s)))
  {
  }

  /** With the built-in sin and cos, every rotateX/Y/Z matrix is orthogonal. */
  lemma RotateOrthogonal(b: Builtins, theta: real)
    requires TrigLaws(b)
    ensures Orthogonal(RotateX(b, theta))
    ensures Orthogonal(RotateY(b, theta))
    ensures Orthogonal(RotateZ(b, theta))
  {
    RotationsOrthogonal(b.cos(theta), b.sin(theta));
  }

  /** At angle zero (c = 1, s = 0) each rotation is the identity. */
  lemma RotationsIdentity()
    ensures RotX(1.0, 0.0) == Identity && RotY(1.0, 0.0) == Identity && RotZ(1.0, 0.0) == Identity
  {
  }

  /** Each rotation preserves the squared norm of the point it is applied to. */
  lemma RotationsPreserveNorm(c: real, s: real, v: Vec3)
    requires c * c + s * s == 1.0
    ensures Dot(MulVec(RotX(c, s), v), MulVec(RotX(c, s), v)) == Dot(v, v)
    ensures Dot(MulVec(RotY(c, s), v), MulVec(RotY(c, s), v)) == Dot(v, v)
    ensures Dot(MulVec(RotZ(c, s), v), MulVec(RotZ(c, s), v)) == Dot(v, v)
  {
    QuarterTurnIdentity(c, s, v.y, v.z);
    QuarterTurnIdentity(c, s, v.x, v.z);
    QuarterTurnIdentity(c, s, v.x, v.y);
  }

  /** (c·p - s·q)² + (s·p + c·q)² = p² + q² on the unit circle, in both sign conventions. */
  lemma QuarterTurnIdentity(c: real, s: real, p: real, q: real)
    requires c * c + s * s == 1.0
    ensures (c * p - s * q) * (c * p - s * q) + (s * p + c * q) * (s * p + c * q) == p * p + q * q
    ensures (c * p + s * q) * (c * p + s * q) + (c * q - s * p) * (c * q - s * p) == p * p + q * q
  {
    calc {
      (c * p - s * q) * (c * p - s * q) + (s * p + c * q) * (s * p + c * q);
      (c * c + s * s) * (p * p) + (c * c + s * s) * (q * q);
      p * p + q * q;
    }
    calc {
      (c * p + s * q) * (c * p + s * q) + (c * q - s * p) * (c * q - s * p);
      (c * c + s * s) * (p * p) + (c * c + s * s) * (q * q);
      p * p + q * q;
    }
  }
}
