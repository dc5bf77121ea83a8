/** The constructive-solid-geometry operators on signed distances. A distance is
    negative inside a solid, so union keeps the nearer surface (min), intersection
    the farther one (max), and difference intersects with the complement, whose
    distance is the negated one. */
module Csg {
  import opened Glsl

  /** intersectSDF: max(distA, distB). */
  function Intersect(distA: real, distB: real): (r: real)
    ensures distA <= r && distB <= r
    ensures r == distA || r == distB
    ensures r < 0.0 <==> distA < 0.0 && distB < 0.0
  {
    Max(distA, distB)
  }

  /** unionSDF: min(distA, distB). */
  function Union(distA: real, distB: real): (r: real)
    ensures r <= distA && r <= distB
    ensures r == distA || r == distB
    ensures r < 0.0 <==> distA < 0.0 || distB < 0.0
  {
    Min(distA, distB)
  }

  /** differenceSDF: max(distA, -distB), inside A and outside B. */
  function Difference(distA: real, distB: real): (r: real)
    ensures r == Intersect(distA, -distB)
    ensures r < 0.0 <==> distA < 0.0 && distB > 0.0
  {
    Max(distA, -distB)
  }

  /** Union and intersection are commutative, associative and idempotent, and
      each absorbs the other, as min and max do. */
  lemma Lattice(a: real, b: real, c: real)
    ensures Union(a, b) == Union(b, a) && Intersect(a, b) == Intersect(b, a)
    ensures Union(a, Union(b, c)) == Union(Union(a, b), c)
    ensures Intersect(a, Intersect(b, c)) == Intersect(Intersect(a, b), c)
    ensures Union(a, a) == a && Intersect(a, a) == a
    ensures Union(a, Intersect(a, b)) == a && Intersect(a, Union(a, b)) == a
  {
  }

  /** Complement turns union into intersection (De Morgan), so subtracting B and
      then C is subtracting their union. */
  lemma DeMorgan(a: real, b: real, c: real)
    ensures -Union(b, c) == Intersect(-b, -c)
    ensures Difference(Difference(a, b), c) == Difference(a, Union(b, c))
  {
  }
}
