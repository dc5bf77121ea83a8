/** rayMarch: sphere tracing along the ray cam + step·dir. From `start`, the
    field is evaluated at the current step; a value below EPSILON is a hit and
    returns the step, otherwise the value is added to the step, and reaching `end`
    or running out of the MAX_STEPS iterations returns `end`.

    The field is any function of type Vec3 -> real; the shader passes sceneSDF.
    `March` is the specification of the loop by recursion on the remaining
    iterations, and `Probes` lists the steps at which the loop evaluates the field. */
module RayMarcher {
  import opened Glsl

  const MAX_STEPS: nat := 255
  const EPSILON: real := 0.0001
  const START: real := 0.0
  const END: real := 100.0

  /** The point cam + step·dir. */
  function At(cam: Vec3, dir: Vec3, step: real): Vec3 { Add(cam, Scale(step, dir)) }

  /** The field's value at cam + step·dir. */
  function FieldAt(field: Vec3 -> real, cam: Vec3, dir: Vec3, step: real): real { field(At(cam, dir, step)) }

  /** The value the loop returns from `step` with `fuel` iterations left. */
  function March(field: Vec3 -> real, cam: Vec3, dir: Vec3, step: real, end: real, fuel: nat): real
    decreases fuel
  {
    if fuel == 0 then end
    else
      var dist := FieldAt(field, cam, dir, step);
      if dist < EPSILON then step
      else if step + dist >= end then end
      else March(field, cam, dir, step + dist, end, fuel - 1)
  }

  /** The steps at which the loop evaluates the field, in order. */
  function Probes(field: Vec3 -> real, cam: Vec3, dir: Vec3, step: real, end: real, fuel: nat): seq<real>
    decreases fuel
  {
    if fuel == 0 then []
    else
      var dist := FieldAt(field, cam, dir, step);
      if dist < EPSILON || step + dist >= end then [step]
      else [step] + Probes(field, cam, dir, step + dist, end, fuel - 1)
  }

  /** The field value at probe k. */
  function DistAt(field: Vec3 -> real, cam: Vec3, dir: Vec3, ps: seq<real>, k: int): real
    requires 0 <= k < |ps|
  {
    FieldAt(field, cam, dir, ps[k])
  }

  /** From probe k the loop moves on by the field value there, which is at least
      EPSILON, to probe k + 1, which lies before `end`. */
  predicate Advances(field: Vec3 -> real, cam: Vec3, dir: Vec3, ps: seq<real>, end: real, k: int)
    requires 0 <= k < |ps| - 1
  {
    DistAt(field, cam, dir, ps, k) >= EPSILON
    && ps[k + 1] == ps[k] + DistAt(field, cam, dir, ps, k)
    && ps[k + 1] < end
  }

  /** The field is evaluated at most `fuel` times, first at `step`; every probe but
      the last is followed by a move of exactly the field value there, which is at
      least EPSILON, to a step before `end`. */
  lemma {:induction false} ProbesShape(field: Vec3 -> real, cam: Vec3, dir: Vec3, step: real, end: real, fuel: nat)
    ensures var ps := Probes(field, cam, dir, step, end, fuel);
      |ps| <= fuel
      && (fuel > 0 ==> |ps| > 0 && ps[0] == step)
      && (forall k :: 0 <= k < |ps| - 1 ==> Advances(field, cam, dir, ps, end, k))
    decreases fuel
  {
    if fuel > 0 {
      var dist := FieldAt(field, cam, dir, step);
      if !(dist < EPSILON || step + dist >= end) {
        var rest := Probes(field, cam, dir, step + dist, end, fuel - 1);
        ProbesShape(field, cam, dir, step + dist, end, fuel - 1);
        var ps := [step] + rest;
        assert ps == Probes(field, cam, dir, step, end, fuel);
        forall k | 0 <= k < |ps| - 1
          ensures Advances(field, cam, dir, ps, end, k)
        {
          if k > 0 {
            assert Advances(field, cam, dir, rest, end, k - 1);
            assert ps[k + 1] == rest[k] && ps[k] == rest[k - 1];
          }
        }
      }
    }
  }

  /** The probes strictly increase, so the loop never revisits a step. */
  lemma ProbesIncrease(field: Vec3 -> real, cam: Vec3, dir: Vec3, step: real, end: real, fuel: nat)
    ensures var ps := Probes(field, cam, dir, step, end, fuel);
      forall j, k :: 0 <= j < k < |ps| ==> ps[j] < ps[k]
  {
    var ps := Probes(field, cam, dir, step, end, fuel);
    ProbesShape(field, cam, dir, step, end, fuel);
    forall j, k | 0 <= j < k < |ps|
      ensures ps[j] < ps[k]
    {
      var i := j + 1;
      assert Advances(field, cam, dir, ps, end, j);
      while i < k
        invariant j < i <= k
        invariant ps[j] < ps[i]
      {
        assert Advances(field, cam, dir, ps, end, i);
        i := i + 1;
      }
    }
  }

  /** The loop returns either `end` or the last probe, at which the field is below
      EPSILON and before which it never was. */
  lemma {:induction false} MarchResult(field: Vec3 -> real, cam: Vec3, dir: Vec3, step: real, end: real, fuel: nat)
    ensures var r, ps := March(field, cam, dir, step, end, fuel), Probes(field, cam, dir, step, end, fuel);
      (r == end && (ps == [] || DistAt(field, cam, dir, ps, |ps| - 1) >= EPSILON))
      || (ps != [] && r == ps[|ps| - 1] && DistAt(field, cam, dir, ps, |ps| - 1) < EPSILON)
    ensures var ps := Probes(field, cam, dir, step, end, fuel);
      forall k :: 0 <= k < |ps| - 1 ==> DistAt(field, cam, dir, ps, k) >= EPSILON
    decreases fuel
  {
    var ps := Probes(field, cam, dir, step, end, fuel);
    ProbesShape(field, cam, dir, step, end, fuel);
    forall k | 0 <= k < |ps| - 1
      ensures DistAt(field, cam, dir, ps, k) >= EPSILON
    {
      assert Advances(field, cam, dir, ps, end, k);
    }
    if fuel > 0 {
      var dist := FieldAt(field, cam, dir, step);
      if !(dist < EPSILON || step + dist >= end) {
        MarchResult(field, cam, dir, step + dist, end, fuel - 1);
        var rest := Probes(field, cam, dir, step + dist, end, fuel - 1);
        assert ps == [step] + rest;
        if rest != [] {
          assert ps[|ps| - 1] == rest[|rest| - 1];
        }
      }
    }
  }

  /** The loop only gives up for the two reasons it has: when the last probe is not
      a hit, either the iterations are spent or the move from it reaches `end`. */
  lemma {:induction false} MarchStops(field: Vec3 -> real, cam: Vec3, dir: Vec3, step: real, end: real, fuel: nat)
    ensures var ps := Probes(field, cam, dir, step, end, fuel);
      ps != [] && DistAt(field, cam, dir, ps, |ps| - 1) >= EPSILON ==>
        |ps| == fuel || ps[|ps| - 1] + DistAt(field, cam, dir, ps, |ps| - 1) >= end
    decreases fuel
  {
    if fuel > 0 {
      var dist := FieldAt(field, cam, dir, step);
      if !(dist < EPSILON || step + dist >= end) {
        MarchStops(field, cam, dir, step + dist, end, fuel - 1);
        ProbesShape(field, cam, dir, step + dist, end, fuel - 1);
        var rest := Probes(field, cam, dir, step + dist, end, fuel - 1);
        var ps := [step] + rest;
        assert ps == Probes(field, cam, dir, step, end, fuel);
        if rest != [] {
          assert ps[|ps| - 1] == rest[|rest| - 1];
          assert DistAt(field, cam, dir, ps, |ps| - 1) == DistAt(field, cam, dir, rest, |rest| - 1);
        }
      }
    }
  }

  /** With at least one iteration the loop evaluates the field at least once, and
      if the last evaluation is not a hit the loop returns `end` for one of its two
      reasons. */
  lemma MarchMiss(field: Vec3 -> real, cam: Vec3, dir: Vec3, step: real, end: real, fuel: nat)
    requires fuel > 0
    ensures var ps := Probes(field, cam, dir, step, end, fuel);
      ps != [] &&
      var last := ps[|ps| - 1];
      (FieldAt(field, cam, dir, last) >= EPSILON ==>
        March(field, cam, dir, step, end, fuel) == end
        && (|ps| == fuel || last + FieldAt(field, cam, dir, last) >= end))
  {
    ProbesShape(field, cam, dir, step, end, fuel);
    MarchResult(field, cam, dir, step, end, fuel);
    MarchStops(field, cam, dir, step, end, fuel);
  }

  /** Started at or before `end`, the loop returns a value between its start and `end`. */
  lemma {:induction false} MarchBounds(field: Vec3 -> real, cam: Vec3, dir: Vec3, step: real, end: real, fuel: nat)
    requires step <= end
    ensures step <= March(field, cam, dir, step, end, fuel) <= end
    decreases fuel
  {
    if fuel > 0 {
      var dist := FieldAt(field, cam, dir, step);
      if !(dist < EPSILON || step + dist >= end) {
        MarchBounds(field, cam, dir, step + dist, end, fuel - 1);
      }
    }
  }

  /** A returned value other than `end` is a hit: the field there is below EPSILON. */
  lemma MarchHit(field: Vec3 -> real, cam: Vec3, dir: Vec3, step: real, end: real, fuel: nat)
    ensures var r := March(field, cam, dir, step, end, fuel);
      r == end || FieldAt(field, cam, dir, r) < EPSILON
  {
    MarchResult(field, cam, dir, step, end, fuel);
  }

  /** One iteration of the loop from `step`, after the probes `done`: a hit returns
      this step, a move that reaches `end` returns `end`, and in both cases this is
      the last probe; otherwise the rest of the loop starts from the advanced step
      with one iteration fewer. `done` stands for the probes already recorded, so
      that the ensures match the loop invariant's terms. */
  lemma Step(field: Vec3 -> real, cam: Vec3, dir: Vec3, step: real, end: real, fuel: nat, done: seq<real>)
    requires fuel > 0
    ensures var dist := FieldAt(field, cam, dir, step);
      dist < EPSILON ==>
        March(field, cam, dir, step, end, fuel) == step
        && done + Probes(field, cam, dir, step, end, fuel) == done + [step]
    ensures var dist := FieldAt(field, cam, dir, step);
      dist >= EPSILON && step + dist >= end ==>
        March(field, cam, dir, step, end, fuel) == end
        && done + Probes(field, cam, dir, step, end, fuel) == done + [step]
    ensures var dist := FieldAt(field, cam, dir, step);
      dist >= EPSILON && step + dist < end ==>
        March(field, cam, dir, step, end, fuel) == March(field, cam, dir, step + dist, end, fuel - 1)
        && done + Probes(field, cam, dir, step, end, fuel)
           == (done + [step]) + Probes(field, cam, dir, step + dist, end, fuel - 1)
  {
    var dist := FieldAt(field, cam, dir, step);
    if dist >= EPSILON && step + dist < end {
      var rest := Probes(field, cam, dir, step + dist, end, fuel - 1);
      assert (done + [step]) + rest == done + ([step] + rest);
    }
  }

  /** rayMarch */
  method RayMarch(field: Vec3 -> real, cam: Vec3, dir: Vec3, start: real, end: real)
    returns (r: real, ghost probes: seq<real>)
    ensures r == March(field, cam, dir, start, end, MAX_STEPS)
    ensures probes == Probes(field, cam, dir, start, end, MAX_STEPS) && |probes| <= MAX_STEPS
    ensures r == end || FieldAt(field, cam, dir, r) < EPSILON
    ensures start <= end ==> start <= r <= end
    ensures probes != []
    ensures var last := probes[|probes| - 1];
      FieldAt(field, cam, dir, last) >= EPSILON ==>
        r == end && (|probes| == MAX_STEPS || last + FieldAt(field, cam, dir, last) >= end)
  {
    var step := start;
    probes := [];
    assert probes + Probes(field, cam, dir, step, end, MAX_STEPS) == Probes(field, cam, dir, start, end, MAX_STEPS);
    ghost var fuel: nat := MAX_STEPS;
    for i := 0 to MAX_STEPS
      invariant fuel == MAX_STEPS - i
      invariant March(field, cam, dir, step, end, fuel) == March(field, cam, dir, start, end, MAX_STEPS)
      invariant probes + Probes(field, cam, dir, step, end, fuel) == Probes(field, cam, dir, start, end, MAX_STEPS)
      invariant |probes| == i
      invariant start <= step
      invariant i == 0 ==> step == start
      invariant i > 0 ==> step < end
    {
      var dist := FieldAt(field, cam, dir, step);
      Step(field, cam, dir, step, end, fuel, probes);
      if dist < EPSILON {
        probes := probes + [step];
        return step, probes;
      }
      probes := probes + [step];

      step := step + dist;
      if step >= end {
        return end, probes;
      }
      fuel := fuel - 1;
    }
    return end, probes;
  }
}
