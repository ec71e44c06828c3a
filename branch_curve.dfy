/** `gen_branch_points` of polygon_gen.py: the recursive midpoint subdivision
    that builds the fluttering curve of one branch. */
module BranchCurve {
  import opened Wrappers
  import opened Numerics
  import opened Geometry
  import opened Separation

  function Pow2(n: nat): (r: nat)
    ensures r >= 1
  {
    if n == 0 then 1 else 2 * Pow2(n - 1)
  }

  /** `sd`: the standard deviation of the sample, 0.0 for an empty one. */
  function SampleStd(num: Env, values: seq<real>): (sd: real)
    ensures sd >= 0.0
    ensures values == [] ==> sd == 0.0
  {
    if |values| != 0 then num.std(values) else 0.0
  }

  /** The flutter vector `u`: `beta * sd` times the unit normal of `s -> e`,
      negated when the remaining recursion count is odd. */
  function Displacement(num: Env, values: seq<real>, s: BranchPoint, e: BranchPoint,
                        beta: real, rep: nat): Vec2
  {
    var sd := SampleStd(num, values);
    var n := UnitNormVec(num.sqrt, Position(s), Position(e));
    var u := Vec2(beta * sd * n.x, beta * sd * n.y);
    if Odd(rep) then Vec2(-1.0 * u.x, -1.0 * u.y) else u
  }

  /** `rep % 2 == 1`: the flutter is negated at odd recursion counts. */
  predicate Odd(n: nat)
  {
    n % 2 == 1
  }

  /** The flutter is perpendicular to the segment, and there is none without
      spread in the sample (in particular for an empty sample). */
  lemma DisplacementPerpendicular(num: Env, values: seq<real>, s: BranchPoint, e: BranchPoint,
                                  beta: real, rep: nat)
    ensures var u := Displacement(num, values, s, e, beta, rep);
            u.x * (e.x - s.x) + u.y * (e.y - s.y) == 0.0
    ensures SampleStd(num, values) == 0.0 ==> Displacement(num, values, s, e, beta, rep) == Origin2
  {
    var sd := SampleStd(num, values);
    var n := UnitNormVec(num.sqrt, Position(s), Position(e));
    UnitNormVecPerpendicular(num.sqrt, Position(s), Position(e));
    var c := beta * sd;
    var dot := n.x * (e.x - s.x) + n.y * (e.y - s.y);
    assert (c * n.x) * (e.x - s.x) + (c * n.y) * (e.y - s.y) == c * dot;
    assert (-1.0 * (c * n.x)) * (e.x - s.x) + (-1.0 * (c * n.y)) * (e.y - s.y) == -1.0 * (c * dot);
  }

  /** The flutter alternates: one level deeper, the same segment and sample
      are displaced the other way. */
  lemma FlutterAlternates(num: Env, values: seq<real>, s: BranchPoint, e: BranchPoint,
                          beta: real, rep: nat)
    ensures var u, u' := Displacement(num, values, s, e, beta, rep),
                         Displacement(num, values, s, e, beta, rep + 1);
            u'.x == -u.x && u'.y == -u.y
  {
  }

  /** `vm`: the mean of the end values; NaN (`None`) propagates. */
  function MidValue(a: Option<real>, b: Option<real>): Option<real>
  {
    if a.Some? && b.Some? then Some((a.value + b.value) * 0.5) else None
  }

  /** `separate_values(values, vm)`: NaN compares false with everything, so
      for a NaN `vm` every value lands in the second part. */
  function SplitAt(values: seq<real>, vm: Option<real>): (seq<real>, seq<real>)
  {
    if vm.Some? then Partition(values, vm.value) else ([], values)
  }

  /** `point_m`: the displaced midpoint of `s -> e`. */
  function MidPoint(num: Env, values: seq<real>, s: BranchPoint, e: BranchPoint,
                    alpha: real, beta: real, rep: nat): BranchPoint
  {
    var u := Displacement(num, values, s, e, beta, rep);
    var vm := MidValue(s.v, e.v);
    var sub1 := SplitAt(values, vm).0;
    BranchPoint((s.x + e.x) * 0.5 + u.x, (s.y + e.y) * 0.5 + u.y,
                s.w - Scaled(alpha, |sub1|), vm)
  }

  /** The midpoint is the plain midpoint moved perpendicular to the segment (not
      moved at all for an empty sample); its value is the mean of the end values
      and its width is the start width less `alpha` per sample value below that
      mean, not clamped at zero. */
  lemma MidPointShape(num: Env, values: seq<real>, s: BranchPoint, e: BranchPoint,
                      alpha: real, beta: real, rep: nat)
    ensures var m := MidPoint(num, values, s, e, alpha, beta, rep);
            (m.x - (s.x + e.x) * 0.5) * (e.x - s.x) + (m.y - (s.y + e.y) * 0.5) * (e.y - s.y) == 0.0
    ensures var m := MidPoint(num, values, s, e, alpha, beta, rep);
            values == [] ==> m.x == (s.x + e.x) * 0.5 && m.y == (s.y + e.y) * 0.5
    ensures var m := MidPoint(num, values, s, e, alpha, beta, rep);
            s.v.Some? && e.v.Some? ==>
              m.v == Some((s.v.value + e.v.value) * 0.5) &&
              m.w == s.w - Scaled(alpha, CountBelow(values, m.v.value))
    ensures var m := MidPoint(num, values, s, e, alpha, beta, rep);
            s.v.None? || e.v.None? ==> m.v.None? && m.w == s.w
  {
    DisplacementPerpendicular(num, values, s, e, beta, rep);
  }

  /** The interior points of the curve from `s` to `e`, left to right. The
      recursive case returns only its two halves: its own midpoint appears
      solely as an end point of the two recursive calls. */
  function GenBranchPoints(num: Env, values: seq<real>, s: BranchPoint, e: BranchPoint,
                           alpha: real, beta: real, rep: nat): (r: seq<BranchPoint>)
    ensures |r| == Pow2(rep)
    decreases rep
  {
    var m := MidPoint(num, values, s, e, alpha, beta, rep);
    if rep == 0 then [m]
    else
      var sub := SplitAt(values, m.v);
      GenBranchPoints(num, sub.0, s, m, alpha, beta, rep - 1) +
      GenBranchPoints(num, sub.1, m, e, alpha, beta, rep - 1)
  }

  /** The values the recursion gives its points between the end values `sv`
      and `ev`: each level puts the mean at the midpoint and recurses on both
      halves. */
  function PointValues(sv: real, ev: real, rep: nat): (r: seq<real>)
    ensures |r| == Pow2(rep)
    decreases rep
  {
    var vm := (sv + ev) * 0.5;
    if rep == 0 then [vm]
    else PointValues(sv, vm, rep - 1) + PointValues(vm, ev, rep - 1)
  }

  /** The curve's point values are `PointValues` of its end values. */
  lemma {:induction false} CurveValues(num: Env, values: seq<real>, s: BranchPoint, e: BranchPoint,
                                       alpha: real, beta: real, rep: nat, k: nat)
    requires s.v.Some? && e.v.Some?
    requires k < Pow2(rep)
    ensures GenBranchPoints(num, values, s, e, alpha, beta, rep)[k].v ==
              Some(PointValues(s.v.value, e.v.value, rep)[k])
    decreases rep, 2
  {
    if rep > 0 {
      CurveValuesInHalf(num, values, s, e, alpha, beta, rep, k);
    }
  }

  lemma {:induction false} CurveValuesInHalf(num: Env, values: seq<real>, s: BranchPoint, e: BranchPoint,
                                             alpha: real, beta: real, rep: nat, k: nat)
    requires s.v.Some? && e.v.Some?
    requires 0 < rep && k < Pow2(rep)
    ensures GenBranchPoints(num, values, s, e, alpha, beta, rep)[k].v ==
              Some(PointValues(s.v.value, e.v.value, rep)[k])
    decreases rep, 1
  {
    var m := MidPoint(num, values, s, e, alpha, beta, rep);
    MidPointShape(num, values, s, e, alpha, beta, rep);
    PointInHalf(num, values, s, e, alpha, beta, rep, k);
    PointValuesInHalf(s.v.value, e.v.value, rep, k);
    HalfValues(num, SplitAt(values, m.v), s, m, e, alpha, beta, rep - 1, k, (s.v.value + e.v.value) * 0.5);
    var p := GenBranchPoints(num, values, s, e, alpha, beta, rep)[k];
    var pv := PointValues(s.v.value, e.v.value, rep)[k];
    if k < Pow2(rep - 1) {
      assert p == GenBranchPoints(num, SplitAt(values, m.v).0, s, m, alpha, beta, rep - 1)[k];
      assert pv == PointValues(s.v.value, (s.v.value + e.v.value) * 0.5, rep - 1)[k];
    } else {
      assert p == GenBranchPoints(num, SplitAt(values, m.v).1, m, e, alpha, beta, rep - 1)[k - Pow2(rep - 1)];
      assert pv == PointValues((s.v.value + e.v.value) * 0.5, e.v.value, rep - 1)[k - Pow2(rep - 1)];
    }
  }

  /** Both halves of a curve whose midpoint `m` has value `vm` follow
      `PointValues` from the start value to `vm` and from `vm` to the end
      value. */
  lemma {:induction false} HalfValues(num: Env, sub: (seq<real>, seq<real>), s: BranchPoint, m: BranchPoint,
                                      e: BranchPoint, alpha: real, beta: real, rep: nat, k: nat, vm: real)
    requires s.v.Some? && e.v.Some? && m.v == Some(vm) && k < 2 * Pow2(rep)
    ensures k < Pow2(rep) ==>
              GenBranchPoints(num, sub.0, s, m, alpha, beta, rep)[k].v == Some(PointValues(s.v.value, vm, rep)[k])
    ensures Pow2(rep) <= k ==>
              GenBranchPoints(num, sub.1, m, e, alpha, beta, rep)[k - Pow2(rep)].v ==
                Some(PointValues(vm, e.v.value, rep)[k - Pow2(rep)])
    decreases rep + 1, 0
  {
    if k < Pow2(rep) {
      CurveValues(num, sub.0, s, m, alpha, beta, rep, k);
    } else {
      CurveValues(num, sub.1, m, e, alpha, beta, rep, k - Pow2(rep));
    }
  }

  /** The `k`-th point value for `rep > 0` is one of the half it falls in. */
  lemma PointValuesInHalf(sv: real, ev: real, rep: nat, k: nat)
    requires 0 < rep && k < Pow2(rep)
    ensures var vm := (sv + ev) * 0.5;
            var h := Pow2(rep - 1);
            (k < h ==> PointValues(sv, ev, rep)[k] == PointValues(sv, vm, rep - 1)[k]) &&
            (h <= k ==> PointValues(sv, ev, rep)[k] == PointValues(vm, ev, rep - 1)[k - h])
  {
    var vm := (sv + ev) * 0.5;
    assert PointValues(sv, ev, rep) == PointValues(sv, vm, rep - 1) + PointValues(vm, ev, rep - 1);
  }

  /** Every point value lies between the end values, strictly when they
      differ. */
  lemma {:induction false} PointValuesInside(sv: real, ev: real, rep: nat, k: nat)
    requires sv <= ev && k < Pow2(rep)
    ensures sv <= PointValues(sv, ev, rep)[k] <= ev
    ensures sv < ev ==> sv < PointValues(sv, ev, rep)[k] < ev
    decreases rep
  {
    if rep > 0 {
      var vm := (sv + ev) * 0.5;
      var h := Pow2(rep - 1);
      if k < h {
        PointValuesInside(sv, vm, rep - 1, k);
      } else {
        PointValuesInside(vm, ev, rep - 1, k - h);
      }
    }
  }

  /** For a start value below the end value the point values strictly
      increase along the curve. */
  lemma {:induction false} PointValuesIncrease(sv: real, ev: real, rep: nat, k: nat, k': nat)
    requires sv < ev && k < k' < Pow2(rep)
    ensures PointValues(sv, ev, rep)[k] < PointValues(sv, ev, rep)[k']
    decreases rep
  {
    var vm := (sv + ev) * 0.5;
    var h := Pow2(rep - 1);
    if k' < h {
      PointValuesIncrease(sv, vm, rep - 1, k, k');
    } else if h <= k {
      PointValuesIncrease(vm, ev, rep - 1, k - h, k' - h);
    } else {
      PointValuesInside(sv, vm, rep - 1, k);
      PointValuesInside(vm, ev, rep - 1, k' - h);
    }
  }

  /** Along the curve the point values strictly increase from the start value
      towards the end value and stay strictly between them. */
  lemma ValuesIncrease(num: Env, values: seq<real>, s: BranchPoint, e: BranchPoint,
                       alpha: real, beta: real, rep: nat, k: nat, k': nat)
    requires s.v.Some? && e.v.Some? && s.v.value < e.v.value
    requires k < k' < Pow2(rep)
    ensures var r := GenBranchPoints(num, values, s, e, alpha, beta, rep);
            r[k].v.Some? && r[k'].v.Some? &&
            s.v.value < r[k].v.value < r[k'].v.value < e.v.value
  {
    CurveValues(num, values, s, e, alpha, beta, rep, k);
    CurveValues(num, values, s, e, alpha, beta, rep, k');
    PointValuesInside(s.v.value, e.v.value, rep, k);
    PointValuesInside(s.v.value, e.v.value, rep, k');
    PointValuesIncrease(s.v.value, e.v.value, rep, k, k');
  }

  /** The width of the `k`-th point is the start width minus `alpha` for every
      sample value below the point's value. */
  lemma {:induction false} WidthAt(num: Env, values: seq<real>, s: BranchPoint, e: BranchPoint,
                                   alpha: real, beta: real, rep: nat, k: nat)
    requires s.v.Some? && e.v.Some? && s.v.value <= e.v.value
    requires k < Pow2(rep)
    ensures var p := GenBranchPoints(num, values, s, e, alpha, beta, rep)[k];
            p.v.Some? && p.w == s.w - Scaled(alpha, CountBelow(values, p.v.value))
    decreases rep, 2
  {
    MidPointShape(num, values, s, e, alpha, beta, rep);
    if rep > 0 {
      if k < Pow2(rep - 1) {
        WidthInLeftHalf(num, values, s, e, alpha, beta, rep, k);
      } else {
        WidthInRightHalf(num, values, s, e, alpha, beta, rep, k);
      }
    }
  }

  lemma {:induction false} WidthInLeftHalf(num: Env, values: seq<real>, s: BranchPoint, e: BranchPoint,
                                           alpha: real, beta: real, rep: nat, k: nat)
    requires s.v.Some? && e.v.Some? && s.v.value <= e.v.value
    requires 0 < rep && k < Pow2(rep - 1)
    ensures var p := GenBranchPoints(num, values, s, e, alpha, beta, rep)[k];
            p.v.Some? && p.w == s.w - Scaled(alpha, CountBelow(values, p.v.value))
    decreases rep, 1
  {
    var m := MidPoint(num, values, s, e, alpha, beta, rep);
    MidPointShape(num, values, s, e, alpha, beta, rep);
    PointInHalf(num, values, s, e, alpha, beta, rep, k);
    LeftHalfWidth(num, values, SplitAt(values, m.v).0, s, m, alpha, beta, rep - 1, k, m.v.value);
  }

  /** In the left half, below the midpoint's value `vm`, counting below a
      point's value in the first part of the split is counting in the whole
      sample. */
  lemma {:induction false} LeftHalfWidth(num: Env, values: seq<real>, sub: seq<real>, s: BranchPoint, m: BranchPoint,
                                         alpha: real, beta: real, rep: nat, k: nat, vm: real)
    requires s.v.Some? && m.v == Some(vm) && s.v.value <= vm
    requires sub == Partition(values, vm).0 && k < Pow2(rep)
    ensures var p := GenBranchPoints(num, sub, s, m, alpha, beta, rep)[k];
            p.v.Some? && p.w == s.w - Scaled(alpha, CountBelow(values, p.v.value))
    decreases rep + 1, 0
  {
    var left := GenBranchPoints(num, sub, s, m, alpha, beta, rep);
    WidthAt(num, sub, s, m, alpha, beta, rep, k);
    CurveValues(num, sub, s, m, alpha, beta, rep, k);
    PointValuesInside(s.v.value, vm, rep, k);
    LeftWidthStep(values, alpha, s.w, left[k].w, vm, left[k].v.value);
  }

  lemma LeftWidthStep(values: seq<real>, alpha: real, sw: real, w: real, vm: real, v: real)
    requires v <= vm
    requires w == sw - Scaled(alpha, CountBelow(Partition(values, vm).0, v))
    ensures w == sw - Scaled(alpha, CountBelow(values, v))
  {
    CountBelowOfLower(values, v, vm);
  }

  lemma {:induction false} WidthInRightHalf(num: Env, values: seq<real>, s: BranchPoint, e: BranchPoint,
                                            alpha: real, beta: real, rep: nat, k: nat)
    requires s.v.Some? && e.v.Some? && s.v.value <= e.v.value
    requires 0 < rep && Pow2(rep - 1) <= k < Pow2(rep)
    ensures var p := GenBranchPoints(num, values, s, e, alpha, beta, rep)[k];
            p.v.Some? && p.w == s.w - Scaled(alpha, CountBelow(values, p.v.value))
    decreases rep, 1
  {
    var m := MidPoint(num, values, s, e, alpha, beta, rep);
    MidPointShape(num, values, s, e, alpha, beta, rep);
    PointInHalf(num, values, s, e, alpha, beta, rep, k);
    RightHalfWidth(num, values, SplitAt(values, m.v).1, s, m, e, alpha, beta, rep - 1, k - Pow2(rep - 1), m.v.value);
  }

  /** In the right half, from the midpoint's value `vm` on, the midpoint's
      width already accounts for the values below `vm`, and the second part
      of the split holds the rest below a point's value. */
  lemma {:induction false} RightHalfWidth(num: Env, values: seq<real>, sub: seq<real>, s: BranchPoint,
                                          m: BranchPoint, e: BranchPoint,
                                          alpha: real, beta: real, rep: nat, j: nat, vm: real)
    requires e.v.Some? && m.v == Some(vm) && vm <= e.v.value
    requires m.w == s.w - Scaled(alpha, CountBelow(values, vm))
    requires sub == Partition(values, vm).1 && j < Pow2(rep)
    ensures var p := GenBranchPoints(num, sub, m, e, alpha, beta, rep)[j];
            p.v.Some? && p.w == s.w - Scaled(alpha, CountBelow(values, p.v.value))
    decreases rep + 1, 0
  {
    var right := GenBranchPoints(num, sub, m, e, alpha, beta, rep);
    WidthAt(num, sub, m, e, alpha, beta, rep, j);
    CurveValues(num, sub, m, e, alpha, beta, rep, j);
    PointValuesInside(vm, e.v.value, rep, j);
    RightWidthStep(values, alpha, s.w, m.w, right[j].w, vm, right[j].v.value);
  }

  /** The `k`-th point of a curve with `rep > 0` is a point of the half it
      falls in. */
  lemma PointInHalf(num: Env, values: seq<real>, s: BranchPoint, e: BranchPoint,
                    alpha: real, beta: real, rep: nat, k: nat)
    requires 0 < rep && k < Pow2(rep)
    ensures var m := MidPoint(num, values, s, e, alpha, beta, rep);
            var sub := SplitAt(values, m.v);
            var r := GenBranchPoints(num, values, s, e, alpha, beta, rep);
            (k < Pow2(rep - 1) ==> r[k] == GenBranchPoints(num, sub.0, s, m, alpha, beta, rep - 1)[k]) &&
            (Pow2(rep - 1) <= k ==> r[k] == GenBranchPoints(num, sub.1, m, e, alpha, beta, rep - 1)[k - Pow2(rep - 1)])
  {
    var m := MidPoint(num, values, s, e, alpha, beta, rep);
    var sub := SplitAt(values, m.v);
    var left := GenBranchPoints(num, sub.0, s, m, alpha, beta, rep - 1);
    var right := GenBranchPoints(num, sub.1, m, e, alpha, beta, rep - 1);
    assert GenBranchPoints(num, values, s, e, alpha, beta, rep) == left + right;
  }

  lemma RightWidthStep(values: seq<real>, alpha: real, sw: real, mw: real, w: real, vm: real, v: real)
    requires vm <= v
    requires mw == sw - Scaled(alpha, CountBelow(values, vm))
    requires w == mw - Scaled(alpha, CountBelow(Partition(values, vm).1, v))
    ensures w == sw - Scaled(alpha, CountBelow(values, v))
  {
    CountBelowOfUpper(values, vm, v);
    ScaledSum(alpha, CountBelow(values, vm), CountBelow(Partition(values, vm).1, v));
  }

  /** With the start width `alpha * |values|` the program uses, each point's
      width is `alpha` times the number of sample values at or above its
      value. */
  lemma WidthCountsValuesAbove(num: Env, values: seq<real>, s: BranchPoint, e: BranchPoint,
                               alpha: real, beta: real, rep: nat, k: nat)
    requires s.v.Some? && e.v.Some? && s.v.value <= e.v.value
    requires s.w == Scaled(alpha, |values|)
    requires k < Pow2(rep)
    ensures var p := GenBranchPoints(num, values, s, e, alpha, beta, rep)[k];
            p.v.Some? && p.w == Scaled(alpha, |Partition(values, p.v.value).1|)
  {
    WidthAt(num, values, s, e, alpha, beta, rep, k);
    var p := GenBranchPoints(num, values, s, e, alpha, beta, rep)[k];
    var q := Partition(values, p.v.value);
    ScaledSum(alpha, |q.0|, |q.1|);
  }

  /** `alpha * float(n)`, written as `n` additions of `alpha`. */
  function Scaled(alpha: real, n: nat): real
  {
    if n == 0 then 0.0 else Scaled(alpha, n - 1) + alpha
  }

  lemma {:induction false} ScaledIsProduct(alpha: real, n: nat)
    ensures Scaled(alpha, n) == alpha * (n as real)
  {
    if n > 0 {
      ScaledIsProduct(alpha, n - 1);
      assert alpha * (n as real) == alpha * ((n - 1) as real) + alpha;
    }
  }

  lemma {:induction false} ScaledSum(alpha: real, a: nat, b: nat)
    ensures Scaled(alpha, a + b) == Scaled(alpha, a) + Scaled(alpha, b)
  {
    if b > 0 {
      ScaledSum(alpha, a, b - 1);
    }
  }
}
