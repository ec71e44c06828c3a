/** `gen_interp_branch_points` of polygon_gen.py: resample a branch at evenly
    spaced distances from the centre. */
module Resample {
  import opened Wrappers
  import opened Numerics
  import opened Geometry
  import opened Extrema

  /** `math.sqrt(x * x + y * y)`: the distance of a point from the centre. */
  function Radius(num: Env, p: BranchPoint): real
  {
    num.sqrt(p.x * p.x + p.y * p.y)
  }

  /** The lists `x`, `y`, `dist` and `w` the first loop collects. */
  function Xs(points: seq<BranchPoint>): seq<real>
  {
    seq(|points|, i requires 0 <= i < |points| => points[i].x)
  }

  function Ys(points: seq<BranchPoint>): seq<real>
  {
    seq(|points|, i requires 0 <= i < |points| => points[i].y)
  }

  function Radii(num: Env, points: seq<BranchPoint>): seq<real>
  {
    seq(|points|, i requires 0 <= i < |points| => Radius(num, points[i]))
  }

  function Widths(points: seq<BranchPoint>): seq<real>
  {
    seq(|points|, i requires 0 <= i < |points| => points[i].w)
  }

  /** `dist_i` of the second loop: the `i`-th of `div` equal steps from `dmin`
      to `dmax`, clamped at `dmax`. */
  function SampleDistance(dmin: real, dmax: real, div: int, i: int): real
    requires div != 0
  {
    var d := dmin + (dmax - dmin) * (i as real) / (div as real);
    if d > dmax then dmax else d
  }

  /** The `div + 1` sample distances (none for a negative `div`). */
  function SampleDistances(dmin: real, dmax: real, div: int): (ds: seq<real>)
    requires div != 0
    ensures |ds| == (if div < 0 then 0 else div + 1)
  {
    seq(if div < 0 then 0 else div + 1, i => SampleDistance(dmin, dmax, div, i))
  }

  /** The points the function returns: the cubic interpolants of `x` and `y`
      and the monotone one of `w`, all over `dist`, evaluated at each sample
      distance, with the NaN value marker. */
  function Resampled(num: Env, points: seq<BranchPoint>, div: int): (r: seq<BranchPoint>)
    requires |points| > 0 && div != 0
    ensures |r| == (if div < 0 then 0 else div + 1)
    ensures forall i :: 0 <= i < |r| ==> r[i].v.None?
  {
    var dist := Radii(num, points);
    var fx, fy, fw := num.cubic(dist, Xs(points)), num.cubic(dist, Ys(points)),
                      num.pchip(dist, Widths(points));
    Evaluated(fx, fy, fw, SampleDistances(SeqMin(dist), SeqMax(dist), div))
  }

  /** The interpolants evaluated at each distance, with the NaN value marker. */
  function Evaluated(fx: real -> real, fy: real -> real, fw: real -> real, ds: seq<real>): (r: seq<BranchPoint>)
    ensures |r| == |ds|
    ensures forall i :: 0 <= i < |r| ==> r[i].v.None?
  {
    seq(|ds|, i requires 0 <= i < |ds| => BranchPoint(fx(ds[i]), fy(ds[i]), fw(ds[i]), None))
  }

  /** `c * a / q <= c * b / q` for `c >= 0`, `q > 0` and `a <= b`. */
  lemma ScaledStepMonotone(c: real, a: real, b: real, q: real)
    requires c >= 0.0 && q > 0.0 && a <= b
    ensures c * a / q <= c * b / q
  {
    assert c * b - c * a == c * (b - a);
    assert c * a <= c * b;
    assert c * b / q - c * a / q == (c * b - c * a) / q;
  }

  /** For `div > 0` the sample distances start at `dmin` and end at `dmax`. */
  lemma SampleDistanceEnds(dmin: real, dmax: real, div: int)
    requires div > 0 && dmin <= dmax
    ensures SampleDistance(dmin, dmax, div, 0) == dmin
    ensures SampleDistance(dmin, dmax, div, div) == dmax
  {
    var c, q := dmax - dmin, div as real;
    assert c * q / q == c;
  }

  /** Every sample distance from step 0 on lies between `dmin` and `dmax`;
      the upper bound holds for every step through the clamp alone. */
  lemma SampleDistanceBounds(dmin: real, dmax: real, div: int, i: int)
    requires div > 0 && dmin <= dmax
    ensures SampleDistance(dmin, dmax, div, i) <= dmax
    ensures 0 <= i ==> dmin <= SampleDistance(dmin, dmax, div, i)
  {
    if 0 <= i {
      var c, q := dmax - dmin, div as real;
      ScaledStepMonotone(c, 0.0, i as real, q);
      assert c * 0.0 / q == 0.0;
    }
  }

  /** The sample distances never decrease. */
  lemma SampleDistanceMonotone(dmin: real, dmax: real, div: int, i: int, j: int)
    requires div > 0 && dmin <= dmax && i <= j
    ensures SampleDistance(dmin, dmax, div, i) <= SampleDistance(dmin, dmax, div, j)
  {
    var c, q := dmax - dmin, div as real;
    ScaledStepMonotone(c, i as real, j as real, q);
    var di, dj := dmin + c * (i as real) / q, dmin + c * (j as real) / q;
    assert di <= dj;
    assert SampleDistance(dmin, dmax, div, i) == if di > dmax then dmax else di;
    assert SampleDistance(dmin, dmax, div, j) == if dj > dmax then dmax else dj;
  }

  /** The first loop: collect `x`, `y`, `dist` and `w` of every point. */
  method CollectColumns(num: Env, points: seq<BranchPoint>)
    returns (xs: seq<real>, ys: seq<real>, dist: seq<real>, ws: seq<real>)
    ensures xs == Xs(points) && ys == Ys(points)
    ensures dist == Radii(num, points) && ws == Widths(points)
  {
    xs, ys, dist, ws := [], [], [], [];
    for k := 0 to |points|
      invariant |xs| == k && |ys| == k && |dist| == k && |ws| == k
      invariant forall j :: 0 <= j < k ==>
                  xs[j] == points[j].x && ys[j] == points[j].y &&
                  dist[j] == Radius(num, points[j]) && ws[j] == points[j].w
    {
      var point := points[k];
      xs := xs + [point.x];
      ys := ys + [point.y];
      dist := dist + [Radius(num, point)];
      ws := ws + [point.w];
    }
  }

  /** The second loop: `div + 1` clamped equal steps; `div == 0` fails in the
      division of the first step. */
  method SampleLoop(distMin: real, distMax: real, div: int) returns (r: Result<seq<real>>)
    ensures div == 0 ==> r == Failure(DivisionByZero)
    ensures div != 0 ==> r == Success(SampleDistances(distMin, distMax, div))
  {
    var newDist := [];
    var i := 0;
    while i < div + 1
      invariant 0 <= i && |newDist| == i
      invariant div < 0 ==> i == 0
      invariant div >= 0 ==> i <= div + 1
      invariant div == 0 ==> i == 0
      invariant div != 0 ==> forall k :: 0 <= k < i ==> newDist[k] == SampleDistance(distMin, distMax, div, k)
    {
      if div == 0 {
        return Failure(DivisionByZero);
      }
      var distI := distMin + (distMax - distMin) * (i as real) / (div as real);
      if distI > distMax {
        distI := distMax;
      }
      assert distI == SampleDistance(distMin, distMax, div, i);
      newDist := newDist + [distI];
      i := i + 1;
    }
    assert newDist == SampleDistances(distMin, distMax, div);
    return Success(newDist);
  }

  /** The last loop: one point per sample distance. */
  method EvaluateAt(fx: real -> real, fy: real -> real, fw: real -> real, ds: seq<real>)
    returns (result: seq<BranchPoint>)
    ensures result == Evaluated(fx, fy, fw, ds)
  {
    result := [];
    for k := 0 to |ds|
      invariant |result| == k
      invariant forall j :: 0 <= j < k ==> result[j] == BranchPoint(fx(ds[j]), fy(ds[j]), fw(ds[j]), None)
    {
      result := result + [BranchPoint(fx(ds[k]), fy(ds[k]), fw(ds[k]), None)];
    }
  }

  /** The distances strictly increase, as `PchipInterpolator` demands of its
      abscissae; a repeated distance also makes the cubic `interp1d` fail. */
  predicate StrictlyIncreasing(s: seq<real>)
  {
    forall i :: 0 < i < |s| ==> s[i - 1] < s[i]
  }

  /** The fewest points `interp1d(kind="cubic")` accepts. */
  const MinCubicPoints: nat := 4

  /** Whether scipy builds the three interpolants over the points' distances
      from the centre. */
  predicate Interpolable(num: Env, points: seq<BranchPoint>)
  {
    |points| >= MinCubicPoints && StrictlyIncreasing(Radii(num, points))
  }

  /** Over strictly increasing distances, `min` and `max` are the first and
      the last distance, so the samples run from the first point's distance
      to the last one's. */
  lemma {:induction false} IncreasingEnds(s: seq<real>)
    requires |s| > 0 && StrictlyIncreasing(s)
    ensures SeqMin(s) == s[0] && SeqMax(s) == s[|s| - 1]
  {
    var lo :| 0 <= lo < |s| && s[lo] == SeqMin(s);
    var hi :| 0 <= hi < |s| && s[hi] == SeqMax(s);
    IncreasingBetween(s, 0, lo);
    IncreasingBetween(s, hi, |s| - 1);
    assert s[0] in s && s[|s| - 1] in s;
  }

  lemma {:induction false} IncreasingBetween(s: seq<real>, i: nat, j: nat)
    requires i <= j < |s| && StrictlyIncreasing(s)
    ensures s[i] <= s[j]
    decreases j - i
  {
    if i < j {
      IncreasingBetween(s, i, j - 1);
    }
  }

  /** `gen_interp_branch_points`. The interpolant constructors fail before
      anything else for fewer than four points (an empty list included) or
      for distances that do not strictly increase. */
  method GenInterpBranchPoints(num: Env, points: seq<BranchPoint>, div: int)
    returns (r: Result<seq<BranchPoint>>)
    ensures !Interpolable(num, points) ==> r == Failure(InterpolationError)
    ensures Interpolable(num, points) && div == 0 ==> r == Failure(DivisionByZero)
    ensures Interpolable(num, points) && div != 0 ==> r == Success(Resampled(num, points, div))
  {
    var xs, ys, dist, ws := CollectColumns(num, points);
    if |dist| < MinCubicPoints || !StrictlyIncreasing(dist) {
      return Failure(InterpolationError);
    }
    var fx, fy, fw := num.cubic(dist, xs), num.cubic(dist, ys), num.pchip(dist, ws);
    var newDist := SampleLoop(SeqMin(dist), SeqMax(dist), div);
    if newDist.Failure? {
      return Failure(newDist.error);
    }
    var result := EvaluateAt(fx, fy, fw, newDist.value);
    return Success(result);
  }
}
