/** `calc_beta_thresholds` of beta_overlap_thres.py: for every dataset entry
    the flutter factor `beta` above which its branch is expected to overlap,
    and the smallest of them. */
module BetaThreshold {
  import opened Wrappers
  import opened Numerics
  import opened Extrema
  import opened Geometry
  import opened Separation
  import opened Dataset
  import opened BranchCurve

  /** The threshold of one entry given the central radius `r`: `None` (an
      infinite threshold) unless the sample has spread and `r` is positive. */
  function EntryThreshold(num: Env, e: Entry, alpha: real, gamma: real, r: real): (t: Option<real>)
    ensures t.Some? <==> SampleStd(num, e.values) > 0.0 && r > 0.0
    ensures e.values == [] ==> t.None?
  {
    var sd := SampleStd(num, e.values);
    if sd > 0.0 && r > 0.0 then
      var valMax := SeqMax(e.values);
      Some(ThresholdFormula(alpha, gamma, r, sd, valMax, |e.values|, CountBelow(e.values, valMax * 0.5)))
    else None
  }

  /** The formula of a finite threshold, from the standard deviation `sd`,
      the maximum `valMax`, the sample size `n` and the count `c` of values
      below half the maximum: with the branch length `l = gamma * valMax`,
      the start width `ws = alpha * n` and the width `wm = alpha * c` the
      first subdivision subtracts, `0.5 * (ws + 0.5 * ws * l / r - wm) / sd`. */
  function ThresholdFormula(alpha: real, gamma: real, r: real, sd: real, valMax: real, n: nat, c: nat): real
    requires r != 0.0 && sd != 0.0
  {
    var l := gamma * valMax;
    var ws := alpha * (n as real);
    var wm := alpha * (c as real);
    0.5 * (ws + (0.5 * ws * l / r) - wm) / sd
  }

  /** The thresholds of all entries, in dataset order, non-branch entries
      included. */
  function Thresholds(num: Env, ds: seq<Entry>, alpha: real, gamma: real): (ts: seq<Option<real>>)
    ensures |ts| == |ds|
  {
    var r := CentralRadius(alpha, BranchTotal(ds));
    seq(|ds|, i requires 0 <= i < |ds| => EntryThreshold(num, ds[i], alpha, gamma, r))
  }

  /** `a <= b` with `None` as positive infinity. */
  predicate AtMost(a: Option<real>, b: Option<real>)
  {
    b.None? || (a.Some? && a.value <= b.value)
  }

  /** `min(thresholds)`, infinity being larger than every number. */
  function MinThreshold(ts: seq<Option<real>>): (m: Option<real>)
    requires |ts| > 0
    ensures m in ts
    ensures forall t :: t in ts ==> AtMost(m, t)
  {
    if |ts| == 1 then ts[0]
    else
      var rest := MinThreshold(ts[1..]);
      assert forall t :: t in ts ==> t == ts[0] || t in ts[1..];
      if AtMost(ts[0], rest) then ts[0] else rest
  }

  /** `calc_beta_thresholds`: the minimum and the list of thresholds; `min`
      of the empty list of an empty dataset fails. */
  method CalcBetaThresholds(num: Env, ds: seq<Entry>, alpha: real, gamma: real)
    returns (res: Result<(Option<real>, seq<Option<real>>)>)
    ensures |ds| == 0 ==> res == Failure(EmptySequence)
    ensures |ds| > 0 ==>
              res == Success((MinThreshold(Thresholds(num, ds, alpha, gamma)), Thresholds(num, ds, alpha, gamma)))
  {
    var totalN := CountBranchSamples(ds);
    var r := alpha * (totalN as real) / (2.0 * Pi);
    assert r == CentralRadius(alpha, BranchTotal(ds));
    var thresholds := [];
    for i := 0 to |ds|
      invariant |thresholds| == i
      invariant forall k :: 0 <= k < i ==> thresholds[k] == EntryThreshold(num, ds[k], alpha, gamma, r)
    {
      var thres := EntryThreshold(num, ds[i], alpha, gamma, r);
      thresholds := thresholds + [thres];
    }
    assert thresholds == Thresholds(num, ds, alpha, gamma);
    if |thresholds| == 0 {
      return Failure(EmptySequence);
    }
    return Success((MinThreshold(thresholds), thresholds));
  }

  /** For a positive `alpha`, a non-negative `gamma` and non-negative values,
      a finite threshold is positive: the values at the maximum are never
      below half of it, so `ws - wm > 0`. */
  lemma ThresholdPositive(num: Env, e: Entry, alpha: real, gamma: real, r: real)
    requires alpha > 0.0 && gamma >= 0.0
    requires forall k :: 0 <= k < |e.values| ==> e.values[k] >= 0.0
    requires EntryThreshold(num, e, alpha, gamma, r).Some?
    ensures EntryThreshold(num, e, alpha, gamma, r).value > 0.0
  {
    var values := e.values;
    var valMax := SeqMax(values);
    MaxNonNegative(values);
    var k :| 0 <= k < |values| && values[k] == valMax;
    CountBelowMissesMember(values, valMax * 0.5, k);
    FormulaPositive(alpha, gamma, r, SampleStd(num, values), valMax, |values|, CountBelow(values, valMax * 0.5));
  }

  lemma MaxNonNegative(values: seq<real>)
    requires |values| > 0 && forall k :: 0 <= k < |values| ==> values[k] >= 0.0
    ensures SeqMax(values) >= 0.0
  {
  }

  lemma FormulaPositive(alpha: real, gamma: real, r: real, sd: real, valMax: real, n: nat, c: nat)
    requires alpha > 0.0 && c < n && gamma >= 0.0 && valMax >= 0.0 && r > 0.0 && sd > 0.0
    ensures ThresholdFormula(alpha, gamma, r, sd, valMax, n, c) > 0.0
  {
    var x, y := n as real, c as real;
    var ws, wm, l := alpha * x, alpha * y, gamma * valMax;
    assert ws - wm == alpha * (x - y);
    assert ws >= 0.0 && l >= 0.0;
    var q := 0.5 * ws * l / r;
    assert 0.5 * ws * l >= 0.0;
    assert q >= 0.0;
    var d := ws + q - wm;
    assert d > 0.0;
    assert ThresholdFormula(alpha, gamma, r, sd, valMax, n, c) == 0.5 * d / sd;
    assert 0.5 * d > 0.0;
  }

  /** The first midpoint of a branch from value 0 to the maximum sits at half
      the maximum and is `alpha` narrower per value below that. */
  lemma FirstMidWidth(num: Env, values: seq<real>, s: BranchPoint, t: BranchPoint,
                      alpha: real, beta: real, rep: nat)
    requires values != []
    requires s.v == Some(0.0) && t.v == Some(SeqMax(values))
    ensures MidPoint(num, values, s, t, alpha, beta, rep).w == s.w - Scaled(alpha, CountBelow(values, SeqMax(values) * 0.5))
  {
    var m := MidPoint(num, values, s, t, alpha, beta, rep);
    MidPointShape(num, values, s, t, alpha, beta, rep);
    assert m.v.value == SeqMax(values) * 0.5;
    assert CountBelow(values, m.v.value) == CountBelow(values, SeqMax(values) * 0.5);
  }

  /** The `wm` of the formula is what the first subdivision of the entry's
      branch subtracts (see `FirstMidWidth`): for the first midpoint's width
      `mw = alpha * n - wm`, the threshold is
      `0.5 * (mw + 0.5 * ws * l / r) / sd`. */
  lemma ThresholdUsesMidWidth(alpha: real, gamma: real, r: real, sd: real, valMax: real, n: nat, c: nat, mw: real)
    requires r != 0.0 && sd != 0.0
    requires mw == alpha * (n as real) - Scaled(alpha, c)
    ensures ThresholdFormula(alpha, gamma, r, sd, valMax, n, c) ==
              0.5 * (mw + (0.5 * (alpha * (n as real)) * (gamma * valMax) / r)) / sd
  {
    ScaledIsProduct(alpha, c);
    SameFormula(alpha * (n as real), alpha * (c as real), mw, 0.5 * (alpha * (n as real)) * (gamma * valMax) / r, sd);
  }

  lemma SameFormula(ws: real, wm: real, mw: real, q: real, sd: real)
    requires mw == ws - wm && sd != 0.0
    ensures 0.5 * (ws + q - wm) / sd == 0.5 * (mw + q) / sd
  {
    assert ws + q - wm == mw + q;
  }
}
