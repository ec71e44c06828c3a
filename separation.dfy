/** `separate_values` of polygon_gen.py: split a sample around a threshold. */
module Separation {

  /** `s` interleaves `a` and `b`: it is a merge of the two that keeps the
      relative order of each. */
  ghost predicate IsMerge(s: seq<real>, a: seq<real>, b: seq<real>)
    decreases |s|
  {
    if s == [] then a == [] && b == []
    else
      (a != [] && a[|a| - 1] == s[|s| - 1] && IsMerge(s[..|s| - 1], a[..|a| - 1], b)) ||
      (b != [] && b[|b| - 1] == s[|s| - 1] && IsMerge(s[..|s| - 1], a, b[..|b| - 1]))
  }

  /** A merge loses and invents nothing. */
  lemma {:induction false} MergeCounts(s: seq<real>, a: seq<real>, b: seq<real>)
    requires IsMerge(s, a, b)
    ensures |a| + |b| == |s|
    ensures multiset(a) + multiset(b) == multiset(s)
    decreases |s|
  {
    if s != [] {
      var s', x := s[..|s| - 1], s[|s| - 1];
      assert s == s' + [x];
      if a != [] && a[|a| - 1] == x && IsMerge(s', a[..|a| - 1], b) {
        MergeCounts(s', a[..|a| - 1], b);
        assert a == a[..|a| - 1] + [x];
      } else {
        MergeCounts(s', a, b[..|b| - 1]);
        assert b == b[..|b| - 1] + [x];
      }
    }
  }

  /** The pair `(sub1, sub2)` of `separate_values(values, thres)`: the values
      strictly below `thres`, and the others, each in the order of `values`. */
  function Partition(values: seq<real>, thres: real): (p: (seq<real>, seq<real>))
    ensures |p.0| + |p.1| == |values|
    decreases |values|
  {
    if values == [] then ([], [])
    else
      var last := values[|values| - 1];
      var p := Partition(values[..|values| - 1], thres);
      if last < thres then (p.0 + [last], p.1) else (p.0, p.1 + [last])
  }

  /** The first part holds exactly the values below the threshold and the
      second the others, and together they interleave the sample. */
  lemma {:induction false} PartitionSplits(values: seq<real>, thres: real)
    ensures var p := Partition(values, thres);
            (forall x :: x in p.0 ==> x < thres) && (forall x :: x in p.1 ==> x >= thres)
    ensures var p := Partition(values, thres);
            IsMerge(values, p.0, p.1)
    decreases |values|
  {
    if values != [] {
      var last := values[|values| - 1];
      var p := Partition(values[..|values| - 1], thres);
      PartitionSplits(values[..|values| - 1], thres);
      if last < thres {
        assert (p.0 + [last])[..|p.0|] == p.0;
      } else {
        assert (p.1 + [last])[..|p.1|] == p.1;
      }
    }
  }

  /** The number of values strictly below `thres` (the `len(sub_val1)` the
      program takes). */
  function CountBelow(values: seq<real>, thres: real): nat
  {
    |Partition(values, thres).0|
  }

  /** The loop of `separate_values`: append each value to `sub1` or `sub2`. */
  method SeparateValues(values: seq<real>, thres: real) returns (sub1: seq<real>, sub2: seq<real>)
    ensures (sub1, sub2) == Partition(values, thres)
    ensures forall x :: x in sub1 ==> x < thres
    ensures forall x :: x in sub2 ==> x >= thres
    ensures IsMerge(values, sub1, sub2)
  {
    sub1, sub2 := [], [];
    for i := 0 to |values|
      invariant (sub1, sub2) == Partition(values[..i], thres)
    {
      assert values[..i + 1][..i] == values[..i];
      var val := values[i];
      if val < thres {
        sub1 := sub1 + [val];
      } else {
        sub2 := sub2 + [val];
      }
    }
    assert values[..|values|] == values;
    PartitionSplits(values, thres);
  }

  /** Refining the lower part by a smaller threshold counts the same values
      as refining the whole sample. */
  lemma {:induction false} CountBelowOfLower(values: seq<real>, t: real, u: real)
    requires t <= u
    ensures CountBelow(Partition(values, u).0, t) == CountBelow(values, t)
    decreases |values|
  {
    if values != [] {
      var init, last := values[..|values| - 1], values[|values| - 1];
      CountBelowOfLower(init, t, u);
      var lo := Partition(init, u).0;
      if last < u {
        assert Partition(values, u).0 == lo + [last];
        assert (lo + [last])[..|lo|] == lo;
      }
    }
  }

  /** Values below a larger threshold split into those below a smaller one and
      those of the upper part below the larger one. */
  lemma {:induction false} CountBelowOfUpper(values: seq<real>, u: real, t: real)
    requires u <= t
    ensures CountBelow(values, t) == CountBelow(values, u) + CountBelow(Partition(values, u).1, t)
    decreases |values|
  {
    if values != [] {
      var init, last := values[..|values| - 1], values[|values| - 1];
      CountBelowOfUpper(init, u, t);
      var hi := Partition(init, u).1;
      if last >= u {
        assert Partition(values, u).1 == hi + [last];
        assert (hi + [last])[..|hi|] == hi;
      }
    }
  }

  /** A value of the sample at or above the threshold is not counted below it,
      so at least one value is missing from the lower part. */
  lemma {:induction false} CountBelowMissesMember(values: seq<real>, thres: real, k: nat)
    requires k < |values| && values[k] >= thres
    ensures CountBelow(values, thres) < |values|
  {
    var p := Partition(values, thres);
    PartitionSplits(values, thres);
    MergeCounts(values, p.0, p.1);
    assert values[k] in multiset(values);
    assert values[k] !in p.0;
    assert values[k] in multiset(p.1);
  }
}
