/** The input dataset both scripts read, and the quantities they derive from
    it before laying out or scoring branches. */
module Dataset {
  import opened Numerics

  /** One dataset entry: its `name`, its `type` and its co-occurrence
      `values`. */
  datatype Entry = Entry(name: string, kind: string, values: seq<real>)

  predicate IsBranch(e: Entry)
  {
    e.kind == "branch"
  }

  /** The sample count an entry adds to `total_n`: its size for a branch,
      nothing otherwise. */
  function BranchSize(e: Entry): nat
  {
    if IsBranch(e) then |e.values| else 0
  }

  /** `total_n`: the number of sample values over the branch entries. */
  function BranchTotal(ds: seq<Entry>): nat
  {
    if ds == [] then 0 else BranchTotal(ds[..|ds| - 1]) + BranchSize(ds[|ds| - 1])
  }

  /** The total over a concatenation is the sum of the totals. */
  lemma {:induction false} BranchTotalAppend(a: seq<Entry>, b: seq<Entry>)
    ensures BranchTotal(a + b) == BranchTotal(a) + BranchTotal(b)
    decreases |b|
  {
    if b == [] {
      assert a + b == a;
    } else {
      var b' := b[..|b| - 1];
      assert (a + b)[..|a + b| - 1] == a + b';
      assert (a + b)[|a + b| - 1] == b[|b| - 1];
      BranchTotalAppend(a, b');
    }
  }

  /** Every branch entry's values are counted: the total bounds each of them,
      and it is zero exactly when no branch entry has a value. */
  lemma {:induction false} BranchTotalCounts(ds: seq<Entry>)
    ensures forall k :: 0 <= k < |ds| && IsBranch(ds[k]) ==> |ds[k].values| <= BranchTotal(ds)
    ensures BranchTotal(ds) == 0 <==> forall k :: 0 <= k < |ds| && IsBranch(ds[k]) ==> ds[k].values == []
    decreases |ds|
  {
    if ds != [] {
      var init := ds[..|ds| - 1];
      BranchTotalCounts(init);
      assert forall k :: 0 <= k < |init| ==> ds[k] == init[k];
    }
  }

  /** The first loop of both scripts: `total_n += len(values)` over the
      branch entries. */
  method CountBranchSamples(ds: seq<Entry>) returns (total: nat)
    ensures total == BranchTotal(ds)
  {
    total := 0;
    for i := 0 to |ds|
      invariant total == BranchTotal(ds[..i])
    {
      assert ds[..i + 1][..i] == ds[..i];
      if ds[i].kind == "branch" {
        total := total + |ds[i].values|;
      }
    }
    assert ds[..|ds|] == ds;
  }

  /** `r`: the central node radius, `alpha * total_n / (2 pi)`, so that the
      node's circumference is `alpha` per sample value. */
  function CentralRadius(alpha: real, total: nat): real
  {
    alpha * (total as real) / (2.0 * Pi)
  }

  /** The radius is positive exactly when `alpha` is and some sample value
      exists; the circumference is `alpha * total_n`. */
  lemma CentralRadiusSign(alpha: real, total: nat)
    ensures CentralRadius(alpha, total) > 0.0 <==> alpha > 0.0 && total > 0
    ensures 2.0 * Pi * CentralRadius(alpha, total) == alpha * (total as real)
  {
    var t := total as real;
    var p := 2.0 * Pi;
    assert p > 0.0;
    var r := alpha * t / p;
    assert p * r == alpha * t;
    if alpha > 0.0 && total > 0 {
      assert alpha * t > 0.0;
    }
    if r > 0.0 {
      assert alpha * t > 0.0;
      assert t > 0.0;
    }
  }
}
