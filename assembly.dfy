/** The layout loop of `output_polygon_json` in polygon_gen.py: every branch
    entry becomes a ribbon placed around the central node, every other entry
    the central node's fan, and the triangles are concatenated with one
    category label per triangle. */
module Assembly {
  import opened Wrappers
  import opened Numerics
  import opened Extrema
  import opened Geometry
  import opened Dataset
  import opened BranchCurve
  import opened Resample
  import opened Ribbon
  import opened CentralNode

  /** The command-line parameters the loop uses. */
  datatype Config = Config(alpha: real, beta: real, gamma: real, rep: int,
                           innerCircleRatio: real, branchDiv: int, centralNodeDiv: int)

  /** The output record: `categoryToName` (keyed by entry index),
      `centralNodeCategory`, `numMeshesForEachBranch`, the flat triangle list
      `meshes` and one label per triangle in `meshCategories`. */
  datatype Polygon = Polygon(categoryToName: map<nat, string>, centralNodeCategory: nat,
                             numMeshesForEachBranch: nat, meshes: seq<real>, meshCategories: seq<int>)

  /** `[x] * k`. */
  function Repeat(x: int, k: nat): (s: seq<int>)
    ensures |s| == k && forall i :: 0 <= i < k ==> s[i] == x
  {
    seq(k, i => x)
  }

  /** The start and end points of a branch drawn at `angle`: the start on the
      circle of radius `r` with width `alpha * n` and value 0, the end
      `gamma * max(values)` further out with width `alpha` and value
      `max(values)`. */
  function BranchEnds(num: Env, cfg: Config, r: real, angle: real, values: seq<real>): (BranchPoint, BranchPoint)
    requires values != []
  {
    var valMax := SeqMax(values);
    var l := cfg.gamma * valMax;
    (BranchPoint(r * num.cos(angle), r * num.sin(angle), cfg.alpha * (|values| as real), Some(0.0)),
     BranchPoint((r + l) * num.cos(angle), (r + l) * num.sin(angle), cfg.alpha * 1.0, Some(valMax)))
  }

  /** The number of triangles of one branch ribbon: two per resampling step. */
  function PerBranch(div: int): nat
  {
    if div > 0 then 2 * div else 0
  }

  /** The raw points of a branch: the start point, the recursive curve
      points and the end point, `2^rep + 2` in all. */
  function RawBranchPoints(num: Env, cfg: Config, r: real, angle: real, values: seq<real>): (ps: seq<BranchPoint>)
    requires values != [] && cfg.rep >= 0
    ensures |ps| == Pow2(cfg.rep) + 2
  {
    var ends := BranchEnds(num, cfg, r, angle, values);
    [ends.0] + GenBranchPoints(num, values, ends.0, ends.1, cfg.alpha, cfg.beta, cfg.rep) + [ends.1]
  }

  /** Whether a branch gets as far as its interpolants: its values are not
      empty, the recursion count is not negative and scipy accepts the raw
      points. */
  predicate BranchInterpolable(num: Env, cfg: Config, r: real, angle: real, values: seq<real>)
  {
    values != [] && cfg.rep >= 0 && Interpolable(num, RawBranchPoints(num, cfg, r, angle, values))
  }

  /** The triangles of one branch: its end points, the recursive curve
      points between them, resampled and turned into a ribbon. `max` of
      empty values, a negative recursion count, scipy's interpolants and a
      zero resampling count fail, in that order. */
  function BranchTriangles(num: Env, cfg: Config, r: real, angle: real, values: seq<real>): (res: Result<seq<real>>)
    ensures res.Failure? <==> !BranchInterpolable(num, cfg, r, angle, values) || cfg.branchDiv == 0
    ensures values == [] ==> res == Failure(EmptySequence)
    ensures values != [] && cfg.rep < 0 ==> res == Failure(RecursionLimit)
    ensures values != [] && cfg.rep >= 0 && !BranchInterpolable(num, cfg, r, angle, values) ==>
              res == Failure(InterpolationError)
    ensures BranchInterpolable(num, cfg, r, angle, values) && cfg.branchDiv == 0 ==>
              res == Failure(DivisionByZero)
    ensures res.Success? ==> |res.value| == 9 * PerBranch(cfg.branchDiv) && Planar(res.value) && NotClockwise(res.value)
  {
    if values == [] then Failure(EmptySequence)
    else if cfg.rep < 0 then Failure(RecursionLimit)
    else
      var points := RawBranchPoints(num, cfg, r, angle, values);
      if !Interpolable(num, points) then Failure(InterpolationError)
      else if cfg.branchDiv == 0 then Failure(DivisionByZero)
      else Success(BranchMesh(num, Resampled(num, points, cfg.branchDiv)))
  }

  /** With `rep == 0` a branch has three raw points, too few for the cubic
      interpolant, so every non-empty branch fails. */
  lemma RepZeroBranchFails(num: Env, cfg: Config, r: real, angle: real, values: seq<real>)
    requires values != [] && cfg.rep == 0
    ensures BranchTriangles(num, cfg, r, angle, values) == Failure(InterpolationError)
  {
    assert |RawBranchPoints(num, cfg, r, angle, values)| == 3;
  }

  /** One branch of the loop body, from `point_s` to `meshes`. */
  method PlaceBranch(num: Env, cfg: Config, r: real, angle: real, values: seq<real>) returns (res: Result<seq<real>>)
    ensures res == BranchTriangles(num, cfg, r, angle, values)
  {
    if |values| == 0 {
      return Failure(EmptySequence);
    }
    var ends := BranchEnds(num, cfg, r, angle, values);
    var pointS, pointE := ends.0, ends.1;
    if cfg.rep < 0 {
      return Failure(RecursionLimit);
    }
    var branchPoints := [pointS] + GenBranchPoints(num, values, pointS, pointE, cfg.alpha, cfg.beta, cfg.rep) + [pointE];
    var interp := GenInterpBranchPoints(num, branchPoints, cfg.branchDiv);
    if interp.Failure? {
      return Failure(interp.error);
    }
    var meshes := GenBranchMeshes(num, interp.value);
    return Success(meshes);
  }

  /** What the loop has accumulated: `meshes_list`, `mesh_categories_list`,
      `num_meshes_each_branch`, `category_to_name`, `central_node_category`,
      `central_node_meshes` and `central_node_mesh_categories`. */
  datatype Acc = Acc(meshes: seq<real>, cats: seq<int>, numEach: nat, names: map<nat, string>,
                     central: nat, centralMeshes: seq<real>, centralCats: seq<int>)

  /** The angle the loop has reached at branch entry `i`: the middle of its
      own arc, after the arcs of the branches before it, `unit_angle` per
      sample value. */
  function EntryAngle(ua: real, ds: seq<Entry>, i: nat): real
    requires i < |ds|
  {
    MidAngle(ua, BranchTotal(ds[..i]), |ds[i].values|)
  }

  /** The middle of an arc of `n` sample values after `t` of them. */
  function MidAngle(ua: real, t: nat, n: nat): real
  {
    ua * ((t as real) + (n as real) * 0.5)
  }

  /** The angle after `t` sample values when the last arc was of `p`
      values: the middle of that arc. */
  function AngleAfter(ua: real, t: nat, p: nat): real
  {
    ua * ((t as real) - (p as real) * 0.5)
  }

  /** One iteration: record the name, then either add the branch's ribbon
      and labels or replace the central node's fan. */
  function Step(num: Env, cfg: Config, r: real, ua: real, ds: seq<Entry>, i: nat, acc: Acc): Result<Acc>
    requires i < |ds|
  {
    if IsBranch(ds[i]) then
      match BranchTriangles(num, cfg, r, EntryAngle(ua, ds, i), ds[i].values)
      case Failure(e) => Failure(e)
      case Success(m) => Success(AddBranch(acc, i, ds[i].name, m))
    else if cfg.centralNodeDiv == 0 then Failure(DivisionByZero)
    else Success(SetCentral(acc, i, ds[i].name, CentralFan(num, r * 1.5, cfg.centralNodeDiv)))
  }

  /** A branch entry's update: append its triangles and one label `i` per
      triangle, and record its triangle count. */
  function AddBranch(acc: Acc, i: nat, name: string, m: seq<real>): Acc
  {
    acc.(meshes := acc.meshes + m, cats := acc.cats + Repeat(i, TriangleCount(m)),
         numEach := TriangleCount(m), names := acc.names[i := name])
  }

  /** A non-branch entry's update: it becomes the central node, its fan
      replacing any earlier one. */
  function SetCentral(acc: Acc, i: nat, name: string, fan: seq<real>): Acc
  {
    acc.(names := acc.names[i := name], central := i, centralMeshes := fan,
         centralCats := Repeat(i, TriangleCount(fan)))
  }

  /** The loop over the first `n` entries; the first failing entry ends it. */
  function LayoutPrefix(num: Env, cfg: Config, r: real, ua: real, ds: seq<Entry>, n: nat): Result<Acc>
    requires n <= |ds|
  {
    if n == 0 then Success(Acc([], [], 0, map[], 0, [], []))
    else
      match LayoutPrefix(num, cfg, r, ua, ds, n - 1)
      case Failure(e) => Failure(e)
      case Success(acc) => Step(num, cfg, r, ua, ds, n - 1, acc)
  }

  /** The whole of `output_polygon_json` without the file I/O: `unit_angle`
      fails for a dataset without sample values; the central node's fan and
      then the inner circle's fan, labelled `-1`, go after the branches. */
  function PolygonData(num: Env, ds: seq<Entry>, cfg: Config): Result<Polygon>
  {
    var total := BranchTotal(ds);
    if total == 0 then Failure(DivisionByZero)
    else Assemble(num, cfg, CentralRadius(cfg.alpha, total), UnitAngle(total), ds)
  }

  /** The radius of the inner circle of the central node: `ratio * r * 1.5`. */
  function InnerRadius(ratio: real, r: real): real
  {
    ratio * r * 1.5
  }

  /** The loop over all entries with central radius `r` and unit angle `ua`,
      then the inner circle. */
  function Assemble(num: Env, cfg: Config, r: real, ua: real, ds: seq<Entry>): Result<Polygon>
  {
    match LayoutPrefix(num, cfg, r, ua, ds, |ds|)
    case Failure(e) => Failure(e)
    case Success(acc) =>
      match InnerFan(num, cfg, r)
      case Failure(e) => Failure(e)
      case Success(inner) => Success(Finish(acc, inner))
  }

  /** The inner circle's fan, of radius `InnerRadius(innerCircleRatio, r)`,
      when the ratio is positive, and no triangles otherwise; a zero fan
      count fails in its `unit_angle`. */
  function InnerFan(num: Env, cfg: Config, r: real): (res: Result<seq<real>>)
    ensures res.Failure? <==> cfg.innerCircleRatio > 0.0 && cfg.centralNodeDiv == 0
    ensures res.Failure? ==> res.error == DivisionByZero
    ensures res.Success? ==>
              |res.value| == 9 * (if cfg.innerCircleRatio > 0.0 then StepCount(cfg.centralNodeDiv) else 0) &&
              Planar(res.value)
  {
    if cfg.innerCircleRatio > 0.0 then
      if cfg.centralNodeDiv == 0 then Failure(DivisionByZero)
      else
        FanPrefixPlanar(num, InnerRadius(cfg.innerCircleRatio, r), cfg.centralNodeDiv, StepCount(cfg.centralNodeDiv));
        Success(CentralFan(num, InnerRadius(cfg.innerCircleRatio, r), cfg.centralNodeDiv))
    else Success([])
  }

  /** The central node's fan and the inner circle's fan `inner` (empty when
      there is none), labelled `-1`, go after the branches. */
  function Finish(acc: Acc, inner: seq<real>): Polygon
  {
    Polygon(acc.names, acc.central, acc.numEach, acc.meshes + acc.centralMeshes + inner,
            acc.cats + acc.centralCats + Repeat(-1, TriangleCount(inner)))
  }

  /** The labels of the branch triangles of the first `n` entries: `k`
      copies of each branch entry's index, in dataset order. */
  function BranchLabels(ds: seq<Entry>, n: nat, k: nat): seq<int>
    requires n <= |ds|
  {
    if n == 0 then []
    else BranchLabels(ds, n - 1, k) + (if IsBranch(ds[n - 1]) then Repeat(n - 1, k) else [])
  }

  /** Whether one of the first `n` entries is (resp. is not) a branch. */
  predicate HasBranch(ds: seq<Entry>, n: nat)
    requires n <= |ds|
  {
    exists i :: 0 <= i < n && IsBranch(ds[i])
  }

  predicate HasCentral(ds: seq<Entry>, n: nat)
    requires n <= |ds|
  {
    exists i :: 0 <= i < n && !IsBranch(ds[i])
  }

  /** The index of the last non-branch entry among the first `n`, 0 if none. */
  function LastCentral(ds: seq<Entry>, n: nat): nat
    requires n <= |ds|
  {
    if n == 0 then 0 else if !IsBranch(ds[n - 1]) then n - 1 else LastCentral(ds, n - 1)
  }

  /** What the loop keeps after `n` entries: whole triangles with one label
      each, the branch labels in order, every branch ribbon of the same size,
      the last non-branch entry as the central node, a name for every index
      seen so far, and every vertex in the plane z = 0. */
  ghost predicate AccValid(cfg: Config, ds: seq<Entry>, n: nat, acc: Acc)
    requires n <= |ds|
  {
    |acc.meshes| == 9 * |acc.cats| && Planar(acc.meshes) && NotClockwise(acc.meshes) &&
    acc.cats == BranchLabels(ds, n, PerBranch(cfg.branchDiv)) &&
    acc.numEach == (if HasBranch(ds, n) then PerBranch(cfg.branchDiv) else 0) &&
    acc.central == LastCentral(ds, n) &&
    |acc.centralMeshes| == 9 * |acc.centralCats| && Planar(acc.centralMeshes) &&
    acc.centralCats == (if HasCentral(ds, n) then Repeat(acc.central, StepCount(cfg.centralNodeDiv)) else []) &&
    (forall k: nat :: k in acc.names <==> k < n) &&
    (forall k: nat :: k < n ==> acc.names[k] == ds[k].name)
  }

  /** The loop keeps `AccValid` from entry to entry. */
  lemma {:induction false} LayoutValid(num: Env, cfg: Config, r: real, ua: real, ds: seq<Entry>, n: nat)
    requires n <= |ds|
    ensures LayoutPrefix(num, cfg, r, ua, ds, n).Success? ==>
              AccValid(cfg, ds, n, LayoutPrefix(num, cfg, r, ua, ds, n).value)
  {
    if n > 0 {
      LayoutValid(num, cfg, r, ua, ds, n - 1);
      var prev := LayoutPrefix(num, cfg, r, ua, ds, n - 1);
      if prev.Success? {
        StepValid(num, cfg, r, ua, ds, n - 1, prev.value);
      }
    }
  }

  lemma StepValid(num: Env, cfg: Config, r: real, ua: real, ds: seq<Entry>, i: nat, acc: Acc)
    requires i < |ds| && AccValid(cfg, ds, i, acc)
    ensures var next := Step(num, cfg, r, ua, ds, i, acc);
            next.Success? ==> AccValid(cfg, ds, i + 1, next.value)
  {
    if IsBranch(ds[i]) {
      BranchStepValid(num, cfg, r, ua, ds, i, acc);
    } else {
      CentralStepValid(num, cfg, r, ua, ds, i, acc);
    }
  }

  lemma BranchStepValid(num: Env, cfg: Config, r: real, ua: real, ds: seq<Entry>, i: nat, acc: Acc)
    requires i < |ds| && IsBranch(ds[i]) && AccValid(cfg, ds, i, acc)
    ensures var next := Step(num, cfg, r, ua, ds, i, acc);
            next.Success? ==> AccValid(cfg, ds, i + 1, next.value)
  {
    var res := BranchTriangles(num, cfg, r, EntryAngle(ua, ds, i), ds[i].values);
    if res.Success? {
      AddBranchValid(cfg, ds, i, acc, res.value);
    }
  }

  lemma AddBranchValid(cfg: Config, ds: seq<Entry>, i: nat, acc: Acc, m: seq<real>)
    requires i < |ds| && IsBranch(ds[i]) && AccValid(cfg, ds, i, acc)
    requires |m| == 9 * PerBranch(cfg.branchDiv) && Planar(m) && NotClockwise(m)
    ensures AccValid(cfg, ds, i + 1, AddBranch(acc, i, ds[i].name, m))
  {
    var k := PerBranch(cfg.branchDiv);
    WholeTriangles(m, k);
    ConcatMesh(acc.meshes, m, |acc.cats|);
    assert BranchLabels(ds, i + 1, k) == BranchLabels(ds, i, k) + Repeat(i, k);
    KindsStep(ds, i);
  }

  lemma CentralStepValid(num: Env, cfg: Config, r: real, ua: real, ds: seq<Entry>, i: nat, acc: Acc)
    requires i < |ds| && !IsBranch(ds[i]) && AccValid(cfg, ds, i, acc)
    ensures var next := Step(num, cfg, r, ua, ds, i, acc);
            next.Success? ==> AccValid(cfg, ds, i + 1, next.value)
  {
    if cfg.centralNodeDiv != 0 {
      var k := StepCount(cfg.centralNodeDiv);
      FanPrefixPlanar(num, r * 1.5, cfg.centralNodeDiv, k);
      SetCentralValid(cfg, ds, i, acc, CentralFan(num, r * 1.5, cfg.centralNodeDiv));
    }
  }

  lemma SetCentralValid(cfg: Config, ds: seq<Entry>, i: nat, acc: Acc, fan: seq<real>)
    requires i < |ds| && !IsBranch(ds[i]) && AccValid(cfg, ds, i, acc)
    requires |fan| == 9 * StepCount(cfg.centralNodeDiv) && Planar(fan)
    ensures AccValid(cfg, ds, i + 1, SetCentral(acc, i, ds[i].name, fan))
  {
    WholeTriangles(fan, StepCount(cfg.centralNodeDiv));
    assert BranchLabels(ds, i + 1, PerBranch(cfg.branchDiv)) == BranchLabels(ds, i, PerBranch(cfg.branchDiv)) + [];
    KindsStep(ds, i);
  }

  /** One more entry adds its own kind to those seen. */
  lemma KindsStep(ds: seq<Entry>, i: nat)
    requires i < |ds|
    ensures HasBranch(ds, i + 1) == (HasBranch(ds, i) || IsBranch(ds[i]))
    ensures HasCentral(ds, i + 1) == (HasCentral(ds, i) || !IsBranch(ds[i]))
  {
    if HasBranch(ds, i + 1) && !IsBranch(ds[i]) {
      var j :| 0 <= j < i + 1 && IsBranch(ds[j]);
      assert j < i;
    }
    if HasCentral(ds, i + 1) && IsBranch(ds[i]) {
      var j :| 0 <= j < i + 1 && !IsBranch(ds[j]);
      assert j < i;
    }
  }

  /** Whether entry `i` makes the loop fail: a branch that does not get as
      far as its interpolants or has a zero resampling count; a central
      node with a zero fan count. */
  predicate EntryFails(num: Env, cfg: Config, r: real, ua: real, ds: seq<Entry>, i: nat)
    requires i < |ds|
  {
    if IsBranch(ds[i]) then
      !BranchInterpolable(num, cfg, r, EntryAngle(ua, ds, i), ds[i].values) || cfg.branchDiv == 0
    else cfg.centralNodeDiv == 0
  }

  /** The exception a failing entry raises first. */
  function EntryError(num: Env, cfg: Config, r: real, ua: real, ds: seq<Entry>, i: nat): Error
    requires i < |ds|
  {
    var e := ds[i];
    if IsBranch(e) && e.values == [] then EmptySequence
    else if IsBranch(e) && cfg.rep < 0 then RecursionLimit
    else if IsBranch(e) && !BranchInterpolable(num, cfg, r, EntryAngle(ua, ds, i), e.values) then InterpolationError
    else DivisionByZero
  }

  lemma StepFails(num: Env, cfg: Config, r: real, ua: real, ds: seq<Entry>, i: nat, acc: Acc)
    requires i < |ds|
    ensures var next := Step(num, cfg, r, ua, ds, i, acc);
            (next.Failure? <==> EntryFails(num, cfg, r, ua, ds, i)) &&
            (next.Failure? ==> next.error == EntryError(num, cfg, r, ua, ds, i))
  {
  }

  /** The loop over the first `n` entries fails exactly when one of them
      fails, and then with the exception of the first failing one. */
  lemma {:induction false} LayoutFails(num: Env, cfg: Config, r: real, ua: real, ds: seq<Entry>, n: nat)
    requires n <= |ds|
    ensures LayoutPrefix(num, cfg, r, ua, ds, n).Failure? <==> exists i :: 0 <= i < n && EntryFails(num, cfg, r, ua, ds, i)
    ensures LayoutPrefix(num, cfg, r, ua, ds, n).Failure? ==>
              exists i :: 0 <= i < n && EntryFails(num, cfg, r, ua, ds, i) &&
                          (forall j :: 0 <= j < i ==> !EntryFails(num, cfg, r, ua, ds, j)) &&
                          LayoutPrefix(num, cfg, r, ua, ds, n).error == EntryError(num, cfg, r, ua, ds, i)
  {
    if n > 0 {
      LayoutFails(num, cfg, r, ua, ds, n - 1);
      var prev := LayoutPrefix(num, cfg, r, ua, ds, n - 1);
      var next := LayoutPrefix(num, cfg, r, ua, ds, n);
      if prev.Failure? {
        assert next == prev;
        var i :| 0 <= i < n - 1 && EntryFails(num, cfg, r, ua, ds, i) &&
                 (forall j :: 0 <= j < i ==> !EntryFails(num, cfg, r, ua, ds, j)) && prev.error == EntryError(num, cfg, r, ua, ds, i);
        assert 0 <= i < n && EntryFails(num, cfg, r, ua, ds, i);
      } else {
        StepFails(num, cfg, r, ua, ds, n - 1, prev.value);
        assert next == Step(num, cfg, r, ua, ds, n - 1, prev.value);
        assert forall j :: 0 <= j < n - 1 ==> !EntryFails(num, cfg, r, ua, ds, j);
        if EntryFails(num, cfg, r, ua, ds, n - 1) {
          assert next.error == EntryError(num, cfg, r, ua, ds, n - 1);
        } else {
          assert forall j :: 0 <= j < n ==> !EntryFails(num, cfg, r, ua, ds, j);
        }
      }
    }
  }

  /** `output_polygon_json` fails exactly when the dataset has no sample
      value, when one of its entries fails, or when the inner circle is asked
      for with a zero fan count; a dataset without sample values fails in
      `unit_angle` before anything else. */
  lemma PolygonFails(num: Env, ds: seq<Entry>, cfg: Config)
    ensures PolygonData(num, ds, cfg).Failure? <==>
              BranchTotal(ds) == 0 ||
              (exists i :: 0 <= i < |ds| &&
                 EntryFails(num, cfg, CentralRadius(cfg.alpha, BranchTotal(ds)), UnitAngle(BranchTotal(ds)), ds, i)) ||
              (cfg.innerCircleRatio > 0.0 && cfg.centralNodeDiv == 0)
    ensures BranchTotal(ds) == 0 ==> PolygonData(num, ds, cfg) == Failure(DivisionByZero)
  {
    var total := BranchTotal(ds);
    if total != 0 {
      LayoutFails(num, cfg, CentralRadius(cfg.alpha, total), UnitAngle(total), ds, |ds|);
    }
  }

  /** With `rep == 0` the function always fails: without sample values in
      `unit_angle`, otherwise at the first branch with values, whose three
      raw points are too few for the cubic interpolant. */
  lemma RepZeroFails(num: Env, ds: seq<Entry>, cfg: Config)
    requires cfg.rep == 0
    ensures PolygonData(num, ds, cfg).Failure?
  {
    var total := BranchTotal(ds);
    if total != 0 {
      BranchTotalCounts(ds);
      var k :| 0 <= k < |ds| && IsBranch(ds[k]) && ds[k].values != [];
      var r, ua := CentralRadius(cfg.alpha, total), UnitAngle(total);
      RepZeroBranchFails(num, cfg, r, EntryAngle(ua, ds, k), ds[k].values);
      assert EntryFails(num, cfg, r, ua, ds, k);
      PolygonFails(num, ds, cfg);
    }
  }

  /** The shape of an output whose inner circle has `k` triangles: one label
      per triangle; the labels are those of the branches in dataset order,
      each branch with the same number `numMeshesForEachBranch` of
      triangles, then those of the central node's fan, then `-1` for the
      inner circle's fan; the central node is the last non-branch entry;
      every entry's index names it; and every vertex lies in the plane
      z = 0. */
  ghost predicate PolygonShaped(cfg: Config, ds: seq<Entry>, p: Polygon, k: nat)
  {
    |p.meshes| == 9 * |p.meshCategories| && Planar(p.meshes) &&
    9 * |BranchLabels(ds, |ds|, p.numMeshesForEachBranch)| <= |p.meshes| &&
    NotClockwise(p.meshes[..9 * |BranchLabels(ds, |ds|, p.numMeshesForEachBranch)|]) &&
    p.meshCategories ==
      BranchLabels(ds, |ds|, p.numMeshesForEachBranch) +
      (if HasCentral(ds, |ds|) then Repeat(p.centralNodeCategory, StepCount(cfg.centralNodeDiv)) else []) +
      Repeat(-1, k) &&
    p.numMeshesForEachBranch == PerBranch(cfg.branchDiv) &&
    p.centralNodeCategory == LastCentral(ds, |ds|) &&
    (forall i: nat :: i in p.categoryToName <==> i < |ds|) &&
    (forall i: nat :: i < |ds| ==> p.categoryToName[i] == ds[i].name)
  }

  /** A successful run has that shape, with one inner-circle triangle per
      fan step when the inner circle is drawn and none otherwise. */
  lemma PolygonShape(num: Env, ds: seq<Entry>, cfg: Config)
    ensures var res := PolygonData(num, ds, cfg);
            res.Success? ==>
              PolygonShaped(cfg, ds, res.value,
                            if cfg.innerCircleRatio > 0.0 then StepCount(cfg.centralNodeDiv) else 0)
  {
    if BranchTotal(ds) != 0 {
      BranchesExist(ds);
      AssembleShape(num, cfg, CentralRadius(cfg.alpha, BranchTotal(ds)), UnitAngle(BranchTotal(ds)), ds);
    }
  }

  lemma AssembleShape(num: Env, cfg: Config, r: real, ua: real, ds: seq<Entry>)
    requires HasBranch(ds, |ds|)
    ensures var res := Assemble(num, cfg, r, ua, ds);
            res.Success? ==>
              PolygonShaped(cfg, ds, res.value,
                            if cfg.innerCircleRatio > 0.0 then StepCount(cfg.centralNodeDiv) else 0)
  {
    var lay := LayoutPrefix(num, cfg, r, ua, ds, |ds|);
    var inner := InnerFan(num, cfg, r);
    if lay.Success? && inner.Success? {
      LayoutValid(num, cfg, r, ua, ds, |ds|);
      FinishShape(cfg, ds, lay.value, inner.value,
                  if cfg.innerCircleRatio > 0.0 then StepCount(cfg.centralNodeDiv) else 0);
    }
  }

  lemma FinishShape(cfg: Config, ds: seq<Entry>, acc: Acc, inner: seq<real>, k: nat)
    requires AccValid(cfg, ds, |ds|, acc) && HasBranch(ds, |ds|)
    requires |inner| == 9 * k && Planar(inner)
    ensures PolygonShaped(cfg, ds, Finish(acc, inner), k)
  {
    WholeTriangles(inner, k);
    ConcatMesh(acc.meshes, acc.centralMeshes, |acc.cats|);
    ConcatMesh(acc.meshes + acc.centralMeshes, inner, |acc.cats| + |acc.centralCats|);
    assert (acc.meshes + acc.centralMeshes + inner)[..|acc.meshes|] == acc.meshes;
  }

  /** A positive sample total needs a branch entry. */
  lemma BranchesExist(ds: seq<Entry>)
    requires BranchTotal(ds) != 0
    ensures HasBranch(ds, |ds|)
  {
    BranchTotalCounts(ds);
    var i :| 0 <= i < |ds| && IsBranch(ds[i]) && ds[i].values != [];
  }

  /** What each label of a successful run means: `-1` marks the inner circle,
      which is drawn only for a positive ratio; any other label is the index
      of an entry, either a branch entry or the central node. */
  lemma PolygonLabels(num: Env, ds: seq<Entry>, cfg: Config)
    ensures var res := PolygonData(num, ds, cfg);
            res.Success? ==>
              forall j :: 0 <= j < |res.value.meshCategories| ==>
                LabelMeaning(ds, cfg, res.value, res.value.meshCategories[j])
  {
    var res := PolygonData(num, ds, cfg);
    if res.Success? {
      PolygonShape(num, ds, cfg);
      ShapedLabels(cfg, ds, res.value, if cfg.innerCircleRatio > 0.0 then StepCount(cfg.centralNodeDiv) else 0);
    }
  }

  /** A label `c` of `p` stands for the inner circle (drawn only for a
      positive ratio), for a branch entry, or for the central node, which is
      not a branch. */
  predicate LabelMeaning(ds: seq<Entry>, cfg: Config, p: Polygon, c: int)
  {
    (c == -1 && cfg.innerCircleRatio > 0.0) ||
    (0 <= c < |ds| && (IsBranch(ds[c]) || (c == p.centralNodeCategory && !IsBranch(ds[c]))))
  }

  lemma ShapedLabels(cfg: Config, ds: seq<Entry>, p: Polygon, k: nat)
    requires PolygonShaped(cfg, ds, p, k)
    requires k > 0 ==> cfg.innerCircleRatio > 0.0
    ensures forall j :: 0 <= j < |p.meshCategories| ==> LabelMeaning(ds, cfg, p, p.meshCategories[j])
  {
    var b := BranchLabels(ds, |ds|, p.numMeshesForEachBranch);
    var c := if HasCentral(ds, |ds|) then Repeat(p.centralNodeCategory, StepCount(cfg.centralNodeDiv)) else [];
    var n := Repeat(-1, k);
    BranchLabelsRange(ds, |ds|, p.numMeshesForEachBranch);
    LastCentralIsCentral(ds, |ds|);
    forall j | 0 <= j < |p.meshCategories| ensures LabelMeaning(ds, cfg, p, p.meshCategories[j]) {
      if j < |b| {
        assert p.meshCategories[j] == b[j];
      } else if j < |b| + |c| {
        assert p.meshCategories[j] == c[j - |b|];
      } else {
        assert p.meshCategories[j] == n[j - |b| - |c|];
      }
    }
  }

  /** Every branch label among the first `n` entries is a branch entry's
      index. */
  lemma {:induction false} BranchLabelsRange(ds: seq<Entry>, n: nat, k: nat)
    requires n <= |ds|
    ensures forall j :: 0 <= j < |BranchLabels(ds, n, k)| ==>
              0 <= BranchLabels(ds, n, k)[j] < n && IsBranch(ds[BranchLabels(ds, n, k)[j]])
  {
    if n > 0 {
      BranchLabelsRange(ds, n - 1, k);
      var init := BranchLabels(ds, n - 1, k);
      var last := if IsBranch(ds[n - 1]) then Repeat(n - 1, k) else [];
      assert BranchLabels(ds, n, k) == init + last;
      forall j | 0 <= j < |init + last|
        ensures 0 <= (init + last)[j] < n && IsBranch(ds[(init + last)[j]])
      {
        if j >= |init| {
          assert (init + last)[j] == last[j - |init|];
        }
      }
    }
  }

  /** When some entry is not a branch, the central node is the last such
      entry. */
  lemma {:induction false} LastCentralIsCentral(ds: seq<Entry>, n: nat)
    requires n <= |ds|
    ensures HasCentral(ds, n) ==>
              LastCentral(ds, n) < n && !IsBranch(ds[LastCentral(ds, n)]) &&
              forall i :: LastCentral(ds, n) < i < n ==> IsBranch(ds[i])
  {
    if n > 0 && HasCentral(ds, n) && IsBranch(ds[n - 1]) {
      var i :| 0 <= i < n && !IsBranch(ds[i]);
      assert HasCentral(ds, n - 1) by { assert i < n - 1; }
      LastCentralIsCentral(ds, n - 1);
    }
  }

  /** Once an entry fails, the loop's result is that failure. */
  lemma {:induction false} LayoutFailureStays(num: Env, cfg: Config, r: real, ua: real, ds: seq<Entry>, i: nat, n: nat)
    requires i <= n <= |ds| && LayoutPrefix(num, cfg, r, ua, ds, i).Failure?
    ensures LayoutPrefix(num, cfg, r, ua, ds, n) == LayoutPrefix(num, cfg, r, ua, ds, i)
    decreases n - i
  {
    if i < n {
      LayoutFailureStays(num, cfg, r, ua, ds, i, n - 1);
      var prev := LayoutPrefix(num, cfg, r, ua, ds, n - 1);
      assert prev.Failure?;
      assert LayoutPrefix(num, cfg, r, ua, ds, n) == Failure(prev.error);
    }
  }

  /** `prev_n`: the size of the last branch entry among the first `n`, 0 if
      none. */
  function LastBranchSize(ds: seq<Entry>, n: nat): nat
    requires n <= |ds|
  {
    if n == 0 then 0 else if IsBranch(ds[n - 1]) then |ds[n - 1].values| else LastBranchSize(ds, n - 1)
  }

  /** `angle += (prev_n + n) * 0.5 * unit_angle` moves from half the previous
      branch's arc before the total `t` to the middle of the next arc, which
      is half the new branch's arc before the new total. */
  lemma AngleAdvance(ua: real, t: nat, p: nat, n: nat, t': nat)
    requires t' == t + n
    ensures AngleAfter(ua, t, p) + ((p + n) as real) * 0.5 * ua == MidAngle(ua, t, n)
    ensures MidAngle(ua, t, n) == AngleAfter(ua, t', n)
  {
  }

  /** The sample total of one more entry. */
  lemma BranchTotalNext(ds: seq<Entry>, i: nat)
    requires i < |ds|
    ensures BranchTotal(ds[..i + 1]) == BranchTotal(ds[..i]) + BranchSize(ds[i])
  {
    assert ds[..i + 1][..i] == ds[..i];
  }

  /** The body of the loop for entry `i`: for a branch, advance `angle` and
      `prev_n` and add its ribbon; otherwise make it the central node. */
  method LayoutStep(num: Env, cfg: Config, r: real, ua: real, ds: seq<Entry>, i: nat, acc: Acc,
                    angle: real, prevN: nat)
    returns (res: Result<Acc>, angle': real, prevN': nat)
    requires i < |ds| && prevN == LastBranchSize(ds, i)
    requires angle == AngleAfter(ua, BranchTotal(ds[..i]), prevN)
    ensures res == Step(num, cfg, r, ua, ds, i, acc)
    ensures prevN' == LastBranchSize(ds, i + 1)
    ensures angle' == AngleAfter(ua, BranchTotal(ds[..i + 1]), prevN')
  {
    BranchTotalNext(ds, i);
    if ds[i].kind == "branch" {
      var n := |ds[i].values|;
      AngleAdvance(ua, BranchTotal(ds[..i]), prevN, n, BranchTotal(ds[..i + 1]));
      angle' := angle + ((prevN + n) as real) * 0.5 * ua;
      assert angle' == EntryAngle(ua, ds, i);
      prevN' := n;
      res := BranchEntry(num, cfg, r, angle', ds, i, acc);
    } else {
      angle', prevN' := angle, prevN;
      res := CentralEntry(num, cfg, r, ds, i, acc);
    }
  }

  /** A branch entry drawn at `angle`: its name is recorded, and its ribbon
      and one label per triangle are appended. */
  method BranchEntry(num: Env, cfg: Config, r: real, angle: real, ds: seq<Entry>, i: nat, acc: Acc)
    returns (res: Result<Acc>)
    requires i < |ds|
    ensures res == match BranchTriangles(num, cfg, r, angle, ds[i].values)
                   case Failure(e) => Failure(e)
                   case Success(m) => Success(AddBranch(acc, i, ds[i].name, m))
  {
    var names := acc.names[i := ds[i].name];
    var meshes := PlaceBranch(num, cfg, r, angle, ds[i].values);
    if meshes.Failure? {
      return Failure(meshes.error);
    }
    var numEach := |meshes.value| / 9;
    res := Success(acc.(meshes := acc.meshes + meshes.value, numEach := numEach,
                        cats := acc.cats + Repeat(i, numEach), names := names));
  }

  /** A non-branch entry: its name is recorded, and it becomes the central
      node with a fan of radius `r * 1.5`. */
  method CentralEntry(num: Env, cfg: Config, r: real, ds: seq<Entry>, i: nat, acc: Acc)
    returns (res: Result<Acc>)
    requires i < |ds|
    ensures cfg.centralNodeDiv == 0 ==> res == Failure(DivisionByZero)
    ensures cfg.centralNodeDiv != 0 ==>
              res == Success(SetCentral(acc, i, ds[i].name, CentralFan(num, r * 1.5, cfg.centralNodeDiv)))
  {
    var names := acc.names[i := ds[i].name];
    var central := i;
    var centralMeshes := GenCentralNodeMeshes(num, r * 1.5, cfg.centralNodeDiv);
    if centralMeshes.Failure? {
      return Failure(centralMeshes.error);
    }
    res := Success(acc.(names := names, central := central, centralMeshes := centralMeshes.value,
                        centralCats := Repeat(i, |centralMeshes.value| / 9)));
  }

  /** The loop of `output_polygon_json` over the dataset, with `r` and
      `unit_angle` given; the first failing entry ends it. */
  method LayoutLoop(num: Env, cfg: Config, r: real, ua: real, ds: seq<Entry>) returns (res: Result<Acc>)
    ensures res == LayoutPrefix(num, cfg, r, ua, ds, |ds|)
  {
    var acc := Acc([], [], 0, map[], 0, [], []);
    var angle, prevN := 0.0, 0;
    for i := 0 to |ds|
      invariant LayoutPrefix(num, cfg, r, ua, ds, i) == Success(acc)
      invariant prevN == LastBranchSize(ds, i)
      invariant angle == AngleAfter(ua, BranchTotal(ds[..i]), prevN)
    {
      var next;
      next, angle, prevN := LayoutStep(num, cfg, r, ua, ds, i, acc, angle, prevN);
      if next.Failure? {
        LayoutFailureStays(num, cfg, r, ua, ds, i + 1, |ds|);
        return next;
      }
      acc := next.value;
    }
    return Success(acc);
  }

  /** `output_polygon_json` without the file I/O: the sample total, `r` and
      `unit_angle`, the loop, then the central node's fan and the inner
      circle's fan after the branches. */
  method OutputPolygon(num: Env, ds: seq<Entry>, cfg: Config) returns (res: Result<Polygon>)
    ensures res == PolygonData(num, ds, cfg)
  {
    var totalN := CountBranchSamples(ds);
    var r := cfg.alpha * (totalN as real) / (2.0 * Pi);
    if totalN == 0 {
      return Failure(DivisionByZero);
    }
    var unitAngle := 2.0 * Pi / (totalN as real);
    assert r == CentralRadius(cfg.alpha, totalN) && unitAngle == UnitAngle(totalN);
    PolygonDataIs(num, ds, cfg, r, unitAngle);
    var lay := LayoutLoop(num, cfg, r, unitAngle, ds);
    if lay.Failure? {
      return Failure(lay.error);
    }
    var acc := lay.value;
    var meshes := acc.meshes + acc.centralMeshes;
    var cats := acc.cats + acc.centralCats;
    var inner := InnerCircle(num, cfg, r);
    if inner.Failure? {
      return Failure(inner.error);
    }
    meshes := meshes + inner.value;
    cats := cats + Repeat(-1, |inner.value| / 9);
    assert Polygon(acc.names, acc.central, acc.numEach, meshes, cats) == Finish(acc, inner.value);
    return Success(Polygon(acc.names, acc.central, acc.numEach, meshes, cats));
  }

  /** The inner circle's fan when `inner_circle_ratio` is positive, and no
      triangles otherwise. */
  method InnerCircle(num: Env, cfg: Config, r: real) returns (res: Result<seq<real>>)
    ensures res == InnerFan(num, cfg, r)
  {
    if cfg.innerCircleRatio > 0.0 {
      res := GenCentralNodeMeshes(num, InnerRadius(cfg.innerCircleRatio, r), cfg.centralNodeDiv);
    } else {
      res := Success([]);
    }
  }

  /** With `r` and `unit_angle` computed from a positive sample total, the
      output is the loop's result completed. */
  lemma PolygonDataIs(num: Env, ds: seq<Entry>, cfg: Config, r: real, ua: real)
    requires BranchTotal(ds) != 0
    requires r == CentralRadius(cfg.alpha, BranchTotal(ds)) && ua == UnitAngle(BranchTotal(ds))
    ensures PolygonData(num, ds, cfg) == Assemble(num, cfg, r, ua, ds)
  {
  }
}
