/** `gen_central_node_meshes` of polygon_gen.py: the triangle fan of a disk
    centred at the origin. */
module CentralNode {
  import opened Wrappers
  import opened Numerics
  import opened Geometry

  /** `unit_angle`: the full turn divided into `div` steps. */
  function UnitAngle(div: int): real
    requires div != 0
  {
    2.0 * Pi / (div as real)
  }

  /** The rim vertex at step `i`: `(r cos(i * unit_angle), r sin(i * unit_angle), 0)`. */
  function RimVertex(num: Env, r: real, div: int, i: int): Vertex
    requires div != 0
  {
    var a := UnitAngle(div) * (i as real);
    Vertex(r * num.cos(a), r * num.sin(a), 0.0)
  }

  /** `prevPos` at step `i`: the origin before the first step, the previous
      rim vertex afterwards. */
  function PrevPos(num: Env, r: real, div: int, i: int): Vertex
    requires div != 0
  {
    if i == 0 then Origin else RimVertex(num, r, div, i - 1)
  }

  /** The triangle of step `i`: the origin, `prevPos` and the rim vertex. */
  function FanTriangle(num: Env, r: real, div: int, i: int): (m: seq<real>)
    requires div != 0
    ensures |m| == 9
  {
    var p, v := PrevPos(num, r, div, i), RimVertex(num, r, div, i);
    [0.0, 0.0, 0.0, p.x, p.y, p.z, v.x, v.y, v.z]
  }

  /** The triangles of the first `n` steps. */
  function FanPrefix(num: Env, r: real, div: int, n: nat): (m: seq<real>)
    requires div != 0
    ensures |m| == 9 * n
  {
    if n == 0 then [] else FanPrefix(num, r, div, n - 1) + FanTriangle(num, r, div, n - 1)
  }

  lemma {:induction false} FanPrefixPlanar(num: Env, r: real, div: int, n: nat)
    requires div != 0
    ensures Planar(FanPrefix(num, r, div, n))
  {
    if n > 0 {
      FanPrefixPlanar(num, r, div, n - 1);
      FanTrianglePlanar(num, r, div, n - 1);
      ConcatMesh(FanPrefix(num, r, div, n - 1), FanTriangle(num, r, div, n - 1), n - 1);
    }
  }

  lemma FanTrianglePlanar(num: Env, r: real, div: int, i: int)
    requires div != 0
    ensures Planar(FanTriangle(num, r, div, i))
  {
    var m := FanTriangle(num, r, div, i);
    forall k | 0 <= k && 3 * k + 2 < |m| ensures m[3 * k + 2] == 0.0 {
      assert k == 0 || k == 1 || k == 2;
    }
  }

  /** The number of steps `range(0, div + 1)` takes. */
  function StepCount(div: int): nat
  {
    if div < 0 then 0 else div + 1
  }

  /** The whole fan: one triangle per step, in the plane z = 0. */
  function CentralFan(num: Env, r: real, div: int): (m: seq<real>)
    requires div != 0
    ensures |m| == 9 * StepCount(div)
  {
    FanPrefix(num, r, div, StepCount(div))
  }

  /** The `t`-th triangle of a prefix is the triangle of step `t`. */
  lemma {:induction false} FanPrefixTriangle(num: Env, r: real, div: int, n: nat, t: nat)
    requires div != 0 && t < n
    ensures FanPrefix(num, r, div, n)[9 * t..9 * t + 9] == FanTriangle(num, r, div, t)
  {
    var m := FanPrefix(num, r, div, n);
    var init := FanPrefix(num, r, div, n - 1);
    assert m == init + FanTriangle(num, r, div, n - 1);
    if t < n - 1 {
      FanPrefixTriangle(num, r, div, n - 1, t);
      assert m[9 * t..9 * t + 9] == init[9 * t..9 * t + 9];
    } else {
      assert m[9 * t..9 * t + 9] == m[|init|..];
    }
  }

  /** Every triangle of the fan starts at the origin; each one's second vertex
      is the previous one's third, so consecutive triangles share an edge; the
      first triangle's second vertex is the origin too, so it is degenerate;
      every vertex lies in the plane z = 0. */
  lemma FanShape(num: Env, r: real, div: int, t: nat)
    requires div != 0 && t < StepCount(div)
    ensures var m := CentralFan(num, r, div);
            VertexAt(m, 3 * t) == Origin &&
            (t > 0 ==> VertexAt(m, 3 * t + 1) == VertexAt(m, 3 * (t - 1) + 2))
    ensures var m := CentralFan(num, r, div);
            VertexAt(m, 1) == Origin && TriangleArea2(m, 0) == 0.0
    ensures Planar(CentralFan(num, r, div))
  {
    FanPrefixPlanar(num, r, div, StepCount(div));
    var m := CentralFan(num, r, div);
    var n := StepCount(div);
    FanTriangleVertices(num, r, div, m, n, t);
    FanTriangleVertices(num, r, div, m, n, 0);
    if t > 0 {
      FanTriangleVertices(num, r, div, m, n, t - 1);
    }
  }

  lemma FanTriangleVertices(num: Env, r: real, div: int, m: seq<real>, n: nat, t: nat)
    requires div != 0 && t < n && m == FanPrefix(num, r, div, n)
    ensures VertexAt(m, 3 * t) == Origin
    ensures VertexAt(m, 3 * t + 1) == PrevPos(num, r, div, t)
    ensures VertexAt(m, 3 * t + 2) == RimVertex(num, r, div, t)
  {
    FanPrefixTriangle(num, r, div, n, t);
    var tri := FanTriangle(num, r, div, t);
    assert m[9 * t..9 * t + 9] == tri;
    assert VertexAt(m, 3 * t) == VertexAt(tri, 0);
    assert VertexAt(m, 3 * t + 1) == VertexAt(tri, 1);
    assert VertexAt(m, 3 * t + 2) == VertexAt(tri, 2);
  }

  /** The loop of `gen_central_node_meshes`, carrying `prevPos` from step to
      step; `div == 0` fails in the division for `unit_angle`. */
  method GenCentralNodeMeshes(num: Env, r: real, div: int) returns (res: Result<seq<real>>)
    ensures div == 0 ==> res == Failure(DivisionByZero)
    ensures div != 0 ==> res == Success(CentralFan(num, r, div))
  {
    if div == 0 {
      return Failure(DivisionByZero);
    }
    var meshes := [];
    var prevPos := Origin;
    var i := 0;
    while i < div + 1
      invariant 0 <= i <= StepCount(div)
      invariant meshes == FanPrefix(num, r, div, i)
      invariant prevPos == PrevPos(num, r, div, i)
    {
      var rim := RimVertex(num, r, div, i);
      var x, y, z := rim.x, rim.y, rim.z;
      meshes := meshes + [0.0, 0.0, 0.0, prevPos.x, prevPos.y, prevPos.z, x, y, z];
      prevPos := rim;
      i := i + 1;
    }
    return Success(meshes);
  }
}
