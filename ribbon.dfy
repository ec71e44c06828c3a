/** `gen_branch_meshes` of polygon_gen.py: the ribbon of two triangles per
    consecutive pair of resampled branch points. */
module Ribbon {
  import opened Numerics
  import opened Geometry

  /** `p1`/`p4`: the point moved half its width along the normal. */
  function Outer(p: BranchPoint, un: Vec2): Vertex
  {
    Vertex(p.x + 0.5 * p.w * un.x, p.y + 0.5 * p.w * un.y, 0.0)
  }

  /** `p2`/`p3`: the point moved half its width against the normal. */
  function Inner(p: BranchPoint, un: Vec2): Vertex
  {
    Vertex(p.x - 0.5 * p.w * un.x, p.y - 0.5 * p.w * un.y, 0.0)
  }

  /** The two corners at a point straddle it: their midpoint is the point and
      they are the point's width apart along the normal. */
  lemma CornersStraddle(p: BranchPoint, un: Vec2)
    ensures Outer(p, un).x + Inner(p, un).x == 2.0 * p.x
    ensures Outer(p, un).y + Inner(p, un).y == 2.0 * p.y
    ensures Outer(p, un).x - Inner(p, un).x == p.w * un.x
    ensures Outer(p, un).y - Inner(p, un).y == p.w * un.y
  {
    assert 0.5 * p.w * un.x + 0.5 * p.w * un.x == p.w * un.x;
    assert 0.5 * p.w * un.y + 0.5 * p.w * un.y == p.w * un.y;
  }

  /** The two triangles `p1, p2, p3` and `p3, p4, p1` of one quadrilateral,
      each reversed when it is not counter-clockwise. */
  function QuadMesh(ps: BranchPoint, unS: Vec2, pe: BranchPoint, unE: Vec2): (m: seq<real>)
    ensures |m| == 18 && Planar(m) && NotClockwise(m)
  {
    var p1, p2, p3, p4 := Outer(ps, unS), Inner(ps, unS), Inner(pe, unE), Outer(pe, unE);
    var first, second := Flatten(OrientedTriangle(p1, p2, p3)), Flatten(OrientedTriangle(p3, p4, p1));
    OrientedTriangleMesh(p1, p2, p3);
    OrientedTriangleMesh(p3, p4, p1);
    ConcatMesh(first, second, 1);
    first + second
  }

  /** `un_s` of segment `i`: the normal of `points[0] -> (0, 0)` for the first
      segment, of `points[i] -> points[i - 1]` afterwards. */
  function StartNormal(num: Env, points: seq<BranchPoint>, i: nat): Vec2
    requires i < |points|
  {
    if i == 0 then UnitNormVec(num.sqrt, Position(points[0]), Origin2)
    else UnitNormVec(num.sqrt, Position(points[i]), Position(points[i - 1]))
  }

  /** `un_e` of segment `i`: the normal of `points[i + 1] -> points[i]`. */
  function EndNormal(num: Env, points: seq<BranchPoint>, i: nat): Vec2
    requires i + 1 < |points|
  {
    UnitNormVec(num.sqrt, Position(points[i + 1]), Position(points[i]))
  }

  /** The triangles of segment `i`, from `points[i]` to `points[i + 1]`. */
  function Segment(num: Env, points: seq<BranchPoint>, i: nat): seq<real>
    requires i + 1 < |points|
  {
    QuadMesh(points[i], StartNormal(num, points, i), points[i + 1], EndNormal(num, points, i))
  }

  /** The triangles of the first `n` segments. */
  function RibbonPrefix(num: Env, points: seq<BranchPoint>, n: nat): (m: seq<real>)
    requires n < |points|
    ensures |m| == 18 * n && Planar(m) && NotClockwise(m)
  {
    if n == 0 then []
    else
      var init := RibbonPrefix(num, points, n - 1);
      var last := Segment(num, points, n - 1);
      ConcatMesh(init, last, 2 * (n - 1));
      init + last
  }

  /** The whole ribbon: two triangles per consecutive pair of points (none for
      fewer than two points), all in the plane z = 0 and all with
      non-negative signed area. */
  function BranchMesh(num: Env, points: seq<BranchPoint>): (m: seq<real>)
    ensures |m| == (if |points| >= 2 then 18 * (|points| - 1) else 0)
    ensures Planar(m) && NotClockwise(m)
  {
    if |points| >= 2 then RibbonPrefix(num, points, |points| - 1) else []
  }

  /** The loop of `gen_branch_meshes`, updating `un_s` and `un_e` per
      segment and appending each triangle in counter-clockwise order. */
  method GenBranchMeshes(num: Env, points: seq<BranchPoint>) returns (meshes: seq<real>)
    ensures meshes == BranchMesh(num, points)
  {
    meshes := [];
    if |points| >= 2 {
      var unS := UnitNormVec(num.sqrt, Position(points[0]), Origin2);
      var unE := UnitNormVec(num.sqrt, Origin2, Position(points[0]));
      for i := 0 to |points| - 1
        invariant meshes == RibbonPrefix(num, points, i)
        invariant i == 0 ==> unS == StartNormal(num, points, 0)
      {
        var ptS, ptE := points[i], points[i + 1];
        if i > 0 {
          unS := UnitNormVec(num.sqrt, Position(ptS), Position(points[i - 1]));
        }
        unE := UnitNormVec(num.sqrt, Position(ptE), Position(points[i]));
        meshes := AppendQuad(meshes, ptS, unS, ptE, unE);
      }
    }
  }

  /** One iteration's appends: the triangles `p1, p2, p3` and `p3, p4, p1`. */
  method AppendQuad(meshes: seq<real>, ptS: BranchPoint, unS: Vec2, ptE: BranchPoint, unE: Vec2)
    returns (r: seq<real>)
    ensures r == meshes + QuadMesh(ptS, unS, ptE, unE)
  {
    var p1, p2, p3, p4 := Outer(ptS, unS), Inner(ptS, unS), Inner(ptE, unE), Outer(ptE, unE);
    r := AppendTriangle(meshes, p1, p2, p3);
    r := AppendTriangle(r, p3, p4, p1);
  }

  /** Append the triangle `a, b, c` in that order when it is counter-clockwise
      and as `c, b, a` otherwise. */
  method AppendTriangle(meshes: seq<real>, a: Vertex, b: Vertex, c: Vertex) returns (r: seq<real>)
    ensures r == meshes + Flatten(OrientedTriangle(a, b, c))
  {
    if IsCounterClockOrder(a, b, c) {
      r := meshes + [a.x, a.y, a.z, b.x, b.y, b.z, c.x, c.y, c.z];
    } else {
      r := meshes + [c.x, c.y, c.z, b.x, b.y, b.z, a.x, a.y, a.z];
    }
    FlattenTriangle(OrientedTriangle(a, b, c));
  }
}
