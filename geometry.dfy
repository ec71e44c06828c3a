/** Geometry primitives of polygon_gen.py: branch points, the perpendicular
    unit normal, the counter-clockwise test, and the flat triangle list. */
module Geometry {
  import opened Wrappers

  /** A control or mesh anchor point of a branch; `v` is `None` for the NaN
      marker carried by resampled points. */
  datatype BranchPoint = BranchPoint(x: real, y: real, w: real, v: Option<real>)

  datatype Vec2 = Vec2(x: real, y: real)

  /** A mesh vertex; the program always sets `z` to 0.0. */
  datatype Vertex = Vertex(x: real, y: real, z: real)

  function Position(p: BranchPoint): Vec2 { Vec2(p.x, p.y) }

  const Origin2: Vec2 := Vec2(0.0, 0.0)
  const Origin: Vertex := Vertex(0.0, 0.0, 0.0)

  /** The denominator substituted for a zero segment length (1e-10). */
  const ZeroLengthFallback: real := 0.0000000001

  /** The denominator `unit_norm_vec` divides by: the segment length, or the
      fallback when that length is 0. */
  function NormDenominator(sqrt: real -> real, s: Vec2, e: Vec2): (d: real)
    ensures d != 0.0
    ensures sqrt(SquaredLength(s, e)) != 0.0 ==> d == sqrt(SquaredLength(s, e))
  {
    var dist := sqrt(SquaredLength(s, e));
    if dist == 0.0 then ZeroLengthFallback else dist
  }

  /** `dx * dx + dy * dy` of the segment `s -> e`. */
  function SquaredLength(s: Vec2, e: Vec2): real
  {
    (e.x - s.x) * (e.x - s.x) + (e.y - s.y) * (e.y - s.y)
  }

  /** The left normal of the segment `s -> e`, divided by its length. */
  function UnitNormVec(sqrt: real -> real, s: Vec2, e: Vec2): Vec2
  {
    var dx := e.x - s.x;
    var dy := e.y - s.y;
    var dist := NormDenominator(sqrt, s, e);
    Vec2(-dy / dist, dx / dist)
  }

  /** The normal is perpendicular to the segment and is `(-dy, dx)` scaled by
      `1/dist`, whatever `dist` is, so it never divides by zero; a zero-length
      segment yields the zero vector rather than an error. */
  lemma UnitNormVecPerpendicular(sqrt: real -> real, s: Vec2, e: Vec2)
    ensures var n := UnitNormVec(sqrt, s, e);
            n.x * (e.x - s.x) + n.y * (e.y - s.y) == 0.0 &&
            n.x * NormDenominator(sqrt, s, e) == -(e.y - s.y) &&
            n.y * NormDenominator(sqrt, s, e) == e.x - s.x
    ensures s == e ==> UnitNormVec(sqrt, s, e) == Origin2
  {
    var dx, dy := e.x - s.x, e.y - s.y;
    var dist := NormDenominator(sqrt, s, e);
    var n := UnitNormVec(sqrt, s, e);
    assert n.x * dx + n.y * dy == (-dy * dx + dx * dy) / dist;
  }

  /** When `sqrt` returns a true square root of the squared length, the
      normal has length 1. */
  lemma UnitNormVecIsUnit(sqrt: real -> real, s: Vec2, e: Vec2)
    requires s != e
    requires sqrt(SquaredLength(s, e)) > 0.0
    requires sqrt(SquaredLength(s, e)) * sqrt(SquaredLength(s, e)) == SquaredLength(s, e)
    ensures var n := UnitNormVec(sqrt, s, e); n.x * n.x + n.y * n.y == 1.0
  {
    var dx, dy := e.x - s.x, e.y - s.y;
    var d := NormDenominator(sqrt, s, e);
    var n := UnitNormVec(sqrt, s, e);
    UnitNormVecPerpendicular(sqrt, s, e);
    assert d * d == dx * dx + dy * dy;
    var a, b := n.x * d, n.y * d;
    assert a == -dy && b == dx;
    assert a * a + b * b == d * d;
    assert a * a == (n.x * n.x) * (d * d) && b * b == (n.y * n.y) * (d * d);
    var q, dd := n.x * n.x + n.y * n.y, d * d;
    assert q * dd == (n.x * n.x) * dd + (n.y * n.y) * dd;
    assert d > 0.0;
    assert dd > 0.0;
    assert q * dd == a * a + b * b;
    assert q * dd == 1.0 * dd;
  }

  /** Twice the signed area of the triangle `a, b, c` (positive when the
      vertices run counter-clockwise). */
  function SignedArea2(a: Vertex, b: Vertex, c: Vertex): real
  {
    a.x * b.y - b.x * a.y + b.x * c.y - c.x * b.y + c.x * a.y - a.x * c.y
  }

  /** `is_counter_clock_order`: strictly positive signed area. */
  predicate IsCounterClockOrder(a: Vertex, b: Vertex, c: Vertex)
  {
    SignedArea2(a, b, c) > 0.0
  }

  /** Reversing the vertex order negates the signed area. */
  lemma ReversedOrientation(a: Vertex, b: Vertex, c: Vertex)
    ensures SignedArea2(c, b, a) == -SignedArea2(a, b, c)
  {
  }

  /** The triangle as `gen_branch_meshes` emits it: in the given order when it
      is counter-clockwise, reversed otherwise. */
  function OrientedTriangle(a: Vertex, b: Vertex, c: Vertex): (t: seq<Vertex>)
    ensures t == [a, b, c] || t == [c, b, a]
    ensures IsCounterClockOrder(a, b, c) <==> t == [a, b, c] && SignedArea2(a, b, c) != 0.0
    ensures SignedArea2(t[0], t[1], t[2]) >= 0.0
  {
    if IsCounterClockOrder(a, b, c) then [a, b, c]
    else
      ReversedOrientation(a, b, c);
      [c, b, a]
  }

  /** The flat float list of a vertex sequence: x, y, z per vertex. */
  function Flatten(vs: seq<Vertex>): (m: seq<real>)
    ensures |m| == 3 * |vs|
    ensures forall i :: 0 <= i < |vs| ==>
              m[3 * i] == vs[i].x && m[3 * i + 1] == vs[i].y && m[3 * i + 2] == vs[i].z
  {
    if vs == [] then [] else [vs[0].x, vs[0].y, vs[0].z] + Flatten(vs[1..])
  }

  /** The `i`-th vertex of a flat float list. */
  function VertexAt(m: seq<real>, i: nat): Vertex
    requires 3 * i + 3 <= |m|
  {
    Vertex(m[3 * i], m[3 * i + 1], m[3 * i + 2])
  }

  /** The number of triangles of a flat triangle list. */
  function TriangleCount(m: seq<real>): nat { |m| / 9 }

  /** Twice the signed area of the `t`-th triangle of a flat triangle list. */
  function TriangleArea2(m: seq<real>, t: nat): real
    requires 9 * t + 9 <= |m|
  {
    SignedArea2(VertexAt(m, 3 * t), VertexAt(m, 3 * t + 1), VertexAt(m, 3 * t + 2))
  }

  /** A list of `k` whole triangles holds `k` of them. */
  lemma WholeTriangles(m: seq<real>, k: nat)
    requires |m| == 9 * k
    ensures TriangleCount(m) == k
  {
  }

  /** Every z coordinate is 0.0. */
  ghost predicate Planar(m: seq<real>)
  {
    forall i :: 0 <= i && 3 * i + 2 < |m| ==> m[3 * i + 2] == 0.0
  }

  /** Every whole triangle has non-negative signed area. */
  ghost predicate NotClockwise(m: seq<real>)
  {
    forall t :: 0 <= t && 9 * t + 9 <= |m| ==> TriangleArea2(m, t) >= 0.0
  }

  /** Appending to a list of `na` whole triangles keeps both properties. */
  lemma ConcatMesh(a: seq<real>, b: seq<real>, na: nat)
    requires |a| == 9 * na
    ensures Planar(a) && Planar(b) ==> Planar(a + b)
    ensures NotClockwise(a) && NotClockwise(b) ==> NotClockwise(a + b)
  {
    var ab := a + b;
    if Planar(a) && Planar(b) {
      forall i | 0 <= i && 3 * i + 2 < |ab| ensures ab[3 * i + 2] == 0.0 {
        if 3 * i + 2 >= |a| {
          var u := i - 3 * na;
          assert ab[3 * i + 2] == b[3 * u + 2];
        }
      }
    }
    if NotClockwise(a) && NotClockwise(b) {
      forall t | 0 <= t && 9 * t + 9 <= |ab| ensures TriangleArea2(ab, t) >= 0.0 {
        if t < na {
          assert VertexAt(ab, 3 * t) == VertexAt(a, 3 * t);
          assert VertexAt(ab, 3 * t + 1) == VertexAt(a, 3 * t + 1);
          assert VertexAt(ab, 3 * t + 2) == VertexAt(a, 3 * t + 2);
          assert TriangleArea2(ab, t) == TriangleArea2(a, t);
        } else {
          var u := t - na;
          assert VertexAt(ab, 3 * t) == VertexAt(b, 3 * u);
          assert VertexAt(ab, 3 * t + 1) == VertexAt(b, 3 * u + 1);
          assert VertexAt(ab, 3 * t + 2) == VertexAt(b, 3 * u + 2);
          assert TriangleArea2(ab, t) == TriangleArea2(b, u);
        }
      }
    }
  }

  /** A flattened oriented triangle is a planar, counter-clockwise mesh of one
      triangle when its vertices lie in the plane z = 0. */
  lemma OrientedTriangleMesh(a: Vertex, b: Vertex, c: Vertex)
    requires a.z == 0.0 && b.z == 0.0 && c.z == 0.0
    ensures var m := Flatten(OrientedTriangle(a, b, c));
            |m| == 9 && Planar(m) && NotClockwise(m)
  {
    var t := OrientedTriangle(a, b, c);
    var m := Flatten(t);
    assert VertexAt(m, 0) == t[0] && VertexAt(m, 1) == t[1] && VertexAt(m, 2) == t[2];
    assert TriangleArea2(m, 0) == SignedArea2(t[0], t[1], t[2]);
    forall i | 0 <= i && 3 * i + 2 < |m| ensures m[3 * i + 2] == 0.0 {
      assert i == 0 || i == 1 || i == 2;
    }
  }

  /** The flat list of a triangle, vertex by vertex. */
  lemma FlattenTriangle(t: seq<Vertex>)
    requires |t| == 3
    ensures Flatten(t) == [t[0].x, t[0].y, t[0].z, t[1].x, t[1].y, t[1].z, t[2].x, t[2].y, t[2].z]
  {
    assert t[1..][1..][1..] == [];
  }
}
