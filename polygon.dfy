/**
 * Convex polygons (src/tilemap-plus/ConvexPolygon.js): a vertex loop with the edges,
 * outward normals, centre and bounding box derived from it, the axis projection used
 * by the separating-axis test, translation, and the rectangle and capsule builders.
 */
module Polygons {
  import opened Wrappers
  import opened Vectors
  import opened Ranges
  import opened Boxes

  /** The errors `validateBounds` and `fromCapsule` throw. */
  datatype PolygonError =
    | RightLessThanLeft     // "Right must be greater than Left"
    | BottomLessThanTop     // "Bottom must be greater than Top"
    | TooFewCapSegments     // "Specify at least 3 cap segments"
    | CapsuleTooWide        // "Capsule height must be larger than width"

  /**
   * The convex decomposition of poly-decomp, an external library: an ordered vertex
   * loop in, a list of vertex loops out.
   */
  type Decomposition = seq<Vector> -> seq<seq<Vector>>

  /**
   * `(cos a, sin a)` for the cap angle a = -i * PI / n of a capsule with n cap
   * segments, supplied by the host's trigonometry.
   */
  type CapDirection = (int, int) -> Vector

  datatype ConvexPolygon = ConvexPolygon(
    vertices: seq<Vector>,
    edges: seq<Vector>,
    normals: seq<Vector>,
    centre: Vector,
    aabb: AABB)
  {
    function Count(): nat { |vertices| }
  }

  function SumX(vs: seq<Vector>): real {
    if vs == [] then 0.0 else SumX(vs[..|vs| - 1]) + vs[|vs| - 1].x
  }

  function SumY(vs: seq<Vector>): real {
    if vs == [] then 0.0 else SumY(vs[..|vs| - 1]) + vs[|vs| - 1].y
  }

  /**
   * The arithmetic mean of the vertices. The source divides by zero for an empty
   * loop (a `NaN` centre); that centre is never read, and is (0, 0) here.
   */
  function Mean(vs: seq<Vector>): (c: Vector)
    ensures |vs| > 0 ==> c.x * (|vs| as real) == SumX(vs) && c.y * (|vs| as real) == SumY(vs)
  {
    if vs == [] then Vector(0.0, 0.0)
    else Vector(SumX(vs) / (|vs| as real), SumY(vs) / (|vs| as real))
  }

  /** Edge i runs from vertex i to vertex (i + 1) mod n. */
  function EdgeAt(vs: seq<Vector>, i: int): Vector
    requires 0 <= i < |vs|
  {
    vs[(i + 1) % |vs|].Minus(vs[i])
  }

  /** The normalised edge turned a quarter, flipped to point away from the centre. */
  function NormalAt(vs: seq<Vector>, centre: Vector, i: int, sqrt: SqrtFn): (n: Vector)
    requires 0 <= i < |vs|
    ensures n.Dot(EdgeAt(vs, i)) == 0.0
    ensures vs[i].Minus(centre).Dot(n) >= 0.0
  {
    var edge := EdgeAt(vs, i);
    var unit := edge.Normalized(sqrt);
    var normal := unit.Perpendicular();
    var radius := vs[i].Minus(centre);
    PerpendicularDot(unit, edge);
    DotScaleRight(radius, normal, -1.0);
    DotScale(normal, -1.0, edge);
    if radius.Dot(normal) < 0.0 then normal.Scale(-1.0) else normal
  }

  lemma PerpendicularDot(u: Vector, e: Vector)
    requires u.PerpDot(e) == 0.0
    ensures u.Perpendicular().Dot(e) == 0.0
  {
  }

  lemma DotScaleRight(a: Vector, b: Vector, k: real)
    ensures a.Dot(b.Scale(k)) == k * a.Dot(b)
  {
  }

  /**
   * `new ConvexPolygon(vertices)`: what `recompute` derives. With one vertex or none
   * there are no edges and no normals.
   */
  function FromVertices(vs: seq<Vector>, sqrt: SqrtFn): (p: ConvexPolygon)
    ensures p.vertices == vs && p.aabb == FromPoints(vs) && p.centre == Mean(vs)
    ensures |p.edges| == |p.normals| == if |vs| > 1 then |vs| else 0
  {
    var centre := Mean(vs);
    ConvexPolygon(vs, Edges(vs), Normals(vs, centre, sqrt), centre, FromPoints(vs))
  }

  /**
   * Edge i runs from vertex i to the next one, round the loop; its normal is
   * perpendicular to it and points away from the centre.
   */
  lemma EdgesAndNormals(vs: seq<Vector>, sqrt: SqrtFn)
    ensures var p := FromVertices(vs, sqrt);
      && (forall i :: 0 <= i < |p.edges| ==> p.edges[i] == vs[(i + 1) % |vs|].Minus(vs[i]))
      && (forall i :: 0 <= i < |p.normals| ==> p.normals[i].Dot(p.edges[i]) == 0.0)
      && (forall i :: 0 <= i < |p.normals| ==> vs[i].Minus(p.centre).Dot(p.normals[i]) >= 0.0)
  {
  }

  function Edges(vs: seq<Vector>): (es: seq<Vector>)
    ensures |es| == if |vs| > 1 then |vs| else 0
    ensures forall i :: 0 <= i < |es| ==> es[i] == EdgeAt(vs, i)
  {
    var n := if |vs| > 1 then |vs| else 0;
    seq(n, i requires 0 <= i < n => EdgeAt(vs, i))
  }

  function Normals(vs: seq<Vector>, centre: Vector, sqrt: SqrtFn): (ns: seq<Vector>)
    ensures |ns| == if |vs| > 1 then |vs| else 0
    ensures forall i :: 0 <= i < |ns| ==> ns[i] == NormalAt(vs, centre, i, sqrt)
  {
    var n := if |vs| > 1 then |vs| else 0;
    seq(n, i requires 0 <= i < n => NormalAt(vs, centre, i, sqrt))
  }

  /** `recompute`: the index loop pushing one edge and one normal per vertex. */
  method Recompute(vs: seq<Vector>, sqrt: SqrtFn) returns (p: ConvexPolygon)
    ensures p == FromVertices(vs, sqrt)
  {
    var aabb := FromPoints(vs);
    var centre := Mean(vs);
    var count := |vs|;
    var edges: seq<Vector> := [];
    var normals: seq<Vector> := [];
    if count > 1 {
      for i := 0 to count
        invariant |edges| == |normals| == i
        invariant forall k :: 0 <= k < i ==> edges[k] == EdgeAt(vs, k)
        invariant forall k :: 0 <= k < i ==> normals[k] == NormalAt(vs, centre, k, sqrt)
      {
        var j := (i + 1) % count;
        var edge := vs[j].Minus(vs[i]);
        edges := edges + [edge];
        var normal := edge.Normalized(sqrt).Perpendicular();
        var radius := vs[i].Minus(centre);
        if radius.Dot(normal) < 0.0 {
          normal := normal.Scale(-1.0);
        }
        normals := normals + [normal];
      }
    }
    assert edges == Edges(vs);
    assert normals == Normals(vs, centre, sqrt);
    p := ConvexPolygon(vs, edges, normals, centre, aabb);
  }

  /** With a true square root, every normal of a non-degenerate edge has unit length. */
  lemma NormalIsUnit(vs: seq<Vector>, sqrt: SqrtFn, i: int)
    requires |vs| > 1 && 0 <= i < |vs|
    requires RootAt(sqrt, EdgeAt(vs, i).Dot(EdgeAt(vs, i))) && EdgeAt(vs, i).Length(sqrt) != 0.0
    ensures FromVertices(vs, sqrt).normals[i].Dot(FromVertices(vs, sqrt).normals[i]) == 1.0
  {
    var edge := EdgeAt(vs, i);
    NormalizedIsUnit(edge, sqrt);
    var normal := edge.Normalized(sqrt).Perpendicular();
    assert normal.Dot(normal) == 1.0;
    assert normal.Scale(-1.0).Dot(normal.Scale(-1.0)) == normal.Dot(normal);
  }

  /** The cross product of edge i with the next edge (wrapping at the end). */
  function Turn(p: ConvexPolygon, i: int): real
    requires |p.edges| == |p.vertices| && 0 <= i < |p.edges|
  {
    p.edges[i].PerpDot(p.edges[(i + 1) % |p.edges|])
  }

  predicate OppositeSigns(a: real, b: real) {
    a * b < 0.0
  }

  /**
   * `isValid`: true for fewer than four vertices; otherwise false exactly when two
   * consecutive turns have strictly opposite signs. The first turn is compared with 0,
   * so the wrap-around pair is never compared, and a zero turn resets the comparison.
   */
  method IsValid(p: ConvexPolygon) returns (valid: bool)
    requires p.Count() >= 4 ==> |p.edges| == p.Count()
    ensures valid <==> p.Count() < 4 || forall i :: 1 <= i < p.Count() ==> !OppositeSigns(Turn(p, i), Turn(p, i - 1))
  {
    var count := p.Count();
    if count < 4 {
      return true;
    }
    var prevPerpDot := 0.0;
    for i := 0 to count
      invariant prevPerpDot == if i == 0 then 0.0 else Turn(p, i - 1)
      invariant forall k :: 1 <= k < i ==> !OppositeSigns(Turn(p, k), Turn(p, k - 1))
    {
      var j := (i + 1) % count;
      var perpDot := p.edges[i].PerpDot(p.edges[j]);
      if OppositeSigns(perpDot, prevPerpDot) {
        assert i != 0 by {
          if i == 0 { assert perpDot * 0.0 == 0.0; }
        }
        assert OppositeSigns(Turn(p, i), Turn(p, i - 1));
        return false;
      }
      prevPerpDot := perpDot;
    }
    return true;
  }

  /** The projections of the vertices onto `axis`, gathered into one range. */
  function Project(vs: seq<Vector>, axis: Vector): (r: Range)
    ensures forall i :: 0 <= i < |vs| ==> r.ContainsPoint(vs[i].Dot(axis))
    ensures r.Empty? <==> vs == []
    ensures r.Span? ==> r.min <= r.max
  {
    if vs == [] then Empty
    else
      var init := vs[..|vs| - 1];
      var r := Project(init, axis).ExtendTo(vs[|vs| - 1].Dot(axis));
      assert forall i :: 0 <= i < |init| ==> vs[i] == init[i];
      r
  }

  /** The projection is tight: both of its bounds are the projection of some vertex. */
  lemma {:induction false} ProjectBoundsAttained(vs: seq<Vector>, axis: Vector)
    requires vs != []
    ensures exists i :: 0 <= i < |vs| && vs[i].Dot(axis) == Project(vs, axis).min
    ensures exists i :: 0 <= i < |vs| && vs[i].Dot(axis) == Project(vs, axis).max
  {
    var init := vs[..|vs| - 1];
    var last := |vs| - 1;
    if init == [] {
      assert vs[0].Dot(axis) == Project(vs, axis).min == Project(vs, axis).max;
    } else {
      ProjectBoundsAttained(init, axis);
      var lo :| 0 <= lo < |init| && init[lo].Dot(axis) == Project(init, axis).min;
      var hi :| 0 <= hi < |init| && init[hi].Dot(axis) == Project(init, axis).max;
      assert vs[lo] == init[lo] && vs[hi] == init[hi];
      var p := vs[last].Dot(axis);
      if p < Project(init, axis).min {
        assert vs[last].Dot(axis) == Project(vs, axis).min;
      } else {
        assert vs[lo].Dot(axis) == Project(vs, axis).min;
      }
      if p > Project(init, axis).max {
        assert vs[last].Dot(axis) == Project(vs, axis).max;
      } else {
        assert vs[hi].Dot(axis) == Project(vs, axis).max;
      }
    }
  }

  /** `projectOntoAxis`: extends a fresh range by each vertex's projection in turn. */
  method ProjectOntoAxis(p: ConvexPolygon, axis: Vector) returns (r: Range)
    ensures r == Project(p.vertices, axis)
  {
    r := NewRange();
    for i := 0 to |p.vertices|
      invariant r == Project(p.vertices[..i], axis)
    {
      assert p.vertices[..i + 1][..i] == p.vertices[..i];
      r := r.ExtendTo(p.vertices[i].Dot(axis));
    }
    assert p.vertices[..|p.vertices|] == p.vertices;
  }

  function Offset(vs: seq<Vector>, offset: Vector): (ws: seq<Vector>)
    ensures |ws| == |vs| && forall i :: 0 <= i < |vs| ==> ws[i] == vs[i].Plus(offset)
  {
    seq(|vs|, i requires 0 <= i < |vs| => vs[i].Plus(offset))
  }

  /** Moving every vertex by `offset` moves the vertices' bounding box by `offset`. */
  lemma {:induction false} OffsetBox(vs: seq<Vector>, offset: Vector)
    ensures FromPoints(Offset(vs, offset)) == FromPoints(vs).Translated(offset)
  {
    if vs != [] {
      assert Offset(vs, offset)[1..] == Offset(vs[1..], offset);
      OffsetBox(vs[1..], offset);
      assert FromPoint(vs[0].Plus(offset)) == FromPoint(vs[0]).Translated(offset);
      UnionTranslated(FromPoint(vs[0]), FromPoints(vs[1..]), offset);
    }
  }

  /** `translated`: every vertex moved by `offset`. */
  function Translated(p: ConvexPolygon, offset: Vector, sqrt: SqrtFn): (q: ConvexPolygon)
    ensures q.Count() == p.Count()
    ensures forall i :: 0 <= i < |p.vertices| ==> q.vertices[i] == p.vertices[i].Plus(offset)
  {
    FromVertices(Offset(p.vertices, offset), sqrt)
  }

  function Shifted(r: Range, d: real): Range {
    match r
    case Empty => Empty
    case Span(lo, hi) => Span(lo + d, hi + d)
  }

  /** Translating a vertex loop shifts its projection on every axis by offset . axis. */
  lemma {:induction false} ProjectOffset(vs: seq<Vector>, offset: Vector, axis: Vector)
    ensures Project(Offset(vs, offset), axis) == Shifted(Project(vs, axis), offset.Dot(axis))
  {
    if vs != [] {
      var init := vs[..|vs| - 1];
      assert Offset(vs, offset)[..|vs| - 1] == Offset(init, offset);
      ProjectOffset(init, offset, axis);
      DotPlus(vs[|vs| - 1], offset, axis);
    }
  }

  lemma ProjectTranslated(p: ConvexPolygon, offset: Vector, axis: Vector, sqrt: SqrtFn)
    ensures Project(Translated(p, offset, sqrt).vertices, axis) == Shifted(Project(p.vertices, axis), offset.Dot(axis))
  {
    ProjectOffset(p.vertices, offset, axis);
  }

  /** `validateBounds`. */
  function ValidateBounds(left: real, top: real, right: real, bottom: real): (e: Option<PolygonError>)
    ensures e.None? <==> left <= right && top <= bottom
  {
    if left > right then Some(RightLessThanLeft)
    else if top > bottom then Some(BottomLessThanTop)
    else None
  }

  /** `fromRectangle`: corners top-left, top-right, bottom-right, bottom-left. */
  function FromRectangle(left: real, top: real, right: real, bottom: real, sqrt: SqrtFn): (r: Result<ConvexPolygon, PolygonError>)
    ensures r.Err? <==> left > right || top > bottom
    ensures r.Err? ==> r.error == if left > right then RightLessThanLeft else BottomLessThanTop
    ensures r.Ok? ==> (r.value.vertices ==
      [Vector(left, top), Vector(right, top), Vector(right, bottom), Vector(left, bottom)])
  {
    match ValidateBounds(left, top, right, bottom)
    case Some(e) => Err(e)
    case None =>
      Ok(FromVertices([Vector(left, top), Vector(right, top), Vector(right, bottom), Vector(left, bottom)], sqrt))
  }

  /** A rectangle's projections onto the x and y axes have its width and height as lengths. */
  lemma FromRectangleExtent(left: real, top: real, right: real, bottom: real, sqrt: SqrtFn, p: ConvexPolygon)
    requires FromRectangle(left, top, right, bottom, sqrt) == Ok(p)
    ensures Project(p.vertices, Vector(1.0, 0.0)).Length() == Some(right - left)
    ensures Project(p.vertices, Vector(0.0, 1.0)).Length() == Some(bottom - top)
  {
    CornerProjections(left, top, right, bottom, p.vertices);
  }

  lemma CornerProjections(left: real, top: real, right: real, bottom: real, vs: seq<Vector>)
    requires left <= right && top <= bottom
    requires vs == [Vector(left, top), Vector(right, top), Vector(right, bottom), Vector(left, bottom)]
    ensures Project(vs, Vector(1.0, 0.0)).Length() == Some(right - left)
    ensures Project(vs, Vector(0.0, 1.0)).Length() == Some(bottom - top)
  {
    RectangleProjection(vs, Vector(1.0, 0.0), left, right);
    RectangleProjection(vs, Vector(0.0, 1.0), top, bottom);
  }

  /** Four vertices projecting to lo, then lo or hi, then hi, then lo or hi, span [lo, hi]. */
  lemma RectangleProjection(vs: seq<Vector>, axis: Vector, lo: real, hi: real)
    requires |vs| == 4 && lo <= hi
    requires vs[0].Dot(axis) == lo
    requires vs[1].Dot(axis) == hi || vs[1].Dot(axis) == lo
    requires vs[3].Dot(axis) == hi || vs[3].Dot(axis) == lo
    requires vs[2].Dot(axis) == hi
    ensures Project(vs, axis) == Span(lo, hi)
  {
    assert vs[..1][..0] == [];
    assert vs[..2][..1] == vs[..1];
    assert vs[..3][..2] == vs[..2];
    assert vs[..4][..3] == vs[..3];
    assert vs[..4] == vs;
    assert Project(vs[..1], axis) == Span(lo, lo);
    assert Project(vs[..2], axis) == Span(lo, vs[1].Dot(axis));
    assert Project(vs[..3], axis) == Span(lo, hi);
  }

  /**
   * `fromCapsule`: two caps of `capSegments` points each, joined by a vertex on
   * each side. The checks run in the source's order: segment count, bounds, shape.
   */
  function FromCapsule(left: real, top: real, right: real, bottom: real, capSegments: int,
                       dir: CapDirection, sqrt: SqrtFn): (r: Result<ConvexPolygon, PolygonError>)
    ensures r.Err? <==> capSegments < 3 || left > right || top > bottom || bottom - top < right - left
    ensures capSegments < 3 ==> r == Err(TooFewCapSegments)
    ensures r.Ok? ==> r.value.Count() == 2 * capSegments + 2 && |r.value.edges| == 2 * capSegments + 2
  {
    if capSegments < 3 then Err(TooFewCapSegments)
    else match ValidateBounds(left, top, right, bottom)
    case Some(e) => Err(e)
    case None =>
      var width, height := right - left, bottom - top;
      if height < width then Err(CapsuleTooWide)
      else
        var capRadius := width * 0.5;
        var centreX := (left + right) * 0.5;
        var capVertices := seq(capSegments, i requires 0 <= i < capSegments => dir(i, capSegments).Scale(capRadius));
        var topCapFocus := Vector(centreX, top + capRadius);
        var bottomCapFocus := Vector(centreX, bottom - capRadius);
        var vertices :=
          seq(capSegments, i requires 0 <= i < capSegments => topCapFocus.Plus(capVertices[i]))
          + [Vector(left, topCapFocus.y)]
          + seq(capSegments, i requires 0 <= i < capSegments => bottomCapFocus.Minus(capVertices[i]))
          + [Vector(right, bottomCapFocus.y)];
        Ok(FromVertices(vertices, sqrt))
  }

  /** `generateConvexPolygons`: one polygon per convex piece the decomposition returns. */
  function GenerateConvexPolygons(vs: seq<Vector>, decomp: Decomposition, sqrt: SqrtFn): (ps: seq<ConvexPolygon>)
    ensures |ps| == |decomp(vs)|
    ensures forall i :: 0 <= i < |ps| ==> ps[i] == FromVertices(decomp(vs)[i], sqrt)
  {
    var pieces := decomp(vs);
    seq(|pieces|, i requires 0 <= i < |pieces| => FromVertices(pieces[i], sqrt))
  }
}
