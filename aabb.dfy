/**
 * Axis-aligned bounding boxes (src/tilemap-plus/geometry/AABB.js). The default box of
 * the source holds the sentinels left = top = +Infinity, right = bottom = -Infinity;
 * here that is the constructor `EmptyBox`. A `Box` whose sides cross is empty as well.
 */
module Boxes {
  import opened Wrappers
  import opened Vectors
  import opened Ranges

  datatype AABB = EmptyBox | Box(left: real, top: real, right: real, bottom: real) {

    predicate IsEmpty() {
      EmptyBox? || left > right || top > bottom
    }

    /** `NaN` (here `None`) when right - left is negative. */
    function Width(): (w: Option<real>)
      ensures w.Some? <==> Box? && left <= right
      ensures w.Some? ==> w.value >= 0.0 && left + w.value == right
    {
      if Box? && right - left >= 0.0 then Some(right - left) else None
    }

    /** `NaN` (here `None`) when bottom - top is negative. */
    function Height(): (h: Option<real>)
      ensures h.Some? <==> Box? && top <= bottom
      ensures h.Some? ==> h.value >= 0.0 && top + h.value == bottom
    {
      if Box? && bottom - top >= 0.0 then Some(bottom - top) else None
    }

    /** The midpoint of the box; `NaN` coordinates (here `None`) for the sentinel box. */
    function Centre(): (c: Option<Vector>)
      ensures c.Some? <==> Box?
      ensures c.Some? ==> c.value.x - left == right - c.value.x && c.value.y - top == bottom - c.value.y
      ensures c.Some? && !IsEmpty() ==> ContainsPoint(c.value)
    {
      if Box? then Some(Vector((left + right) * 0.5, (top + bottom) * 0.5)) else None
    }

    /** Closed on both axes: points on the boundary are inside. */
    predicate ContainsPoint(p: Vector)
      ensures ContainsPoint(p) ==> !IsEmpty()
    {
      Box? && left <= p.x <= right && top <= p.y <= bottom
    }

    /** Touching edges count as intersecting; the sentinel box meets nothing. */
    predicate Intersects(b: AABB) {
      Box? && b.Box? &&
      left <= b.right && right >= b.left && top <= b.bottom && bottom >= b.top
    }

    function Translated(offset: Vector): (r: AABB)
      ensures forall p :: ContainsPoint(p) <==> r.ContainsPoint(p.Plus(offset))
      ensures Width() == r.Width() && Height() == r.Height()
    {
      match this
      case EmptyBox => EmptyBox
      case Box(l, t, rt, b) => Box(l + offset.x, t + offset.y, rt + offset.x, b + offset.y)
    }

    /** Every side of `inner` lies within `this` (vacuous for the sentinel box). */
    predicate Encloses(inner: AABB) {
      inner.EmptyBox? ||
      (Box? && left <= inner.left && top <= inner.top && right >= inner.right && bottom >= inner.bottom)
    }

    /** The read-only scan with early return of `containsPoints`. */
    method ContainsPoints(points: seq<Vector>) returns (all: bool)
      ensures all <==> forall i :: 0 <= i < |points| ==> ContainsPoint(points[i])
    {
      for i := 0 to |points|
        invariant forall j :: 0 <= j < i ==> ContainsPoint(points[j])
      {
        if !ContainsPoint(points[i]) {
          return false;
        }
      }
      return true;
    }
  }

  /** `fromPoints` given a single point: a degenerate box of width and height 0. */
  function FromPoint(p: Vector): (r: AABB)
    ensures r.ContainsPoint(p)
    ensures r.Width() == Some(0.0) && r.Height() == Some(0.0)
    ensures forall q :: r.ContainsPoint(q) <==> q == p
  {
    Box(p.x, p.y, p.x, p.y)
  }

  /** The union box of two boxes; the sentinel box contributes nothing. */
  function Union(a: AABB, b: AABB): (r: AABB)
    ensures r.Encloses(a) && r.Encloses(b)
    ensures r.EmptyBox? <==> a.EmptyBox? && b.EmptyBox?
  {
    match (a, b)
    case (EmptyBox, _) => b
    case (_, EmptyBox) => a
    case (Box(l1, t1, r1, b1), Box(l2, t2, r2, b2)) => Box(Min(l1, l2), Min(t1, t2), Max(r1, r2), Max(b1, b2))
  }

  /** Translating both boxes translates their union. */
  lemma UnionTranslated(a: AABB, b: AABB, offset: Vector)
    ensures Union(a.Translated(offset), b.Translated(offset)) == Union(a, b).Translated(offset)
  {
  }

  /**
   * `fromPoints` given an array: the tight bound. An empty array leaves the
   * sentinels (`Math.min()` is +Infinity), i.e. the empty box.
   */
  function FromPoints(points: seq<Vector>): (r: AABB)
    ensures forall i :: 0 <= i < |points| ==> r.ContainsPoint(points[i])
    ensures r.EmptyBox? <==> points == []
  {
    if points == [] then EmptyBox
    else
      var rest := FromPoints(points[1..]);
      var r := Union(FromPoint(points[0]), rest);
      assert forall i :: 1 <= i < |points| ==> points[i] == points[1..][i - 1];
      r
  }

  /** The box is tight: each of its sides passes through one of the points. */
  lemma {:induction false} FromPointsTight(points: seq<Vector>)
    requires points != []
    ensures var r := FromPoints(points);
      && (exists i :: 0 <= i < |points| && points[i].x == r.left)
      && (exists i :: 0 <= i < |points| && points[i].y == r.top)
      && (exists i :: 0 <= i < |points| && points[i].x == r.right)
      && (exists i :: 0 <= i < |points| && points[i].y == r.bottom)
  {
    var r := FromPoints(points);
    if |points| == 1 {
      assert points[0].x == r.left && points[0].y == r.top && points[0].x == r.right && points[0].y == r.bottom;
    } else {
      var rest := points[1..];
      FromPointsTight(rest);
      var q := FromPoints(rest);
      assert r == Box(Min(points[0].x, q.left), Min(points[0].y, q.top), Max(points[0].x, q.right), Max(points[0].y, q.bottom));
      var a :| 0 <= a < |rest| && rest[a].x == q.left;
      var b :| 0 <= b < |rest| && rest[b].y == q.top;
      var c :| 0 <= c < |rest| && rest[c].x == q.right;
      var d :| 0 <= d < |rest| && rest[d].y == q.bottom;
      assert points[a + 1] == rest[a] && points[b + 1] == rest[b] && points[c + 1] == rest[c] && points[d + 1] == rest[d];
    }
  }

  lemma UnionAssociative(a: AABB, b: AABB, c: AABB)
    ensures Union(Union(a, b), c) == Union(a, Union(b, c))
  {
  }

  /** Folding the points in one at a time, from the left, builds the same box. */
  lemma {:induction false} FromPointsSnoc(points: seq<Vector>, p: Vector)
    ensures FromPoints(points + [p]) == Union(FromPoints(points), FromPoint(p))
  {
    if points != [] {
      assert (points + [p])[1..] == points[1..] + [p];
      FromPointsSnoc(points[1..], p);
      UnionAssociative(FromPoint(points[0]), FromPoints(points[1..]), FromPoint(p));
    }
  }

  /** `fromAABBs` given an array: the union box, enclosing every input box. */
  function FromAABBs(boxes: seq<AABB>): (r: AABB)
    ensures forall i :: 0 <= i < |boxes| ==> r.Encloses(boxes[i])
    ensures r.EmptyBox? <==> forall i :: 0 <= i < |boxes| ==> boxes[i].EmptyBox?
  {
    if boxes == [] then EmptyBox
    else
      var r := Union(boxes[0], FromAABBs(boxes[1..]));
      assert forall i :: 1 <= i < |boxes| ==> boxes[i] == boxes[1..][i - 1];
      r
  }

  /** The union is the least box enclosing both: any box that encloses both encloses it. */
  lemma UnionLeast(a: AABB, b: AABB, c: AABB)
    requires c.Encloses(a) && c.Encloses(b)
    ensures c.Encloses(Union(a, b))
  {
  }

  /** `fromAABBs` is the least enclosing box: any box enclosing every input encloses it. */
  lemma {:induction false} FromAABBsLeast(boxes: seq<AABB>, c: AABB)
    requires forall i :: 0 <= i < |boxes| ==> c.Encloses(boxes[i])
    ensures c.Encloses(FromAABBs(boxes))
  {
    if boxes != [] {
      assert forall i :: 0 <= i < |boxes| - 1 ==> boxes[1..][i] == boxes[i + 1];
      FromAABBsLeast(boxes[1..], c);
      UnionLeast(boxes[0], FromAABBs(boxes[1..]), c);
    }
  }

  /** The union box is tight: each of its sides is that side of some non-empty input box. */
  lemma {:induction false} FromAABBsTight(boxes: seq<AABB>)
    requires exists i :: 0 <= i < |boxes| && boxes[i].Box?
    ensures var r := FromAABBs(boxes);
      && (exists i :: 0 <= i < |boxes| && boxes[i].Box? && boxes[i].left == r.left)
      && (exists i :: 0 <= i < |boxes| && boxes[i].Box? && boxes[i].top == r.top)
      && (exists i :: 0 <= i < |boxes| && boxes[i].Box? && boxes[i].right == r.right)
      && (exists i :: 0 <= i < |boxes| && boxes[i].Box? && boxes[i].bottom == r.bottom)
  {
    var r, rest := FromAABBs(boxes), boxes[1..];
    var q := FromAABBs(rest);
    assert r == Union(boxes[0], q);
    if q.EmptyBox? {
      assert boxes[0].Box? by {
        var k :| 0 <= k < |boxes| && boxes[k].Box?;
        if k > 0 { assert rest[k - 1] == boxes[k]; }
      }
      assert r == boxes[0];
    } else {
      assert exists i :: 0 <= i < |rest| && rest[i].Box?;
      FromAABBsTight(rest);
      var a :| 0 <= a < |rest| && rest[a].Box? && rest[a].left == q.left;
      var b :| 0 <= b < |rest| && rest[b].Box? && rest[b].top == q.top;
      var c :| 0 <= c < |rest| && rest[c].Box? && rest[c].right == q.right;
      var d :| 0 <= d < |rest| && rest[d].Box? && rest[d].bottom == q.bottom;
      assert boxes[a + 1] == rest[a] && boxes[b + 1] == rest[b] && boxes[c + 1] == rest[c] && boxes[d + 1] == rest[d];
    }
  }

  /** The default-constructed box is empty. */
  lemma DefaultIsEmpty()
    ensures EmptyBox.IsEmpty() && forall p :: !EmptyBox.ContainsPoint(p)
  {
  }

  /** Intersection is symmetric. */
  lemma IntersectsSymmetric(a: AABB, b: AABB)
    ensures a.Intersects(b) == b.Intersects(a)
  {
  }

  /** Two boxes intersect exactly when some point lies in both. */
  lemma IntersectsIffCommonPoint(a: AABB, b: AABB)
    ensures a.Intersects(b) && !a.IsEmpty() && !b.IsEmpty() ==>
      var p := Vector(Max(a.left, b.left), Max(a.top, b.top));
      a.ContainsPoint(p) && b.ContainsPoint(p)
    ensures forall p :: a.ContainsPoint(p) && b.ContainsPoint(p) ==> a.Intersects(b)
  {
  }

  /** A box encloses its contents: enclosure transfers points and intersections. */
  lemma EnclosesPoints(outer: AABB, inner: AABB, p: Vector)
    requires outer.Encloses(inner) && inner.ContainsPoint(p)
    ensures outer.ContainsPoint(p)
  {
  }
}
