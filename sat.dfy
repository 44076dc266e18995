/**
 * The narrow-phase separating-axis test shared by the `collideWidth` closures of
 * src/tilemap-plus/geometry/ShapeLayer.js and src/tilemap-plus/Physics.js: project
 * both polygons onto every axis, give up on the first axis where the projections are
 * disjoint, and otherwise keep the first axis of least penetration, turned to point
 * from the shape towards the sprite.
 */
module Sat {
  import opened Wrappers
  import opened Vectors
  import opened Ranges
  import opened Polygons

  /** The `{penetration, normal}` record a hit returns. */
  datatype Collision = Collision(penetration: Vector, normal: Vector)

  function Abs(a: real): (r: real)
    ensures r >= 0.0 && (r == a || r == -a)
  {
    if a < 0.0 then -a else a
  }

  /** The two projections onto `axis` do not overlap: `axis` separates the polygons. */
  predicate SeparatesOn(shape: seq<Vector>, sprite: seq<Vector>, axis: Vector) {
    Intersection(Project(shape, axis), Project(sprite, axis)).IsEmpty()
  }

  /**
   * The smaller of the two overlaps seen from opposite sides,
   * min(|objMax - sprMin|, |sprMax - objMin|).
   */
  function AxisPenetration(shape: seq<Vector>, sprite: seq<Vector>, axis: Vector): (d: real)
    requires !SeparatesOn(shape, sprite, axis)
    ensures d >= 0.0
  {
    var o, s := Project(shape, axis), Project(sprite, axis);
    Min(Abs(o.max - s.min), Abs(s.max - o.min))
  }

  predicate NoneSeparates(shape: seq<Vector>, sprite: seq<Vector>, axes: seq<Vector>) {
    forall i :: 0 <= i < |axes| ==> !SeparatesOn(shape, sprite, axes[i])
  }

  function Penetrations(shape: seq<Vector>, sprite: seq<Vector>, axes: seq<Vector>): (ds: seq<real>)
    requires NoneSeparates(shape, sprite, axes)
    ensures |ds| == |axes|
    ensures forall i :: 0 <= i < |axes| ==> ds[i] == AxisPenetration(shape, sprite, axes[i])
  {
    seq(|axes|, i requires 0 <= i < |axes| => AxisPenetration(shape, sprite, axes[i]))
  }

  /**
   * The index the strict `minPenetration > penetration` update settles on: the first
   * position holding the least value.
   */
  function FirstMinimum(ds: seq<real>): (k: nat)
    requires |ds| > 0
    ensures k < |ds|
    ensures forall i :: 0 <= i < |ds| ==> ds[k] <= ds[i]
    ensures forall i :: 0 <= i < k ==> ds[i] > ds[k]
  {
    if |ds| == 1 then 0
    else
      var k := FirstMinimum(ds[..|ds| - 1]);
      assert forall i :: 0 <= i < |ds| - 1 ==> ds[..|ds| - 1][i] == ds[i];
      if ds[k] > ds[|ds| - 1] then |ds| - 1 else k
  }

  /** Flips `axis` when it points away from `offset`. */
  function Orient(axis: Vector, offset: Vector): (n: Vector)
    ensures offset.Dot(n) >= 0.0
    ensures n == axis || n == axis.Scale(-1.0)
  {
    if offset.Dot(axis) < 0.0 then
      DotScaleRight(offset, axis, -1.0);
      axis.Scale(-1.0)
    else axis
  }

  /** The first axis of least penetration, when no axis separates the polygons. */
  function MinimalAxis(shape: seq<Vector>, sprite: seq<Vector>, axes: seq<Vector>): (k: nat)
    requires |axes| > 0 && NoneSeparates(shape, sprite, axes)
    ensures k < |axes| && IsFirstMinimalAxis(shape, sprite, axes, k)
  {
    FirstMinimum(Penetrations(shape, sprite, axes))
  }

  /** Axis k has the least penetration of all axes, and no earlier axis ties it. */
  predicate IsFirstMinimalAxis(shape: seq<Vector>, sprite: seq<Vector>, axes: seq<Vector>, k: int)
    requires NoneSeparates(shape, sprite, axes)
    requires 0 <= k < |axes|
  {
    && (forall i :: 0 <= i < |axes| ==>
          AxisPenetration(shape, sprite, axes[k]) <= AxisPenetration(shape, sprite, axes[i]))
    && (forall i :: 0 <= i < k ==>
          AxisPenetration(shape, sprite, axes[i]) > AxisPenetration(shape, sprite, axes[k]))
  }

  /**
   * What the separating-axis loop returns: nothing when some axis separates the
   * polygons; otherwise the first axis of least penetration, oriented from the
   * shape's centre towards the sprite's, with the penetration vector
   * `normal * -minPenetration`.
   */
  function Collide(shape: ConvexPolygon, sprite: ConvexPolygon, axes: seq<Vector>): (r: Option<Collision>)
    requires |axes| > 0
    ensures r.Some? <==> NoneSeparates(shape.vertices, sprite.vertices, axes)
  {
    if !NoneSeparates(shape.vertices, sprite.vertices, axes) then None
    else
      var k := MinimalAxis(shape.vertices, sprite.vertices, axes);
      var normal := Orient(axes[k], sprite.centre.Minus(shape.centre));
      Some(Collision(normal.Scale(-AxisPenetration(shape.vertices, sprite.vertices, axes[k])), normal))
  }

  /**
   * A miss means some axis separates the polygons. A hit reports, along the first axis
   * of least penetration turned towards the sprite, a push-out of exactly that
   * penetration.
   */
  lemma CollideMeaning(shape: ConvexPolygon, sprite: ConvexPolygon, axes: seq<Vector>)
    requires |axes| > 0
    ensures var r := Collide(shape, sprite, axes);
      && (r.None? <==> exists i :: 0 <= i < |axes| && SeparatesOn(shape.vertices, sprite.vertices, axes[i]))
      && (r.Some? ==> (
            var k := MinimalAxis(shape.vertices, sprite.vertices, axes);
            && (r.value.normal == axes[k] || r.value.normal == axes[k].Scale(-1.0))
            && r.value.penetration
               == r.value.normal.Scale(-AxisPenetration(shape.vertices, sprite.vertices, axes[k]))))
      && (r.Some? ==> sprite.centre.Minus(shape.centre).Dot(r.value.normal) >= 0.0)
  {
  }

  /** Appending an axis appends its penetration. */
  lemma PenetrationsSnoc(shape: seq<Vector>, sprite: seq<Vector>, axes: seq<Vector>, i: int)
    requires 0 <= i < |axes| && NoneSeparates(shape, sprite, axes[..i + 1])
    ensures NoneSeparates(shape, sprite, axes[..i])
    ensures Penetrations(shape, sprite, axes[..i + 1])
         == Penetrations(shape, sprite, axes[..i]) + [AxisPenetration(shape, sprite, axes[i])]
  {
    forall j | 0 <= j < i
      ensures !SeparatesOn(shape, sprite, axes[..i][j])
    {
      assert axes[..i + 1][j] == axes[..i][j];
    }
    var longer := Penetrations(shape, sprite, axes[..i + 1]);
    var shorter := Penetrations(shape, sprite, axes[..i]);
    forall j | 0 <= j < i + 1
      ensures longer[j] == (shorter + [AxisPenetration(shape, sprite, axes[i])])[j]
    {
      if j < i {
        assert axes[..i + 1][j] == axes[..i][j];
      }
    }
  }

  /** The strict update: a later value replaces the minimum only when strictly smaller. */
  lemma FirstMinimumSnoc(ds: seq<real>, d: real)
    requires |ds| > 0
    ensures FirstMinimum(ds + [d]) == if ds[FirstMinimum(ds)] > d then |ds| else FirstMinimum(ds)
  {
    assert (ds + [d])[..|ds|] == ds;
  }

  /**
   * The state of the scan after the first `i` axes: none of them separates, and the
   * accumulators hold the first least penetration among them (`minIndex < 0` before
   * the first axis, when `minPenetration` is still +Infinity).
   */
  predicate Scanned(shape: seq<Vector>, sprite: seq<Vector>, axes: seq<Vector>, i: int,
                    minIndex: int, minPenetration: real)
    requires 0 <= i <= |axes|
  {
    && NoneSeparates(shape, sprite, axes[..i])
    && (i == 0 ==> minIndex == -1)
    && (i > 0 ==> (0 <= minIndex < i
      && minIndex == FirstMinimum(Penetrations(shape, sprite, axes[..i]))
      && minPenetration == AxisPenetration(shape, sprite, axes[minIndex])))
  }

  /** One turn of the loop, on an axis that does not separate. */
  lemma ScanStep(shape: seq<Vector>, sprite: seq<Vector>, axes: seq<Vector>, i: int,
                 minIndex: int, minPenetration: real)
    requires 0 <= i < |axes| && Scanned(shape, sprite, axes, i, minIndex, minPenetration)
    requires !SeparatesOn(shape, sprite, axes[i])
    ensures var d := AxisPenetration(shape, sprite, axes[i]);
      if minIndex < 0 || minPenetration > d then Scanned(shape, sprite, axes, i + 1, i, d)
      else Scanned(shape, sprite, axes, i + 1, minIndex, minPenetration)
  {
    NoneSeparatesSnoc(shape, sprite, axes, i);
    PenetrationsSnoc(shape, sprite, axes, i);
    if i > 0 {
      FirstMinimumSnoc(Penetrations(shape, sprite, axes[..i]), AxisPenetration(shape, sprite, axes[i]));
      assert axes[..i + 1][minIndex] == axes[minIndex];
    }
  }

  /**
   * The loop over the axes with its `minPenetration` / `minNormal` accumulators and
   * the early `return null`. The accumulator starts at +Infinity, which the first
   * axis always beats; here that start is `minIndex < 0`.
   */
  method SeparatingAxisTest(shape: ConvexPolygon, sprite: ConvexPolygon, axes: seq<Vector>)
    returns (r: Option<Collision>)
    requires |axes| > 0
    ensures r == Collide(shape, sprite, axes)
  {
    var minPenetration := 0.0;
    var minIndex := -1;
    for i := 0 to |axes|
      invariant Scanned(shape.vertices, sprite.vertices, axes, i, minIndex, minPenetration)
    {
      var shapeRange := ProjectOntoAxis(shape, axes[i]);
      var spriteRange := ProjectOntoAxis(sprite, axes[i]);
      var intersection := Intersection(shapeRange, spriteRange);
      if intersection.IsEmpty() {
        assert SeparatesOn(shape.vertices, sprite.vertices, axes[i]);
        return None;
      }
      var penetration := Min(Abs(shapeRange.max - spriteRange.min), Abs(spriteRange.max - shapeRange.min));
      assert penetration == AxisPenetration(shape.vertices, sprite.vertices, axes[i]);
      ScanStep(shape.vertices, sprite.vertices, axes, i, minIndex, minPenetration);
      if minIndex < 0 || minPenetration > penetration {
        minPenetration := penetration;
        minIndex := i;
      }
    }
    assert axes[..|axes|] == axes;
    assert minIndex == MinimalAxis(shape.vertices, sprite.vertices, axes);
    var minNormal := axes[minIndex];
    var spriteOffset := sprite.centre.Minus(shape.centre);
    if spriteOffset.Dot(minNormal) < 0.0 {
      minNormal := minNormal.Scale(-1.0);
    }
    return Some(Collision(minNormal.Scale(-minPenetration), minNormal));
  }

  lemma NoneSeparatesSnoc(shape: seq<Vector>, sprite: seq<Vector>, axes: seq<Vector>, i: int)
    requires 0 <= i < |axes| && NoneSeparates(shape, sprite, axes[..i])
    requires !SeparatesOn(shape, sprite, axes[i])
    ensures NoneSeparates(shape, sprite, axes[..i + 1])
  {
    assert forall j :: 0 <= j < i ==> axes[..i + 1][j] == axes[..i][j];
  }

  /** The errors a `collideWidth` call can raise instead of answering. */
  datatype SatError =
    | InvalidBody(reason: PolygonError)   // `fromRectangle` rejects a body with negative extent
    | NoAxes                              // no axis at all: `minNormal` stays undefined

  /**
   * The test against a plain rectangular body: axes (1, 0) and (0, 1), then the
   * shape's normals, the body rectangle built by `fromRectangle`.
   */
  function RectangleCollision(shape: ConvexPolygon, left: real, top: real, width: real, height: real,
                              sqrt: SqrtFn): (r: Result<Option<Collision>, SatError>)
    ensures r.Err? <==> width < 0.0 || height < 0.0
    ensures r.Err? ==> r.error == InvalidBody(if width < 0.0 then RightLessThanLeft else BottomLessThanTop)
  {
    match FromRectangle(left, top, left + width, top + height, sqrt)
    case Err(e) => Err(InvalidBody(e))
    case Ok(body) => Ok(Collide(shape, body, [Vector(1.0, 0.0), Vector(0.0, 1.0)] + shape.normals))
  }

  /** The test once `fromRectangle` has accepted the body. */
  lemma RectangleCollisionOfPolygon(shape: ConvexPolygon, left: real, top: real, width: real, height: real,
                                    sqrt: SqrtFn, body: ConvexPolygon)
    requires FromRectangle(left, top, left + width, top + height, sqrt) == Ok(body)
    ensures RectangleCollision(shape, left, top, width, height, sqrt)
         == Ok(Collide(shape, body, [Vector(1.0, 0.0), Vector(0.0, 1.0)] + shape.normals))
  {
  }

  /** A body's rectangle misses the shape iff one of the unit axes or the shape's normals separates them. */
  lemma RectangleCollisionMeaning(shape: ConvexPolygon, left: real, top: real, width: real, height: real,
                                  sqrt: SqrtFn)
    requires width >= 0.0 && height >= 0.0
    ensures var r := RectangleCollision(shape, left, top, width, height, sqrt);
      r.Ok? && (r.value.None? <==>
        exists axis :: axis in [Vector(1.0, 0.0), Vector(0.0, 1.0)] + shape.normals &&
          SeparatesOn(shape.vertices, RectangleCorners(left, top, left + width, top + height), axis))
  {
    var body := FromRectangle(left, top, left + width, top + height, sqrt).value;
    var axes := [Vector(1.0, 0.0), Vector(0.0, 1.0)] + shape.normals;
    CollideMeaning(shape, body, axes);
    AxesMembership(axes, shape.vertices, body.vertices);
  }

  function RectangleCorners(left: real, top: real, right: real, bottom: real): seq<Vector> {
    [Vector(left, top), Vector(right, top), Vector(right, bottom), Vector(left, bottom)]
  }

  /** Some index separates iff some member separates. */
  lemma AxesMembership(axes: seq<Vector>, shape: seq<Vector>, sprite: seq<Vector>)
    ensures (exists i :: 0 <= i < |axes| && SeparatesOn(shape, sprite, axes[i]))
        <==> (exists axis :: axis in axes && SeparatesOn(shape, sprite, axis))
  {
    if exists axis :: axis in axes && SeparatesOn(shape, sprite, axis) {
      var axis :| axis in axes && SeparatesOn(shape, sprite, axis);
      var i :| 0 <= i < |axes| && axes[i] == axis;
    }
  }

  /** An axis on which the polygons are disjoint: both polygons then miss each other. */
  lemma SeparatedMeansNoCommonProjection(shape: seq<Vector>, sprite: seq<Vector>, axis: Vector, p: real)
    requires SeparatesOn(shape, sprite, axis)
    ensures !(Project(shape, axis).ContainsPoint(p) && Project(sprite, axis).ContainsPoint(p))
  {
  }
}
