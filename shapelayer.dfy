/**
 * The collision shapes of one object layer (src/tilemap-plus/geometry/ShapeLayer.js):
 * every polygon, rectangle and text object becomes one or more convex shapes, filed in
 * a quadtree, and each shape can test itself against a sprite's body.
 */
module ShapeLayers {
  import opened Sequences
  import opened Wrappers
  import opened Vectors
  import opened Boxes
  import opened Polygons
  import opened Sat
  import opened Levels
  import opened Shapes
  import opened QuadTrees
  import opened Bodies

  /**
   * (cos a, sin a) for a = -rotation * PI / 180, the angle of a rotation given in
   * degrees, supplied by the host's trigonometry.
   */
  type Turning = real -> Vector

  /**
   * A convex piece an object contributes: the vertex loop the decomposition returns,
   * with the properties its shape carries.
   */
  datatype Piece = Piece(loop: seq<Vector>, properties: Option<Properties>)

  /**
   * The outline `addRectangle` builds, relative to the object's position: the origin,
   * the width side, their far corner and the height side, both sides turned by the
   * object's rotation when it is not zero.
   */
  function RectangleOutline(o: LevelObject, turning: Turning): seq<Vector>
  {
    var widthSide := Vector(o.width, 0.0);
    var heightSide := Vector(0.0, o.height);
    var w := if o.rotation != 0.0 then widthSide.Rotated(turning(o.rotation)) else widthSide;
    var h := if o.rotation != 0.0 then heightSide.Rotated(turning(o.rotation)) else heightSide;
    [Vector(0.0, 0.0), w, w.Plus(h), h]
  }

  /**
   * The outline is a parallelogram from the origin; unrotated it is the axis-aligned
   * width by height rectangle.
   */
  lemma RectangleOutlineShape(o: LevelObject, turning: Turning)
    ensures var vs := RectangleOutline(o, turning);
      && |vs| == 4 && vs[0] == Vector(0.0, 0.0) && vs[2] == vs[1].Plus(vs[3])
      && (o.rotation == 0.0 ==>
            vs == [Vector(0.0, 0.0), Vector(o.width, 0.0), Vector(o.width, o.height), Vector(0.0, o.height)])
  {
  }

  /** Turned by a true rotation, the outline keeps right angles and side lengths. */
  lemma RectangleOutlineIsRectangle(o: LevelObject, turning: Turning)
    requires turning(o.rotation).Dot(turning(o.rotation)) == 1.0
    ensures var vs := RectangleOutline(o, turning);
      && |vs| == 4
      && vs[1].Dot(vs[3]) == 0.0
      && vs[1].Dot(vs[1]) == o.width * o.width
      && vs[3].Dot(vs[3]) == o.height * o.height
  {
    var widthSide := Vector(o.width, 0.0);
    var heightSide := Vector(0.0, o.height);
    if o.rotation != 0.0 {
      var d := turning(o.rotation);
      RotationKeepsDot(widthSide, heightSide, d);
      RotationKeepsDot(widthSide, widthSide, d);
      RotationKeepsDot(heightSide, heightSide, d);
    }
  }

  /** The polygon object `addRectangle` hands on to `addPolygon`. */
  function RectangleAsPolygon(o: LevelObject, turning: Turning): LevelObject
  {
    o.(polygon := Some(RectangleOutline(o, turning)), properties := Some(OrEmpty(o.properties)))
  }

  /**
   * `addPolygon`: the outline moved to the object's position and cut into convex
   * pieces, each carrying the object's properties (or none).
   */
  function PolygonPieces(o: LevelObject, decomp: Decomposition, sqrt: SqrtFn): seq<Piece>
    requires o.polygon.Some?
  {
    var loops := decomp(Offset(o.polygon.value, Vector(o.x, o.y)));
    seq(|loops|, i requires 0 <= i < |loops| => Piece(loops[i], Some(OrEmpty(o.properties))))
  }

  /**
   * One piece per loop the decomposition returns for the outline moved by (x, y),
   * in order, each with the object's properties or an empty set of them.
   */
  lemma PolygonPiecesMeaning(o: LevelObject, decomp: Decomposition, sqrt: SqrtFn)
    requires o.polygon.Some?
    ensures var ps := PolygonPieces(o, decomp, sqrt);
      var loops := decomp(Offset(o.polygon.value, Vector(o.x, o.y)));
      && |ps| == |loops|
      && (forall i :: 0 <= i < |ps| ==> ps[i].loop == loops[i] && ps[i].properties == Some(OrEmpty(o.properties)))
      && (forall i :: 0 <= i < |o.polygon.value| ==>
            (Offset(o.polygon.value, Vector(o.x, o.y))[i]
             == Vector(o.x + o.polygon.value[i].x, o.y + o.polygon.value[i].y)))
  {
  }

  /** The pieces one object contributes, by the constructor's dispatch on its kind. */
  function ObjectPieces(o: LevelObject, decomp: Decomposition, turning: Turning, sqrt: SqrtFn): seq<Piece>
  {
    match Kind(o)
    case PolygonObject => PolygonPieces(o, decomp, sqrt)
    case TextObject => PolygonPieces(RectangleAsPolygon(o, turning), decomp, sqrt)
    case RectangleObject => PolygonPieces(RectangleAsPolygon(o, turning), decomp, sqrt)
    case _ => []
  }

  /**
   * Polylines, ellipses and tiles yield nothing; a text object yields what the same
   * rectangle would; every piece carries the object's properties or an empty set.
   */
  lemma ObjectPiecesMeaning(o: LevelObject, decomp: Decomposition, turning: Turning, sqrt: SqrtFn)
    ensures var ps := ObjectPieces(o, decomp, turning, sqrt);
      && (Kind(o) in {PolylineObject, EllipseObject, TileObject} ==> ps == [])
      && (Kind(o) == TextObject ==> ps == ObjectPieces(o.(text := false), decomp, turning, sqrt))
      && (forall i :: 0 <= i < |ps| ==> ps[i].properties == Some(OrEmpty(o.properties)))
  {
    match Kind(o)
    case PolygonObject => PolygonPiecesMeaning(o, decomp, sqrt);
    case TextObject =>
      PolygonPiecesMeaning(RectangleAsPolygon(o, turning), decomp, sqrt);
      assert Kind(o.(text := false)) == RectangleObject;
    case RectangleObject => PolygonPiecesMeaning(RectangleAsPolygon(o, turning), decomp, sqrt);
    case _ =>
  }

  /** The pieces of a whole object list, in object order. */
  function LayerPieces(objects: seq<LevelObject>, decomp: Decomposition, turning: Turning, sqrt: SqrtFn): seq<Piece>
  {
    if objects == [] then []
    else LayerPieces(objects[..|objects| - 1], decomp, turning, sqrt)
         + ObjectPieces(objects[|objects| - 1], decomp, turning, sqrt)
  }

  lemma {:induction false} LayerPiecesFlatten(objects: seq<LevelObject>, decomp: Decomposition,
                                              turning: Turning, sqrt: SqrtFn)
    ensures LayerPieces(objects, decomp, turning, sqrt)
         == Flatten(objects, o => ObjectPieces(o, decomp, turning, sqrt))
  {
    if objects != [] {
      LayerPiecesFlatten(objects[..|objects| - 1], decomp, turning, sqrt);
    }
  }

  /** Every piece of the layer comes from one of its objects, and every object's pieces are there. */
  lemma {:induction false} LayerPiecesFromObjects(objects: seq<LevelObject>, decomp: Decomposition,
                                                  turning: Turning, sqrt: SqrtFn, p: Piece)
    ensures p in LayerPieces(objects, decomp, turning, sqrt) <==>
      exists i :: 0 <= i < |objects| && p in ObjectPieces(objects[i], decomp, turning, sqrt)
  {
    LayerPiecesFlatten(objects, decomp, turning, sqrt);
    FlattenMembers(objects, o => ObjectPieces(o, decomp, turning, sqrt), p);
  }

  /** A layer of polylines, ellipses and tiles only yields no shape at all. */
  lemma {:induction false} IgnoredObjectsYieldNothing(objects: seq<LevelObject>, decomp: Decomposition,
                                                      turning: Turning, sqrt: SqrtFn)
    requires forall i :: 0 <= i < |objects| ==> Kind(objects[i]) in {PolylineObject, EllipseObject, TileObject}
    ensures LayerPieces(objects, decomp, turning, sqrt) == []
  {
    if objects != [] {
      IgnoredObjectsYieldNothing(objects[..|objects| - 1], decomp, turning, sqrt);
    }
  }

  /**
   * `shapes` holds one shape per piece, in order: the convex polygon of the piece's
   * loop, its properties, and the polygon's box as bounds.
   */
  predicate Holds(shapes: seq<Shape>, pieces: seq<Piece>, sqrt: SqrtFn) {
    && |shapes| == |pieces|
    && forall i :: 0 <= i < |shapes| ==>
         && shapes[i].polygon == FromVertices(pieces[i].loop, sqrt)
         && shapes[i].properties == pieces[i].properties
         && shapes[i].bounds == shapes[i].polygon.aabb
  }

  /** No shape appears twice: each was created once. */
  predicate Distinct(shapes: seq<Shape>) {
    forall i, j :: 0 <= i < j < |shapes| ==> shapes[i] != shapes[j]
  }

  /**
   * The polygon `collideWidth` tests for a sprite: its custom shape moved to the sprite's
   * position, or else its body rectangle, which `fromRectangle` refuses when the body
   * has a negative width or height.
   */
  function SpritePolygon(sprite: Sprite, sqrt: SqrtFn): (r: Result<ConvexPolygon, SatError>)
    reads sprite, sprite.body
    ensures sprite.body.shape.Some? ==> r.Ok?
    ensures sprite.body.shape.None? ==> (r.Err? <==> sprite.body.width < 0.0 || sprite.body.height < 0.0)
  {
    var body := sprite.body;
    match body.shape
    case Some(custom) => Ok(Translated(custom, Vector(sprite.x, sprite.y), sqrt))
    case None =>
      match FromRectangle(body.x, body.y, body.x + body.width, body.y + body.height, sqrt)
      case Err(e) => Err(InvalidBody(e))
      case Ok(p) => Ok(p)
  }

  /**
   * The axes `collideWidth` tries: every normal of both polygons for a custom shape;
   * otherwise the two coordinate axes first, which reject a sprite outside the shape's
   * box early, then the shape's normals.
   */
  function ContactAxes(shape: Shape, sprite: Sprite, spritePolygon: ConvexPolygon): (axes: seq<Vector>)
    reads sprite.body
    ensures sprite.body.shape.None? ==> |axes| >= 2
  {
    if sprite.body.shape.Some? then spritePolygon.normals + shape.polygon.normals
    else [Vector(1.0, 0.0), Vector(0.0, 1.0)] + shape.polygon.normals
  }

  /**
   * What a shape's `collideWidth(body)` answers: the separating-axis result for the
   * sprite polygon and the axes; an error when the body rectangle is malformed or there
   * is no axis to test.
   */
  function Contact(shape: Shape, sprite: Sprite, sqrt: SqrtFn): (r: Result<Option<Collision>, SatError>)
    reads sprite, sprite.body
    ensures SpritePolygon(sprite, sqrt).Err? ==> r.Err?
    ensures SpritePolygon(sprite, sqrt).Ok? ==>
      (r.Err? <==> ContactAxes(shape, sprite, SpritePolygon(sprite, sqrt).value) == [])
  {
    match SpritePolygon(sprite, sqrt)
    case Err(e) => Err(e)
    case Ok(p) =>
      var axes := ContactAxes(shape, sprite, p);
      if axes == [] then Err(NoAxes) else Ok(Collide(shape.polygon, p, axes))
  }

  /**
   * A shape and a sprite miss each other exactly when some axis tried separates them;
   * a hit's normal points from the shape towards the sprite.
   */
  lemma ContactSeparation(shape: Shape, sprite: Sprite, sqrt: SqrtFn)
    requires Contact(shape, sprite, sqrt).Ok?
    ensures var p := SpritePolygon(sprite, sqrt).value;
      var axes := ContactAxes(shape, sprite, p);
      var r := Contact(shape, sprite, sqrt).value;
      && (r.None? <==> exists i :: 0 <= i < |axes| && SeparatesOn(shape.polygon.vertices, p.vertices, axes[i]))
      && (r.Some? ==> p.centre.Minus(shape.polygon.centre).Dot(r.value.normal) >= 0.0)
  {
    var p := SpritePolygon(sprite, sqrt).value;
    CollideMeaning(shape.polygon, p, ContactAxes(shape, sprite, p));
  }

  /** The x axis separates a shape from any rectangle spanning [left, right] beside it. */
  lemma XAxisSeparates(vs: seq<Vector>, left: real, top: real, right: real, bottom: real)
    requires left <= right && top <= bottom && vs != []
    requires (forall v :: v in vs ==> v.x < left) || (forall v :: v in vs ==> v.x > right)
    ensures SeparatesOn(vs, RectangleCorners(left, top, right, bottom), Vector(1.0, 0.0))
  {
    var axis := Vector(1.0, 0.0);
    ProjectBoundsAttained(vs, axis);
    var lo, hi := Project(vs, axis).min, Project(vs, axis).max;
    var i :| 0 <= i < |vs| && vs[i].Dot(axis) == hi;
    var j :| 0 <= j < |vs| && vs[j].Dot(axis) == lo;
    assert vs[i] in vs && vs[j] in vs;
    RectangleProjection(RectangleCorners(left, top, right, bottom), axis, left, right);
  }

  /**
   * A plain body lying wholly to one side of every vertex of the shape misses it: the
   * x axis, tried first, already separates them.
   */
  lemma ClearOfBodyOnX(shape: Shape, sprite: Sprite, sqrt: SqrtFn)
    requires sprite.body.shape.None? && sprite.body.width >= 0.0 && sprite.body.height >= 0.0
    requires shape.polygon.vertices != []
    requires (forall v :: v in shape.polygon.vertices ==> v.x < sprite.body.x)
          || (forall v :: v in shape.polygon.vertices ==> v.x > sprite.body.x + sprite.body.width)
    ensures Contact(shape, sprite, sqrt) == Ok(None)
  {
    var body := sprite.body;
    var x, y, right, bottom := body.x, body.y, body.x + body.width, body.y + body.height;
    var p := FromRectangle(x, y, right, bottom, sqrt).value;
    assert SpritePolygon(sprite, sqrt) == Ok(p);
    assert p.vertices == RectangleCorners(x, y, right, bottom);
    XAxisSeparates(shape.polygon.vertices, x, y, right, bottom);
    var axes := ContactAxes(shape, sprite, p);
    assert axes[0] == Vector(1.0, 0.0);
    assert !NoneSeparates(shape.polygon.vertices, p.vertices, axes);
  }

  /**
   * The `collideWidth` closure each shape carries: choose the sprite polygon and the
   * axes, then run the separating-axis loop.
   */
  method CollideWidth(shape: Shape, sprite: Sprite, sqrt: SqrtFn) returns (r: Result<Option<Collision>, SatError>)
    ensures r == Contact(shape, sprite, sqrt)
  {
    var body := sprite.body;
    var spritePolygon: ConvexPolygon;
    var axes: seq<Vector>;
    if body.shape.Some? {
      spritePolygon := Translated(body.shape.value, Vector(sprite.x, sprite.y), sqrt);
      axes := spritePolygon.normals + shape.polygon.normals;
      assert SpritePolygon(sprite, sqrt) == Ok(spritePolygon);
    } else {
      var rectangle := FromRectangle(body.x, body.y, body.x + body.width, body.y + body.height, sqrt);
      if rectangle.Err? {
        return Err(InvalidBody(rectangle.error));
      }
      spritePolygon := rectangle.value;
      axes := [Vector(1.0, 0.0), Vector(0.0, 1.0)] + shape.polygon.normals;
      assert SpritePolygon(sprite, sqrt) == Ok(spritePolygon);
    }
    assert axes == ContactAxes(shape, sprite, spritePolygon);
    if axes == [] {
      return Err(NoAxes);
    }
    var collision := SeparatingAxisTest(shape.polygon, spritePolygon, axes);
    return Ok(collision);
  }

  /** Shapes for two runs of pieces, side by side, hold the joined run. */
  lemma HoldsAppend(a: seq<Shape>, pa: seq<Piece>, b: seq<Shape>, pb: seq<Piece>, sqrt: SqrtFn)
    requires Holds(a, pa, sqrt) && Holds(b, pb, sqrt)
    ensures Holds(a + b, pa + pb, sqrt)
  {
    assert forall i :: |a| <= i < |a| + |b| ==> (a + b)[i] == b[i - |a|] && (pa + pb)[i] == pb[i - |a|];
  }

  lemma LayerPiecesSnoc(objects: seq<LevelObject>, i: int, decomp: Decomposition, turning: Turning, sqrt: SqrtFn)
    requires 0 <= i < |objects|
    ensures LayerPieces(objects[..i + 1], decomp, turning, sqrt)
         == LayerPieces(objects[..i], decomp, turning, sqrt) + ObjectPieces(objects[i], decomp, turning, sqrt)
  {
    assert objects[..i + 1][..i] == objects[..i];
  }

  /** Appending the shapes of object i extends the shapes of the objects before it. */
  lemma LayerGrows(objects: seq<LevelObject>, i: int, before: seq<Shape>, after: seq<Shape>,
                   decomp: Decomposition, turning: Turning, sqrt: SqrtFn)
    requires 0 <= i < |objects|
    requires Holds(before, LayerPieces(objects[..i], decomp, turning, sqrt), sqrt)
    requires |after| >= |before| && after[..|before|] == before
    requires Holds(after[|before|..], ObjectPieces(objects[i], decomp, turning, sqrt), sqrt)
    ensures Holds(after, LayerPieces(objects[..i + 1], decomp, turning, sqrt), sqrt)
  {
    var prior, part := LayerPieces(objects[..i], decomp, turning, sqrt), ObjectPieces(objects[i], decomp, turning, sqrt);
    LayerPiecesSnoc(objects, i, decomp, turning, sqrt);
    HoldsGrow(before, after, prior, part, sqrt);
  }

  /** Shapes holding a run of pieces, extended by shapes holding the next run, hold both runs. */
  lemma HoldsGrow(before: seq<Shape>, after: seq<Shape>, prior: seq<Piece>, part: seq<Piece>, sqrt: SqrtFn)
    requires Holds(before, prior, sqrt)
    requires |after| >= |before| && after[..|before|] == before
    requires Holds(after[|before|..], part, sqrt)
    ensures Holds(after, prior + part, sqrt)
  {
    assert after == before + after[|before|..];
    HoldsAppend(before, prior, after[|before|..], part, sqrt);
  }

  class ShapeLayer {
    /** The object layer's objects, kept as `objectLayerJson`. */
    const objects: seq<LevelObject>
    var shapes: seq<Shape>
    var quadTree: QuadTree

    /**
     * Gathers the shapes of every object, in order, then files them in a quadtree of
     * at most 5 levels that splits nodes of 5 or more shapes.
     */
    constructor(layer: Layer, decomp: Decomposition, turning: Turning, sqrt: SqrtFn)
      ensures objects == layer.objects
      ensures Holds(shapes, LayerPieces(objects, decomp, turning, sqrt), sqrt)
      ensures Distinct(shapes)
      ensures forall k :: 0 <= k < |shapes| ==> fresh(shapes[k])
      ensures BuiltFrom(quadTree, shapes, 5, 5)
      ensures multiset(AllShapes(quadTree)) == multiset(shapes) && WellFormed(quadTree)
      ensures quadTree.Leaf? <==> |shapes| < 5
      ensures Depth(quadTree) <= 5
    {
      objects := layer.objects;
      shapes := [];
      quadTree := Leaf([]);
      new;
      AddObjects(decomp, turning, sqrt);
      quadTree := Build(shapes, 5, 5);
    }

    /** The constructor's loop: each object's shapes appended in order. */
    method AddObjects(decomp: Decomposition, turning: Turning, sqrt: SqrtFn)
      requires shapes == []
      modifies this
      ensures Holds(shapes, LayerPieces(objects, decomp, turning, sqrt), sqrt)
      ensures Distinct(shapes)
      ensures forall k :: 0 <= k < |shapes| ==> fresh(shapes[k])
    {
      for i := 0 to |objects|
        invariant Holds(shapes, LayerPieces(objects[..i], decomp, turning, sqrt), sqrt)
        invariant Distinct(shapes)
        invariant forall k :: 0 <= k < |shapes| ==> fresh(shapes[k])
      {
        ghost var before := shapes;
        AddObject(objects[i], decomp, turning, sqrt);
        LayerGrows(objects, i, before, shapes, decomp, turning, sqrt);
      }
      assert objects[..|objects|] == objects;
    }

    /** One object's shapes, by its kind; other kinds add nothing. */
    method AddObject(o: LevelObject, decomp: Decomposition, turning: Turning, sqrt: SqrtFn)
      modifies this
      ensures |shapes| >= |old(shapes)| && shapes[..|old(shapes)|] == old(shapes)
      ensures Holds(shapes[|old(shapes)|..], ObjectPieces(o, decomp, turning, sqrt), sqrt)
      ensures forall k :: |old(shapes)| <= k < |shapes| ==> fresh(shapes[k])
      ensures Distinct(old(shapes)) ==> Distinct(shapes)
    {
      ghost var pieces := ObjectPieces(o, decomp, turning, sqrt);
      match Kind(o) {
        case PolygonObject => AddPolygon(o, decomp, sqrt);
        case TextObject => AddRectangle(o, decomp, turning, sqrt);
        case RectangleObject => AddRectangle(o, decomp, turning, sqrt);
        case _ => assert pieces == [];
      }
    }

    /** Shapes for a rectangle (or text) object: its outline handed on as a polygon. */
    method AddRectangle(o: LevelObject, decomp: Decomposition, turning: Turning, sqrt: SqrtFn)
      modifies this
      ensures |shapes| >= |old(shapes)| && shapes[..|old(shapes)|] == old(shapes)
      ensures Holds(shapes[|old(shapes)|..], PolygonPieces(RectangleAsPolygon(o, turning), decomp, sqrt), sqrt)
      ensures forall k :: |old(shapes)| <= k < |shapes| ==> fresh(shapes[k])
      ensures Distinct(old(shapes)) ==> Distinct(shapes)
      ensures quadTree == old(quadTree)
    {
      AddPolygon(RectangleAsPolygon(o, turning), decomp, sqrt);
    }

    /** One shape per convex piece of the polygon, appended in order. */
    method AddPolygon(o: LevelObject, decomp: Decomposition, sqrt: SqrtFn)
      requires o.polygon.Some?
      modifies this
      ensures |shapes| >= |old(shapes)| && shapes[..|old(shapes)|] == old(shapes)
      ensures Holds(shapes[|old(shapes)|..], PolygonPieces(o, decomp, sqrt), sqrt)
      ensures forall k :: |old(shapes)| <= k < |shapes| ==> fresh(shapes[k])
      ensures Distinct(old(shapes)) ==> Distinct(shapes)
      ensures quadTree == old(quadTree)
    {
      var vertices := Offset(o.polygon.value, Vector(o.x, o.y));
      var convexPolygons := GenerateConvexPolygons(vertices, decomp, sqrt);
      ghost var before := shapes;
      for i := 0 to |convexPolygons|
        invariant |shapes| == |before| + i && shapes[..|before|] == before
        invariant forall k :: 0 <= k < i ==> Made(shapes[|before| + k], convexPolygons[k], o.properties)
        invariant Distinct(before) ==> Distinct(shapes)
        invariant forall k :: |before| <= k < |shapes| ==> fresh(shapes[k])
        invariant quadTree == old(quadTree)
      {
        var shape := AddConvexPolygon(convexPolygons[i], Some(OrEmpty(o.properties)));
        assert shapes[|before| + i] == shape;
      }
      MadeHolds(shapes[|before|..], convexPolygons, o, decomp, sqrt);
    }

    /** A new shape for one convex polygon, its bounds copied from the polygon's box. */
    method AddConvexPolygon(polygon: ConvexPolygon, properties: Option<Properties>) returns (shape: Shape)
      modifies this
      ensures fresh(shape) && shapes == old(shapes) + [shape]
      ensures shape.polygon == polygon && shape.properties == Some(OrEmpty(properties))
      ensures shape.bounds == polygon.aabb
      ensures Distinct(old(shapes)) ==> Distinct(shapes)
      ensures quadTree == old(quadTree)
    {
      shape := new Shape(polygon, Some(OrEmpty(properties)), polygon.aabb);
      shapes := shapes + [shape];
    }
  }

  /**
   * `new ShapeLayer(objectLayerJson)` as the event layer relies on it: shapes holding
   * the layer's pieces, filed in the quadtree the constructor builds.
   */
  method NewShapeLayer(layer: Layer, decomp: Decomposition, turning: Turning, sqrt: SqrtFn) returns (l: ShapeLayer)
    ensures fresh(l) && l.objects == layer.objects
    ensures Holds(l.shapes, LayerPieces(l.objects, decomp, turning, sqrt), sqrt)
    ensures BuiltFrom(l.quadTree, l.shapes, 5, 5)
    ensures multiset(AllShapes(l.quadTree)) == multiset(l.shapes)
  {
    l := new ShapeLayer(layer, decomp, turning, sqrt);
  }

  /** The shape `addConvexPolygon` makes for `polygon` under an object's properties. */
  predicate Made(shape: Shape, polygon: ConvexPolygon, properties: Option<Properties>) {
    && shape.polygon == polygon
    && shape.properties == Some(OrEmpty(properties))
    && shape.bounds == polygon.aabb
  }

  lemma MadeHolds(shapes: seq<Shape>, polygons: seq<ConvexPolygon>, o: LevelObject, decomp: Decomposition, sqrt: SqrtFn)
    requires o.polygon.Some?
    requires polygons == GenerateConvexPolygons(Offset(o.polygon.value, Vector(o.x, o.y)), decomp, sqrt)
    requires |shapes| == |polygons|
    requires forall k :: 0 <= k < |shapes| ==> Made(shapes[k], polygons[k], o.properties)
    ensures Holds(shapes, PolygonPieces(o, decomp, sqrt), sqrt)
  {
  }
}
