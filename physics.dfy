/**
 * The simple collision-response layer of src/tilemap-plus/Physics.js: the convex
 * shapes of one object layer, and `collideWith`, which pushes a sprite's body out of
 * every shape it overlaps, strips (or reflects, by the shape's `bounce`) the part of
 * its velocity that runs into the shape, and records the direction of the contacts.
 */
module Physics {
  import opened Wrappers
  import opened Vectors
  import opened Ranges
  import opened Boxes
  import opened Polygons
  import opened Sat
  import opened Levels
  import opened Shapes
  import opened ShapeLayers
  import opened Bodies

  /** The outline `addRectangle` gives a rectangle: its corners, never rotated. */
  function UprightOutline(o: LevelObject): seq<Vector> {
    [Vector(0.0, 0.0), Vector(o.width, 0.0), Vector(o.width, o.height), Vector(0.0, o.height)]
  }

  /** The polygon object `addRectangle` hands on: the object's own properties, kept as they are. */
  function UprightPolygon(o: LevelObject): LevelObject {
    o.(polygon := Some(UprightOutline(o)))
  }

  /** The pieces `addPolygon` makes: the convex parts of the offset outline, properties as given. */
  function LoopPieces(o: LevelObject, decomp: Decomposition): seq<Piece>
    requires o.polygon.Some?
  {
    var loops := decomp(Offset(o.polygon.value, Vector(o.x, o.y)));
    seq(|loops|, i requires 0 <= i < |loops| => Piece(loops[i], o.properties))
  }

  /** The pieces one object contributes: polygons and rectangles; text is ignored here. */
  function PhysicsPieces(o: LevelObject, decomp: Decomposition): seq<Piece> {
    match Kind(o)
    case PolygonObject => LoopPieces(o, decomp)
    case RectangleObject => LoopPieces(UprightPolygon(o), decomp)
    case _ => []
  }

  /** The pieces of all the objects, object by object in order. */
  function PhysicsLayerPieces(objects: seq<LevelObject>, decomp: Decomposition): seq<Piece> {
    if objects == [] then []
    else PhysicsLayerPieces(objects[..|objects| - 1], decomp) + PhysicsPieces(objects[|objects| - 1], decomp)
  }

  /** `addRectangle`'s outline is the outline ShapeLayer makes for the same rectangle unrotated. */
  lemma UprightIsUnrotated(o: LevelObject, turning: Turning)
    requires o.rotation == 0.0
    ensures UprightOutline(o) == RectangleOutline(o, turning)
  {
    RectangleOutlineShape(o, turning);
  }

  /**
   * Where both layers read an object (a polygon, or a rectangle that is not rotated)
   * they cut it into the same loops; ShapeLayer only fills in missing properties.
   * Text, which ShapeLayer reads as a rectangle, gives Physics nothing.
   */
  lemma {:induction false} AgreesWithShapeLayer(o: LevelObject, decomp: Decomposition, turning: Turning, sqrt: SqrtFn)
    ensures Kind(o) == TextObject ==> PhysicsPieces(o, decomp) == []
    ensures Kind(o) == PolygonObject || (Kind(o) == RectangleObject && o.rotation == 0.0) ==>
      var ps, ss := PhysicsPieces(o, decomp), ObjectPieces(o, decomp, turning, sqrt);
      && |ps| == |ss|
      && forall i :: 0 <= i < |ps| ==>
           ps[i].loop == ss[i].loop && ss[i].properties == Some(OrEmpty(ps[i].properties))
  {
    match Kind(o) {
      case PolygonObject =>
        PolygonPiecesMeaning(o, decomp, sqrt);
      case RectangleObject =>
        if o.rotation == 0.0 {
          UprightIsUnrotated(o, turning);
          assert UprightPolygon(o).polygon == RectangleAsPolygon(o, turning).polygon;
          PolygonPiecesMeaning(RectangleAsPolygon(o, turning), decomp, sqrt);
        }
      case _ =>
    }
  }

  /**
   * The shapes the layer keeps for `pieces`: one per piece, in order, each holding the
   * piece's polygon and properties, with the bounds `addConvexPolygon` computes as
   * written (`TypoBounds`).
   */
  predicate PhysicsHolds(shapes: seq<Shape>, pieces: seq<Piece>, sqrt: SqrtFn) {
    && |shapes| == |pieces|
    && forall i :: 0 <= i < |shapes| ==> Kept(shapes[i], FromVertices(pieces[i].loop, sqrt), pieces[i].properties)
  }

  lemma PhysicsHoldsAppend(a: seq<Shape>, pa: seq<Piece>, b: seq<Shape>, pb: seq<Piece>, sqrt: SqrtFn)
    requires PhysicsHolds(a, pa, sqrt) && PhysicsHolds(b, pb, sqrt)
    ensures PhysicsHolds(a + b, pa + pb, sqrt)
  {
    assert forall i :: |a| <= i < |a| + |b| ==> (a + b)[i] == b[i - |a|] && (pa + pb)[i] == pb[i - |a|];
  }

  /** An object never adds shapes before the ones of the objects before it. */
  lemma PhysicsLayerGrows(objects: seq<LevelObject>, i: int, before: seq<Shape>, after: seq<Shape>,
                          decomp: Decomposition, sqrt: SqrtFn)
    requires 0 <= i < |objects|
    requires PhysicsHolds(before, PhysicsLayerPieces(objects[..i], decomp), sqrt)
    requires |after| >= |before| && after[..|before|] == before
    requires PhysicsHolds(after[|before|..], PhysicsPieces(objects[i], decomp), sqrt)
    ensures PhysicsHolds(after, PhysicsLayerPieces(objects[..i + 1], decomp), sqrt)
  {
    assert after == before + after[|before|..];
    assert objects[..i + 1][..i] == objects[..i];
    PhysicsHoldsAppend(before, PhysicsLayerPieces(objects[..i], decomp),
                       after[|before|..], PhysicsPieces(objects[i], decomp), sqrt);
  }

  /**
   * The shape `addConvexPolygon` makes for `polygon`: its properties passed on as given,
   * its bounds as the source's loop computes them.
   */
  predicate Kept(shape: Shape, polygon: ConvexPolygon, properties: Option<Properties>) {
    && shape.polygon == polygon
    && shape.properties == properties
    && shape.bounds == TypoBounds(polygon.vertices)
  }

  lemma KeptHolds(shapes: seq<Shape>, polygons: seq<ConvexPolygon>, o: LevelObject, decomp: Decomposition, sqrt: SqrtFn)
    requires o.polygon.Some?
    requires polygons == GenerateConvexPolygons(Offset(o.polygon.value, Vector(o.x, o.y)), decomp, sqrt)
    requires |shapes| == |polygons|
    requires forall k :: 0 <= k < |shapes| ==> Kept(shapes[k], polygons[k], o.properties)
    ensures PhysicsHolds(shapes, LoopPieces(o, decomp), sqrt)
  {
  }

  /**
   * The bounds loop of `addConvexPolygon` as evidently intended: each vertex widens
   * left/top/right/bottom from the +/-Infinity start.
   */
  method Bounds(vertices: seq<Vector>) returns (b: AABB)
    ensures b == FromPoints(vertices)
  {
    b := EmptyBox;
    for i := 0 to |vertices|
      invariant b == FromPoints(vertices[..i])
    {
      assert vertices[..i + 1] == vertices[..i] + [vertices[i]];
      FromPointsSnoc(vertices[..i], vertices[i]);
      b := Union(b, FromPoint(vertices[i]));
    }
    assert vertices[..|vertices|] == vertices;
  }

  /**
   * What the bounds loop of `addConvexPolygon` computes as written: `top`, `right` and
   * `bottom` are taken against `left` instead of against themselves, so only `left`
   * accumulates and the other three depend on the last vertex alone.
   */
  function TypoBounds(vertices: seq<Vector>): (b: AABB)
    ensures b.EmptyBox? <==> vertices == []
    ensures vertices != [] ==> b.left == FromPoints(vertices).left
  {
    if vertices == [] then EmptyBox
    else
      var left := FromPoints(vertices).left;
      var last := vertices[|vertices| - 1];
      Box(left, Min(left, last.y), Max(left, last.x), Max(left, last.y))
  }

  /** The bounds loop exactly as written. */
  method BoundsAsWritten(vertices: seq<Vector>) returns (b: AABB)
    ensures b == TypoBounds(vertices)
  {
    b := EmptyBox;
    for i := 0 to |vertices|
      invariant b == TypoBounds(vertices[..i])
    {
      var vertex := vertices[i];
      assert vertices[..i + 1] == vertices[..i] + [vertex];
      FromPointsSnoc(vertices[..i], vertex);
      var left := if b.EmptyBox? then vertex.x else Min(b.left, vertex.x);
      var top := Min(left, vertex.y);
      var right := Max(left, vertex.x);
      var bottom := Max(left, vertex.y);
      b := Box(left, top, right, bottom);
    }
    assert vertices[..|vertices|] == vertices;
  }

  /**
   * The as-written bounds of the triangle (0,0), (4,0), (0,4) end at x = 0 and so miss
   * the vertex (4,0), which the intended bounds contain.
   */
  lemma TypoBoundsMissAVertex()
    ensures var vs := [Vector(0.0, 0.0), Vector(4.0, 0.0), Vector(0.0, 4.0)];
      && TypoBounds(vs) == Box(0.0, 0.0, 0.0, 4.0)
      && !TypoBounds(vs).ContainsPoint(vs[1])
      && FromPoints(vs).ContainsPoint(vs[1])
  {
    var vs := [Vector(0.0, 0.0), Vector(4.0, 0.0), Vector(0.0, 4.0)];
    assert vs[1..] == [Vector(4.0, 0.0), Vector(0.0, 4.0)];
    assert vs[1..][1..] == [Vector(0.0, 4.0)];
    assert FromPoints(vs).left == 0.0;
  }

  /**
   * The `collideWidth` closure of a Physics shape, as evidently intended: the body's
   * rectangle against the shape, on the two unit axes and the shape's normals.
   */
  method RectangleContact(shape: Shape, body: Body, sqrt: SqrtFn) returns (r: Result<Option<Collision>, SatError>)
    ensures r == RectangleCollision(shape.polygon, body.x, body.y, body.width, body.height, sqrt)
  {
    var bodyLeft, bodyTop, width, height := body.x, body.y, body.width, body.height;
    ghost var expected := RectangleCollision(shape.polygon, bodyLeft, bodyTop, width, height, sqrt);
    var axes := [Vector(1.0, 0.0), Vector(0.0, 1.0)] + shape.polygon.normals;
    var spritePolygon := FromRectangle(bodyLeft, bodyTop, bodyLeft + width, bodyTop + height, sqrt);
    if spritePolygon.Err? {
      assert expected == Err(InvalidBody(spritePolygon.error));
      return Err(InvalidBody(spritePolygon.error));
    }
    var collision := SeparatingAxisTest(shape.polygon, spritePolygon.value, axes);
    RectangleCollisionOfPolygon(shape.polygon, bodyLeft, bodyTop, width, height, sqrt, spritePolygon.value);
    return Ok(collision);
  }

  /** What a call of `collideWidth` can end in, as written. */
  datatype ContactFailure =
    | Failed(error: SatError)
    | NotAFunction(name: string)   // the TypeError of calling an undefined static method

  /**
   * `collideWidth` as written: once no axis separates, it calls `Vector.difference`,
   * which the Vector class does not define, so every overlap throws instead of
   * answering.
   */
  function RectangleContactAsWritten(shape: Shape, left: real, top: real, width: real, height: real,
                                     sqrt: SqrtFn): (r: Result<Option<Collision>, ContactFailure>)
    ensures r.Ok? ==> r.value.None?
  {
    match RectangleCollision(shape.polygon, left, top, width, height, sqrt)
    case Err(e) => Err(Failed(e))
    case Ok(None) => Ok(None)
    case Ok(Some(_)) => Err(NotAFunction("Vector.difference"))
  }

  /** A body lying exactly on a rectangular shape overlaps it on every axis there is. */
  lemma {:induction false} SelfOverlapIsAHit(shape: Shape, left: real, top: real, width: real, height: real, sqrt: SqrtFn)
    requires width >= 0.0 && height >= 0.0
    requires shape.polygon.vertices == RectangleCorners(left, top, left + width, top + height)
    ensures RectangleCollision(shape.polygon, left, top, width, height, sqrt).Ok?
    ensures RectangleCollision(shape.polygon, left, top, width, height, sqrt).value.Some?
    ensures RectangleContactAsWritten(shape, left, top, width, height, sqrt) == Err(NotAFunction("Vector.difference"))
  {
    var vs := shape.polygon.vertices;
    RectangleCollisionMeaning(shape.polygon, left, top, width, height, sqrt);
    forall axis | axis in [Vector(1.0, 0.0), Vector(0.0, 1.0)] + shape.polygon.normals
      ensures !SeparatesOn(vs, vs, axis)
    {
      var p := Project(vs, axis);
      assert vs[0].Dot(axis) == vs[0].Dot(axis);
      assert p.ContainsPoint(vs[0].Dot(axis));
    }
  }

  /** The body state `collideWith` reads and writes. */
  datatype Motion = Motion(x: real, y: real, velocity: Vector, contactNormal: Vector)

  /** `shape.properties && shape.properties.bounce`, taken as a condition: present and non-zero. */
  function Bounce(properties: Option<Properties>): (b: Option<real>)
    ensures b.Some? <==> properties.Some? && properties.value.bounce.Some? && properties.value.bounce.value != 0.0
    ensures b.Some? ==> b == properties.value.bounce
  {
    if properties.Some? && properties.value.bounce.Some? && properties.value.bounce.value != 0.0 then
      properties.value.bounce
    else None
  }

  /**
   * The response to one hit: the contact normal gains the hit's normal, the body moves
   * back by the penetration, and when the body moves into the shape its velocity's
   * normal part is reflected by `bounce` (or dropped) and its tangent part kept.
   */
  function Respond(m: Motion, c: Collision, bounce: Option<real>): Motion {
    var pushed := Motion(m.x - c.penetration.x, m.y - c.penetration.y, m.velocity, m.contactNormal.Plus(c.normal));
    var speedNormal := m.velocity.Dot(c.normal);
    if speedNormal >= 0.0 then pushed
    else
      var velocityNormal := c.normal.Scale(speedNormal);
      var velocityTangent := m.velocity.Minus(velocityNormal);
      var newVelocityNormal := if bounce.Some? then velocityNormal.Scale(-bounce.value) else Vector(0.0, 0.0);
      pushed.(velocity := newVelocityNormal.Plus(velocityTangent))
  }

  /** One shape's turn: test the body where it now stands and respond to a hit. */
  function Step(m: Motion, shape: Shape, width: real, height: real, sqrt: SqrtFn): Result<Motion, SatError> {
    match RectangleCollision(shape.polygon, m.x, m.y, width, height, sqrt)
    case Err(e) => Err(e)
    case Ok(None) => Ok(m)
    case Ok(Some(c)) => Ok(Respond(m, c, Bounce(shape.properties)))
  }

  /** The shapes taken in order, each seeing the body where the ones before it left it. */
  function Resolve(m: Motion, shapes: seq<Shape>, width: real, height: real, sqrt: SqrtFn): Result<Motion, SatError> {
    if shapes == [] then Ok(m)
    else
      match Resolve(m, shapes[..|shapes| - 1], width, height, sqrt)
      case Err(e) => Err(e)
      case Ok(m') => Step(m', shapes[|shapes| - 1], width, height, sqrt)
  }

  /** One more shape is one more step from where the shapes before it left the body. */
  lemma ResolveSnoc(m: Motion, shapes: seq<Shape>, i: int, width: real, height: real, sqrt: SqrtFn, current: Motion)
    requires 0 <= i < |shapes|
    requires Resolve(m, shapes[..i], width, height, sqrt) == Ok(current)
    ensures Resolve(m, shapes[..i + 1], width, height, sqrt) == Step(current, shapes[i], width, height, sqrt)
  {
    assert shapes[..i + 1][..i] == shapes[..i];
  }

  /** The body's state, as a value. */
  function Current(body: Body): Motion
    reads body
  {
    Motion(body.x, body.y, body.velocity, body.contactNormal)
  }

  /** A hit moves the body back by exactly the penetration and adds the normal to the contact. */
  lemma RespondPushesOut(m: Motion, c: Collision, bounce: Option<real>)
    ensures var r := Respond(m, c, bounce);
      && Vector(m.x, m.y).Minus(Vector(r.x, r.y)) == c.penetration
      && r.contactNormal.Minus(m.contactNormal) == c.normal
  {
  }

  /** A body already moving away from (or along) the shape keeps its velocity. */
  lemma MovingAwayKeepsVelocity(m: Motion, c: Collision, bounce: Option<real>)
    requires m.velocity.Dot(c.normal) >= 0.0
    ensures Respond(m, c, bounce).velocity == m.velocity
  {
  }

  /**
   * Against a unit normal, a body moving into the shape leaves with its normal speed
   * multiplied by -bounce (0 without a bounce), and with its tangential velocity unchanged.
   */
  lemma BounceReflectsNormalSpeed(m: Motion, c: Collision, bounce: Option<real>)
    requires c.normal.Dot(c.normal) == 1.0
    requires m.velocity.Dot(c.normal) < 0.0
    ensures var s, v := m.velocity.Dot(c.normal), Respond(m, c, bounce).velocity;
      && v.Dot(c.normal) == (if bounce.Some? then -bounce.value * s else 0.0)
      && v.Minus(c.normal.Scale(v.Dot(c.normal))) == m.velocity.Minus(c.normal.Scale(s))
  {
    var n, u := c.normal, m.velocity;
    var s := u.Dot(n);
    var tangent := u.Minus(n.Scale(s));
    var reflected := if bounce.Some? then n.Scale(s).Scale(-bounce.value) else Vector(0.0, 0.0);
    var v := Respond(m, c, bounce).velocity;
    assert v == reflected.Plus(tangent);
    DotMinus(u, n.Scale(s), n);
    DotScale(n, s, n);
    assert tangent.Dot(n) == 0.0;
    DotPlus(reflected, tangent, n);
    var d := if bounce.Some? then -bounce.value * s else 0.0;
    if bounce.Some? {
      DotScale(n.Scale(s), -bounce.value, n);
      assert reflected.Dot(n) == d;
      assert reflected == n.Scale(d);
    }
    assert v.Dot(n) == d;
  }

  /** With a non-negative bounce, a body moving into a shape no longer moves into it afterwards. */
  lemma NoLongerApproaching(m: Motion, c: Collision, bounce: Option<real>)
    requires c.normal.Dot(c.normal) == 1.0
    requires bounce.None? || bounce.value >= 0.0
    ensures Respond(m, c, bounce).velocity.Dot(c.normal) >= 0.0
  {
    var s := m.velocity.Dot(c.normal);
    if s < 0.0 {
      BounceReflectsNormalSpeed(m, c, bounce);
      if bounce.Some? {
        assert -bounce.value * s == bounce.value * -s;
      }
    }
  }

  /** A body clear of every shape comes out as it went in. */
  lemma {:induction false} ResolveWithoutHits(m: Motion, shapes: seq<Shape>, width: real, height: real, sqrt: SqrtFn)
    requires forall i :: 0 <= i < |shapes| ==> RectangleCollision(shapes[i].polygon, m.x, m.y, width, height, sqrt) == Ok(None)
    ensures Resolve(m, shapes, width, height, sqrt) == Ok(m)
  {
    if shapes != [] {
      ResolveWithoutHits(m, shapes[..|shapes| - 1], width, height, sqrt);
    }
  }

  /**
   * A body with a negative extent fails on the first shape, with the error
   * `fromRectangle` raises for it; with no shapes nothing is checked.
   */
  lemma {:induction false} ResolveFailsOnBadBody(m: Motion, shapes: seq<Shape>, width: real, height: real, sqrt: SqrtFn)
    ensures Resolve(m, shapes, width, height, sqrt).Err? <==> shapes != [] && (width < 0.0 || height < 0.0)
    ensures Resolve(m, shapes, width, height, sqrt).Err? ==>
      Resolve(m, shapes, width, height, sqrt).error
        == InvalidBody(if width < 0.0 then RightLessThanLeft else BottomLessThanTop)
  {
    if shapes != [] {
      var init := shapes[..|shapes| - 1];
      ResolveFailsOnBadBody(m, init, width, height, sqrt);
      var last := shapes[|shapes| - 1];
      match Resolve(m, init, width, height, sqrt) {
        case Err(_) =>
        case Ok(m') =>
          var c := RectangleCollision(last.polygon, m'.x, m'.y, width, height, sqrt);
          if c.Err? {
            assert FromRectangle(m'.x, m'.y, m'.x + width, m'.y + height, sqrt).Err?;
          }
      }
    }
  }

  /**
   * The body of `collideWith`'s loop for a hit: add the normal to the contact normal,
   * back out of the shape, and unless the body is already moving away, split the
   * velocity into normal and tangent parts and rebuild it from the restituted normal
   * part and the unchanged tangent part.
   */
  method RespondTo(body: Body, collision: Collision, bounce: Option<real>)
    modifies body
    ensures Current(body) == Respond(old(Current(body)), collision, bounce)
    ensures body.width == old(body.width) && body.height == old(body.height) && body.shape == old(body.shape)
  {
    var velocity := body.velocity;
    var penetration := collision.penetration;
    var normal := collision.normal;
    body.contactNormal := body.contactNormal.Plus(normal);
    body.x := body.x - penetration.x;
    body.y := body.y - penetration.y;
    var speedNormal := velocity.Dot(normal);
    if speedNormal >= 0.0 {
      return;
    }
    var velocityNormal := normal.Scale(speedNormal);
    var velocityTangent := velocity.Minus(velocityNormal);
    var newVelocityNormal;
    if bounce.Some? {
      newVelocityNormal := velocityNormal.Scale(-bounce.value);
    } else {
      newVelocityNormal := Vector(0.0, 0.0);
    }
    var newVelocityTangent := velocityTangent;
    body.velocity := newVelocityNormal.Plus(newVelocityTangent);
  }

  class Physics {
    /** The map's layers (`tilemapJson.layers`). */
    const layers: seq<Layer>
    var shapes: seq<Shape>
    /** Fixed at (0, 1000) and never read. */
    const gravity: Vector

    constructor(layers: seq<Layer>)
      ensures this.layers == layers && shapes == [] && gravity == Vector(0.0, 1000.0)
    {
      this.layers := layers;
      shapes := [];
      gravity := Vector(0.0, 1000.0);
    }

    /**
     * Replaces the shapes with those of the named object layer: one per convex piece
     * of each polygon and rectangle, in order. Fails, changing nothing, when the map
     * has no such layer.
     */
    method EnableObjectLayer(name: string, decomp: Decomposition, sqrt: SqrtFn) returns (r: Result<(), LayerError>)
      modifies this
      ensures FindObjectLayer(layers, name).None? ==> r == Err(NoObjectLayer(name)) && shapes == old(shapes)
      ensures FindObjectLayer(layers, name).Some? ==>
        && r == Ok(())
        && PhysicsHolds(shapes, PhysicsLayerPieces(FindObjectLayer(layers, name).value.objects, decomp), sqrt)
        && Distinct(shapes)
    {
      var found := FindObjectLayer(layers, name);
      if found.None? {
        return Err(NoObjectLayer(name));
      }
      var objects := found.value.objects;
      shapes := [];
      for i := 0 to |objects|
        invariant PhysicsHolds(shapes, PhysicsLayerPieces(objects[..i], decomp), sqrt)
        invariant Distinct(shapes)
      {
        var o := objects[i];
        ghost var before := shapes;
        ghost var pieces := PhysicsPieces(o, decomp);
        match Kind(o) {
          case PolygonObject => AddPolygon(o, decomp, sqrt);
          case RectangleObject => AddRectangle(o, decomp, sqrt);
          case _ => assert pieces == [];
        }
        PhysicsLayerGrows(objects, i, before, shapes, decomp, sqrt);
      }
      assert objects[..|objects|] == objects;
      return Ok(());
    }

    /** Shapes for a rectangle: its upright outline handed on as a polygon. */
    method AddRectangle(o: LevelObject, decomp: Decomposition, sqrt: SqrtFn)
      modifies this
      ensures |shapes| >= |old(shapes)| && shapes[..|old(shapes)|] == old(shapes)
      ensures PhysicsHolds(shapes[|old(shapes)|..], LoopPieces(UprightPolygon(o), decomp), sqrt)
      ensures Distinct(old(shapes)) ==> Distinct(shapes)
    {
      AddPolygon(UprightPolygon(o), decomp, sqrt);
    }

    /** One shape per convex piece of the polygon, appended in order. */
    method AddPolygon(o: LevelObject, decomp: Decomposition, sqrt: SqrtFn)
      requires o.polygon.Some?
      modifies this
      ensures |shapes| >= |old(shapes)| && shapes[..|old(shapes)|] == old(shapes)
      ensures PhysicsHolds(shapes[|old(shapes)|..], LoopPieces(o, decomp), sqrt)
      ensures Distinct(old(shapes)) ==> Distinct(shapes)
    {
      var vertices := Offset(o.polygon.value, Vector(o.x, o.y));
      var convexPolygons := GenerateConvexPolygons(vertices, decomp, sqrt);
      ghost var before := shapes;
      for i := 0 to |convexPolygons|
        invariant |shapes| == |before| + i && shapes[..|before|] == before
        invariant forall k :: 0 <= k < i ==> Kept(shapes[|before| + k], convexPolygons[k], o.properties)
        invariant Distinct(before) ==> Distinct(shapes)
      {
        var shape := AddConvexPolygon(convexPolygons[i], o.properties);
        assert shapes[|before| + i] == shape;
      }
      KeptHolds(shapes[|before|..], convexPolygons, o, decomp, sqrt);
    }

    /**
     * A new shape for one convex polygon, with the bounds the source's loop computes
     * (`TypoBounds`; `Bounds` is the box that loop was meant to compute).
     */
    method AddConvexPolygon(polygon: ConvexPolygon, properties: Option<Properties>) returns (shape: Shape)
      modifies this
      ensures fresh(shape) && shapes == old(shapes) + [shape]
      ensures Kept(shape, polygon, properties)
      ensures Distinct(old(shapes)) ==> Distinct(shapes)
    {
      var bounds := BoundsAsWritten(polygon.vertices);
      shape := new Shape(polygon, properties, bounds);
      shapes := shapes + [shape];
    }

    /**
     * `collideWith`: zeroes the contact normal, takes every shape in turn against the
     * body where it now stands, and finally normalises the contact normal. A body of
     * negative extent makes the first test throw, leaving the body as it was apart
     * from the zeroed contact normal.
     */
    method CollideWith(sprite: Sprite, sqrt: SqrtFn) returns (r: Result<(), SatError>)
      modifies sprite.body
      ensures sprite.body.width == old(sprite.body.width) && sprite.body.height == old(sprite.body.height)
      ensures sprite.body.shape == old(sprite.body.shape)
      ensures var start := Motion(old(sprite.body.x), old(sprite.body.y), old(sprite.body.velocity), Vector(0.0, 0.0));
        match Resolve(start, shapes, old(sprite.body.width), old(sprite.body.height), sqrt)
        case Err(e) => r == Err(e) && Current(sprite.body) == start
        case Ok(m) => r == Ok(()) && Current(sprite.body) == m.(contactNormal := m.contactNormal.Normalized(sqrt))
    {
      var body := sprite.body;
      body.contactNormal := Vector(0.0, 0.0);
      ghost var start := Current(body);
      for i := 0 to |shapes|
        invariant body.width == old(body.width) && body.height == old(body.height) && body.shape == old(body.shape)
        invariant Resolve(start, shapes[..i], body.width, body.height, sqrt) == Ok(Current(body))
        invariant i > 0 ==> body.width >= 0.0 && body.height >= 0.0
      {
        var shape := shapes[i];
        ghost var current := Current(body);
        ResolveSnoc(start, shapes, i, body.width, body.height, sqrt, current);
        var collision := RectangleContact(shape, body, sqrt);
        if collision.Err? {
          ResolveFailsOnBadBody(start, shapes, body.width, body.height, sqrt);
          return Err(collision.error);
        }
        if collision.value.Some? {
          RespondTo(body, collision.value.value, Bounce(shape.properties));
        }
      }
      assert shapes[..|shapes|] == shapes;
      body.contactNormal := body.contactNormal.Normalized(sqrt);
      return Ok(());
    }
  }
}
