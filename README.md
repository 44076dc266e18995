# phaser-tilemap-plus: collision geometry, events and tile animation

A Dafny model of the core of phaser-tilemap-plus, a Phaser plugin that adds to Tiled maps
collision shapes, region events and tile animation. It covers these parts:

- **Geometry values**
  - `Vectors`: 2-D vectors.
  - `Ranges`: 1-D intervals, the result of projecting a polygon onto an axis.
  - `Boxes`: axis-aligned boxes.
  - `LegacyBoxes`: the older box class.
  - `Polygons`: convex polygons with their edges, outward normals, centre and box.
- **Collision**
  - `QuadTrees`: the static spatial index.
  - `Sat`: the separating-axis test. It keeps the first axis of minimum penetration and turns its normal towards the sprite.
  - `ShapeLayers`: turns the objects of a Tiled object layer into convex shapes.
  - `Physics`: pushes a body out of every shape it overlaps, and strips or reflects the part of its velocity that runs into the shape.
- **Event layers**
  - `CollisionEventLayer`: calls a sprite's listeners for each shape it starts touching.
  - `RegionEventLayer`: calls enter and leave listeners as a sprite crosses region shapes.
  - `Notices`: the list difference and listener broadcast that both event layers share.
- **Animation**
  - `Animations`: steps a map's animated tiles and repaints their cells.

Coordinates are real numbers. Three host services are parameters, not computed:
- the square root, which the model trusts only under the hypothesis `RootAt`;
- the cosine and sine of a rotation;
- the `poly-decomp` decomposition of a vertex loop into convex loops.

An empty range or box is a constructor of its own (`Empty`, `EmptyBox`) in place of the
source's ±Infinity sentinels.

The layers that update state in place are classes whose methods change their fields:
- `ShapeLayer` and `Physics` hold their shapes;
- `CollisionEvents` and `RegionEvents` hold the per-sprite maps;
- `Animation` holds the timer flag, the running animations, the tile indices and the layers' dirty flags.

Each method states its new state through specification functions. Lemmas prove what the source promises about those functions.

Listeners are opaque identities. Calling them is modelled as a call trace (`calls`) that the event layers append to.
A thrown `Error` or `TypeError` is an `Err` result.

## Model

| member | source | states |
|---|---|---|
| Vectors.MakeVector | src/tilemap-plus/Vector.js:2-5 | a missing component defaults to 0 |
| Vectors.Vector.Plus | src/tilemap-plus/Vector.js:38-44 | subtracting the added vector gives back the original |
| Vectors.Vector.Minus | src/tilemap-plus/Vector.js:42-44 | the difference is componentwise |
| Vectors.Vector.Scale | src/tilemap-plus/Vector.js:54-56 | both components are multiplied by the factor |
| Vectors.Vector.Perpendicular | src/tilemap-plus/Vector.js:28-30 | the perpendicular has dot product 0 with the vector, and perpDot x²+y² |
| Vectors.Vector.Rotated | src/tilemap-plus/Vector.js:32-36 | the rotation by angle 0 (direction (1,0)) is the identity |
| Vectors.RotationKeepsDot | src/tilemap-plus/Vector.js:32-36 | a rotation by a unit direction keeps every dot product |
| Vectors.Vector.Clone | src/tilemap-plus/Vector.js:7-9 | the clone equals the original |
| Vectors.Vector.Equals | src/tilemap-plus/Vector.js:11-13 | equal iff the argument is present and componentwise equal |
| Vectors.Vector.Normalized | src/tilemap-plus/Vector.js:19-26 | zero length gives the zero vector; the result is parallel to the vector |
| Vectors.NormalizedIsUnit | src/tilemap-plus/Vector.js:15-26 | with a true square root, a non-zero vector normalises to unit length |
| Vectors.PlusCommutes | src/tilemap-plus/Vector.js:38-40 | addition commutes |
| Vectors.DotSymmetric | src/tilemap-plus/Vector.js:46-48 | the dot product is symmetric |
| Vectors.PerpDotAntisymmetric | src/tilemap-plus/Vector.js:50-52 | the perp-dot product is antisymmetric |
| Vectors.DotMinus | src/tilemap-plus/Vector.js:42-48 | projection distributes over difference |
| Vectors.DotPlus | src/tilemap-plus/Vector.js:38-48 | projection distributes over sum |
| Vectors.DotScale | src/tilemap-plus/Vector.js:46-56 | projection commutes with scaling |
| Ranges.NewRange | src/tilemap-plus/Range.js:2-4 | a fresh range is empty and contains no point |
| Ranges.Range.ContainsPoint | src/tilemap-plus/Range.js:15-17 | a range that contains a point is not empty |
| Ranges.Range.ExtendTo | src/tilemap-plus/Range.js:6-13 | the range then contains the point and every point it held; an empty range becomes [p, p] |
| Ranges.Range.Length | src/tilemap-plus/Range.js:32-37 | absent (NaN) iff empty, otherwise max - min ≥ 0 |
| Ranges.Intersection | src/tilemap-plus/Range.js:39-47 | holds exactly the common points; empty iff the ranges are disjoint; an empty result is the canonical empty range; otherwise [max of mins, min of maxes] |
| Ranges.IntersectionLength | src/tilemap-plus/Range.js:32-47 | an overlap's length is min of maxes minus max of mins |
| Ranges.Bound | src/tilemap-plus/Range.js:49-54 | holds every point of either range; [min of mins, max of maxes] |
| Ranges.NoRangeContainsItself | src/tilemap-plus/Range.js:19-21 | with the strict upper comparison no non-empty range contains itself |
| Ranges.ContainsRangeClosedIsInclusion | src/tilemap-plus/Range.js:19-21 | the inclusive comparison is exactly inclusion of point sets |
| Boxes.DefaultIsEmpty | src/tilemap-plus/geometry/AABB.js:4-13 | the default box is empty and contains no point |
| Boxes.AABB.Width | src/tilemap-plus/geometry/AABB.js:15-18 | NaN iff right < left, otherwise the non-negative distance from left to right |
| Boxes.AABB.Height | src/tilemap-plus/geometry/AABB.js:20-23 | NaN iff bottom < top, otherwise the non-negative distance from top to bottom |
| Boxes.AABB.Centre | src/tilemap-plus/geometry/AABB.js:25-27 | the midpoint of both sides, inside a non-empty box |
| Boxes.AABB.ContainsPoint | src/tilemap-plus/geometry/AABB.js:29-32 | a box that contains a point is not empty |
| Boxes.AABB.ContainsPoints | src/tilemap-plus/geometry/AABB.js:34-41 | true iff every point is contained |
| Boxes.IntersectsSymmetric | src/tilemap-plus/geometry/AABB.js:43-50 | intersection is symmetric |
| Boxes.IntersectsIffCommonPoint | src/tilemap-plus/geometry/AABB.js:43-50 | non-empty boxes intersect iff they share a point (touching edges count) |
| Boxes.AABB.Translated | src/tilemap-plus/geometry/AABB.js:52-59 | the box holds p iff the moved box holds p + offset; width and height are kept |
| Boxes.FromPoint | src/tilemap-plus/geometry/AABB.js:72-77 | a single point gives a box of width and height 0 holding exactly that point |
| Boxes.FromPoints | src/tilemap-plus/geometry/AABB.js:61-79 | contains every point; empty iff there are no points |
| Boxes.FromPointsTight | src/tilemap-plus/geometry/AABB.js:67-71 | each side is attained by some point |
| Boxes.Union | src/tilemap-plus/geometry/AABB.js:81-99 | encloses both boxes; empty iff both are |
| Boxes.UnionLeast | src/tilemap-plus/geometry/AABB.js:81-99 | the union is the least such box: any box enclosing both encloses it |
| Boxes.FromAABBs | src/tilemap-plus/geometry/AABB.js:81-91 | encloses every box; empty iff all are |
| Boxes.FromAABBsLeast | src/tilemap-plus/geometry/AABB.js:81-91 | the union box is the least enclosing box: any box enclosing every input encloses it |
| Boxes.FromAABBsTight | src/tilemap-plus/geometry/AABB.js:81-91 | when some input is non-empty, each side of the union box is that side of some non-empty input |
| Boxes.EnclosesPoints | src/tilemap-plus/geometry/AABB.js:29-32 | a point of an enclosed box is in the enclosing box |
| LegacyBoxes.IntersectsAsWritten | src/tilemap-plus/AABB.js:37-43 | never answers true |
| LegacyBoxes.IntersectsAsWrittenMissesOverlap | src/tilemap-plus/AABB.js:37-43 | a box overlapping itself is still not reported |
| Polygons.Mean | src/tilemap-plus/ConvexPolygon.js:29-32 | the centre times the count is the sum of the vertices |
| Polygons.NormalAt | src/tilemap-plus/ConvexPolygon.js:40-45 | the normal is perpendicular to its edge and points away from the centre |
| Polygons.FromVertices | src/tilemap-plus/ConvexPolygon.js:18-48 | the box is `fromPoints` of the vertices, the centre their mean, and there are n edges and n normals for n > 1, none otherwise |
| Polygons.EdgesAndNormals | src/tilemap-plus/ConvexPolygon.js:34-47 | edge i runs from vertex i to vertex i+1 mod n; normal i is perpendicular to it and outward |
| Polygons.Edges | src/tilemap-plus/ConvexPolygon.js:34-38 | n edges for n > 1, edge i from vertex i to the next |
| Polygons.Normals | src/tilemap-plus/ConvexPolygon.js:39-45 | n normals for n > 1, normal i the oriented perpendicular of edge i |
| Polygons.Recompute | src/tilemap-plus/ConvexPolygon.js:23-48 | the loop builds the same polygon as the definition |
| Polygons.NormalIsUnit | src/tilemap-plus/ConvexPolygon.js:40 | with a true square root, each normal of a non-degenerate edge has unit length |
| Polygons.IsValid | src/tilemap-plus/ConvexPolygon.js:50-64 | true for fewer than 4 vertices; otherwise false iff two consecutive edge turns have strictly opposite signs |
| Polygons.Project | src/tilemap-plus/ConvexPolygon.js:66-73 | holds every vertex's projection; empty iff there are no vertices |
| Polygons.ProjectBoundsAttained | src/tilemap-plus/ConvexPolygon.js:66-73 | the minimum and the maximum are projections of vertices |
| Polygons.ProjectOntoAxis | src/tilemap-plus/ConvexPolygon.js:66-73 | the loop computes the projection |
| Polygons.OffsetBox | src/tilemap-plus/ConvexPolygon.js:86-89 | moving every vertex by an offset moves the vertices' bounding box by the same offset |
| Polygons.Translated | src/tilemap-plus/ConvexPolygon.js:86-89 | same vertex count, every vertex moved by the offset |
| Polygons.ProjectTranslated | src/tilemap-plus/ConvexPolygon.js:66-89 | translation shifts every projection by the offset's projection |
| Polygons.ProjectOffset | src/tilemap-plus/ConvexPolygon.js:66-89 | moving vertices shifts their projection range by the offset's projection |
| Polygons.ValidateBounds | src/tilemap-plus/ConvexPolygon.js:8-15 | no error iff left ≤ right and top ≤ bottom |
| Polygons.FromRectangle | src/tilemap-plus/ConvexPolygon.js:91-101 | fails iff left > right or top > bottom, with the first failing check's error; else the corners TL, TR, BR, BL |
| Polygons.FromRectangleExtent | src/tilemap-plus/ConvexPolygon.js:91-101 | the x and y projections have lengths right - left and bottom - top |
| Polygons.CornerProjections | src/tilemap-plus/ConvexPolygon.js:91-101 | the corner loop projects onto the axes with the side lengths |
| Polygons.RectangleProjection | src/tilemap-plus/ConvexPolygon.js:66-101 | the corners project onto an axis as the span of their four projections |
| Polygons.FromCapsule | src/tilemap-plus/ConvexPolygon.js:103-125 | fails iff fewer than 3 cap segments, bad bounds or height < width (segments checked first); else 2·capSegments + 2 vertices and edges |
| Polygons.GenerateConvexPolygons | src/tilemap-plus/ConvexPolygon.js:128-137 | one polygon per loop of the decomposition, in order |
| QuadTrees.Classify | src/tilemap-plus/geometry/QuadTree.js:16-29 | a quadrant is chosen only when the box lies strictly inside it; otherwise it straddles |
| QuadTrees.Bucket | src/tilemap-plus/geometry/QuadTree.js:14-29 | the shapes of one class, in input order; a shape is in it iff it is an input shape of that class (`QuadTrees.BucketMembers`), and the five buckets split the input multiset (`QuadTrees.BucketsPartition`) |
| QuadTrees.BucketMembers | src/tilemap-plus/geometry/QuadTree.js:16-29 | a bucket holds only input shapes classified into it |
| QuadTrees.BucketsPartition | src/tilemap-plus/geometry/QuadTree.js:14-31 | the five buckets together are the input multiset: every shape lands in exactly one |
| QuadTrees.Partition | src/tilemap-plus/geometry/QuadTree.js:14-29 | the loop fills the five buckets as specified, in input order |
| QuadTrees.Pivot | src/tilemap-plus/geometry/QuadTree.js:11-13 | lies in the union of the shapes' boxes; absent iff every box is empty |
| QuadTrees.PivotIsCentre | src/tilemap-plus/geometry/QuadTree.js:11-13 | the pivot is the midpoint of that union box on both axes (the union itself being least and tight by `Boxes.FromAABBsLeast` and `Boxes.FromAABBsTight`) |
| QuadTrees.Build | src/tilemap-plus/geometry/QuadTree.js:5-49 | returns exactly the tree `Tree` describes: no shape lost or duplicated; a leaf holding all shapes iff fewer than maxShapes or maxLevel ≤ 1; a node keeps the straddling shapes at the pivot, with a child only for a non-empty quadrant; every child's shapes lie strictly in its quadrant; depth ≤ maxLevel |
| QuadTrees.BuildChild | src/tilemap-plus/geometry/QuadTree.js:33-47 | the child is the tree of its bucket one level down, and absent iff the bucket is empty |
| QuadTrees.BuildNode | src/tilemap-plus/geometry/QuadTree.js:16-47 | the splitting branch returns the node `Tree` describes |
| QuadTrees.TreeFacts | src/tilemap-plus/geometry/QuadTree.js:5-49 | the tree the constructor builds loses or duplicates no shape, is well formed (straddling shapes at the node, each child's shapes strictly in its quadrant), is a leaf holding the shapes iff fewer than maxShapes or maxLevel ≤ 1, has the pivot and the straddling bucket at a node, and is no deeper than maxLevel |
| QuadTrees.ChildTreeFacts | src/tilemap-plus/geometry/QuadTree.js:33-47 | a child tree exists iff its bucket is non-empty, holds exactly that bucket, is well formed and no deeper than its level budget |
| QuadTrees.Meeting | src/tilemap-plus/geometry/QuadTree.js:53 | the filter keeps only shapes whose box meets the query |
| QuadTrees.Query | src/tilemap-plus/geometry/QuadTree.js:51-87 | `candidateShapes` returns only stored shapes whose box meets the query |
| QuadTrees.QueryIsFilter | src/tilemap-plus/geometry/QuadTree.js:51-87 | on a well-formed tree the query equals filtering all stored shapes |
| QuadTrees.QueryExact | src/tilemap-plus/geometry/QuadTree.js:5-87 | a built tree returns each shape meeting the query exactly as often as it was given, and no other |
| QuadTrees.QuadrantReach | src/tilemap-plus/geometry/QuadTree.js:16-84 | a box meeting the query lies in a quadrant the query descends into |
| Sat.Abs | src/tilemap-plus/geometry/ShapeLayer.js:112-114 | the absolute value is non-negative and ± its argument |
| Sat.AxisPenetration | src/tilemap-plus/geometry/ShapeLayer.js:112-114 | the penetration on an axis is non-negative |
| Sat.FirstMinimum | src/tilemap-plus/geometry/ShapeLayer.js:115-118 | the index of a minimum, with every earlier value strictly greater |
| Sat.Orient | src/tilemap-plus/geometry/ShapeLayer.js:121-125 | the normal is the axis or its opposite, with non-negative dot product with the offset |
| Sat.MinimalAxis | src/tilemap-plus/geometry/ShapeLayer.js:100-119 | the first axis of minimum penetration |
| Sat.Collide | src/tilemap-plus/geometry/ShapeLayer.js:100-132 | a hit iff no axis separates the projections |
| Sat.CollideMeaning | src/tilemap-plus/geometry/ShapeLayer.js:100-132 | no hit iff some axis separates; a hit's normal is ± the first minimal axis, pointing from the shape's centre towards the sprite's, and its penetration is the normal times minus the minimum |
| Sat.SeparatingAxisTest | src/tilemap-plus/geometry/ShapeLayer.js:100-132 | the loop with its early return computes the collision as specified |
| Sat.SeparatedMeansNoCommonProjection | src/tilemap-plus/geometry/ShapeLayer.js:103-108 | a separating axis leaves no common projected point |
| Sat.RectangleCollision | src/tilemap-plus/Physics.js:139-141 | fails iff the body has negative width or height, with `fromRectangle`'s error |
| Sat.RectangleCollisionOfPolygon | src/tilemap-plus/Physics.js:139-171 | for a valid body the result is the test over (1,0), (0,1) and the shape's normals |
| Sat.RectangleCollisionMeaning | src/tilemap-plus/Physics.js:139-151 | for a valid body: no hit iff one of those axes separates |
| Sat.AxesMembership | src/tilemap-plus/Physics.js:139 | an axis separates iff some listed axis does |
| Levels.OrEmpty | src/tilemap-plus/geometry/ShapeLayer.js:50-61 | missing properties become `{}` (no bounce) |
| Levels.FindObjectLayer | src/tilemap-plus/Physics.js:13 | the first object group with that name; absent iff none |
| Levels.Kind | src/tilemap-plus/geometry/ShapeLayer.js:12-27 | polygon first; polyline, ellipse and tile objects are ignored; text, then everything else, is a rectangle |
| ShapeLayers.RectangleOutlineShape | src/tilemap-plus/geometry/ShapeLayer.js:32-51 | four vertices from the origin, the third the sum of the sides; unrotated (0,0),(w,0),(w,h),(0,h) |
| ShapeLayers.RectangleOutlineIsRectangle | src/tilemap-plus/geometry/ShapeLayer.js:36-49 | with a unit turning the sides stay perpendicular with lengths w and h |
| ShapeLayers.PolygonPiecesMeaning | src/tilemap-plus/geometry/ShapeLayer.js:55-63 | vertices offset by the object's position; one piece per decomposed loop, with the properties or `{}` |
| ShapeLayers.ObjectPiecesMeaning | src/tilemap-plus/geometry/ShapeLayer.js:12-27 | ignored kinds give nothing; text is treated as a rectangle; every piece carries the object's properties or `{}` |
| ShapeLayers.LayerPiecesFromObjects | src/tilemap-plus/geometry/ShapeLayer.js:12-27 | a layer's pieces are exactly its objects' pieces |
| ShapeLayers.IgnoredObjectsYieldNothing | src/tilemap-plus/geometry/ShapeLayer.js:15-20 | a layer of polylines, ellipses and tiles has no shapes |
| ShapeLayers.ShapeLayer.constructor | src/tilemap-plus/geometry/ShapeLayer.js:8-30 | one fresh, distinct shape per piece of the layer's objects, in order; the quadtree is exactly the tree built over those shapes with 5 levels and 5 shapes, so it holds them all, is well formed, and is a leaf iff there are fewer than 5 |
| ShapeLayers.ShapeLayer.AddObjects | src/tilemap-plus/geometry/ShapeLayer.js:12-27 | the loop leaves one fresh, distinct shape per piece of all the objects, in order |
| ShapeLayers.NewShapeLayer | src/tilemap-plus/events/RegionEvents.js:19 | a new layer whose shapes hold the group's pieces and whose quadtree is the one the constructor builds over them, holding them all |
| ShapeLayers.ShapeLayer.AddObject | src/tilemap-plus/geometry/ShapeLayer.js:13-26 | appends fresh shapes holding exactly the object's pieces, by its kind, and keeps the earlier shapes |
| ShapeLayers.ShapeLayer.AddRectangle | src/tilemap-plus/geometry/ShapeLayer.js:32-53 | appends the shapes of the rectangle's outline polygon |
| ShapeLayers.ShapeLayer.AddPolygon | src/tilemap-plus/geometry/ShapeLayer.js:55-63 | appends one shape per decomposed piece |
| ShapeLayers.ShapeLayer.AddConvexPolygon | src/tilemap-plus/geometry/ShapeLayer.js:65-136 | appends one new shape with the polygon, the properties or `{}`, and the polygon's box as bounds |
| ShapeLayers.MadeHolds | src/tilemap-plus/geometry/ShapeLayer.js:59-62 | shapes made one per piece hold those pieces |
| ShapeLayers.LayerGrows | src/tilemap-plus/geometry/ShapeLayer.js:12-27 | the constructor's loop keeps the shapes equal to the pieces of the objects so far |
| ShapeLayers.SpritePolygon | src/tilemap-plus/geometry/ShapeLayer.js:86-98 | a custom shape is always usable; a body rectangle fails iff its width or height is negative |
| ShapeLayers.ContactAxes | src/tilemap-plus/geometry/ShapeLayer.js:87-98 | a rectangle body is checked on at least the two coordinate axes |
| ShapeLayers.Contact | src/tilemap-plus/geometry/ShapeLayer.js:76-133 | fails on a bad body rectangle, or when there is no axis to test |
| ShapeLayers.ContactSeparation | src/tilemap-plus/geometry/ShapeLayer.js:100-130 | no hit iff some checked axis separates; a hit's normal points towards the sprite |
| ShapeLayers.XAxisSeparates | src/tilemap-plus/geometry/ShapeLayer.js:97-108 | a polygon wholly left or right of a rectangle is separated on the x axis |
| ShapeLayers.ClearOfBodyOnX | src/tilemap-plus/geometry/ShapeLayer.js:97-108 | a shape wholly left or right of a rectangle body is not hit |
| ShapeLayers.CollideWidth | src/tilemap-plus/geometry/ShapeLayer.js:76-133 | the closure computes the contact as specified |
| Physics.UprightIsUnrotated | src/tilemap-plus/Physics.js:86-99 | the rectangle outline is ShapeLayer's for an unrotated rectangle |
| Physics.AgreesWithShapeLayer | src/tilemap-plus/Physics.js:19-33 | text gives no shape here; polygons and unrotated rectangles give ShapeLayer's loops, ShapeLayer only filling missing properties with `{}` |
| Physics.PhysicsLayerGrows | src/tilemap-plus/Physics.js:18-33 | the loop keeps the shapes equal to the pieces of the objects so far |
| Physics.KeptHolds | src/tilemap-plus/Physics.js:101-109 | shapes kept one per piece hold those pieces, with the bounds as written |
| Physics.Physics.constructor | src/tilemap-plus/Physics.js:6-10 | no shapes, gravity (0, 1000) |
| Physics.Physics.EnableObjectLayer | src/tilemap-plus/Physics.js:12-34 | fails, changing nothing, when no object group has the name; otherwise replaces the shapes with one new, distinct shape per piece of the layer, each with the as-written bounds |
| Physics.Physics.AddRectangle | src/tilemap-plus/Physics.js:86-99 | keeps the shapes before it and appends one shape per decomposed piece of the unrotated corner outline |
| Physics.Physics.AddPolygon | src/tilemap-plus/Physics.js:101-109 | appends one shape per decomposed piece |
| Physics.Physics.AddConvexPolygon | src/tilemap-plus/Physics.js:111-178 | appends one new shape holding the polygon, the properties and the bounds the source's loop computes (`TypoBounds`, not the vertices' box) |
| Physics.Bounds | src/tilemap-plus/Physics.js:112-121 | the corrected loop gives the vertices' tight box |
| Physics.TypoBounds | src/tilemap-plus/Physics.js:112-121 | as written, the left side is right and the box is empty iff there are no vertices |
| Physics.BoundsAsWritten | src/tilemap-plus/Physics.js:112-121 | the loop as written computes the typo box |
| Physics.TypoBoundsMissAVertex | src/tilemap-plus/Physics.js:116-121 | the typo box misses a vertex of a triangle |
| Physics.RectangleContact | src/tilemap-plus/Physics.js:131-175 | the closure computes the rectangle-body test |
| Physics.RectangleContactAsWritten | src/tilemap-plus/Physics.js:164-170 | as written, no call answers with a hit |
| Physics.SelfOverlapIsAHit | src/tilemap-plus/Physics.js:139-170 | a body on a square shape is a hit, which as written throws |
| Physics.Bounce | src/tilemap-plus/Physics.js:67-68 | a bounce applies iff the properties carry a non-zero one |
| Physics.RespondPushesOut | src/tilemap-plus/Physics.js:47-53 | each contact moves the body back by its penetration and adds its normal to the contact sum |
| Physics.MovingAwayKeepsVelocity | src/tilemap-plus/Physics.js:55-59 | a body not approaching keeps its velocity |
| Physics.BounceReflectsNormalSpeed | src/tilemap-plus/Physics.js:61-80 | for a unit normal: the tangential part is kept, the normal speed becomes -bounce times the old one, or 0 |
| Physics.NoLongerApproaching | src/tilemap-plus/Physics.js:56-80 | after a response with bounce ≥ 0 the body no longer approaches the shape |
| Physics.ResolveWithoutHits | src/tilemap-plus/Physics.js:43-46 | shapes that report no collision change nothing |
| Physics.ResolveFailsOnBadBody | src/tilemap-plus/Physics.js:43-44 | resolution fails iff there is a shape and the body has negative width or height |
| Physics.Physics.CollideWith | src/tilemap-plus/Physics.js:36-84 | under the intended reading of the Findings row for Physics.js:164-170 (the static `Vector` calls at lines 49, 56, 62-63, 69 and 77 taken as the instance operations; as written the first hit throws): zeroes the contact normal, then responds to each shape's collision in order, and normalises the contact sum; an invalid body fails with only the contact normal zeroed |
| Physics.RespondTo | src/tilemap-plus/Physics.js:47-80 | one contact updates position, velocity and contact sum as specified, and nothing else |
| Notices.Without | src/tilemap-plus/events/CollisionEvents.js:20-22 | keeps exactly the elements of the list not in the other, never more |
| Notices.WithoutKeepsCopies | src/tilemap-plus/events/CollisionEvents.js:20-22 | an element not excluded keeps all its copies |
| Notices.WithoutCovered | src/tilemap-plus/events/CollisionEvents.js:20-22 | nothing survives a list that covers it |
| Notices.WithoutNothing | src/tilemap-plus/events/CollisionEvents.js:19-22 | against an empty previous list every shape is new |
| Notices.WithoutConcat | src/tilemap-plus/events/CollisionEvents.js:20-22 | the difference distributes over concatenation |
| Notices.BroadcastLength | src/tilemap-plus/events/CollisionEvents.js:25-29 | one call per shape and listener |
| Notices.BroadcastAt | src/tilemap-plus/events/CollisionEvents.js:25-29 | the call for shape i and listener j sits at index i·(listener count)+j: shape-major order |
| Notices.BroadcastEmpty | src/tilemap-plus/events/CollisionEvents.js:25-29 | no shapes or no listeners, no calls |
| CollisionEventLayer.CollisionEvents.constructor | src/tilemap-plus/events/CollisionEvents.js:2-5 | empty maps, no calls |
| CollisionEventLayer.CollisionEvents.GetSpriteListeners | src/tilemap-plus/events/CollisionEvents.js:32-37 | a sprite's list, created empty on first use |
| CollisionEventLayer.CollisionEvents.Add | src/tilemap-plus/events/CollisionEvents.js:7-11 | appends the listener to the sprite's list and returns it |
| CollisionEventLayer.CollisionEvents.Remove | src/tilemap-plus/events/CollisionEvents.js:13-16 | drops every occurrence of the listener, keeping the rest in order |
| CollisionEventLayer.CollisionEvents.Notify | src/tilemap-plus/events/CollisionEvents.js:18-30 | records the shapes; calls every listener once per shape absent from the last list, shape by shape |
| CollisionEventLayer.CollisionEvents.CallEach | src/tilemap-plus/events/CollisionEvents.js:26-28 | the inner loop calls each listener once, in order |
| CollisionEventLayer.CollisionEvents.Report | src/tilemap-plus/events/CollisionEvents.js:24-29 | the outer loop: every listener about each new shape in turn; the listener list is created only if there is a new shape |
| CollisionEventLayer.CollisionEvents.ReportOne | src/tilemap-plus/events/CollisionEvents.js:25-28 | one new shape: the listeners, fetched or created, each called once |
| CollisionEventLayer.NotificationCalls | src/tilemap-plus/events/CollisionEvents.js:19-29 | the call for new shape i and listener j is at position i·n+j, and that shape is new |
| CollisionEventLayer.RepeatIsSilent | src/tilemap-plus/events/CollisionEvents.js:19-29 | notifying the same shapes again calls nobody |
| RegionEventLayer.EnterLeaveMeaning | src/tilemap-plus/events/RegionEvents.js:72-80 | entered = now and not before, left = before and not now; never both |
| RegionEventLayer.NoChangeIsSilent | src/tilemap-plus/events/RegionEvents.js:68-98 | repeating the same shapes enters and leaves nothing |
| RegionEventLayer.LeavingAll | src/tilemap-plus/events/RegionEvents.js:72-80 | touching nothing leaves every shape previously touched |
| RegionEventLayer.QueryBoxMargin | src/tilemap-plus/events/RegionEvents.js:50 | the query box encloses the body box grown by 1 on every side, hence the body box itself |
| RegionEventLayer.CollidedMeaning | src/tilemap-plus/events/RegionEvents.js:51-61 | fails iff some candidate's test fails; otherwise holds exactly the candidates that report a collision |
| RegionEventLayer.ScanMeaning | src/tilemap-plus/events/RegionEvents.js:51-61 | over any outcomes: fails iff some outcome fails; otherwise keeps exactly the candidates whose outcome is a hit |
| RegionEventLayer.RegionEvents.constructor | src/tilemap-plus/events/RegionEvents.js:8-11 | no states, no layer, no calls |
| RegionEventLayer.RegionEvents.EnableObjectLayer | src/tilemap-plus/events/RegionEvents.js:13-20 | fails, keeping the layer, when no object group has the name; otherwise a new shape layer of that group, whose shapes hold its pieces and whose quadtree is the one built over them with 5 levels and 5 shapes |
| RegionEventLayer.RegionEvents.GetSpriteState | src/tilemap-plus/events/RegionEvents.js:100-109 | a sprite's state, created with empty lists on first use |
| RegionEventLayer.RegionEvents.OnEnterAdd | src/tilemap-plus/events/RegionEvents.js:22-26 | appends an enter listener and returns it |
| RegionEventLayer.RegionEvents.OnEnterRemove | src/tilemap-plus/events/RegionEvents.js:28-31 | removes every occurrence of that enter listener |
| RegionEventLayer.RegionEvents.OnLeaveAdd | src/tilemap-plus/events/RegionEvents.js:33-37 | appends a leave listener and returns it |
| RegionEventLayer.RegionEvents.OnLeaveRemove | src/tilemap-plus/events/RegionEvents.js:39-42 | removes every occurrence of that leave listener |
| RegionEventLayer.RegionEvents.TriggerWith | src/tilemap-plus/events/RegionEvents.js:44-66 | no layer, no change; otherwise the candidates in the grown body box that collide, in order, are notified |
| RegionEventLayer.RegionEvents.Notify | src/tilemap-plus/events/RegionEvents.js:68-98 | records the shapes; calls enter listeners for entered shapes, then leave listeners for left shapes |
| RegionEventLayer.RegionEvents.CallAll | src/tilemap-plus/events/RegionEvents.js:85-97 | one call per shape and listener, shape by shape |
| RegionEventLayer.RegionEvents.Announce | src/tilemap-plus/events/RegionEvents.js:85-97 | the enter broadcast, then the leave broadcast, and nothing else changes |
| Animations.FindTileset | src/tilemap-plus/Animation.js:54 | the tilemap's tileset of that name; absent iff none has it |
| Animations.RowCellsMembers | src/tilemap-plus/Animation.js:108-112 | a row's scan finds exactly the cells left of the bound whose data is the id |
| Animations.RowsCellsMembers | src/tilemap-plus/Animation.js:107-113 | a layer's scan finds exactly its cells within width and height whose data is the id |
| Animations.LocationsMembers | src/tilemap-plus/Animation.js:98-116 | the locations are exactly the cells of tile layers, within bounds, whose data is the id |
| Animations.LayerCellsOrdered | src/tilemap-plus/Animation.js:107-113 | each layer's locations come in row-major order |
| Animations.RowsCellsOrdered | src/tilemap-plus/Animation.js:107-113 | rows come in order, each before the bound |
| Animations.RowCellsOrdered | src/tilemap-plus/Animation.js:108-112 | a row's cells come left to right |
| Animations.CollectedAreFresh | src/tilemap-plus/Animation.js:56-62 | every collected animation starts at frame 0 with no time spent, and has frames |
| Animations.NoAnimatedTilesNoAnimations | src/tilemap-plus/Animation.js:41-52 | tiles without animation, or with an empty one, give no animation |
| Animations.GatherFailureStays | src/tilemap-plus/Animation.js:13-44 | a missing tileset stops the collection where it occurs |
| Animations.Tick | src/tilemap-plus/Animation.js:76-80 | a tick keeps the animation running with its frames, tileset and cells |
| Animations.TickMeaning | src/tilemap-plus/Animation.js:76-80 | the frame advances by one, wrapping, only when the time exceeds its duration, which is subtracted: no time lost |
| Animations.Ticked | src/tilemap-plus/Animation.js:71-89 | each animation ticks, and all stay running |
| Animations.PaintMeaning | src/tilemap-plus/Animation.js:83-86 | the given cells get the index, others are unchanged |
| Animations.PaintedElsewhere | src/tilemap-plus/Animation.js:71-89 | a cell no advancing animation covers keeps its tile |
| Animations.PaintedByLast | src/tilemap-plus/Animation.js:71-89 | a cell shows the new frame of the last advancing animation covering it |
| Animations.Animation.constructor | src/tilemap-plus/Animation.js:2-9 | no timer and no animations |
| Animations.Animation.Enable | src/tilemap-plus/Animation.js:11-21 | no change with a timer set; otherwise appends the animations of every tileset with tiles and sets the timer, or stops at a missing tileset without setting it |
| Animations.Animation.AddAnimationsFromTilesets | src/tilemap-plus/Animation.js:13-17 | the loop appends what every tileset gives, in order, and stops with the first missing-tileset error |
| Animations.Animation.Disable | src/tilemap-plus/Animation.js:23-29 | with a timer set, clears it and the animations; otherwise no change |
| Animations.Animation.AddAnimationsFromTileset | src/tilemap-plus/Animation.js:33-45 | appends the animations the tileset's animated tiles give, in order, up to a missing tileset, and reports that failure |
| Animations.Animation.AddAnimationsFromAnimatedTile | src/tilemap-plus/Animation.js:47-65 | nothing for no frames; fails for a missing tileset; else appends one animation at frame 0 over the tile's cells |
| Animations.Animation.GetTileLocations | src/tilemap-plus/Animation.js:98-116 | the nested loops compute the locations |
| Animations.Animation.ScanLayer | src/tilemap-plus/Animation.js:104-113 | the row and column loops compute a layer's cells |
| Animations.Animation.ScanRow | src/tilemap-plus/Animation.js:108-112 | the column loop computes one row's cells |
| Animations.Animation.Animate | src/tilemap-plus/Animation.js:67-96 | every animation ticks; tiles are repainted by each advancing animation in order; all layers are dirty iff one advanced; frames stay in range |
| Animations.Animation.AnimateOne | src/tilemap-plus/Animation.js:72-88 | one animation ticks and, if it advanced, repaints its cells |
| Animations.Animation.SetTiles | src/tilemap-plus/Animation.js:83-86 | every cell gets the new index |
| Animations.Animation.MarkDirty | src/tilemap-plus/Animation.js:91-95 | every layer is marked dirty |

## Left out

- Square root, cosine, sine and `poly-decomp` are parameters. Properties that need a true square root assume it of the given function (`RootAt`). The decomposition's own geometry (that its loops are convex and cover the polygon) is not modelled.
- `ConvexPolygon.rotated` (src/tilemap-plus/ConvexPolygon.js:75-84) is not modelled: it needs the trigonometry left out above. A rotated rectangle in ShapeLayer is modelled only through the turning parameter.
- `fromCapsule`'s vertex coordinates come from cosine and sine. The model checks its validation and counts its vertices, and builds the cap from a direction parameter.
- IEEE arithmetic, NaN and ±Infinity are left out. An empty range or box is a constructor of its own, and a NaN width, height or length is `None`.
- Ranges.Range.ExtendTo: the in-place update of `min`/`max` is a function that returns the new range. Every range the source mutates is a fresh local, so no aliasing is lost.
- The non-array branch of `AABB.fromAABBs` (src/tilemap-plus/geometry/AABB.js:92-97) is left out: it reads an undefined variable.
- geometry/Vector.js, geometry/ConvexPolygon.js and geometry/Range.js are not part of this model. The modules above follow the src/tilemap-plus versions in their place.
- The quadtree is a value built once by `QuadTrees.Build`; its node objects are not modelled as separate mutable objects.
- `Physics.gravity` is stored but never used (src/tilemap-plus/Physics.js:9).
- Listener callbacks are recorded as calls in the order made; what a listener does is not modelled. A listener that changes listener lists during a broadcast is therefore out of scope.
- Animations: tile animations are values in a list that `_animate` replaces element by element; the source mutates each record in place, and nothing else refers to them.
- The Phaser timer (`time.events.loop` and `remove`, lines 19 and 25 of src/tilemap-plus/Animation.js) is a flag. `elapsedMS` is a parameter.
- `tilemap.getTile` is a map from cells to tile indices, and the layers' `dirty` flags are a list.
- Tileset keys arrive as integers: `parseInt` of a key is not modelled.
- A tile animation's `tileset` is `undefined` when the tilemap lacks the tileset, and `tileset.firstgid` throws. The model returns `MissingTileset` at that point and keeps the animations collected before it.
- The plugin glue (src/index.js, src/tilemap-plus/TilemapPlus.js, src/tilemap-plus/events/Events.js and src/tilemap-plus/SpritePlus.js) is left out: it only wires the parts together.
- The velocity objects a Phaser body shares with others are not aliased here. A body's `velocity` and `contactNormal` are vector values assigned whole.

## Findings

| source | as written | input that shows it | evidently intended | confidence | as-written member | corrected member |
|---|---|---|---|---|---|---|
| src/tilemap-plus/AABB.js:37-43 | a bare `return` followed by a line break returns `undefined`; the comparisons below it are never evaluated | the box (0,0)-(1,1) against itself | the conjunction of the four comparisons, as in src/tilemap-plus/geometry/AABB.js:43-50 | high, not executed | LegacyBoxes.IntersectsAsWrittenMissesOverlap | Boxes.IntersectsIffCommonPoint |
| src/tilemap-plus/Range.js:19-21 | the upper bound is compared with `>` | the range [0, 1] does not contain itself | `max >= range.max`: the same class's `containsPoint` (src/tilemap-plus/Range.js:15-17) is inclusive at both ends; tests/Range.js:44-45 states inclusive containment, but for the sibling class src/tilemap-plus/geometry/Range.js, which is not part of this model | medium, not executed | Ranges.NoRangeContainsItself | Ranges.ContainsRangeClosedIsInclusion |
| src/tilemap-plus/Physics.js:116-121 | `top`, `right` and `bottom` are each computed from `left` | vertices (0,0), (4,0), (0,4) give the box (0,0)-(0,4), which misses (4,0) | the min and max of each coordinate, as `AABB.fromPoints` computes | high, not executed (the class stores the box as written, as the source does; nothing reads it) | Physics.TypoBoundsMissAVertex | Physics.Bounds |
| src/tilemap-plus/Physics.js:164-170 | calls `Vector.difference`, `Vector.dot` and `Vector.scale` as static methods, which the imported src/tilemap-plus/Vector.js does not define (so do lines 49, 56, 62-63, 69 and 77) | a body whose rectangle is exactly a square shape: the test finds a hit, then calls `Vector.difference` and throws a TypeError | the componentwise instance operations `minus`, `dot` and `scale` | medium, not executed (tests/Vector.js calls the same statics, so Vector.js may be the file behind) | Physics.SelfOverlapIsAHit | Physics.RectangleContact |
