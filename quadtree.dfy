/**
 * The static spatial index of src/tilemap-plus/geometry/QuadTree.js. A node with too
 * few shapes, or at the last level, keeps them all. Any other node splits its shapes
 * about the centre of their common bounding box: each shape lying strictly inside one
 * quadrant goes to that quadrant's child, and the shapes straddling the pivot stay in
 * the node. `candidateShapes` returns the stored shapes whose box meets a query box.
 *
 * A tree is built once and never changed afterwards, so it is a value here; the
 * constructor's partition loop is the method `Partition`, its recursion `Build`.
 */
module QuadTrees {
  import opened Wrappers
  import opened Vectors
  import opened Boxes
  import opened Shapes

  datatype Quadrant = TopLeft | TopRight | BottomLeft | BottomRight | Straddling

  /*
   * The side comparisons of the source. The sentinel box has left = top = +Infinity
   * and right = bottom = -Infinity, so each of these holds for it.
   */
  predicate RightBefore(box: AABB, x: real) { box.EmptyBox? || box.right < x }
  predicate LeftAfter(box: AABB, x: real) { box.EmptyBox? || box.left > x }
  predicate BottomBefore(box: AABB, y: real) { box.EmptyBox? || box.bottom < y }
  predicate TopAfter(box: AABB, y: real) { box.EmptyBox? || box.top > y }

  /** The box lies strictly inside quadrant `q` of `pivot` on both axes. */
  predicate InQuadrant(box: AABB, pivot: Vector, q: Quadrant) {
    match q
    case TopLeft => RightBefore(box, pivot.x) && BottomBefore(box, pivot.y)
    case TopRight => LeftAfter(box, pivot.x) && BottomBefore(box, pivot.y)
    case BottomLeft => RightBefore(box, pivot.x) && TopAfter(box, pivot.y)
    case BottomRight => LeftAfter(box, pivot.x) && TopAfter(box, pivot.y)
    case Straddling => false
  }

  /**
   * The bucket the partition loop puts a box in: the first quadrant, in the order
   * top-left, top-right, bottom-left, bottom-right, that holds it strictly, else the
   * straddling list. `pivot` is `None` for the `NaN` centre of the sentinel box, with
   * which every comparison is false.
   */
  function Classify(box: AABB, pivot: Option<Vector>): (q: Quadrant)
    ensures q != Straddling ==> pivot.Some? && InQuadrant(box, pivot.value, q)
    ensures q == Straddling ==> pivot.None? || forall q' :: !InQuadrant(box, pivot.value, q')
  {
    match pivot
    case None => Straddling
    case Some(p) =>
      if RightBefore(box, p.x) && BottomBefore(box, p.y) then TopLeft
      else if LeftAfter(box, p.x) && BottomBefore(box, p.y) then TopRight
      else if RightBefore(box, p.x) && TopAfter(box, p.y) then BottomLeft
      else if LeftAfter(box, p.x) && TopAfter(box, p.y) then BottomRight
      else Straddling
  }

  /** The shapes of `shapes` that the partition loop puts in bucket `q`, in order. */
  function Bucket(shapes: seq<Shape>, pivot: Option<Vector>, q: Quadrant): (b: seq<Shape>)
    ensures |b| <= |shapes|
  {
    if shapes == [] then []
    else
      var last := shapes[|shapes| - 1];
      Bucket(shapes[..|shapes| - 1], pivot, q) + (if Classify(last.BoundingBox(), pivot) == q then [last] else [])
  }

  /** A bucket holds only shapes of the input that classify to it. */
  lemma {:induction false} BucketMembers(shapes: seq<Shape>, pivot: Option<Vector>, q: Quadrant)
    ensures forall s :: s in Bucket(shapes, pivot, q) ==> s in shapes && Classify(s.BoundingBox(), pivot) == q
  {
    if shapes != [] {
      var init := shapes[..|shapes| - 1];
      BucketMembers(init, pivot, q);
      assert forall s :: s in init ==> s in shapes;
    }
  }

  /** Every shape lands in exactly one of the five buckets: nothing lost, nothing doubled. */
  lemma {:induction false} BucketsPartition(shapes: seq<Shape>, pivot: Option<Vector>)
    ensures multiset(shapes) == multiset(Bucket(shapes, pivot, Straddling))
      + multiset(Bucket(shapes, pivot, TopLeft)) + multiset(Bucket(shapes, pivot, TopRight))
      + multiset(Bucket(shapes, pivot, BottomLeft)) + multiset(Bucket(shapes, pivot, BottomRight))
  {
    if shapes != [] {
      var init, last := shapes[..|shapes| - 1], shapes[|shapes| - 1];
      BucketsPartition(init, pivot);
      assert shapes == init + [last];
      assert multiset(shapes) == multiset(init) + multiset{last};
      var c := Classify(last.BoundingBox(), pivot);
      var m := multiset{last};
      var s0, s1, s2, s3, s4 := multiset(Bucket(init, pivot, Straddling)), multiset(Bucket(init, pivot, TopLeft)),
        multiset(Bucket(init, pivot, TopRight)), multiset(Bucket(init, pivot, BottomLeft)),
        multiset(Bucket(init, pivot, BottomRight));
      var t0, t1, t2, t3, t4 := multiset(Bucket(shapes, pivot, Straddling)), multiset(Bucket(shapes, pivot, TopLeft)),
        multiset(Bucket(shapes, pivot, TopRight)), multiset(Bucket(shapes, pivot, BottomLeft)),
        multiset(Bucket(shapes, pivot, BottomRight));
      assert multiset(init) == s0 + s1 + s2 + s3 + s4;
      BucketSnoc(init, last, pivot, Straddling);
      BucketSnoc(init, last, pivot, TopLeft);
      BucketSnoc(init, last, pivot, TopRight);
      BucketSnoc(init, last, pivot, BottomLeft);
      BucketSnoc(init, last, pivot, BottomRight);
      AddedToOneBucket(s0, s1, s2, s3, s4, t0, t1, t2, t3, t4, m, c);
    }
  }

  lemma AddedToOneBucket(s0: multiset<Shape>, s1: multiset<Shape>, s2: multiset<Shape>, s3: multiset<Shape>,
                         s4: multiset<Shape>, t0: multiset<Shape>, t1: multiset<Shape>, t2: multiset<Shape>,
                         t3: multiset<Shape>, t4: multiset<Shape>, m: multiset<Shape>, c: Quadrant)
    requires t0 == s0 + (if c == Straddling then m else multiset{})
    requires t1 == s1 + (if c == TopLeft then m else multiset{})
    requires t2 == s2 + (if c == TopRight then m else multiset{})
    requires t3 == s3 + (if c == BottomLeft then m else multiset{})
    requires t4 == s4 + (if c == BottomRight then m else multiset{})
    ensures t0 + t1 + t2 + t3 + t4 == s0 + s1 + s2 + s3 + s4 + m
  {
  }

  lemma BucketSnoc(init: seq<Shape>, last: Shape, pivot: Option<Vector>, q: Quadrant)
    ensures multiset(Bucket(init + [last], pivot, q))
         == multiset(Bucket(init, pivot, q)) + if Classify(last.BoundingBox(), pivot) == q then multiset{last} else multiset{}
  {
    assert (init + [last])[..|init|] == init;
  }

  /** The partition loop of the constructor, pushing each shape onto one of five lists. */
  method Partition(shapes: seq<Shape>, pivot: Option<Vector>)
    returns (straddling: seq<Shape>, topLeft: seq<Shape>, topRight: seq<Shape>,
             bottomLeft: seq<Shape>, bottomRight: seq<Shape>)
    ensures straddling == Bucket(shapes, pivot, Straddling)
    ensures topLeft == Bucket(shapes, pivot, TopLeft) && topRight == Bucket(shapes, pivot, TopRight)
    ensures bottomLeft == Bucket(shapes, pivot, BottomLeft) && bottomRight == Bucket(shapes, pivot, BottomRight)
  {
    straddling, topLeft, topRight, bottomLeft, bottomRight := [], [], [], [], [];
    for i := 0 to |shapes|
      invariant straddling == Bucket(shapes[..i], pivot, Straddling)
      invariant topLeft == Bucket(shapes[..i], pivot, TopLeft) && topRight == Bucket(shapes[..i], pivot, TopRight)
      invariant bottomLeft == Bucket(shapes[..i], pivot, BottomLeft)
      invariant bottomRight == Bucket(shapes[..i], pivot, BottomRight)
    {
      assert shapes[..i + 1][..i] == shapes[..i];
      var shape := shapes[i];
      match Classify(shape.BoundingBox(), pivot)
      case TopLeft => topLeft := topLeft + [shape];
      case TopRight => topRight := topRight + [shape];
      case BottomLeft => bottomLeft := bottomLeft + [shape];
      case BottomRight => bottomRight := bottomRight + [shape];
      case Straddling => straddling := straddling + [shape];
    }
    assert shapes[..|shapes|] == shapes;
  }

  datatype QuadTree =
    | Leaf(shapes: seq<Shape>)
    | Node(shapes: seq<Shape>, pivot: Option<Vector>,
           topLeft: Option<QuadTree>, topRight: Option<QuadTree>,
           bottomLeft: Option<QuadTree>, bottomRight: Option<QuadTree>)

  /** The shapes stored in a tree: the node's own, then each child's in quadrant order. */
  function AllShapes(t: QuadTree): seq<Shape>
    decreases t, 1
  {
    match t
    case Leaf(shapes) => shapes
    case Node(shapes, _, tl, tr, bl, br) =>
      shapes + ShapesOf(tl) + ShapesOf(tr) + ShapesOf(bl) + ShapesOf(br)
  }

  function ShapesOf(child: Option<QuadTree>): seq<Shape>
    decreases child, 0
  {
    match child
    case None => []
    case Some(t) => AllShapes(t)
  }

  /** Every shape below `child` sits strictly inside quadrant `q` of `pivot`. */
  predicate ChildInQuadrant(child: Option<QuadTree>, pivot: Option<Vector>, q: Quadrant) {
    forall s :: s in ShapesOf(child) ==> Classify(s.BoundingBox(), pivot) == q
  }

  /**
   * The tree invariant the constructor establishes: the node's own shapes straddle
   * its pivot, every shape under a child lies in that child's quadrant, and so on down.
   */
  predicate WellFormed(t: QuadTree)
    decreases t
  {
    match t
    case Leaf(_) => true
    case Node(shapes, pivot, tl, tr, bl, br) =>
      && (forall s :: s in shapes ==> Classify(s.BoundingBox(), pivot) == Straddling)
      && ChildInQuadrant(tl, pivot, TopLeft) && ChildInQuadrant(tr, pivot, TopRight)
      && ChildInQuadrant(bl, pivot, BottomLeft) && ChildInQuadrant(br, pivot, BottomRight)
      && (tl.Some? ==> WellFormed(tl.value)) && (tr.Some? ==> WellFormed(tr.value))
      && (bl.Some? ==> WellFormed(bl.value)) && (br.Some? ==> WellFormed(br.value))
  }

  function Depth(t: QuadTree): (d: nat)
    ensures d >= 1
    decreases t, 1
  {
    match t
    case Leaf(_) => 1
    case Node(_, _, tl, tr, bl, br) =>
      1 + MaxNat(MaxNat(DepthOf(tl), DepthOf(tr)), MaxNat(DepthOf(bl), DepthOf(br)))
  }

  function DepthOf(child: Option<QuadTree>): nat
    decreases child, 0
  {
    match child
    case None => 0
    case Some(t) => Depth(t)
  }

  function MaxNat(a: nat, b: nat): nat { if a >= b then a else b }

  function ShapeBoxes(shapes: seq<Shape>): (boxes: seq<AABB>)
    ensures |boxes| == |shapes| && forall i :: 0 <= i < |shapes| ==> boxes[i] == shapes[i].BoundingBox()
  {
    seq(|shapes|, i requires 0 <= i < |shapes| => shapes[i].BoundingBox())
  }

  /** `AABB.fromAABBs(...).centre()`: the centre of the shapes' common bounding box. */
  function Pivot(shapes: seq<Shape>): (pivot: Option<Vector>)
    ensures pivot.Some? ==> (FromAABBs(ShapeBoxes(shapes)).ContainsPoint(pivot.value)
      || FromAABBs(ShapeBoxes(shapes)).IsEmpty())
    ensures pivot.None? <==> forall i :: 0 <= i < |shapes| ==> shapes[i].BoundingBox().EmptyBox?
  {
    FromAABBs(ShapeBoxes(shapes)).Centre()
  }

  /** The pivot is the midpoint of the shapes' union box on both axes. */
  lemma PivotIsCentre(shapes: seq<Shape>)
    ensures var u, pivot := FromAABBs(ShapeBoxes(shapes)), Pivot(shapes);
      pivot.Some? ==>
        && pivot.value.x - u.left == u.right - pivot.value.x
        && pivot.value.y - u.top == u.bottom - pivot.value.y
  {
  }

  /** A child is built exactly for each quadrant whose bucket is non-empty. */
  predicate ChildrenMatchBuckets(t: QuadTree, shapes: seq<Shape>)
    requires t.Node?
  {
    && (t.topLeft.Some? <==> Bucket(shapes, t.pivot, TopLeft) != [])
    && (t.topRight.Some? <==> Bucket(shapes, t.pivot, TopRight) != [])
    && (t.bottomLeft.Some? <==> Bucket(shapes, t.pivot, BottomLeft) != [])
    && (t.bottomRight.Some? <==> Bucket(shapes, t.pivot, BottomRight) != [])
  }

  /**
   * The tree `new QuadTree(shapes, maxLevel, maxShapes)` builds, as a value: what `Build`
   * is proved to return.
   */
  ghost function Tree(shapes: seq<Shape>, maxLevel: int, maxShapes: int): QuadTree
    decreases maxLevel, 2
  {
    if |shapes| < maxShapes || maxLevel <= 1 then Leaf(shapes)
    else
      var pivot := Pivot(shapes);
      Node(Bucket(shapes, pivot, Straddling), pivot,
           ChildTree(Bucket(shapes, pivot, TopLeft), maxLevel - 1, maxShapes),
           ChildTree(Bucket(shapes, pivot, TopRight), maxLevel - 1, maxShapes),
           ChildTree(Bucket(shapes, pivot, BottomLeft), maxLevel - 1, maxShapes),
           ChildTree(Bucket(shapes, pivot, BottomRight), maxLevel - 1, maxShapes))
  }

  /** `t` is the tree the constructor builds from `shapes` with these limits. */
  ghost predicate BuiltFrom(t: QuadTree, shapes: seq<Shape>, maxLevel: int, maxShapes: int) {
    t == Tree(shapes, maxLevel, maxShapes)
  }

  lemma TreeSplits(shapes: seq<Shape>, maxLevel: int, maxShapes: int)
    requires |shapes| >= maxShapes && maxLevel > 1
    ensures Tree(shapes, maxLevel, maxShapes) == Node(
      Bucket(shapes, Pivot(shapes), Straddling), Pivot(shapes),
      ChildTree(Bucket(shapes, Pivot(shapes), TopLeft), maxLevel - 1, maxShapes),
      ChildTree(Bucket(shapes, Pivot(shapes), TopRight), maxLevel - 1, maxShapes),
      ChildTree(Bucket(shapes, Pivot(shapes), BottomLeft), maxLevel - 1, maxShapes),
      ChildTree(Bucket(shapes, Pivot(shapes), BottomRight), maxLevel - 1, maxShapes))
  {
  }

  ghost function ChildTree(bucket: seq<Shape>, maxLevel: int, maxShapes: int): Option<QuadTree>
    requires maxLevel >= 1
    decreases maxLevel + 1, 0
  {
    if |bucket| > 0 then Some(Tree(bucket, maxLevel, maxShapes)) else None
  }

  /** The facts the constructor promises about the tree it builds. */
  lemma {:induction false} TreeFacts(shapes: seq<Shape>, maxLevel: int, maxShapes: int)
    ensures var t := Tree(shapes, maxLevel, maxShapes);
      && multiset(AllShapes(t)) == multiset(shapes)
      && WellFormed(t)
      && (t.Leaf? <==> |shapes| < maxShapes || maxLevel <= 1)
      && (t.Leaf? ==> t.shapes == shapes)
      && (t.Node? ==> t.pivot == Pivot(shapes) && t.shapes == Bucket(shapes, t.pivot, Straddling))
      && (t.Node? ==> ChildrenMatchBuckets(t, shapes))
      && Depth(t) <= if maxLevel < 1 then 1 else maxLevel
    decreases maxLevel, 2
  {
    if !(|shapes| < maxShapes || maxLevel <= 1) {
      NodeFacts(shapes, maxLevel, maxShapes);
    }
  }

  lemma {:induction false} NodeFacts(shapes: seq<Shape>, maxLevel: int, maxShapes: int)
    requires |shapes| >= maxShapes && maxLevel > 1
    ensures var t := Tree(shapes, maxLevel, maxShapes);
      && t.Node? && multiset(AllShapes(t)) == multiset(shapes)
      && WellFormed(t) && Depth(t) <= maxLevel
    decreases maxLevel, 1
  {
    var t := Tree(shapes, maxLevel, maxShapes);
    TreeSplits(shapes, maxLevel, maxShapes);
    ChildTreeFacts(Bucket(shapes, t.pivot, TopLeft), maxLevel - 1, maxShapes);
    ChildTreeFacts(Bucket(shapes, t.pivot, TopRight), maxLevel - 1, maxShapes);
    ChildTreeFacts(Bucket(shapes, t.pivot, BottomLeft), maxLevel - 1, maxShapes);
    ChildTreeFacts(Bucket(shapes, t.pivot, BottomRight), maxLevel - 1, maxShapes);
    NodeKeepsShapes(shapes, t);
    NodeWellFormed(shapes, t);
    NodeDepth(t, maxLevel - 1);
  }

  lemma {:induction false} ChildTreeFacts(bucket: seq<Shape>, maxLevel: int, maxShapes: int)
    requires maxLevel >= 1
    ensures var child := ChildTree(bucket, maxLevel, maxShapes);
      && (child.Some? <==> bucket != [])
      && multiset(ShapesOf(child)) == multiset(bucket)
      && (child.Some? ==> WellFormed(child.value))
      && DepthOf(child) <= maxLevel
    decreases maxLevel + 1, 0
  {
    if |bucket| > 0 {
      TreeFacts(bucket, maxLevel, maxShapes);
    }
  }

  /**
   * `new QuadTree(shapes, maxLevel, maxShapes)`: a leaf holding the shapes when there
   * are fewer than `maxShapes` or the level budget is spent, else a node split about
   * the pivot, each non-empty quadrant built one level lower.
   */
  method Build(shapes: seq<Shape>, maxLevel: int, maxShapes: int) returns (t: QuadTree)
    ensures t == Tree(shapes, maxLevel, maxShapes)
    ensures multiset(AllShapes(t)) == multiset(shapes)
    ensures WellFormed(t)
    ensures t.Leaf? <==> |shapes| < maxShapes || maxLevel <= 1
    ensures t.Leaf? ==> t.shapes == shapes
    ensures t.Node? ==> t.pivot == Pivot(shapes) && t.shapes == Bucket(shapes, t.pivot, Straddling)
    ensures t.Node? ==> ChildrenMatchBuckets(t, shapes)
    ensures Depth(t) <= if maxLevel < 1 then 1 else maxLevel
    decreases maxLevel, 2
  {
    TreeFacts(shapes, maxLevel, maxShapes);
    if |shapes| < maxShapes || maxLevel <= 1 {
      return Leaf(shapes);
    }
    t := BuildNode(shapes, maxLevel, maxShapes);
  }

  /** The splitting branch of the constructor: partition about the pivot, build each child. */
  method BuildNode(shapes: seq<Shape>, maxLevel: int, maxShapes: int) returns (t: QuadTree)
    requires |shapes| >= maxShapes && maxLevel > 1
    ensures t == Tree(shapes, maxLevel, maxShapes)
    decreases maxLevel, 1
  {
    var pivot := Pivot(shapes);
    var straddling, topLeft, topRight, bottomLeft, bottomRight := Partition(shapes, pivot);
    var tl := BuildChild(topLeft, maxLevel - 1, maxShapes);
    var tr := BuildChild(topRight, maxLevel - 1, maxShapes);
    var bl := BuildChild(bottomLeft, maxLevel - 1, maxShapes);
    var br := BuildChild(bottomRight, maxLevel - 1, maxShapes);
    t := Node(straddling, pivot, tl, tr, bl, br);
    TreeSplits(shapes, maxLevel, maxShapes);
  }

  lemma NodeDepth(t: QuadTree, childLevels: nat)
    requires t.Node?
    requires DepthOf(t.topLeft) <= childLevels && DepthOf(t.topRight) <= childLevels
    requires DepthOf(t.bottomLeft) <= childLevels && DepthOf(t.bottomRight) <= childLevels
    ensures Depth(t) <= childLevels + 1
  {
  }

  /** The children hold what the partition put in their buckets. */
  predicate ChildrenHoldBuckets(shapes: seq<Shape>, t: QuadTree)
    requires t.Node?
  {
    && t.shapes == Bucket(shapes, t.pivot, Straddling)
    && multiset(ShapesOf(t.topLeft)) == multiset(Bucket(shapes, t.pivot, TopLeft))
    && multiset(ShapesOf(t.topRight)) == multiset(Bucket(shapes, t.pivot, TopRight))
    && multiset(ShapesOf(t.bottomLeft)) == multiset(Bucket(shapes, t.pivot, BottomLeft))
    && multiset(ShapesOf(t.bottomRight)) == multiset(Bucket(shapes, t.pivot, BottomRight))
  }

  lemma NodeKeepsShapes(shapes: seq<Shape>, t: QuadTree)
    requires t.Node? && ChildrenHoldBuckets(shapes, t)
    ensures multiset(AllShapes(t)) == multiset(shapes)
  {
    BucketsPartition(shapes, t.pivot);
  }

  lemma NodeWellFormed(shapes: seq<Shape>, t: QuadTree)
    requires t.Node? && ChildrenHoldBuckets(shapes, t)
    requires t.topLeft.Some? ==> WellFormed(t.topLeft.value)
    requires t.topRight.Some? ==> WellFormed(t.topRight.value)
    requires t.bottomLeft.Some? ==> WellFormed(t.bottomLeft.value)
    requires t.bottomRight.Some? ==> WellFormed(t.bottomRight.value)
    ensures WellFormed(t)
  {
    BucketMembers(shapes, t.pivot, Straddling);
    BucketMembers(shapes, t.pivot, TopLeft);
    BucketMembers(shapes, t.pivot, TopRight);
    BucketMembers(shapes, t.pivot, BottomLeft);
    BucketMembers(shapes, t.pivot, BottomRight);
    BucketMembersClassified(Bucket(shapes, t.pivot, TopLeft), t.topLeft, t.pivot, TopLeft);
    BucketMembersClassified(Bucket(shapes, t.pivot, TopRight), t.topRight, t.pivot, TopRight);
    BucketMembersClassified(Bucket(shapes, t.pivot, BottomLeft), t.bottomLeft, t.pivot, BottomLeft);
    BucketMembersClassified(Bucket(shapes, t.pivot, BottomRight), t.bottomRight, t.pivot, BottomRight);
  }

  /** `if (bucket.length > 0) child = new QuadTree(bucket, maxLevel - 1, maxShapes)`. */
  method BuildChild(bucket: seq<Shape>, maxLevel: int, maxShapes: int) returns (child: Option<QuadTree>)
    requires maxLevel >= 1
    ensures child == ChildTree(bucket, maxLevel, maxShapes)
    decreases maxLevel + 1, 0
  {
    if |bucket| > 0 {
      var node := Build(bucket, maxLevel, maxShapes);
      child := Some(node);
    } else {
      child := None;
    }
  }

  lemma BucketMembersClassified(bucket: seq<Shape>, child: Option<QuadTree>, pivot: Option<Vector>, q: Quadrant)
    requires forall s :: s in bucket ==> Classify(s.BoundingBox(), pivot) == q
    requires multiset(ShapesOf(child)) == multiset(bucket)
    ensures ChildInQuadrant(child, pivot, q)
  {
    forall s | s in ShapesOf(child)
      ensures Classify(s.BoundingBox(), pivot) == q
    {
      assert s in multiset(ShapesOf(child));
      assert s in multiset(bucket);
    }
  }

  /** The shapes of `shapes` whose box meets `q`, in order. */
  function Meeting(shapes: seq<Shape>, q: AABB): (r: seq<Shape>)
    ensures forall s :: s in r ==> s in shapes && s.BoundingBox().Intersects(q)
  {
    if shapes == [] then []
    else (if shapes[0].BoundingBox().Intersects(q) then [shapes[0]] else []) + Meeting(shapes[1..], q)
  }

  /*
   * The source's tests of the query box against the pivot. The sentinel query box
   * compares as +/-Infinity and passes none of them; a `NaN` pivot passes none either.
   */
  predicate MayMeetTopLeft(q: AABB, pivot: Option<Vector>) {
    pivot.Some? && q.Box? && q.left <= pivot.value.x && q.top <= pivot.value.y
  }
  predicate MayMeetTopRight(q: AABB, pivot: Option<Vector>) {
    pivot.Some? && q.Box? && q.right >= pivot.value.x && q.top <= pivot.value.y
  }
  predicate MayMeetBottomLeft(q: AABB, pivot: Option<Vector>) {
    pivot.Some? && q.Box? && q.left <= pivot.value.x && q.bottom >= pivot.value.y
  }
  predicate MayMeetBottomRight(q: AABB, pivot: Option<Vector>) {
    pivot.Some? && q.Box? && q.right >= pivot.value.x && q.bottom >= pivot.value.y
  }

  /**
   * `candidateShapes(aabb)`: the node's own shapes that meet the box, then the
   * candidates of each child whose quadrant the box may reach.
   */
  function Query(t: QuadTree, q: AABB): (r: seq<Shape>)
    ensures forall s :: s in r ==> s in AllShapes(t) && s.BoundingBox().Intersects(q)
    decreases t, 1
  {
    match t
    case Leaf(shapes) => Meeting(shapes, q)
    case Node(shapes, pivot, tl, tr, bl, br) =>
      Meeting(shapes, q)
      + QueryChild(tl, q, MayMeetTopLeft(q, pivot))
      + QueryChild(tr, q, MayMeetTopRight(q, pivot))
      + QueryChild(bl, q, MayMeetBottomLeft(q, pivot))
      + QueryChild(br, q, MayMeetBottomRight(q, pivot))
  }

  function QueryChild(child: Option<QuadTree>, q: AABB, reaches: bool): (r: seq<Shape>)
    ensures forall s :: s in r ==> s in ShapesOf(child) && s.BoundingBox().Intersects(q)
    decreases child, 0
  {
    if child.Some? && reaches then Query(child.value, q) else []
  }

  lemma {:induction false} MeetingConcat(a: seq<Shape>, b: seq<Shape>, q: AABB)
    ensures Meeting(a + b, q) == Meeting(a, q) + Meeting(b, q)
  {
    if a != [] {
      assert (a + b)[0] == a[0];
      assert (a + b)[1..] == a[1..] + b;
      MeetingConcat(a[1..], b, q);
      var head := if a[0].BoundingBox().Intersects(q) then [a[0]] else [];
      assert Meeting(a + b, q) == head + Meeting(a[1..] + b, q);
      assert Meeting(a, q) == head + Meeting(a[1..], q);
    } else {
      assert a + b == b;
    }
  }

  lemma {:induction false} MeetingNone(shapes: seq<Shape>, q: AABB)
    requires forall s :: s in shapes ==> !s.BoundingBox().Intersects(q)
    ensures Meeting(shapes, q) == []
  {
    if shapes != [] {
      assert shapes[0] in shapes;
      MeetingNone(shapes[1..], q);
    }
  }

  /**
   * A shape strictly inside a quadrant of the pivot can only meet a query box that
   * reaches that quadrant.
   */
  lemma QuadrantReach(box: AABB, pivot: Option<Vector>, q: AABB)
    requires box.Intersects(q)
    ensures Classify(box, pivot) == TopLeft ==> MayMeetTopLeft(q, pivot)
    ensures Classify(box, pivot) == TopRight ==> MayMeetTopRight(q, pivot)
    ensures Classify(box, pivot) == BottomLeft ==> MayMeetBottomLeft(q, pivot)
    ensures Classify(box, pivot) == BottomRight ==> MayMeetBottomRight(q, pivot)
  {
  }

  lemma QueryChildIsFilter(child: Option<QuadTree>, pivot: Option<Vector>, quadrant: Quadrant, q: AABB, reaches: bool)
    requires quadrant != Straddling
    requires child.Some? ==> WellFormed(child.value)
    requires ChildInQuadrant(child, pivot, quadrant)
    requires reaches == match quadrant
      case TopLeft => MayMeetTopLeft(q, pivot)
      case TopRight => MayMeetTopRight(q, pivot)
      case BottomLeft => MayMeetBottomLeft(q, pivot)
      case BottomRight => MayMeetBottomRight(q, pivot)
      case Straddling => false
    ensures QueryChild(child, q, reaches) == Meeting(ShapesOf(child), q)
    decreases child, 0
  {
    if child.Some? {
      if reaches {
        QueryIsFilter(child.value, q);
      } else {
        forall s | s in ShapesOf(child)
          ensures !s.BoundingBox().Intersects(q)
        {
          if s.BoundingBox().Intersects(q) {
            QuadrantReach(s.BoundingBox(), pivot, q);
          }
        }
        MeetingNone(ShapesOf(child), q);
      }
    }
  }

  /**
   * On a well-formed tree the query is exactly the filter of the stored shapes by
   * "its box meets q", in storage order: sound, complete, and without duplicates
   * beyond those stored.
   */
  lemma {:induction false} QueryIsFilter(t: QuadTree, q: AABB)
    requires WellFormed(t)
    ensures Query(t, q) == Meeting(AllShapes(t), q)
    decreases t, 1
  {
    match t
    case Leaf(_) =>
    case Node(shapes, pivot, tl, tr, bl, br) =>
      QueryChildIsFilter(tl, pivot, TopLeft, q, MayMeetTopLeft(q, pivot));
      QueryChildIsFilter(tr, pivot, TopRight, q, MayMeetTopRight(q, pivot));
      QueryChildIsFilter(bl, pivot, BottomLeft, q, MayMeetBottomLeft(q, pivot));
      QueryChildIsFilter(br, pivot, BottomRight, q, MayMeetBottomRight(q, pivot));
      var a, b, c, d, e := shapes, ShapesOf(tl), ShapesOf(tr), ShapesOf(bl), ShapesOf(br);
      MeetingConcat(a + b + c + d, e, q);
      MeetingConcat(a + b + c, d, q);
      MeetingConcat(a + b, c, q);
      MeetingConcat(a, b, q);
  }

  /** Each stored shape meeting q is returned exactly as often as it is stored. */
  lemma {:induction false} MeetingCount(shapes: seq<Shape>, q: AABB, s: Shape)
    ensures multiset(Meeting(shapes, q))[s] == if s.BoundingBox().Intersects(q) then multiset(shapes)[s] else 0
  {
    if shapes != [] {
      MeetingCount(shapes[1..], q, s);
      assert shapes == [shapes[0]] + shapes[1..];
    }
  }

  /**
   * Soundness and completeness of `candidateShapes` on a built tree: a shape is
   * returned as many times as it was given if its box meets q, and never otherwise.
   */
  lemma QueryExact(shapes: seq<Shape>, t: QuadTree, q: AABB, s: Shape)
    requires WellFormed(t) && multiset(AllShapes(t)) == multiset(shapes)
    ensures multiset(Query(t, q))[s] == if s.BoundingBox().Intersects(q) then multiset(shapes)[s] else 0
  {
    QueryIsFilter(t, q);
    MeetingCount(AllShapes(t), q, s);
  }
}
