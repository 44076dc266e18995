/**
 * src/tilemap-plus/events/RegionEvents.js: regions are the shapes of an object layer;
 * a sprite entering or leaving one calls the sprite's enter or leave listeners.
 */
module RegionEventLayer {
  import opened Wrappers
  import opened Vectors
  import opened Boxes
  import opened Polygons
  import opened Sat
  import opened Levels
  import opened Shapes
  import opened QuadTrees
  import opened ShapeLayers
  import opened Bodies
  import opened Notices

  /** Which listeners a call went to. */
  datatype Crossing = Entered | Left

  /** What the layer remembers per sprite. */
  datatype SpriteState = SpriteState(collisions: seq<Shape>, enterListeners: seq<Listener>, leaveListeners: seq<Listener>)

  /** A sprite's state; a sprite not yet seen has touched nothing and has no listeners. */
  function StateOf(states: map<Sprite, SpriteState>, sprite: Sprite): SpriteState {
    if sprite in states then states[sprite] else SpriteState([], [], [])
  }

  /** The shapes the sprite has entered: touched now, not last time; in the current order. */
  function Entering(states: map<Sprite, SpriteState>, sprite: Sprite, shapes: seq<Shape>): seq<Shape> {
    Without(shapes, StateOf(states, sprite).collisions)
  }

  /** The shapes the sprite has left: touched last time, not now; in the previous order. */
  function Leaving(states: map<Sprite, SpriteState>, sprite: Sprite, shapes: seq<Shape>): seq<Shape> {
    Without(StateOf(states, sprite).collisions, shapes)
  }

  /** The calls `notify` makes: every enter listener per entered shape, then every leave listener per left shape. */
  function Crossings(states: map<Sprite, SpriteState>, sprite: Sprite, shapes: seq<Shape>): seq<Call<Crossing>> {
    var state := StateOf(states, sprite);
    Broadcast(Entering(states, sprite, shapes), state.enterListeners, Entered)
      + Broadcast(Leaving(states, sprite, shapes), state.leaveListeners, Left)
  }

  /** The states after `notify`: the sprite's collisions replaced by the current shapes. */
  function Recorded(states: map<Sprite, SpriteState>, sprite: Sprite, shapes: seq<Shape>): map<Sprite, SpriteState> {
    states[sprite := StateOf(states, sprite).(collisions := shapes)]
  }

  /**
   * A shape is entered iff it is touched now and was not before, left iff it was
   * touched before and is not now; so no shape is both entered and left.
   */
  lemma EnterLeaveMeaning(states: map<Sprite, SpriteState>, sprite: Sprite, shapes: seq<Shape>, s: Shape)
    ensures var previous := StateOf(states, sprite).collisions;
      && (s in Entering(states, sprite, shapes) <==> s in shapes && s !in previous)
      && (s in Leaving(states, sprite, shapes) <==> s in previous && s !in shapes)
      && !(s in Entering(states, sprite, shapes) && s in Leaving(states, sprite, shapes))
  {
  }

  /** Triggering with the shapes recorded last time calls nobody. */
  lemma {:induction false} NoChangeIsSilent(states: map<Sprite, SpriteState>, sprite: Sprite, shapes: seq<Shape>)
    ensures Crossings(Recorded(states, sprite, shapes), sprite, shapes) == []
  {
    WithoutCovered(shapes, shapes);
  }

  /** Leaving every region: each shape touched before is left, in its old order, and none is entered. */
  lemma {:induction false} LeavingAll(states: map<Sprite, SpriteState>, sprite: Sprite)
    ensures Entering(states, sprite, []) == []
    ensures Leaving(states, sprite, []) == StateOf(states, sprite).collisions
  {
    WithoutNothing(StateOf(states, sprite).collisions, []);
  }

  /** `new AABB(x - 1, y - 1, x + width + 1, y + height + 1)`: the box the candidates are looked up with. */
  function QueryBox(body: Body): AABB
    reads body
  {
    Box(body.x - 1.0, body.y - 1.0, body.x + body.width + 1.0, body.y + body.height + 1.0)
  }

  /** The query box holds the body's rectangle with a margin of 1 on every side. */
  lemma QueryBoxMargin(body: Body)
    requires body.width >= 0.0 && body.height >= 0.0
    ensures QueryBox(body).Encloses(Box(body.x - 1.0, body.y - 1.0, body.x + body.width + 1.0, body.y + body.height + 1.0))
    ensures QueryBox(body).Encloses(Box(body.x, body.y, body.x + body.width, body.y + body.height))
  {
  }

  /** The candidates the sprite hits, in candidate order; the first failing test ends the scan. */
  function Collided(candidates: seq<Shape>, sprite: Sprite, sqrt: SqrtFn): Result<seq<Shape>, SatError>
    reads sprite, sprite.body
  {
    if candidates == [] then Ok([])
    else
      match Collided(candidates[..|candidates| - 1], sprite, sqrt)
      case Err(e) => Err(e)
      case Ok(hit) =>
        var last := candidates[|candidates| - 1];
        match Contact(last, sprite, sqrt)
        case Err(e) => Err(e)
        case Ok(c) => Ok(if c.Some? then hit + [last] else hit)
  }

  /** Each candidate's test outcome, in candidate order. */
  function Outcomes(candidates: seq<Shape>, sprite: Sprite, sqrt: SqrtFn): (r: seq<Result<Option<Collision>, SatError>>)
    reads sprite, sprite.body
    ensures |r| == |candidates|
  {
    seq(|candidates|, i requires 0 <= i < |candidates| reads sprite, sprite.body => Contact(candidates[i], sprite, sqrt))
  }

  /** The scan of `Collided` over outcomes already computed. */
  function Scan(candidates: seq<Shape>, outcomes: seq<Result<Option<Collision>, SatError>>): Result<seq<Shape>, SatError>
    requires |outcomes| == |candidates|
  {
    if candidates == [] then Ok([])
    else
      var n := |candidates| - 1;
      match Scan(candidates[..n], outcomes[..n])
      case Err(e) => Err(e)
      case Ok(hit) =>
        match outcomes[n]
        case Err(e) => Err(e)
        case Ok(c) => Ok(if c.Some? then hit + [candidates[n]] else hit)
  }

  lemma {:induction false} ScanMeaning(candidates: seq<Shape>, outcomes: seq<Result<Option<Collision>, SatError>>)
    requires |outcomes| == |candidates|
    ensures Scan(candidates, outcomes).Err? <==> exists i :: 0 <= i < |outcomes| && outcomes[i].Err?
    ensures Scan(candidates, outcomes).Ok? ==>
      forall s :: s in Scan(candidates, outcomes).value <==>
        exists i :: 0 <= i < |candidates| && candidates[i] == s && outcomes[i].Ok? && outcomes[i].value.Some?
  {
    if candidates != [] {
      var n := |candidates| - 1;
      var init, before := candidates[..n], outcomes[..n];
      ScanMeaning(init, before);
      if Scan(init, before).Err? {
        var i :| 0 <= i < n && before[i].Err?;
        assert outcomes[i].Err?;
      } else if outcomes[n].Ok? {
        var hit := Scan(init, before).value;
        forall s
          ensures s in Scan(candidates, outcomes).value <==>
            exists i :: 0 <= i < |candidates| && candidates[i] == s && outcomes[i].Ok? && outcomes[i].value.Some?
        {
          if s in hit {
            var i :| 0 <= i < n && init[i] == s && before[i].Ok? && before[i].value.Some?;
            assert candidates[i] == s && outcomes[i] == before[i];
          }
          if exists i :: 0 <= i < |candidates| && candidates[i] == s && outcomes[i].Ok? && outcomes[i].value.Some? {
            var i :| 0 <= i < |candidates| && candidates[i] == s && outcomes[i].Ok? && outcomes[i].value.Some?;
            if i < n {
              assert init[i] == s && before[i] == outcomes[i];
            }
          }
        }
        forall i | 0 <= i < |outcomes|
          ensures outcomes[i].Ok?
        {
          if i < n {
            assert outcomes[i] == before[i];
          }
        }
      }
    }
  }

  lemma {:induction false} CollidedIsScan(candidates: seq<Shape>, sprite: Sprite, sqrt: SqrtFn)
    ensures Collided(candidates, sprite, sqrt) == Scan(candidates, Outcomes(candidates, sprite, sqrt))
  {
    if candidates != [] {
      var n := |candidates| - 1;
      CollidedIsScan(candidates[..n], sprite, sqrt);
      assert Outcomes(candidates, sprite, sqrt)[..n] == Outcomes(candidates[..n], sprite, sqrt);
    }
  }

  /**
   * The scan fails iff some candidate's test fails; otherwise the shapes collided with
   * are exactly the candidates whose test reports a hit.
   */
  lemma CollidedMeaning(candidates: seq<Shape>, sprite: Sprite, sqrt: SqrtFn)
    ensures Collided(candidates, sprite, sqrt).Err? <==>
      exists i :: 0 <= i < |candidates| && Contact(candidates[i], sprite, sqrt).Err?
    ensures Collided(candidates, sprite, sqrt).Ok? ==>
      forall s :: s in Collided(candidates, sprite, sqrt).value <==>
        s in candidates && Contact(s, sprite, sqrt).Ok? && Contact(s, sprite, sqrt).value.Some?
  {
    var outcomes := Outcomes(candidates, sprite, sqrt);
    CollidedIsScan(candidates, sprite, sqrt);
    ScanMeaning(candidates, outcomes);
  }

  /** One candidate more: one test more, unless the scan has already failed. */
  lemma CollidedSnoc(candidates: seq<Shape>, i: int, sprite: Sprite, sqrt: SqrtFn, hit: seq<Shape>)
    requires 0 <= i < |candidates|
    requires Collided(candidates[..i], sprite, sqrt) == Ok(hit)
    ensures Collided(candidates[..i + 1], sprite, sqrt) ==
      match Contact(candidates[i], sprite, sqrt)
      case Err(e) => Err(e)
      case Ok(c) => Ok(if c.Some? then hit + [candidates[i]] else hit)
  {
    assert candidates[..i + 1][..i] == candidates[..i];
  }

  /** A failure in a prefix of the candidates is the failure of the whole scan. */
  lemma {:induction false} CollidedFailureStays(candidates: seq<Shape>, i: int, sprite: Sprite, sqrt: SqrtFn)
    requires 0 <= i <= |candidates|
    requires Collided(candidates[..i], sprite, sqrt).Err?
    ensures Collided(candidates, sprite, sqrt) == Collided(candidates[..i], sprite, sqrt)
    decreases |candidates| - i
  {
    if i < |candidates| {
      assert candidates[..i + 1][..i] == candidates[..i];
      CollidedFailureStays(candidates, i + 1, sprite, sqrt);
    } else {
      assert candidates[..i] == candidates;
    }
  }

  class RegionEvents {
    /** The map's layers (`tilemapJson.layers`). */
    const layers: seq<Layer>
    var spriteStates: map<Sprite, SpriteState>
    var shapeLayer: Option<ShapeLayer>
    /** The listener calls made so far, in order. */
    var calls: seq<Call<Crossing>>

    constructor(layers: seq<Layer>)
      ensures this.layers == layers && spriteStates == map[] && shapeLayer.None? && calls == []
    {
      this.layers := layers;
      spriteStates := map[];
      shapeLayer := None;
      calls := [];
    }

    /** Builds the regions from the named object layer; fails, changing nothing, when there is none. */
    method EnableObjectLayer(name: string, decomp: Decomposition, turning: Turning, sqrt: SqrtFn)
      returns (r: Result<(), LayerError>)
      modifies this
      ensures spriteStates == old(spriteStates) && calls == old(calls)
      ensures FindObjectLayer(layers, name).None? ==> r == Err(NoObjectLayer(name)) && shapeLayer == old(shapeLayer)
      ensures FindObjectLayer(layers, name).Some? ==>
        && r == Ok(())
        && shapeLayer.Some? && fresh(shapeLayer.value)
        && shapeLayer.value.objects == FindObjectLayer(layers, name).value.objects
        && Holds(shapeLayer.value.shapes, LayerPieces(shapeLayer.value.objects, decomp, turning, sqrt), sqrt)
        && BuiltFrom(shapeLayer.value.quadTree, shapeLayer.value.shapes, 5, 5)
        && multiset(AllShapes(shapeLayer.value.quadTree)) == multiset(shapeLayer.value.shapes)
    {
      var found := FindObjectLayer(layers, name);
      if found.None? {
        return Err(NoObjectLayer(name));
      }
      var layer := NewShapeLayer(found.value, decomp, turning, sqrt);
      shapeLayer := Some(layer);
      r := Ok(());
    }

    /** A sprite's state, created empty on first reference. */
    method GetSpriteState(sprite: Sprite) returns (state: SpriteState)
      modifies this
      ensures state == StateOf(old(spriteStates), sprite)
      ensures spriteStates == old(spriteStates)[sprite := state]
      ensures shapeLayer == old(shapeLayer) && calls == old(calls)
    {
      if sprite !in spriteStates {
        spriteStates := spriteStates[sprite := SpriteState([], [], [])];
      }
      state := spriteStates[sprite];
    }

    method OnEnterAdd(sprite: Sprite, listener: Listener) returns (r: Listener)
      modifies this
      ensures r == listener
      ensures var state := StateOf(old(spriteStates), sprite);
        spriteStates == old(spriteStates)[sprite := state.(enterListeners := state.enterListeners + [listener])]
      ensures shapeLayer == old(shapeLayer) && calls == old(calls)
    {
      var state := GetSpriteState(sprite);
      spriteStates := spriteStates[sprite := state.(enterListeners := state.enterListeners + [listener])];
      return listener;
    }

    method OnEnterRemove(sprite: Sprite, listener: Listener)
      modifies this
      ensures var state := StateOf(old(spriteStates), sprite);
        spriteStates == old(spriteStates)[sprite := state.(enterListeners := Without(state.enterListeners, [listener]))]
      ensures shapeLayer == old(shapeLayer) && calls == old(calls)
    {
      var state := GetSpriteState(sprite);
      spriteStates := spriteStates[sprite := state.(enterListeners := Without(state.enterListeners, [listener]))];
    }

    method OnLeaveAdd(sprite: Sprite, listener: Listener) returns (r: Listener)
      modifies this
      ensures r == listener
      ensures var state := StateOf(old(spriteStates), sprite);
        spriteStates == old(spriteStates)[sprite := state.(leaveListeners := state.leaveListeners + [listener])]
      ensures shapeLayer == old(shapeLayer) && calls == old(calls)
    {
      var state := GetSpriteState(sprite);
      spriteStates := spriteStates[sprite := state.(leaveListeners := state.leaveListeners + [listener])];
      return listener;
    }

    method OnLeaveRemove(sprite: Sprite, listener: Listener)
      modifies this
      ensures var state := StateOf(old(spriteStates), sprite);
        spriteStates == old(spriteStates)[sprite := state.(leaveListeners := Without(state.leaveListeners, [listener]))]
      ensures shapeLayer == old(shapeLayer) && calls == old(calls)
    {
      var state := GetSpriteState(sprite);
      spriteStates := spriteStates[sprite := state.(leaveListeners := Without(state.leaveListeners, [listener]))];
    }

    /**
     * Tests the sprite against the regions near its body and reports the change in
     * what it touches. Does nothing before a layer is enabled; a failing test ends
     * the call before anything is recorded.
     */
    method TriggerWith(sprite: Sprite, sqrt: SqrtFn) returns (r: Result<(), SatError>)
      modifies this
      ensures shapeLayer == old(shapeLayer)
      ensures old(shapeLayer).None? ==> r == Ok(()) && spriteStates == old(spriteStates) && calls == old(calls)
      ensures old(shapeLayer).Some? ==>
        match Collided(Query(old(shapeLayer.value.quadTree), QueryBox(sprite.body)), sprite, sqrt)
        case Err(e) => r == Err(e) && spriteStates == old(spriteStates) && calls == old(calls)
        case Ok(hit) => r == Ok(()) && spriteStates == Recorded(old(spriteStates), sprite, hit)
                        && calls == old(calls) + Crossings(old(spriteStates), sprite, hit)
    {
      if shapeLayer.None? {
        return Ok(());
      }
      var quadTree := shapeLayer.value.quadTree;
      var body := sprite.body;
      var bodyAABB := Box(body.x - 1.0, body.y - 1.0, body.x + body.width + 1.0, body.y + body.height + 1.0);
      assert quadTree == old(shapeLayer.value.quadTree) && bodyAABB == QueryBox(sprite.body);
      var candidateShapes := Query(quadTree, bodyAABB);
      var collidedShapes := [];
      for i := 0 to |candidateShapes|
        invariant Collided(candidateShapes[..i], sprite, sqrt) == Ok(collidedShapes)
        invariant shapeLayer == old(shapeLayer) && spriteStates == old(spriteStates) && calls == old(calls)
      {
        var shape := candidateShapes[i];
        var collision := CollideWidth(shape, sprite, sqrt);
        CollidedSnoc(candidateShapes, i, sprite, sqrt, collidedShapes);
        if collision.Err? {
          CollidedFailureStays(candidateShapes, i + 1, sprite, sqrt);
          return Err(collision.error);
        }
        if collision.value.None? {
          continue;
        }
        collidedShapes := collidedShapes + [shape];
      }
      assert candidateShapes[..|candidateShapes|] == candidateShapes;
      Notify(sprite, collidedShapes);
      assert Collided(candidateShapes, sprite, sqrt) == Ok(collidedShapes);
      return Ok(());
    }

    /**
     * Records `shapes` as what the sprite touches, then calls every enter listener for
     * each entered shape and after that every leave listener for each left shape.
     */
    method Notify(sprite: Sprite, shapes: seq<Shape>)
      modifies this
      ensures spriteStates == Recorded(old(spriteStates), sprite, shapes)
      ensures calls == old(calls) + Crossings(old(spriteStates), sprite, shapes)
      ensures shapeLayer == old(shapeLayer)
    {
      var spriteState := GetSpriteState(sprite);
      assert spriteState == StateOf(old(spriteStates), sprite);
      var prevShapes := spriteState.collisions;
      var enterShapes := Without(shapes, prevShapes);
      var leaveShapes := Without(prevShapes, shapes);
      spriteStates := spriteStates[sprite := spriteState.(collisions := shapes)];
      Announce(enterShapes, spriteState.enterListeners, leaveShapes, spriteState.leaveListeners);
    }

    /** The two broadcasts of `notify`: enter listeners about entered shapes, then leave listeners about left ones. */
    method Announce(enterShapes: seq<Shape>, enterListeners: seq<Listener>,
                    leaveShapes: seq<Shape>, leaveListeners: seq<Listener>)
      modifies this
      ensures calls == old(calls) + (Broadcast(enterShapes, enterListeners, Entered)
                                     + Broadcast(leaveShapes, leaveListeners, Left))
      ensures spriteStates == old(spriteStates) && shapeLayer == old(shapeLayer)
    {
      CallAll(enterShapes, enterListeners, Entered);
      CallAll(leaveShapes, leaveListeners, Left);
      assert calls == old(calls) + Broadcast(enterShapes, enterListeners, Entered)
                                 + Broadcast(leaveShapes, leaveListeners, Left);
    }

    /** One broadcast loop of `notify`: for each shape in order, each listener in order. */
    method CallAll(shapes: seq<Shape>, listeners: seq<Listener>, crossing: Crossing)
      modifies this
      ensures calls == old(calls) + Broadcast(shapes, listeners, crossing)
      ensures spriteStates == old(spriteStates) && shapeLayer == old(shapeLayer)
    {
      for i := 0 to |shapes|
        invariant calls == old(calls) + Broadcast(shapes[..i], listeners, crossing)
        invariant spriteStates == old(spriteStates) && shapeLayer == old(shapeLayer)
      {
        for j := 0 to |listeners|
          invariant calls == old(calls) + Broadcast(shapes[..i], listeners, crossing) + Round(shapes[i], listeners[..j], crossing)
          invariant spriteStates == old(spriteStates) && shapeLayer == old(shapeLayer)
        {
          RoundSnoc(shapes[i], listeners, j, crossing);
          calls := calls + [Call(listeners[j], shapes[i], crossing)];
        }
        assert listeners[..|listeners|] == listeners;
        BroadcastSnoc(shapes, i, listeners, crossing);
      }
      assert shapes[..|shapes|] == shapes;
    }
  }
}
