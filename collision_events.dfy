/**
 * src/tilemap-plus/events/CollisionEvents.js: per-sprite collision listeners, told
 * only about the shapes a sprite has newly come into contact with since the last
 * notification.
 */
module CollisionEventLayer {
  import opened Vectors
  import opened Shapes
  import opened Bodies
  import opened Notices

  /** The arguments a collision listener receives besides the shape. */
  datatype Impact = Impact(oldVelocity: Vector, newVelocity: Vector, contactNormal: Vector)

  /** A sprite's listeners; none before the sprite is first referred to. */
  function ListenersOf(listeners: map<Sprite, seq<Listener>>, sprite: Sprite): seq<Listener> {
    if sprite in listeners then listeners[sprite] else []
  }

  /** The shapes a sprite touched at its last notification; none before the first. */
  function TouchedBy(collisions: map<Sprite, seq<Shape>>, sprite: Sprite): seq<Shape> {
    if sprite in collisions then collisions[sprite] else []
  }

  /**
   * Once a sprite has been notified of some shapes, notifying it of the same shapes
   * again calls nobody.
   */
  lemma RepeatIsSilent(collisions: map<Sprite, seq<Shape>>, sprite: Sprite, shapes: seq<Shape>,
                       listeners: seq<Listener>, impact: Impact)
    ensures Broadcast(Without(shapes, TouchedBy(collisions[sprite := shapes], sprite)), listeners, impact) == []
  {
    WithoutCovered(shapes, shapes);
  }

  /**
   * The calls one notification makes: listener j is called about the i-th new shape
   * as call i * |listeners| + j; a shape touched last time calls nobody.
   */
  lemma NotificationCalls(collisions: map<Sprite, seq<Shape>>, sprite: Sprite, shapes: seq<Shape>,
                          listeners: seq<Listener>, impact: Impact, i: int, j: int)
    requires var novel := Without(shapes, TouchedBy(collisions, sprite));
      0 <= i < |novel| && 0 <= j < |listeners|
    ensures var novel := Without(shapes, TouchedBy(collisions, sprite));
      && novel[i] in shapes && novel[i] !in TouchedBy(collisions, sprite)
      && i * |listeners| + j < |Broadcast(novel, listeners, impact)|
      && Broadcast(novel, listeners, impact)[i * |listeners| + j] == Call(listeners[j], novel[i], impact)
  {
    var novel := Without(shapes, TouchedBy(collisions, sprite));
    assert novel[i] in novel;
    BroadcastAt(novel, listeners, impact, i, j);
  }

  class CollisionEvents {
    var spriteListeners: map<Sprite, seq<Listener>>
    /** The shapes each sprite touched at its last notification. */
    var spriteCollisions: map<Sprite, seq<Shape>>
    /** The listener calls made so far, in order. */
    var calls: seq<Call<Impact>>

    constructor()
      ensures spriteListeners == map[] && spriteCollisions == map[] && calls == []
    {
      spriteListeners := map[];
      spriteCollisions := map[];
      calls := [];
    }

    /** A sprite's listener list, created empty on first reference. */
    method GetSpriteListeners(sprite: Sprite) returns (listeners: seq<Listener>)
      modifies this
      ensures listeners == ListenersOf(old(spriteListeners), sprite)
      ensures spriteListeners == old(spriteListeners)[sprite := listeners]
      ensures spriteCollisions == old(spriteCollisions) && calls == old(calls)
    {
      if sprite !in spriteListeners {
        spriteListeners := spriteListeners[sprite := []];
      }
      listeners := spriteListeners[sprite];
    }

    /** Appends `listener` to the sprite's listeners and hands it back. */
    method Add(sprite: Sprite, listener: Listener) returns (r: Listener)
      modifies this
      ensures r == listener
      ensures spriteListeners == old(spriteListeners)[sprite := ListenersOf(old(spriteListeners), sprite) + [listener]]
      ensures spriteCollisions == old(spriteCollisions) && calls == old(calls)
    {
      var listeners := GetSpriteListeners(sprite);
      spriteListeners := spriteListeners[sprite := listeners + [listener]];
      return listener;
    }

    /** Drops every occurrence of `listener`, keeping the others in order. */
    method Remove(sprite: Sprite, listener: Listener)
      modifies this
      ensures spriteListeners == old(spriteListeners)[sprite := Without(ListenersOf(old(spriteListeners), sprite), [listener])]
      ensures spriteCollisions == old(spriteCollisions) && calls == old(calls)
    {
      var listeners := GetSpriteListeners(sprite);
      spriteListeners := spriteListeners[sprite := Without(listeners, [listener])];
    }

    /** The inner loop of `notify`: each listener in order, about one shape. */
    method CallEach(listeners: seq<Listener>, shape: Shape, impact: Impact)
      modifies this
      ensures calls == old(calls) + Round(shape, listeners, impact)
      ensures spriteListeners == old(spriteListeners) && spriteCollisions == old(spriteCollisions)
    {
      for j := 0 to |listeners|
        invariant calls == old(calls) + Round(shape, listeners[..j], impact)
        invariant spriteListeners == old(spriteListeners) && spriteCollisions == old(spriteCollisions)
      {
        RoundSnoc(shape, listeners, j, impact);
        calls := calls + [Call(listeners[j], shape, impact)];
      }
      assert listeners[..|listeners|] == listeners;
    }

    /**
     * Records `shapes` as what the sprite now touches and, for each of them it did not
     * touch before, in order, calls each of its listeners in order. The listener list
     * is created (empty) only when there is some new shape to report.
     */
    method Notify(sprite: Sprite, shapes: seq<Shape>, oldVelocity: Vector, newVelocity: Vector, contactNormal: Vector)
      modifies this
      ensures var newShapes := Without(shapes, TouchedBy(old(spriteCollisions), sprite));
        && spriteCollisions == old(spriteCollisions)[sprite := shapes]
        && calls == old(calls) + Broadcast(newShapes, ListenersOf(old(spriteListeners), sprite),
                                           Impact(oldVelocity, newVelocity, contactNormal))
        && spriteListeners == if newShapes == [] then old(spriteListeners)
                              else old(spriteListeners)[sprite := ListenersOf(old(spriteListeners), sprite)]
    {
      var prevShapes := if sprite in spriteCollisions then spriteCollisions[sprite] else [];
      var newShapes := Without(shapes, prevShapes);
      spriteCollisions := spriteCollisions[sprite := shapes];
      Report(sprite, newShapes, Impact(oldVelocity, newVelocity, contactNormal));
    }

    /** The loops of `notify`: every listener of the sprite about each new shape in turn. */
    method Report(sprite: Sprite, newShapes: seq<Shape>, impact: Impact)
      modifies this
      ensures spriteCollisions == old(spriteCollisions)
      ensures calls == old(calls) + Broadcast(newShapes, ListenersOf(old(spriteListeners), sprite), impact)
      ensures spriteListeners == if newShapes == [] then old(spriteListeners)
                                 else old(spriteListeners)[sprite := ListenersOf(old(spriteListeners), sprite)]
    {
      ghost var all := ListenersOf(spriteListeners, sprite);
      for i := 0 to |newShapes|
        invariant spriteCollisions == old(spriteCollisions)
        invariant calls == old(calls) + Broadcast(newShapes[..i], all, impact)
        invariant spriteListeners == if i == 0 then old(spriteListeners) else old(spriteListeners)[sprite := all]
      {
        ghost var before := spriteListeners;
        ReportOne(sprite, newShapes[i], impact);
        assert ListenersOf(before, sprite) == all;
        if i > 0 {
          assert before[sprite := all] == before;
        }
        BroadcastSnoc(newShapes, i, all, impact);
      }
      assert newShapes[..|newShapes|] == newShapes;
    }

    /** One turn of the outer loop of `notify`: the sprite's listeners, fetched afresh, about one shape. */
    method ReportOne(sprite: Sprite, shape: Shape, impact: Impact)
      modifies this
      ensures spriteCollisions == old(spriteCollisions)
      ensures calls == old(calls) + Round(shape, ListenersOf(old(spriteListeners), sprite), impact)
      ensures spriteListeners == old(spriteListeners)[sprite := ListenersOf(old(spriteListeners), sprite)]
    {
      var listeners := GetSpriteListeners(sprite);
      CallEach(listeners, shape, impact);
    }
  }
}
