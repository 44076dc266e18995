/**
 * What the two event layers (src/tilemap-plus/events/) share: listeners, told apart
 * by identity as the functions they are; the record of one listener call; the
 * order-keeping list difference both layers build their enter and leave lists with;
 * and the shape-major broadcast of a list of shapes to a list of listeners.
 */
module Notices {
  import opened Shapes

  /** A listener function, by identity (`!=` on functions compares references). */
  datatype Listener = Listener(id: nat)

  /** One call of `listener` about `shape`, with what else the layer passes it. */
  datatype Call<P> = Call(listener: Listener, shape: Shape, payload: P)

  /**
   * `xs.filter(x => !ys.find(y => y === x))`, and `xs.filter(x => x != y)` when ys is
   * [y]: the members of xs that are not in ys, in xs's order, duplicates kept.
   */
  function Without<T(==)>(xs: seq<T>, ys: seq<T>): (r: seq<T>)
    ensures forall x :: x in r ==> x in xs && x !in ys
    ensures forall x :: x in xs && x !in ys ==> x in r
    ensures |r| <= |xs|
  {
    if xs == [] then []
    else
      var init := Without(xs[..|xs| - 1], ys);
      var last := xs[|xs| - 1];
      assert forall x :: x in xs ==> x in xs[..|xs| - 1] || x == last;
      if last in ys then init else init + [last]
  }

  /** The difference keeps order: it can be taken piece by piece. */
  lemma {:induction false} WithoutConcat<T>(a: seq<T>, b: seq<T>, ys: seq<T>)
    ensures Without(a + b, ys) == Without(a, ys) + Without(b, ys)
  {
    if b != [] {
      var b' := b[..|b| - 1];
      assert (a + b)[..|a + b| - 1] == a + b';
      WithoutConcat(a, b', ys);
    } else {
      assert a + b == a;
    }
  }

  /** Nothing of ys in xs: the difference is xs itself. */
  lemma {:induction false} WithoutNothing<T>(xs: seq<T>, ys: seq<T>)
    requires forall x :: x in xs ==> x !in ys
    ensures Without(xs, ys) == xs
  {
    if xs != [] {
      WithoutNothing(xs[..|xs| - 1], ys);
    }
  }

  /** When ys covers xs nothing is left; in particular a list minus itself is empty. */
  lemma {:induction false} WithoutCovered<T>(xs: seq<T>, ys: seq<T>)
    requires forall x :: x in xs ==> x in ys
    ensures Without(xs, ys) == []
  {
    if xs != [] {
      WithoutCovered(xs[..|xs| - 1], ys);
    }
  }

  /** Every copy of a kept member is kept. */
  lemma {:induction false} WithoutKeepsCopies<T>(xs: seq<T>, ys: seq<T>, x: T)
    requires x !in ys
    ensures multiset(Without(xs, ys))[x] == multiset(xs)[x]
  {
    if xs != [] {
      var init := xs[..|xs| - 1];
      WithoutKeepsCopies(init, ys, x);
      assert xs == init + [xs[|xs| - 1]];
    }
  }

  /** The calls made for one shape: each listener in turn. */
  function Round<P>(shape: Shape, listeners: seq<Listener>, payload: P): (r: seq<Call<P>>)
    ensures |r| == |listeners|
    ensures forall j :: 0 <= j < |listeners| ==> r[j] == Call(listeners[j], shape, payload)
  {
    seq(|listeners|, j requires 0 <= j < |listeners| => Call(listeners[j], shape, payload))
  }

  /** For each shape in order, every listener in order. */
  function Broadcast<P>(shapes: seq<Shape>, listeners: seq<Listener>, payload: P): seq<Call<P>> {
    if shapes == [] then []
    else Broadcast(shapes[..|shapes| - 1], listeners, payload) + Round(shapes[|shapes| - 1], listeners, payload)
  }

  /** One call per shape and listener. */
  lemma {:induction false} BroadcastLength<P>(shapes: seq<Shape>, listeners: seq<Listener>, payload: P)
    ensures |Broadcast(shapes, listeners, payload)| == |shapes| * |listeners|
  {
    if shapes != [] {
      BroadcastLength(shapes[..|shapes| - 1], listeners, payload);
      assert |shapes| * |listeners| == (|shapes| - 1) * |listeners| + |listeners|;
    }
  }

  /** Broadcasting one shape more adds its round at the end. */
  lemma BroadcastSnoc<P>(shapes: seq<Shape>, i: int, listeners: seq<Listener>, payload: P)
    requires 0 <= i < |shapes|
    ensures Broadcast(shapes[..i + 1], listeners, payload)
         == Broadcast(shapes[..i], listeners, payload) + Round(shapes[i], listeners, payload)
  {
    assert shapes[..i + 1][..i] == shapes[..i];
  }

  /** One listener more adds its call at the end of the round. */
  lemma RoundSnoc<P>(shape: Shape, listeners: seq<Listener>, j: int, payload: P)
    requires 0 <= j < |listeners|
    ensures Round(shape, listeners[..j + 1], payload)
         == Round(shape, listeners[..j], payload) + [Call(listeners[j], shape, payload)]
  {
  }

  /** Shape-major order: the call for listener j about shape i is number i * |listeners| + j. */
  lemma {:induction false} BroadcastAt<P>(shapes: seq<Shape>, listeners: seq<Listener>, payload: P, i: int, j: int)
    requires 0 <= i < |shapes| && 0 <= j < |listeners|
    ensures 0 <= i * |listeners| + j < |Broadcast(shapes, listeners, payload)|
    ensures Broadcast(shapes, listeners, payload)[i * |listeners| + j] == Call(listeners[j], shapes[i], payload)
  {
    var n, l := |shapes|, |listeners|;
    var init := shapes[..n - 1];
    assert Broadcast(shapes, listeners, payload)
        == Broadcast(init, listeners, payload) + Round(shapes[n - 1], listeners, payload);
    BroadcastLength(init, listeners, payload);
    if i < n - 1 {
      assert i * l + j < (n - 1) * l by {
        assert i * l <= (n - 2) * l;
        assert (n - 2) * l + l == (n - 1) * l;
      }
      BroadcastAt(init, listeners, payload, i, j);
      assert (i + 1) * l == i * l + l;
    } else {
      assert i * l == (n - 1) * l;
    }
  }

  /** No shapes, or no listeners: no calls. */
  lemma BroadcastEmpty<P>(shapes: seq<Shape>, listeners: seq<Listener>, payload: P)
    requires shapes == [] || listeners == []
    ensures Broadcast(shapes, listeners, payload) == []
  {
  }
}
