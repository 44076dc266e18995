/** Concatenating the parts of a list, as the layer readers do object by object. */
module Sequences {
  /** The parts of a list, concatenated in list order. */
  function Flatten<X, Y>(xs: seq<X>, part: X -> seq<Y>): seq<Y> {
    if xs == [] then [] else Flatten(xs[..|xs| - 1], part) + part(xs[|xs| - 1])
  }

  lemma {:induction false} FlattenMembers<X, Y>(xs: seq<X>, part: X -> seq<Y>, y: Y)
    ensures y in Flatten(xs, part) <==> exists i :: 0 <= i < |xs| && y in part(xs[i])
  {
    if xs != [] {
      var n := |xs| - 1;
      var init := xs[..n];
      FlattenMembers(init, part, y);
      if y in Flatten(xs, part) && y !in part(xs[n]) {
        var i :| 0 <= i < |init| && y in part(init[i]);
        assert init[i] == xs[i];
      }
      if exists i :: 0 <= i < |xs| && y in part(xs[i]) {
        var i :| 0 <= i < |xs| && y in part(xs[i]);
        if i < n {
          assert init[i] == xs[i];
        }
      }
    }
  }
}
