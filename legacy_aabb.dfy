/**
 * The older box class (src/tilemap-plus/AABB.js). Its emptiness, width, height,
 * point containment and `fromPoints` are the same code as in geometry/AABB.js and are
 * modelled by the members of `Boxes`; only its `intersects` differs: the bare
 * `return` ends the statement, so the comparison below it never runs.
 */
module LegacyBoxes {
  import opened Wrappers
  import opened Boxes

  /** The value `intersects` returns as written: always `undefined` (here `None`). */
  function IntersectsAsWritten(a: AABB, b: AABB): (r: Option<bool>)
    ensures r != Some(true)
  {
    None
  }

  /** A box overlapping itself is reported as not intersecting by the older class. */
  lemma IntersectsAsWrittenMissesOverlap()
    ensures var b := Box(0.0, 0.0, 1.0, 1.0);
      b.Intersects(b) && IntersectsAsWritten(b, b) != Some(b.Intersects(b))
  {
  }
}
