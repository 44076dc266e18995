/**
 * 2-D vectors (src/tilemap-plus/Vector.js). Every operation returns a new value.
 * Square roots come from a caller-supplied function `sqrt`: real square roots
 * cannot be computed here, so facts that need one are stated under `RootAt`.
 */
module Vectors {
  import opened Wrappers

  /** A square-root function supplied by the host (`Math.sqrt`). */
  type SqrtFn = real -> real

  /** `sqrt` behaves as a square root at `a`. */
  predicate RootAt(sqrt: SqrtFn, a: real) {
    sqrt(a) >= 0.0 && sqrt(a) * sqrt(a) == a
  }

  datatype Vector = Vector(x: real, y: real) {

    function Plus(v: Vector): (r: Vector)
      ensures r.Minus(v) == this
    {
      Vector(x + v.x, y + v.y)
    }

    function Minus(v: Vector): (r: Vector)
      ensures r.x == x - v.x && r.y == y - v.y
    {
      Vector(x - v.x, y - v.y)
    }

    function Scale(factor: real): (r: Vector)
      ensures r.x == x * factor && r.y == y * factor
    {
      Vector(x * factor, y * factor)
    }

    function Dot(v: Vector): real {
      x * v.x + y * v.y
    }

    function PerpDot(v: Vector): real {
      x * v.y - y * v.x
    }

    /** A quarter turn: (-y, x). */
    function Perpendicular(): (r: Vector)
      ensures Dot(r) == 0.0
      ensures PerpDot(r) == x * x + y * y
      ensures r.Dot(r) == Dot(this)
    {
      Vector(-y, x)
    }

    /**
     * `rotated(a)`, with `direction` = (cos a, sin a) supplied by the host's
     * trigonometry.
     */
    function Rotated(direction: Vector): (r: Vector)
      ensures direction == Vector(1.0, 0.0) ==> r == this
    {
      Vector(direction.x * x + direction.y * y, -direction.y * x + direction.x * y)
    }

    function Clone(): (r: Vector)
      ensures Equals(Some(r))
    {
      Vector(x, y)
    }

    /** `vector && this.x === vector.x && this.y === vector.y`: a missing argument is falsy. */
    function Equals(v: Option<Vector>): (b: bool)
      ensures b <==> v == Some(this)
    {
      v.Some? && x == v.value.x && y == v.value.y
    }

    function Length(sqrt: SqrtFn): real {
      sqrt(x * x + y * y)
    }

    /** The unit vector in this direction; the zero vector when the length is 0. */
    function Normalized(sqrt: SqrtFn): (r: Vector)
      ensures Length(sqrt) == 0.0 ==> r == Vector(0.0, 0.0)
      ensures this == Vector(0.0, 0.0) ==> r == this
      ensures r.PerpDot(this) == 0.0
    {
      var len := Length(sqrt);
      if len == 0.0 then
        Vector(0.0, 0.0)
      else
        ParallelAfterDivision(x, y, len);
        Vector(x / len, y / len)
    }
  }

  /** `new Vector(x, y)`: a missing (or falsy) component becomes 0. */
  function MakeVector(x: Option<real>, y: Option<real>): (v: Vector)
    ensures v.x == (if x.Some? then x.value else 0.0)
    ensures v.y == (if y.Some? then y.value else 0.0)
  {
    Vector(match x case Some(a) => a case None => 0.0, match y case Some(b) => b case None => 0.0)
  }

  const Zero := Vector(0.0, 0.0)

  function Sq(a: real): real { a * a }

  lemma UnitAfterDivision(x: real, y: real, len: real)
    requires len != 0.0 && len * len == x * x + y * y
    ensures (x / len) * (x / len) + (y / len) * (y / len) == 1.0
  {
    var a, b := x / len, y / len;
    assert a * len == x && b * len == y;
    assert Sq(a * len) == Sq(x) && Sq(b * len) == Sq(y);
    assert (Sq(a) + Sq(b)) * Sq(len) == Sq(x) + Sq(y);
    assert ((Sq(a) + Sq(b) - 1.0) * len) * len == 0.0;
    ZeroProduct((Sq(a) + Sq(b) - 1.0) * len, len);
    ZeroProduct(Sq(a) + Sq(b) - 1.0, len);
  }

  lemma ZeroProduct(a: real, b: real)
    requires a * b == 0.0 && b != 0.0
    ensures a == 0.0
  {
    assert a == (a * b) / b;
  }

  lemma ParallelAfterDivision(x: real, y: real, len: real)
    requires len != 0.0
    ensures (x / len) * y - (y / len) * x == 0.0
  {
    assert (x / len) * y == (x * y) / len;
    assert (y / len) * x == (x * y) / len;
  }

  /** With a true square root, a vector of non-zero length normalises to unit length. */
  lemma NormalizedIsUnit(v: Vector, sqrt: SqrtFn)
    requires RootAt(sqrt, v.Dot(v)) && v.Length(sqrt) != 0.0
    ensures v.Normalized(sqrt).Dot(v.Normalized(sqrt)) == 1.0
  {
    UnitAfterDivision(v.x, v.y, v.Length(sqrt));
  }

  lemma PlusCommutes(v: Vector, w: Vector)
    ensures v.Plus(w) == w.Plus(v)
  {
  }

  lemma DotSymmetric(v: Vector, w: Vector)
    ensures v.Dot(w) == w.Dot(v)
  {
  }

  lemma PerpDotAntisymmetric(v: Vector, w: Vector)
    ensures v.PerpDot(w) == -w.PerpDot(v)
  {
  }

  /** Dot distributes over subtraction: the fact behind every projection shift. */
  lemma DotMinus(a: Vector, b: Vector, axis: Vector)
    ensures a.Minus(b).Dot(axis) == a.Dot(axis) - b.Dot(axis)
  {
  }

  lemma DotPlus(a: Vector, b: Vector, axis: Vector)
    ensures a.Plus(b).Dot(axis) == a.Dot(axis) + b.Dot(axis)
  {
  }

  lemma DotScale(a: Vector, k: real, axis: Vector)
    ensures a.Scale(k).Dot(axis) == k * a.Dot(axis)
  {
  }

  /** A rotation by a unit direction keeps dot products, hence lengths and right angles. */
  lemma RotationKeepsDot(u: Vector, v: Vector, direction: Vector)
    requires direction.Dot(direction) == 1.0
    ensures u.Rotated(direction).Dot(v.Rotated(direction)) == u.Dot(v)
  {
    var c, s := direction.x, direction.y;
    calc {
      u.Rotated(direction).Dot(v.Rotated(direction));
      (c * u.x + s * u.y) * (c * v.x + s * v.y) + (-s * u.x + c * u.y) * (-s * v.x + c * v.y);
      (c * c + s * s) * (u.x * v.x) + (c * c + s * s) * (u.y * v.y);
      u.Dot(v);
    }
  }
}
