/**
 * The parts of a Phaser arcade-physics sprite and body that the collision layers read
 * and move. The host engine owns these objects; the plugin only reads the sprite's
 * position, the body's rectangle and custom shape, and writes the body's position,
 * velocity and contact normal.
 */
module Bodies {
  import opened Wrappers
  import opened Vectors
  import opened Polygons

  class Body {
    var x: real
    var y: real
    var width: real
    var height: real
    var velocity: Vector
    /** The sum of the normals of the shapes touched in the last step, normalised. */
    var contactNormal: Vector
    /** `body.plus.shape`: a convex shape given relative to the sprite's position. */
    var shape: Option<ConvexPolygon>

    constructor(x: real, y: real, width: real, height: real, shape: Option<ConvexPolygon>)
      ensures this.x == x && this.y == y && this.width == width && this.height == height
      ensures this.shape == shape
      ensures velocity == Vector(0.0, 0.0) && contactNormal == Vector(0.0, 0.0)
    {
      this.x := x;
      this.y := y;
      this.width := width;
      this.height := height;
      this.shape := shape;
      velocity := Vector(0.0, 0.0);
      contactNormal := Vector(0.0, 0.0);
    }
  }

  /** A sprite: its position and its body (whose `sprite` is this sprite). */
  class Sprite {
    var x: real
    var y: real
    const body: Body

    constructor(x: real, y: real, body: Body)
      ensures this.x == x && this.y == y && this.body == body
    {
      this.x := x;
      this.y := y;
      this.body := body;
    }
  }
}
