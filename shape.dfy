/**
 * The collision shapes that ShapeLayer and Physics gather from an object layer: one
 * convex polygon each, with the object's properties. Shapes are compared by identity
 * (`===`) by the event layers, so a shape is an object, never copied.
 */
module Shapes {
  import opened Wrappers
  import opened Boxes
  import opened Polygons
  import opened Levels

  class Shape {
    const polygon: ConvexPolygon
    const properties: Option<Properties>
    /** The `left` / `top` / `right` / `bottom` fields stored beside the polygon. */
    const bounds: AABB

    constructor(polygon: ConvexPolygon, properties: Option<Properties>, bounds: AABB)
      ensures this.polygon == polygon && this.properties == properties && this.bounds == bounds
    {
      this.polygon := polygon;
      this.properties := properties;
      this.bounds := bounds;
    }

    /** The box the quadtree files the shape under: its polygon's. */
    function BoundingBox(): AABB {
      polygon.aabb
    }
  }
}
