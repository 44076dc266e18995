/**
 * The parts of a Tiled map's JSON that the plugin reads: its layers, the objects of an
 * object layer, the tile data of a tile layer, and the custom `bounce` property.
 */
module Levels {
  import opened Wrappers
  import opened Vectors

  /** The custom properties of a map object; `bounce` is the only one read. */
  datatype Properties = Properties(bounce: Option<real>)

  /** `properties || {}`: an object without properties gets an empty set of them. */
  function OrEmpty(properties: Option<Properties>): (r: Properties)
    ensures properties.Some? ==> r == properties.value
    ensures properties.None? ==> r.bounce.None?
  {
    match properties
    case Some(p) => p
    case None => Properties(None)
  }

  /**
   * A map object. `polygon` holds the vertices relative to (x, y) when the object is a
   * polygon; `polyline`, `ellipse` and `text` stand for the presence of those keys,
   * and `gid` is 0 for an object that is not a tile.
   */
  datatype LevelObject = LevelObject(
    x: real, y: real, width: real, height: real, rotation: real,
    polygon: Option<seq<Vector>>,
    polyline: bool, ellipse: bool, gid: int, text: bool,
    properties: Option<Properties>)

  /** A map layer: `kind` is its `type` ("objectgroup", "tilelayer", ...). */
  datatype Layer = Layer(
    kind: string, name: string,
    objects: seq<LevelObject>,
    width: int, height: int, data: seq<int>)

  predicate IsObjectLayer(layer: Layer, name: string) {
    layer.kind == "objectgroup" && layer.name == name
  }

  /** `layers.find(...)`: the first object layer with the given name, if any. */
  function FindObjectLayer(layers: seq<Layer>, name: string): (r: Option<Layer>)
    ensures r.None? <==> forall i :: 0 <= i < |layers| ==> !IsObjectLayer(layers[i], name)
    ensures r.Some? ==> exists i :: (0 <= i < |layers| && layers[i] == r.value
      && IsObjectLayer(layers[i], name)
      && forall j :: 0 <= j < i ==> !IsObjectLayer(layers[j], name))
  {
    if layers == [] then None
    else if IsObjectLayer(layers[0], name) then
      Some(layers[0])
    else
      var r := FindObjectLayer(layers[1..], name);
      assert forall i :: 1 <= i < |layers| ==> layers[i] == layers[1..][i - 1];
      if r.Some? then
        var k :| 0 <= k < |layers[1..]| && layers[1..][k] == r.value
          && IsObjectLayer(layers[1..][k], name)
          && forall j :: 0 <= j < k ==> !IsObjectLayer(layers[1..][j], name);
        assert layers[k + 1] == r.value;
        r
      else r
  }

  /** `enableObjectLayer` throws when the map has no object layer of that name. */
  datatype LayerError = NoObjectLayer(name: string)

  /** How an object-layer reader treats an object, checked in the sources' order. */
  datatype ObjectKind = PolygonObject | PolylineObject | EllipseObject | TileObject | TextObject | RectangleObject

  function Kind(o: LevelObject): (k: ObjectKind)
    ensures k == PolygonObject <==> o.polygon.Some?
    ensures k == RectangleObject <==>
      o.polygon.None? && !o.polyline && !o.ellipse && o.gid == 0 && !o.text
    ensures k == TextObject <==> o.polygon.None? && !o.polyline && !o.ellipse && o.gid == 0 && o.text
    ensures k in {PolylineObject, EllipseObject, TileObject} <==>
      o.polygon.None? && (o.polyline || o.ellipse || o.gid != 0)
  {
    if o.polygon.Some? then PolygonObject
    else if o.polyline then PolylineObject
    else if o.ellipse then EllipseObject
    else if o.gid != 0 then TileObject
    else if o.text then TextObject
    else RectangleObject
  }
}
