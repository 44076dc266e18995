/**
 * src/tilemap-plus/Animation.js: the tile animations of a Tiled map. Enabling
 * collects, for every animated tile of every tileset, the frames, the tileset and the
 * map cells showing that tile; every tick then advances each animation whose current
 * frame has run its course and repaints its cells with the new frame's tile.
 */
module Animations {
  import opened Sequences
  import opened Wrappers
  import opened Levels

  /** One frame of a tile's animation: the tile shown (local to the tileset) and for how long. */
  datatype Frame = Frame(tileId: int, duration: real)

  /** An entry of a tileset's `tiles`: the tile's local id (the parsed key) and its animation, if any. */
  datatype TileEntry = TileEntry(id: int, animation: Option<seq<Frame>>)

  /** A tileset as the map file describes it. */
  datatype TilesetJson = TilesetJson(name: string, tiles: Option<seq<TileEntry>>)

  /** A tileset as the loaded tilemap holds it: its name and its first global tile id. */
  datatype Tileset = Tileset(name: string, firstgid: int)

  /** A cell of a tile layer. */
  datatype TileLocation = TileLocation(x: int, y: int, layer: string)

  /** A running animation: where it is in its frames, and how long the current frame has shown. */
  datatype TileAnimation = TileAnimation(
    frames: seq<Frame>, tileset: Tileset, tileLocations: seq<TileLocation>,
    currentFrame: int, currentDuration: real)

  /** `tileset.firstgid` on the `undefined` that `find` returns for a tileset the tilemap lacks. */
  datatype AnimationError = MissingTileset(name: string)

  /** An animation has frames and points at one of them. */
  predicate Running(a: TileAnimation) {
    |a.frames| > 0 && 0 <= a.currentFrame < |a.frames|
  }

  // ---------------------------------------------------------------- tile locations

  /** `data[k]`, or `undefined` (None) outside the array. */
  function Cell(data: seq<int>, k: int): Option<int> {
    if 0 <= k < |data| then Some(data[k]) else None
  }

  /** The cells x = 0 .. n-1 of row y that show tile `id`, left to right. */
  function RowCells(layer: Layer, id: int, y: int, n: int): seq<TileLocation>
    decreases n
  {
    if n <= 0 then []
    else
      RowCells(layer, id, y, n - 1)
        + (if Cell(layer.data, y * layer.width + (n - 1)) == Some(id) then [TileLocation(n - 1, y, layer.name)] else [])
  }

  /** The cells of rows 0 .. m-1 that show tile `id`, row by row. */
  function RowsCells(layer: Layer, id: int, m: int): seq<TileLocation>
    decreases m
  {
    if m <= 0 then [] else RowsCells(layer, id, m - 1) + RowCells(layer, id, m - 1, layer.width)
  }

  /** The cells of one layer showing tile `id`; layers other than tile layers have none. */
  function LayerCells(layer: Layer, id: int): seq<TileLocation> {
    if layer.kind != "tilelayer" then [] else RowsCells(layer, id, layer.height)
  }

  /** `_getTileLocations(id)`: the cells of all layers showing tile `id`, layer by layer. */
  function Locations(layers: seq<Layer>, id: int): seq<TileLocation> {
    if layers == [] then []
    else Locations(layers[..|layers| - 1], id) + LayerCells(layers[|layers| - 1], id)
  }

  /** A cell is among the first n of row y iff it is such a cell and shows the tile. */
  lemma {:induction false} RowCellsMembers(layer: Layer, id: int, y: int, n: int, loc: TileLocation)
    ensures loc in RowCells(layer, id, y, n) <==>
      && loc.y == y && loc.layer == layer.name && 0 <= loc.x < n
      && Cell(layer.data, y * layer.width + loc.x) == Some(id)
    decreases n
  {
    if n > 0 {
      RowCellsMembers(layer, id, y, n - 1, loc);
    }
  }

  /** A cell is found in the first m rows iff it lies in them, within the width, and shows the tile. */
  lemma {:induction false} RowsCellsMembers(layer: Layer, id: int, m: int, loc: TileLocation)
    ensures loc in RowsCells(layer, id, m) <==>
      && loc.layer == layer.name && 0 <= loc.y < m && 0 <= loc.x < layer.width
      && Cell(layer.data, loc.y * layer.width + loc.x) == Some(id)
    decreases m
  {
    if m > 0 {
      RowsCellsMembers(layer, id, m - 1, loc);
      RowCellsMembers(layer, id, m - 1, layer.width, loc);
    }
  }

  /** Layer `layer` is a tile layer with cell `loc` inside its bounds showing tile `id`. */
  predicate Shows(layer: Layer, id: int, loc: TileLocation) {
    && layer.kind == "tilelayer" && loc.layer == layer.name
    && 0 <= loc.y < layer.height && 0 <= loc.x < layer.width
    && Cell(layer.data, loc.y * layer.width + loc.x) == Some(id)
  }

  /**
   * `_getTileLocations` finds exactly the cells, within width and height, of tile
   * layers whose data holds the id.
   */
  lemma {:induction false} LocationsMembers(layers: seq<Layer>, id: int, loc: TileLocation)
    ensures loc in Locations(layers, id) <==> exists i :: 0 <= i < |layers| && Shows(layers[i], id, loc)
  {
    var part := layer => LayerCells(layer, id);
    LocationsFlatten(layers, id);
    FlattenMembers(layers, part, loc);
    if loc in Locations(layers, id) {
      var i :| 0 <= i < |layers| && loc in part(layers[i]);
      LayerCellsMembers(layers[i], id, loc);
    }
    if exists i :: 0 <= i < |layers| && Shows(layers[i], id, loc) {
      var i :| 0 <= i < |layers| && Shows(layers[i], id, loc);
      LayerCellsMembers(layers[i], id, loc);
      assert loc in part(layers[i]);
    }
  }

  lemma LayerCellsMembers(layer: Layer, id: int, loc: TileLocation)
    ensures loc in LayerCells(layer, id) <==> Shows(layer, id, loc)
  {
    if layer.kind == "tilelayer" {
      RowsCellsMembers(layer, id, layer.height, loc);
    }
  }

  lemma {:induction false} LocationsFlatten(layers: seq<Layer>, id: int)
    ensures Locations(layers, id) == Flatten(layers, layer => LayerCells(layer, id))
  {
    if layers != [] {
      LocationsFlatten(layers[..|layers| - 1], id);
    }
  }

  /** Reading order: an earlier row, or the same row further left. */
  predicate Before(a: TileLocation, b: TileLocation) {
    a.y < b.y || (a.y == b.y && a.x < b.x)
  }

  predicate RowMajor(locs: seq<TileLocation>) {
    forall i, j :: 0 <= i < j < |locs| ==> Before(locs[i], locs[j])
  }

  lemma RowMajorConcat(a: seq<TileLocation>, b: seq<TileLocation>)
    requires RowMajor(a) && RowMajor(b)
    requires forall i, j :: 0 <= i < |a| && 0 <= j < |b| ==> Before(a[i], b[j])
    ensures RowMajor(a + b)
  {
  }

  /** Within a row the cells come left to right, all left of column n. */
  lemma {:induction false} RowCellsOrdered(layer: Layer, id: int, y: int, n: int)
    ensures RowMajor(RowCells(layer, id, y, n))
    ensures forall i :: 0 <= i < |RowCells(layer, id, y, n)| ==>
      RowCells(layer, id, y, n)[i].y == y && RowCells(layer, id, y, n)[i].x < n
    decreases n
  {
    if n > 0 {
      RowCellsOrdered(layer, id, y, n - 1);
      var init := RowCells(layer, id, y, n - 1);
      var tail := if Cell(layer.data, y * layer.width + (n - 1)) == Some(id) then [TileLocation(n - 1, y, layer.name)] else [];
      RowMajorConcat(init, tail);
    }
  }

  /** A layer's cells come in row-major order. */
  lemma {:induction false} RowsCellsOrdered(layer: Layer, id: int, m: int)
    ensures RowMajor(RowsCells(layer, id, m))
    ensures forall i :: 0 <= i < |RowsCells(layer, id, m)| ==> RowsCells(layer, id, m)[i].y < m
    decreases m
  {
    if m > 0 {
      RowsCellsOrdered(layer, id, m - 1);
      RowCellsOrdered(layer, id, m - 1, layer.width);
      RowMajorConcat(RowsCells(layer, id, m - 1), RowCells(layer, id, m - 1, layer.width));
    }
  }

  lemma LayerCellsOrdered(layer: Layer, id: int)
    ensures RowMajor(LayerCells(layer, id))
  {
    if layer.kind == "tilelayer" {
      RowsCellsOrdered(layer, id, layer.height);
    }
  }

  // ---------------------------------------------------------------- collecting animations

  /** What a scan collects: the animations made, and the error that stopped it, if one did. */
  datatype Gathered = Gathered(animations: seq<TileAnimation>, failure: Option<AnimationError>)

  /** The items in order, each adding what `step` makes of it, until one fails. */
  function Gather<X>(xs: seq<X>, step: X -> Gathered): Gathered {
    if xs == [] then Gathered([], None)
    else
      var g := Gather(xs[..|xs| - 1], step);
      if g.failure.Some? then g
      else
        var h := step(xs[|xs| - 1]);
        Gathered(g.animations + h.animations, h.failure)
  }

  lemma GatherSnoc<X>(xs: seq<X>, i: int, step: X -> Gathered, done: seq<TileAnimation>)
    requires 0 <= i < |xs|
    requires Gather(xs[..i], step) == Gathered(done, None)
    ensures Gather(xs[..i + 1], step) == Gathered(done + step(xs[i]).animations, step(xs[i]).failure)
  {
    assert xs[..i + 1][..i] == xs[..i];
  }

  /** Once a prefix has failed, the whole scan ends as the prefix did. */
  lemma {:induction false} GatherFailureStays<X>(xs: seq<X>, i: int, step: X -> Gathered)
    requires 0 <= i <= |xs|
    requires Gather(xs[..i], step).failure.Some?
    ensures Gather(xs, step) == Gather(xs[..i], step)
    decreases |xs| - i
  {
    if i < |xs| {
      assert xs[..i + 1][..i] == xs[..i];
      GatherFailureStays(xs, i + 1, step);
    } else {
      assert xs[..i] == xs;
    }
  }

  /** `tilemap.tilesets.find(t => t.name === name)`. */
  function FindTileset(tilesets: seq<Tileset>, name: string): (r: Option<Tileset>)
    ensures r.None? <==> forall i :: 0 <= i < |tilesets| ==> tilesets[i].name != name
    ensures r.Some? ==> r.value.name == name && r.value in tilesets
  {
    if tilesets == [] then None
    else if tilesets[0].name == name then Some(tilesets[0])
    else
      var r := FindTileset(tilesets[1..], name);
      assert forall i :: 1 <= i < |tilesets| ==> tilesets[i] == tilesets[1..][i - 1];
      r
  }

  /** A tile whose animation is present and non-empty. */
  predicate Animated(entry: TileEntry) {
    entry.animation.Some? && |entry.animation.value| > 0
  }

  /** `_addAnimationsFromAnimatedTile` for one entry: a new animation at frame 0, or the lookup failure. */
  function FromEntry(tileset: TilesetJson, tilesets: seq<Tileset>, layers: seq<Layer>, entry: TileEntry): Gathered {
    if !Animated(entry) then Gathered([], None)
    else
      match FindTileset(tilesets, tileset.name)
      case None => Gathered([], Some(MissingTileset(tileset.name)))
      case Some(t) =>
        Gathered([TileAnimation(entry.animation.value, t, Locations(layers, t.firstgid + entry.id), 0, 0.0)], None)
  }

  /** `_addAnimationsFromTileset`: the animations of a tileset's tiles, in key order. */
  function FromTileset(tilesets: seq<Tileset>, layers: seq<Layer>, tileset: TilesetJson): Gathered {
    if tileset.tiles.None? then Gathered([], None)
    else Gather(tileset.tiles.value, e => FromEntry(tileset, tilesets, layers, e))
  }

  /** What `enable` collects from the map's tilesets, in order. */
  function FromTilesets(tilesetJsons: seq<TilesetJson>, tilesets: seq<Tileset>, layers: seq<Layer>): Gathered {
    Gather(tilesetJsons, t => FromTileset(tilesets, layers, t))
  }

  /** A step whose animations all start at frame 0, time 0, with frames. */
  predicate Fresh(g: Gathered) {
    forall i :: 0 <= i < |g.animations| ==>
      Running(g.animations[i]) && g.animations[i].currentFrame == 0 && g.animations[i].currentDuration == 0.0
  }

  lemma {:induction false} GatherFresh<X>(xs: seq<X>, step: X -> Gathered)
    requires forall x :: x in xs ==> Fresh(step(x))
    ensures Fresh(Gather(xs, step))
  {
    if xs != [] {
      var init := xs[..|xs| - 1];
      assert forall x :: x in init ==> x in xs;
      GatherFresh(init, step);
    }
  }

  /** Every animation `enable` collects starts at its first frame, with no time spent. */
  lemma CollectedAreFresh(tilesetJsons: seq<TilesetJson>, tilesets: seq<Tileset>, layers: seq<Layer>)
    ensures Fresh(FromTilesets(tilesetJsons, tilesets, layers))
  {
    forall t | t in tilesetJsons
      ensures Fresh(FromTileset(tilesets, layers, t))
    {
      if t.tiles.Some? {
        GatherFresh(t.tiles.value, e => FromEntry(t, tilesets, layers, e));
      }
    }
    GatherFresh(tilesetJsons, t => FromTileset(tilesets, layers, t));
  }

  /** Items that each make nothing make nothing together. */
  lemma {:induction false} GatherNothing<X>(xs: seq<X>, step: X -> Gathered)
    requires forall x :: x in xs ==> step(x) == Gathered([], None)
    ensures Gather(xs, step) == Gathered([], None)
  {
    if xs != [] {
      var init := xs[..|xs| - 1];
      assert forall x :: x in init ==> x in xs;
      GatherNothing(init, step);
    }
  }

  /** Tiles without an animation, or with an empty one, give no animation and need no tileset. */
  lemma NoAnimatedTilesNoAnimations(tilesetJsons: seq<TilesetJson>, tilesets: seq<Tileset>, layers: seq<Layer>)
    requires forall t :: t in tilesetJsons && t.tiles.Some? ==> forall e :: e in t.tiles.value ==> !Animated(e)
    ensures FromTilesets(tilesetJsons, tilesets, layers) == Gathered([], None)
  {
    forall t | t in tilesetJsons
      ensures FromTileset(tilesets, layers, t) == Gathered([], None)
    {
      if t.tiles.Some? {
        GatherNothing(t.tiles.value, e => FromEntry(t, tilesets, layers, e));
      }
    }
    GatherNothing(tilesetJsons, t => FromTileset(tilesets, layers, t));
  }

  // ---------------------------------------------------------------- ticking

  /** The current frame has run its course once `elapsed` more has passed. */
  predicate Advances(a: TileAnimation, elapsed: real)
    requires Running(a)
  {
    a.currentDuration + elapsed > a.frames[a.currentFrame].duration
  }

  /** One tick of one animation. */
  function Tick(a: TileAnimation, elapsed: real): (b: TileAnimation)
    requires Running(a)
    ensures Running(b)
    ensures b.frames == a.frames && b.tileset == a.tileset && b.tileLocations == a.tileLocations
  {
    var spent := a.currentDuration + elapsed;
    var frameDuration := a.frames[a.currentFrame].duration;
    if spent > frameDuration then
      a.(currentDuration := spent - frameDuration, currentFrame := (a.currentFrame + 1) % |a.frames|)
    else
      a.(currentDuration := spent)
  }

  /** The global tile id of the frame an animation shows. */
  function FrameIndex(a: TileAnimation): int
    requires Running(a)
  {
    a.tileset.firstgid + a.frames[a.currentFrame].tileId
  }

  /**
   * A tick moves on at most one frame, wrapping after the last, and only when the
   * frame has run its course; the time moved on with is the frame's duration, so no
   * time is lost.
   */
  lemma TickMeaning(a: TileAnimation, elapsed: real)
    requires Running(a)
    ensures var b := Tick(a, elapsed);
      && (Advances(a, elapsed) ==> b.currentFrame == (if a.currentFrame == |a.frames| - 1 then 0 else a.currentFrame + 1))
      && (!Advances(a, elapsed) ==> b.currentFrame == a.currentFrame)
      && b.currentDuration + (if Advances(a, elapsed) then a.frames[a.currentFrame].duration else 0.0)
         == a.currentDuration + elapsed
  {
  }

  /** Every location set to `index`, one after the other. */
  function Paint(tiles: map<TileLocation, int>, locations: seq<TileLocation>, index: int): map<TileLocation, int> {
    if locations == [] then tiles
    else Paint(tiles, locations[..|locations| - 1], index)[locations[|locations| - 1] := index]
  }

  /** Painting sets exactly the given locations. */
  lemma {:induction false} PaintMeaning(tiles: map<TileLocation, int>, locations: seq<TileLocation>, index: int)
    ensures forall loc :: loc in locations ==> loc in Paint(tiles, locations, index) && Paint(tiles, locations, index)[loc] == index
    ensures forall loc :: loc !in locations ==>
      (loc in Paint(tiles, locations, index) <==> loc in tiles)
      && (loc in tiles ==> Paint(tiles, locations, index)[loc] == tiles[loc])
  {
    if locations != [] {
      var init := locations[..|locations| - 1];
      PaintMeaning(tiles, init, index);
      assert forall loc :: loc in locations <==> loc in init || loc == locations[|locations| - 1];
    }
  }

  /** All animations running. */
  predicate AllRunning(animations: seq<TileAnimation>) {
    forall i :: 0 <= i < |animations| ==> Running(animations[i])
  }

  /** The tiles after one tick: each advancing animation, in order, paints its locations with its new frame. */
  function Painted(tiles: map<TileLocation, int>, animations: seq<TileAnimation>, elapsed: real): map<TileLocation, int>
    requires AllRunning(animations)
  {
    if animations == [] then tiles
    else
      var n := |animations|;
      var before := Painted(tiles, animations[..n - 1], elapsed);
      if Advances(animations[n - 1], elapsed) then
        Paint(before, animations[n - 1].tileLocations, FrameIndex(Tick(animations[n - 1], elapsed)))
      else before
  }

  /** A location no advancing animation shows keeps its tile. */
  lemma {:induction false} PaintedElsewhere(tiles: map<TileLocation, int>, animations: seq<TileAnimation>, elapsed: real,
                                            loc: TileLocation)
    requires AllRunning(animations)
    requires forall i :: 0 <= i < |animations| && Advances(animations[i], elapsed) ==> loc !in animations[i].tileLocations
    ensures loc in Painted(tiles, animations, elapsed) <==> loc in tiles
    ensures loc in tiles ==> Painted(tiles, animations, elapsed)[loc] == tiles[loc]
  {
    if animations != [] {
      var n := |animations|;
      var init := animations[..n - 1];
      assert forall i :: 0 <= i < n - 1 ==> init[i] == animations[i];
      PaintedElsewhere(tiles, init, elapsed, loc);
      if Advances(animations[n - 1], elapsed) {
        PaintMeaning(Painted(tiles, init, elapsed), animations[n - 1].tileLocations, FrameIndex(Tick(animations[n - 1], elapsed)));
      }
    }
  }

  /**
   * A location shows the new frame of the last advancing animation that covers it:
   * when animations share cells, the later one wins.
   */
  lemma {:induction false} PaintedByLast(tiles: map<TileLocation, int>, animations: seq<TileAnimation>, elapsed: real,
                                         k: int, loc: TileLocation)
    requires AllRunning(animations)
    requires 0 <= k < |animations| && Advances(animations[k], elapsed) && loc in animations[k].tileLocations
    requires forall i :: k < i < |animations| && Advances(animations[i], elapsed) ==> loc !in animations[i].tileLocations
    ensures loc in Painted(tiles, animations, elapsed)
    ensures Painted(tiles, animations, elapsed)[loc] == FrameIndex(Tick(animations[k], elapsed))
  {
    var n := |animations|;
    var init := animations[..n - 1];
    assert forall i :: 0 <= i < n - 1 ==> init[i] == animations[i];
    var last := animations[n - 1];
    if k == n - 1 {
      PaintMeaning(Painted(tiles, init, elapsed), last.tileLocations, FrameIndex(Tick(last, elapsed)));
    } else {
      PaintedByLast(tiles, init, elapsed, k, loc);
      if Advances(last, elapsed) {
        PaintMeaning(Painted(tiles, init, elapsed), last.tileLocations, FrameIndex(Tick(last, elapsed)));
      }
    }
  }

  /** Some animation advances this tick. */
  predicate AnyAdvances(animations: seq<TileAnimation>, elapsed: real)
    requires AllRunning(animations)
  {
    exists i :: 0 <= i < |animations| && Advances(animations[i], elapsed)
  }

  function Ticked(animations: seq<TileAnimation>, elapsed: real): (r: seq<TileAnimation>)
    requires AllRunning(animations)
    ensures |r| == |animations| && AllRunning(r)
    ensures forall i :: 0 <= i < |r| ==> r[i] == Tick(animations[i], elapsed)
  {
    seq(|animations|, i requires 0 <= i < |animations| => Tick(animations[i], elapsed))
  }

  /** Running animations stay running when the collected ones are appended. */
  lemma StillRunning(before: seq<TileAnimation>, tilesetJsons: seq<TilesetJson>, tilesets: seq<Tileset>, layers: seq<Layer>)
    requires AllRunning(before)
    ensures AllRunning(before + FromTilesets(tilesetJsons, tilesets, layers).animations)
  {
    CollectedAreFresh(tilesetJsons, tilesets, layers);
  }

  class Animation {
    /** The map file's tilesets and layers (`tilemapJson`). */
    const tilesetJsons: seq<TilesetJson>
    const layers: seq<Layer>
    /** The loaded tilemap's tilesets. */
    const tilesets: seq<Tileset>
    /** Whether the 20 ms timer is set (`timer != null`). */
    var timerSet: bool
    var tileAnimations: seq<TileAnimation>
    /** The tile index shown at each cell of the loaded tilemap. */
    var tiles: map<TileLocation, int>
    /** The `dirty` flags of the loaded tilemap's layers. */
    var dirty: seq<bool>

    /** Every animation has frames and points at one of them. */
    predicate Valid()
      reads this
    {
      AllRunning(tileAnimations)
    }

    constructor(tilesetJsons: seq<TilesetJson>, layers: seq<Layer>, tilesets: seq<Tileset>,
                tiles: map<TileLocation, int>, dirty: seq<bool>)
      ensures Valid()
      ensures this.tilesetJsons == tilesetJsons && this.layers == layers && this.tilesets == tilesets
      ensures this.tiles == tiles && this.dirty == dirty
      ensures !timerSet && tileAnimations == []
    {
      this.tilesetJsons := tilesetJsons;
      this.layers := layers;
      this.tilesets := tilesets;
      this.tiles := tiles;
      this.dirty := dirty;
      timerSet := false;
      tileAnimations := [];
    }

    /**
     * Collects the animations of every tileset with tiles and sets the timer; does
     * nothing when the timer is already set. A tileset the tilemap lacks stops the
     * collection at its first animated tile, keeping what was collected before, and
     * leaves the timer unset.
     */
    method Enable() returns (r: Result<(), AnimationError>)
      requires Valid()
      modifies this
      ensures Valid()
      ensures tiles == old(tiles) && dirty == old(dirty)
      ensures old(timerSet) ==> r == Ok(()) && timerSet && tileAnimations == old(tileAnimations)
      ensures !old(timerSet) ==>
        var g := FromTilesets(tilesetJsons, tilesets, layers);
        && tileAnimations == old(tileAnimations) + g.animations
        && (g.failure.None? ==> r == Ok(()) && timerSet)
        && (g.failure.Some? ==> r == Err(g.failure.value) && !timerSet)
    {
      if timerSet {
        assert Valid();
        return Ok(());
      }
      ghost var before := tileAnimations;
      r := AddAnimationsFromTilesets();
      StillRunning(before, tilesetJsons, tilesets, layers);
      timerSet := r.Ok?;
    }

    /** The loop of `enable` over the map's tilesets; a missing tileset ends it with that error. */
    method AddAnimationsFromTilesets() returns (r: Result<(), AnimationError>)
      modifies this
      ensures var g := FromTilesets(tilesetJsons, tilesets, layers);
        && tileAnimations == old(tileAnimations) + g.animations
        && (if g.failure.Some? then r == Err(g.failure.value) else r == Ok(()))
      ensures tiles == old(tiles) && dirty == old(dirty) && timerSet == old(timerSet)
    {
      var step := t => FromTileset(tilesets, layers, t);
      ghost var added := [];
      for i := 0 to |tilesetJsons|
        invariant tileAnimations == old(tileAnimations) + added
        invariant Gather(tilesetJsons[..i], step) == Gathered(added, None)
        invariant tiles == old(tiles) && dirty == old(dirty) && timerSet == old(timerSet)
      {
        var tileset := tilesetJsons[i];
        GatherSnoc(tilesetJsons, i, step, added);
        ghost var g := FromTileset(tilesets, layers, tileset);
        assert step(tileset) == g;
        if tileset.tiles.Some? {
          var result := AddAnimationsFromTileset(tileset);
          assert tileAnimations == old(tileAnimations) + (added + g.animations);
          added := added + g.animations;
          if result.Err? {
            GatherFailureStays(tilesetJsons, i + 1, step);
            return result;
          }
        } else {
          assert g == Gathered([], None) && added + g.animations == added;
        }
      }
      assert tilesetJsons[..|tilesetJsons|] == tilesetJsons;
      return Ok(());
    }

    /** Clears the animations and the timer; does nothing when no timer is set. */
    method Disable()
      requires Valid()
      modifies this
      ensures Valid()
      ensures !timerSet
      ensures tileAnimations == if old(timerSet) then [] else old(tileAnimations)
      ensures tiles == old(tiles) && dirty == old(dirty)
    {
      if timerSet {
        timerSet := false;
        tileAnimations := [];
      }
    }

    /** `_addAnimationsFromTileset`: the animated tiles of one tileset, in key order. */
    method AddAnimationsFromTileset(tileset: TilesetJson) returns (r: Result<(), AnimationError>)
      modifies this
      ensures var g := FromTileset(tilesets, layers, tileset);
        && tileAnimations == old(tileAnimations) + g.animations
        && (if g.failure.Some? then r == Err(g.failure.value) else r == Ok(()))
      ensures tiles == old(tiles) && dirty == old(dirty) && timerSet == old(timerSet)
    {
      if tileset.tiles.None? {
        return Ok(());
      }
      var entries := tileset.tiles.value;
      var step := e => FromEntry(tileset, tilesets, layers, e);
      ghost var added := [];
      for i := 0 to |entries|
        invariant tileAnimations == old(tileAnimations) + added
        invariant Gather(entries[..i], step) == Gathered(added, None)
        invariant tiles == old(tiles) && dirty == old(dirty) && timerSet == old(timerSet)
      {
        var entry := entries[i];
        GatherSnoc(entries, i, step, added);
        if entry.animation.Some? && |entry.animation.value| > 0 {
          ghost var g := step(entry);
          var result := AddAnimationsFromAnimatedTile(tileset, entry.id, entry.animation.value);
          assert tileAnimations == old(tileAnimations) + (added + g.animations);
          added := added + g.animations;
          if result.Err? {
            GatherFailureStays(entries, i + 1, step);
            return result;
          }
        }
      }
      assert entries[..|entries|] == entries;
      return Ok(());
    }

    /** `_addAnimationsFromAnimatedTile`: one animation at frame 0 over the cells showing the tile. */
    method AddAnimationsFromAnimatedTile(tilesetJson: TilesetJson, animatedTileId: int, frames: seq<Frame>)
      returns (r: Result<(), AnimationError>)
      modifies this
      ensures var g := FromEntry(tilesetJson, tilesets, layers, TileEntry(animatedTileId, Some(frames)));
        && tileAnimations == old(tileAnimations) + g.animations
        && (if g.failure.Some? then r == Err(g.failure.value) else r == Ok(()))
      ensures tiles == old(tiles) && dirty == old(dirty) && timerSet == old(timerSet)
    {
      ghost var entry := TileEntry(animatedTileId, Some(frames));
      if |frames| == 0 {
        assert FromEntry(tilesetJson, tilesets, layers, entry) == Gathered([], None);
        return Ok(());
      }
      var tileset := FindTileset(tilesets, tilesetJson.name);
      if tileset.None? {
        assert FromEntry(tilesetJson, tilesets, layers, entry) == Gathered([], Some(MissingTileset(tilesetJson.name)));
        return Err(MissingTileset(tilesetJson.name));
      }
      var tileLocations := GetTileLocations(tileset.value.firstgid + animatedTileId);
      var tileAnimation := TileAnimation(frames, tileset.value, tileLocations, 0, 0.0);
      assert FromEntry(tilesetJson, tilesets, layers, entry) == Gathered([tileAnimation], None);
      tileAnimations := tileAnimations + [tileAnimation];
      return Ok(());
    }

    /** `_getTileLocations`: the cells showing the tile, layer by layer, each in row-major order. */
    method GetTileLocations(animatedTileId: int) returns (tileLocations: seq<TileLocation>)
      ensures tileLocations == Locations(layers, animatedTileId)
    {
      tileLocations := [];
      for l := 0 to |layers|
        invariant tileLocations == Locations(layers[..l], animatedTileId)
      {
        var layer := layers[l];
        assert layers[..l + 1][..l] == layers[..l];
        if layer.kind != "tilelayer" {
          continue;
        }
        var cells := ScanLayer(layer, animatedTileId);
        tileLocations := tileLocations + cells;
      }
      assert layers[..|layers|] == layers;
    }

    /** The two inner loops of `_getTileLocations`, over the rows and columns of one tile layer. */
    method ScanLayer(layer: Layer, animatedTileId: int) returns (cells: seq<TileLocation>)
      ensures cells == RowsCells(layer, animatedTileId, layer.height)
    {
      var height := layer.height;
      cells := [];
      var y := 0;
      while y < height
        invariant 0 <= y && (y <= height || y == 0)
        invariant cells == RowsCells(layer, animatedTileId, y)
      {
        var row := ScanRow(layer, animatedTileId, y);
        cells := cells + row;
        y := y + 1;
      }
      assert RowsCells(layer, animatedTileId, y) == RowsCells(layer, animatedTileId, height);
    }

    /** The inner loop of `_getTileLocations`: the cells of row `y` showing the tile, left to right. */
    method ScanRow(layer: Layer, animatedTileId: int, y: int) returns (row: seq<TileLocation>)
      ensures row == RowCells(layer, animatedTileId, y, layer.width)
    {
      var data, width := layer.data, layer.width;
      row := [];
      var x := 0;
      while x < width
        invariant 0 <= x && (x <= width || x == 0)
        invariant row == RowCells(layer, animatedTileId, y, x)
      {
        if Cell(data, y * width + x) == Some(animatedTileId) {
          row := row + [TileLocation(x, y, layer.name)];
        }
        x := x + 1;
      }
      assert RowCells(layer, animatedTileId, y, x) == RowCells(layer, animatedTileId, y, width);
    }

    /**
     * `_animate`: every animation takes the elapsed time; those whose frame has run its
     * course move to the next frame and repaint their cells, and then, if any did,
     * every layer is marked dirty.
     */
    method Animate(elapsedMS: real)
      requires Valid()
      modifies this
      ensures Valid()
      ensures tileAnimations == Ticked(old(tileAnimations), elapsedMS)
      ensures tiles == Painted(old(tiles), old(tileAnimations), elapsedMS)
      ensures dirty == if AnyAdvances(old(tileAnimations), elapsedMS) then seq(|old(dirty)|, _ => true) else old(dirty)
      ensures timerSet == old(timerSet)
    {
      var deltaTime := elapsedMS;
      var anyDirty := false;
      ghost var animations := tileAnimations;
      for i := 0 to |tileAnimations|
        invariant |tileAnimations| == |animations|
        invariant forall k :: 0 <= k < i ==> tileAnimations[k] == Tick(animations[k], deltaTime)
        invariant forall k :: i <= k < |animations| ==> tileAnimations[k] == animations[k]
        invariant tiles == Painted(old(tiles), animations[..i], deltaTime)
        invariant anyDirty <==> AnyAdvances(animations[..i], deltaTime)
        invariant dirty == old(dirty) && timerSet == old(timerSet)
      {
        PaintedSnoc(old(tiles), animations, i, deltaTime);
        AdvancesSnoc(animations, i, deltaTime);
        var advanced := AnimateOne(i, deltaTime);
        anyDirty := anyDirty || advanced;
      }
      assert animations[..|animations|] == animations;
      if anyDirty {
        MarkDirty();
      }
    }

    /** One pass of `_animate`'s loop: animation i takes the elapsed time, and repaints its cells if it moved on. */
    method AnimateOne(i: int, deltaTime: real) returns (advanced: bool)
      requires 0 <= i < |tileAnimations| && Running(tileAnimations[i])
      modifies this
      ensures advanced == Advances(old(tileAnimations[i]), deltaTime)
      ensures tileAnimations == old(tileAnimations)[i := Tick(old(tileAnimations[i]), deltaTime)]
      ensures tiles == if advanced
        then Paint(old(tiles), old(tileAnimations[i]).tileLocations, FrameIndex(Tick(old(tileAnimations[i]), deltaTime)))
        else old(tiles)
      ensures dirty == old(dirty) && timerSet == old(timerSet)
    {
      var tileAnimation := tileAnimations[i];
      var frames := tileAnimation.frames;
      var currentFrame := tileAnimation.currentFrame;
      var frameDuration := frames[currentFrame].duration;
      tileAnimation := tileAnimation.(currentDuration := tileAnimation.currentDuration + deltaTime);
      advanced := tileAnimation.currentDuration > frameDuration;
      if advanced {
        tileAnimation := tileAnimation.(currentDuration := tileAnimation.currentDuration - frameDuration);
        tileAnimation := tileAnimation.(currentFrame := (currentFrame + 1) % |frames|);
        var newFrameIndex := tileAnimation.tileset.firstgid + frames[tileAnimation.currentFrame].tileId;
        SetTiles(tileAnimation.tileLocations, newFrameIndex);
      }
      tileAnimations := tileAnimations[i := tileAnimation];
    }

    /** Sets every layer's `dirty` flag. */
    method MarkDirty()
      modifies this
      ensures dirty == seq(|old(dirty)|, _ => true)
      ensures tileAnimations == old(tileAnimations) && tiles == old(tiles) && timerSet == old(timerSet)
    {
      for j := 0 to |dirty|
        invariant |dirty| == |old(dirty)|
        invariant forall k :: 0 <= k < j ==> dirty[k]
        invariant forall k :: j <= k < |dirty| ==> dirty[k] == old(dirty)[k]
        invariant tileAnimations == old(tileAnimations) && tiles == old(tiles) && timerSet == old(timerSet)
      {
        dirty := dirty[j := true];
      }
    }

    /** The inner loop of `_animate`: the new frame's tile at every cell of the animation. */
    method SetTiles(tileLocations: seq<TileLocation>, index: int)
      modifies this
      ensures tiles == Paint(old(tiles), tileLocations, index)
      ensures tileAnimations == old(tileAnimations) && dirty == old(dirty) && timerSet == old(timerSet)
    {
      for k := 0 to |tileLocations|
        invariant tiles == Paint(old(tiles), tileLocations[..k], index)
        invariant tileAnimations == old(tileAnimations) && dirty == old(dirty) && timerSet == old(timerSet)
      {
        assert tileLocations[..k + 1][..k] == tileLocations[..k];
        tiles := tiles[tileLocations[k] := index];
      }
      assert tileLocations[..|tileLocations|] == tileLocations;
    }
  }

  /** Painting after the first i + 1 animations: after the first i, then animation i if it moved on. */
  lemma PaintedSnoc(tiles: map<TileLocation, int>, animations: seq<TileAnimation>, i: int, elapsed: real)
    requires AllRunning(animations) && 0 <= i < |animations|
    ensures AllRunning(animations[..i]) && AllRunning(animations[..i + 1])
    ensures Painted(tiles, animations[..i + 1], elapsed) ==
      if Advances(animations[i], elapsed)
      then Paint(Painted(tiles, animations[..i], elapsed), animations[i].tileLocations, FrameIndex(Tick(animations[i], elapsed)))
      else Painted(tiles, animations[..i], elapsed)
  {
    assert animations[..i + 1][..i] == animations[..i];
  }

  /** Some of the first i + 1 animations advance iff some of the first i do, or animation i does. */
  lemma AdvancesSnoc(animations: seq<TileAnimation>, i: int, elapsed: real)
    requires AllRunning(animations) && 0 <= i < |animations|
    ensures AllRunning(animations[..i]) && AllRunning(animations[..i + 1])
    ensures AnyAdvances(animations[..i + 1], elapsed) <==>
      AnyAdvances(animations[..i], elapsed) || Advances(animations[i], elapsed)
  {
    assert animations[..i + 1][i] == animations[i];
    assert forall k :: 0 <= k < i ==> animations[..i + 1][k] == animations[..i][k];
  }
}
