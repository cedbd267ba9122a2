/** Building the walkability grid when a map is loaded. */
module MapLoader {
  import opened Wrappers
  import opened Grid
  import opened TileMap

  /** The low 29 bits of a tile's 32-bit number are its id; the high three say how it is flipped. */
  const TILE_IDS := 0x2000_0000

  const WALKABLE_SPAWN_PREFIXES := ["desk-", "pc-", "warroom-", "entrance"]

  /** A tile without a collision mark; a layer shorter than the map marks nothing beyond its end. */
  predicate Unmarked(layer: Option<seq<nat>>, width: nat, x: nat, y: nat) {
    layer.None? || y * width + x >= |layer.value| || layer.value[y * width + x] % TILE_IDS == 0
  }

  predicate OpensTile(name: string) {
    exists i | 0 <= i < |WALKABLE_SPAWN_PREFIXES| :: WALKABLE_SPAWN_PREFIXES[i] <= name
  }

  lemma OpenersAre(name: string)
    ensures OpensTile(name) <==> "desk-" <= name || "pc-" <= name || "warroom-" <= name || "entrance" <= name
  {
    assert WALKABLE_SPAWN_PREFIXES[0] == "desk-" && WALKABLE_SPAWN_PREFIXES[1] == "pc-";
    assert WALKABLE_SPAWN_PREFIXES[2] == "warroom-" && WALKABLE_SPAWN_PREFIXES[3] == "entrance";
  }

  /** One of these named spawn points opens the tile. */
  predicate Opens(spawnPoints: map<string, Point>, names: set<string>, x: int, y: int) {
    exists name | name in names && name in spawnPoints :: OpensTile(name) && spawnPoints[name] == Point(x, y)
  }

  lemma OpensByOneMore(spawnPoints: map<string, Point>, names: set<string>, name: string, x: int, y: int)
    requires name in spawnPoints
    ensures Opens(spawnPoints, names + {name}, x, y)
       <==> Opens(spawnPoints, names, x, y) || (OpensTile(name) && spawnPoints[name] == Point(x, y))
  {
    hide OpensTile;
  }

  /** An object of a layer, in pixels; a point has no width or height. */
  datatype MapObject = MapObject(name: string, x: real, y: real, width: Option<real>, height: Option<real>)

  function Tiles(pixels: real, tileSize: nat): int
    requires tileSize >= 1
  {
    (pixels / tileSize as real).Floor
  }

  function PlaceOf(o: MapObject, tileSize: nat): Point
    requires tileSize >= 1
  {
    Point(Tiles(o.x, tileSize), Tiles(o.y, tileSize))
  }

  function Extent(pixels: Option<real>): real {
    if pixels.None? then 0.0 else pixels.value
  }

  function ZoneOf(o: MapObject, tileSize: nat): Zone
    requires tileSize >= 1
  {
    Zone(Tiles(o.x, tileSize), Tiles(o.y, tileSize), Tiles(Extent(o.width), tileSize),
         Tiles(Extent(o.height), tileSize))
  }

  /** What the objects of a layer come to by name: of two with one name, the later counts. */
  function Named(objects: seq<MapObject>): map<string, MapObject> {
    if objects == [] then map[]
    else Named(objects[..|objects| - 1])[objects[|objects| - 1].name := objects[|objects| - 1]]
  }

  function PointsOf(objects: seq<MapObject>, tileSize: nat): map<string, Point>
    requires tileSize >= 1
  {
    map name | name in Named(objects) :: PlaceOf(Named(objects)[name], tileSize)
  }

  function ZonesOf(objects: seq<MapObject>, tileSize: nat): map<string, Zone>
    requires tileSize >= 1
  {
    map name | name in Named(objects) :: ZoneOf(Named(objects)[name], tileSize)
  }

  predicate IsLast(objects: seq<MapObject>, name: string, k: int) {
    0 <= k < |objects| && objects[k].name == name && forall j | k < j < |objects| :: objects[j].name != name
  }

  /** The object a name stands for is the last that has it; a name no object has stands for none. */
  lemma {:induction false} NamedIsLast(objects: seq<MapObject>, name: string)
    ensures name in Named(objects) <==> exists k | 0 <= k < |objects| :: objects[k].name == name
    ensures name in Named(objects) ==> exists k :: IsLast(objects, name, k) && Named(objects)[name] == objects[k]
  {
    if objects != [] {
      var init := objects[..|objects| - 1];
      NamedIsLast(init, name);
      assert forall k | 0 <= k < |init| :: init[k] == objects[k];
      if objects[|objects| - 1].name == name {
        assert IsLast(objects, name, |objects| - 1);
      } else if name in Named(init) {
        var k :| IsLast(init, name, k) && Named(init)[name] == init[k];
        assert IsLast(objects, name, k) && objects[k] == init[k];
      } else {
        assert forall k | 0 <= k < |objects| :: objects[k].name != name;
      }
    }
  }

  /** The pixel lies in the tile, or on its upper or left edge. */
  predicate Encloses(tile: Point, tileSize: nat, x: real, y: real) {
    && tile.x as real * tileSize as real <= x < (tile.x + 1) as real * tileSize as real
    && tile.y as real * tileSize as real <= y < (tile.y + 1) as real * tileSize as real
  }

  /** A spawn point is the tile that encloses the last object of its name. */
  lemma SpawnPointsEnclose(objects: seq<MapObject>, tileSize: nat, name: string)
    requires tileSize >= 1
    ensures name in PointsOf(objects, tileSize) <==> exists k | 0 <= k < |objects| :: objects[k].name == name
    ensures forall k | IsLast(objects, name, k) ::
        name in PointsOf(objects, tileSize) && Encloses(PointsOf(objects, tileSize)[name], tileSize, objects[k].x,
                                                        objects[k].y)
  {
    NamedIsLast(objects, name);
    hide Tiles, Encloses, Named;
    forall k | IsLast(objects, name, k)
      ensures name in PointsOf(objects, tileSize)
      ensures Encloses(PointsOf(objects, tileSize)[name], tileSize, objects[k].x, objects[k].y)
    {
      var found :| IsLast(objects, name, found) && Named(objects)[name] == objects[found];
      assert found == k;
      PlaceEncloses(objects[k], tileSize);
    }
  }

  lemma PlaceEncloses(o: MapObject, tileSize: nat)
    requires tileSize >= 1
    ensures Encloses(PlaceOf(o, tileSize), tileSize, o.x, o.y)
  {
    FloorIsTile(o.x, tileSize, Tiles(o.x, tileSize));
    FloorIsTile(o.y, tileSize, Tiles(o.y, tileSize));
  }

  /** Every whole tile of a zone on the grid lies within the pixels of the last object of its name, if that begins at a
      corner of a tile. */
  lemma ZonesLieWithin(objects: seq<MapObject>, tileSize: nat, name: string, k: int, tile: Point)
    requires tileSize >= 1 && IsLast(objects, name, k)
    requires objects[k].x == (Tiles(objects[k].x, tileSize) * tileSize) as real
    requires objects[k].y == (Tiles(objects[k].y, tileSize) * tileSize) as real
    ensures name in ZonesOf(objects, tileSize)
    ensures var o := objects[k];
      InZone(ZonesOf(objects, tileSize)[name], tile) <==>
        && o.x <= (tile.x * tileSize) as real && ((tile.x + 1) * tileSize) as real <= o.x + Extent(o.width)
        && o.y <= (tile.y * tileSize) as real && ((tile.y + 1) * tileSize) as real <= o.y + Extent(o.height)
  {
    NamedIsLast(objects, name);
    var found :| IsLast(objects, name, found) && Named(objects)[name] == objects[found];
    var o := objects[k];
    SpanOfTiles(o.x, Extent(o.width), tileSize, tile.x);
    SpanOfTiles(o.y, Extent(o.height), tileSize, tile.y);
  }

  lemma TilesAtLeast(pixels: real, tileSize: nat, count: int)
    requires tileSize >= 1
    ensures count <= Tiles(pixels, tileSize) <==> (count * tileSize) as real <= pixels
  {
    var all, size := Tiles(pixels, tileSize), tileSize as real;
    FloorIsTile(pixels, tileSize, all);
    ScaleOrder(count as real, all as real, size);
    ScaleOrder((all + 1) as real, count as real, size);
    assert (count * tileSize) as real == count as real * size;
  }

  /** From a corner, the whole tiles within so many pixels. */
  lemma SpanOfTiles(from: real, pixels: real, tileSize: nat, tile: int)
    requires tileSize >= 1 && from == (Tiles(from, tileSize) * tileSize) as real
    ensures Tiles(from, tileSize) <= tile < Tiles(from, tileSize) + Tiles(pixels, tileSize) <==>
        from <= (tile * tileSize) as real && ((tile + 1) * tileSize) as real <= from + pixels
  {
    var corner := Tiles(from, tileSize);
    TilesAtLeast(pixels, tileSize, tile + 1 - corner);
    assert (tile + 1 - corner) * tileSize == (tile + 1) * tileSize - corner * tileSize;
    assert ((tile + 1) * tileSize - corner * tileSize) as real == ((tile + 1) * tileSize) as real - from;
    ScaleOrder(corner as real, tile as real, tileSize as real);
    assert (corner * tileSize) as real == corner as real * tileSize as real;
    assert (tile * tileSize) as real == tile as real * tileSize as real;
  }

  class TiledMapRenderer {
    const width: nat
    const height: nat
    const layer: Option<seq<nat>>
    const tileSize: nat
    const objects: seq<MapObject>
    const zoneObjects: seq<MapObject>
    var walkabilityGrid: seq<seq<bool>>
    var spawnPoints: map<string, Point>
    var zones: map<string, Zone>

    predicate Shaped()
      reads this
    {
      |walkabilityGrid| == height && forall y | 0 <= y < height :: |walkabilityGrid[y]| == width
    }

    constructor (width: nat, height: nat, tileSize: nat, layer: Option<seq<nat>>, objects: seq<MapObject>,
                 zoneObjects: seq<MapObject>)
      requires tileSize >= 1
      ensures this.width == width && this.height == height && this.tileSize == tileSize
      ensures Shaped() && spawnPoints == PointsOf(objects, tileSize) && zones == ZonesOf(zoneObjects, tileSize)
      ensures forall x, y | 0 <= x < width && 0 <= y < height ::
          walkabilityGrid[y][x] <==> Unmarked(layer, width, x, y) || Opens(spawnPoints, spawnPoints.Keys, x, y)
    {
      this.width, this.height, this.tileSize, this.layer := width, height, tileSize, layer;
      this.objects, this.zoneObjects := objects, zoneObjects;
      walkabilityGrid, spawnPoints, zones := [], map[], map[];
      new;
      ParseCollisionLayer();
      ParseSpawnPoints();
      MarkWalkableSpawnPoints();
      ParseZones();
    }

    method ParseCollisionLayer()
      modifies this`walkabilityGrid
      ensures Shaped()
      ensures forall x, y | 0 <= x < width && 0 <= y < height :: walkabilityGrid[y][x] == Unmarked(layer, width, x, y)
    {
      walkabilityGrid := seq(height, y => seq(width, x => true));
      if layer.None? {
        return;
      }
      hide Unmarked;
      for y := 0 to height
        invariant Shaped()
        invariant forall i, j | 0 <= i < width && 0 <= j < y :: walkabilityGrid[j][i] == Unmarked(layer, width, i, j)
        invariant forall i, j | 0 <= i < width && y <= j < height :: walkabilityGrid[j][i]
      {
        for x := 0 to width
          invariant Shaped()
          invariant forall i, j | 0 <= i < width && 0 <= j < y :: walkabilityGrid[j][i] == Unmarked(layer, width, i, j)
          invariant forall i | 0 <= i < x :: walkabilityGrid[y][i] == Unmarked(layer, width, i, y)
          invariant forall i | x <= i < width :: walkabilityGrid[y][i]
          invariant forall i, j | 0 <= i < width && y < j < height :: walkabilityGrid[j][i]
        {
          if !Unmarked(layer, width, x, y) {
            walkabilityGrid := walkabilityGrid[y := walkabilityGrid[y][x := false]];
          }
        }
      }
    }

    method ParseSpawnPoints()
      requires tileSize >= 1 && spawnPoints == map[]
      modifies this`spawnPoints
      ensures spawnPoints == PointsOf(objects, tileSize)
    {
      for k := 0 to |objects|
        invariant spawnPoints == PointsOf(objects[..k], tileSize)
      {
        assert objects[..k + 1][..k] == objects[..k];
        spawnPoints := spawnPoints[objects[k].name := PlaceOf(objects[k], tileSize)];
      }
      assert objects[..|objects|] == objects;
    }

    method ParseZones()
      requires tileSize >= 1 && zones == map[]
      modifies this`zones
      ensures zones == ZonesOf(zoneObjects, tileSize)
    {
      for k := 0 to |zoneObjects|
        invariant zones == ZonesOf(zoneObjects[..k], tileSize)
      {
        assert zoneObjects[..k + 1][..k] == zoneObjects[..k];
        zones := zones[zoneObjects[k].name := ZoneOf(zoneObjects[k], tileSize)];
      }
      assert zoneObjects[..|zoneObjects|] == zoneObjects;
    }

    method MarkWalkableSpawnPoints()
      requires Shaped()
      modifies this`walkabilityGrid
      ensures Shaped()
      ensures forall x, y | 0 <= x < width && 0 <= y < height ::
          walkabilityGrid[y][x] <==> old(walkabilityGrid)[y][x] || Opens(spawnPoints, spawnPoints.Keys, x, y)
    {
      hide OpensTile, Opens;
      var rest := spawnPoints.Keys;
      NothingOpens(spawnPoints);
      ghost var marked: set<string> := {};
      while rest != {}
        invariant Shaped() && rest <= spawnPoints.Keys && marked == spawnPoints.Keys - rest
        invariant forall x, y | 0 <= x < width && 0 <= y < height ::
            walkabilityGrid[y][x] <==> old(walkabilityGrid)[y][x] || Opens(spawnPoints, marked, x, y)
        decreases |rest|
      {
        var name :| name in rest;
        MarkOne(name, marked, old(walkabilityGrid));
        rest, marked := rest - {name}, marked + {name};
      }
      assert marked == spawnPoints.Keys;
    }

    /** One turn of the loop. */
    method MarkOne(name: string, ghost marked: set<string>, ghost before: seq<seq<bool>>)
      requires Shaped() && name in spawnPoints
      requires |before| == height && forall y | 0 <= y < height :: |before[y]| == width
      requires forall x, y | 0 <= x < width && 0 <= y < height ::
          walkabilityGrid[y][x] <==> before[y][x] || Opens(spawnPoints, marked, x, y)
      modifies this`walkabilityGrid
      ensures Shaped()
      ensures forall x, y | 0 <= x < width && 0 <= y < height ::
          walkabilityGrid[y][x] <==> before[y][x] || Opens(spawnPoints, marked + {name}, x, y)
    {
      hide OpensTile, Opens;
      var point := spawnPoints[name];
      if OpensTile(name) && 0 <= point.y < height && 0 <= point.x < width {
        walkabilityGrid := walkabilityGrid[point.y := walkabilityGrid[point.y][point.x := true]];
      }
      forall x, y | 0 <= x < width && 0 <= y < height
        ensures walkabilityGrid[y][x] <==> before[y][x] || Opens(spawnPoints, marked + {name}, x, y)
      {
        OpensByOneMore(spawnPoints, marked, name, x, y);
      }
    }
  }

  lemma NothingOpens(spawnPoints: map<string, Point>)
    ensures forall x, y :: !Opens(spawnPoints, {}, x, y)
  {
  }

  /** On a loaded map a tile is walkable exactly when it lies on the map and is either free of collision marks or the
      place of a spawn point that must be reachable. */
  method Load(width: nat, height: nat, tileSize: nat, layer: Option<seq<nat>>, objects: seq<MapObject>,
              zoneObjects: seq<MapObject>)
    returns (r: Renderer)
    requires tileSize >= 1
    ensures r.width == width && r.height == height && r.tileSize == tileSize
    ensures r.spawnPoints == PointsOf(objects, tileSize) && r.zones == ZonesOf(zoneObjects, tileSize)
    ensures forall x, y ::
        IsWalkable(r, x, y) <==>
        && 0 <= x < width && 0 <= y < height
        && (Unmarked(layer, width, x, y) || Opens(r.spawnPoints, r.spawnPoints.Keys, x, y))
  {
    var renderer := new TiledMapRenderer(width, height, tileSize, layer, objects, zoneObjects);
    hide Unmarked, Opens, PointsOf;
    r := MapData(width, height, tileSize, renderer.walkabilityGrid, renderer.spawnPoints, renderer.zones);
  }
}
