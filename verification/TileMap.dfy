/** The loaded map: walkability, zones and the conversion between pixels and tiles. */
module TileMap {
  import opened Grid
  import opened Rooms

  datatype Zone = Zone(x: int, y: int, width: int, height: int)

  datatype MapData = MapData(
    width: nat,
    height: nat,
    tileSize: nat,
    walkability: seq<seq<bool>>,
    spawnPoints: map<string, Point>,
    zones: map<string, Zone>)

  predicate WellFormed(m: MapData) {
    && m.tileSize >= 1
    && |m.walkability| == m.height
    && forall y | 0 <= y < m.height :: |m.walkability[y]| == m.width
  }

  type Renderer = m: MapData | WellFormed(m) witness MapData(0, 0, 1, [], map[], map[])

  predicate IsWalkable(r: Renderer, x: int, y: int) {
    if x < 0 || y < 0 || x >= r.width || y >= r.height then false else r.walkability[y][x]
  }

  predicate InZone(zone: Zone, p: Point) {
    zone.x <= p.x < zone.x + zone.width && zone.y <= p.y < zone.y + zone.height
  }

  /** Inside the zone of some room that needs permission. */
  predicate IsGatedTile(r: Renderer, p: Point) {
    exists i | 0 <= i < |FILE_ROOMS| ::
      FILE_ROOMS[i].requiresPermission && FILE_ROOMS[i].id in r.zones && InZone(r.zones[FILE_ROOMS[i].id], p)
  }

  /** Those are the five rooms with a file. */
  lemma GatedRooms(r: Renderer, p: Point)
    ensures IsGatedTile(r, p) <==> exists id ::
        id in ["auth-module", "billing", "database", "deploy-config", "analytics"] && id in r.zones
          && InZone(r.zones[id], p)
  {
    hide InZone;
    assert forall i | 0 <= i < 5 :: FILE_ROOMS[i].requiresPermission && FILE_ROOMS[i].resourceUri.Some?;
    assert !FILE_ROOMS[5].requiresPermission;
    assert forall i | 0 <= i < 5 ::
        FILE_ROOMS[i].id == ["auth-module", "billing", "database", "deploy-config", "analytics"][i];
  }

  /** Walkable and outside every permission-gated room. */
  predicate IsOpenTile(r: Renderer, p: Point) {
    IsWalkable(r, p.x, p.y) && !IsGatedTile(r, p)
  }

  /** In the jail cell, off the zone's last row where the bars stand. */
  predicate InCell(r: Renderer, p: Point) {
    && JAIL_ROOM_ID in r.zones
    && var zone := r.zones[JAIL_ROOM_ID];
       InZone(zone, p) && p.y < zone.y + zone.height - 1
  }

  // ----- The three walkability adapters

  function WalkableAdapter(r: Renderer): Walkable {
    Walkable(r.width, r.height, (x, y) => IsWalkable(r, x, y))
  }

  function OpenRoamAdapter(r: Renderer): Walkable {
    Walkable(r.width, r.height, (x, y) => IsOpenTile(r, Point(x, y)))
  }

  function JailRoamAdapter(r: Renderer): Walkable {
    Walkable(r.width, r.height, (x, y) => IsWalkable(r, x, y) && InCell(r, Point(x, y)))
  }

  lemma AdaptersAreFinite(r: Renderer)
    ensures Finite(WalkableAdapter(r)) && Finite(OpenRoamAdapter(r)) && Finite(JailRoamAdapter(r))
  {
  }

  // ----- Pixels

  datatype Pixel = Pixel(x: real, y: real)

  function TileToPixel(r: Renderer, p: Point): Pixel {
    Pixel((p.x * r.tileSize) as real, (p.y * r.tileSize) as real)
  }

  function PixelToTile(r: Renderer, p: Pixel): Point {
    Point((p.x / r.tileSize as real).Floor, (p.y / r.tileSize as real).Floor)
  }

  lemma ScaleOrder(a: real, b: real, scale: real)
    requires scale > 0.0
    ensures a <= b <==> a * scale <= b * scale
  {
    if a < b {
      assert (b - a) * scale > 0.0;
    } else if b < a {
      assert (a - b) * scale > 0.0;
    }
  }

  /** The one-dimensional fact behind every confinement argument: which tile column (or row) a pixel lies in. */
  lemma FloorIsTile(v: real, size: nat, tile: int)
    requires size >= 1
    ensures (v / size as real).Floor == tile <==> tile as real * size as real <= v < (tile + 1) as real * size as real
  {
    var s, low, high := size as real, tile as real, (tile + 1) as real;
    var q := v / s;
    Quotient(v, s);
    ScaleOrder(low, q, s);
    ScaleOrder(high, q, s);
    assert low <= q <==> low * s <= v;
    assert q < high <==> v < high * s;
    FloorBetween(q, tile);
  }

  lemma Quotient(v: real, s: real)
    requires s > 0.0
    ensures (v / s) * s == v
  {
  }

  lemma FloorBetween(q: real, tile: int)
    ensures q.Floor == tile <==> tile as real <= q < (tile + 1) as real
  {
  }

  lemma TileCornerIsInTile(r: Renderer, p: Point)
    ensures PixelToTile(r, TileToPixel(r, p)) == p
  {
    FloorIsTile((p.x * r.tileSize) as real, r.tileSize, p.x);
    FloorIsTile((p.y * r.tileSize) as real, r.tileSize, p.y);
  }
}
