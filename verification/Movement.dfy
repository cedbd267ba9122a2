/** What holds over whole sequences of frames. */
module Movement {
  import opened Wrappers
  import opened Grid
  import opened Rooms
  import opened TileMap
  import opened AgentSim

  // ----- Interpolation stays within the two tiles of a leg

  predicate Between(v: real, a: real, b: real) {
    a <= v <= b || b <= v <= a
  }

  function FloorTile(v: real, size: nat): int
    requires size >= 1
  {
    (v / size as real).Floor
  }

  /** One axis: from anywhere in tile `from` to the corner of the same or a neighbouring tile, every point on the way is
      in one of the two. */
  lemma AxisStaysInTiles(size: nat, a: real, from: int, to: int, v: real)
    requires size >= 1 && FloorTile(a, size) == from && -1 <= to - from <= 1
    requires Between(v, a, (to * size) as real)
    ensures FloorTile(v, size) == from || FloorTile(v, size) == to
    ensures from == to ==> FloorTile(v, size) == from
  {
    FloorIsTile(a, size, from);
    FloorIsTile(v, size, from);
    FloorIsTile(v, size, to);
    var s := size as real;
    assert (to * size) as real == to as real * s;
    assert (from + 1) as real * s == from as real * s + s;
    assert (to + 1) as real * s == to as real * s + s;
    if to == from + 1 {
      assert to as real * s == from as real * s + s;
    } else if to == from - 1 {
      assert to as real * s == from as real * s - s;
    }
  }

  predicate Near(p: Point, q: Point) {
    p == q || Adjacent(p, q)
  }

  /** The key fact of confinement: a straight walk to the corner of the same or an adjacent tile never leaves the two
      tiles. */
  lemma LegStaysInTiles(r: Renderer, pos: Pixel, to: Point, v: Pixel)
    requires Near(PixelToTile(r, pos), to)
    requires Between(v.x, pos.x, TileToPixel(r, to).x) && Between(v.y, pos.y, TileToPixel(r, to).y)
    ensures PixelToTile(r, v) == PixelToTile(r, pos) || PixelToTile(r, v) == to
    ensures Near(PixelToTile(r, v), to)
  {
    var from := PixelToTile(r, pos);
    AxisStaysInTiles(r.tileSize, pos.x, from.x, to.x, v.x);
    AxisStaysInTiles(r.tileSize, pos.y, from.y, to.y, v.y);
  }

  lemma LerpBetween(o: real, t: real, p: real, p': real)
    requires 0.0 <= p <= p' <= 1.0
    ensures Between(o + (t - o) * p', o + (t - o) * p, t)
  {
    if t > o {
      ScaleOrder(p, p', t - o);
      ScaleOrder(p', 1.0, t - o);
    } else if t < o {
      ScaleOrder(p, p', o - t);
      ScaleOrder(p', 1.0, o - t);
      assert (t - o) * p == -(p * (o - t)) && (t - o) * p' == -(p' * (o - t));
    }
  }

  // ----- The leg an agent is on

  /** The agent stands on the line from `origin` to `target`, and what is left of it ends at the corner of a tile near
      the one it is in. */
  predicate OnLeg(r: Renderer, a: WorldAgent) {
    && 0.0 <= a.progress <= 1.0
    && a.pos == Lerp(a.origin, a.target, a.progress)
    && a.target == TileToPixel(r, PixelToTile(r, a.target))
    && Near(PixelToTile(r, a.pos), PixelToTile(r, a.target))
  }

  /** The path bookkeeping: the current leg is leg `pathIndex` of `path`, every later waypoint is the corner of its tile
      and next to the waypoint before it. */
  predicate FollowsPath(r: Renderer, a: WorldAgent) {
    && a.pathIndex + 1 < |a.path|
    && a.origin == a.path[a.pathIndex] && a.target == a.path[a.pathIndex + 1]
    && forall j | a.pathIndex < j < |a.path| ::
         && a.path[j] == TileToPixel(r, PixelToTile(r, a.path[j]))
         && (j + 1 < |a.path| ==> Adjacent(PixelToTile(r, a.path[j]), PixelToTile(r, a.path[j + 1])))
  }

  /** A frame's tick moves along the leg without leaving its two tiles, and lands exactly on the target. */
  lemma TickStaysOnLeg(r: Renderer, a: WorldAgent, deltaMs: real, distance: real)
    requires OnLeg(r, a) && deltaMs >= 0.0 && distance >= 0.0
    ensures var t := TickAgent(a, deltaMs, distance);
      && OnLeg(r, t) && a.progress <= t.progress
      && (PixelToTile(r, t.pos) == PixelToTile(r, a.pos) || PixelToTile(r, t.pos) == PixelToTile(r, a.target))
      && (a.progress < 1.0 && t.progress == 1.0 ==> t.pos == a.target)
  {
    StepIsForward(deltaMs, distance);
    if a.progress < 1.0 {
      var moved := a.progress + StepOf(deltaMs, distance);
      MoveOnLeg(r, a, if moved < 1.0 then moved else 1.0);
    }
  }

  lemma MoveOnLeg(r: Renderer, a: WorldAgent, progress: real)
    requires OnLeg(r, a) && a.progress <= progress <= 1.0
    ensures var t := a.(progress := progress, pos := Lerp(a.origin, a.target, progress));
      && OnLeg(r, t)
      && (PixelToTile(r, t.pos) == PixelToTile(r, a.pos) || PixelToTile(r, t.pos) == PixelToTile(r, a.target))
      && (progress == 1.0 ==> t.pos == a.target)
  {
    var v := Lerp(a.origin, a.target, progress);
    LerpMoves(a.origin, a.target, a.progress, progress);
    hide PixelToTile, TileToPixel, Lerp, Between, Near;
    LegStaysInTiles(r, a.pos, PixelToTile(r, a.target), v);
  }

  lemma LerpMoves(o: Pixel, t: Pixel, p: real, p': real)
    requires 0.0 <= p <= p' <= 1.0
    ensures Between(Lerp(o, t, p').x, Lerp(o, t, p).x, t.x) && Between(Lerp(o, t, p').y, Lerp(o, t, p).y, t.y)
    ensures p' == 1.0 ==> Lerp(o, t, p') == t
  {
    LerpBetween(o.x, t.x, p, p');
    LerpBetween(o.y, t.y, p, p');
  }

  lemma StepIsForward(deltaMs: real, distance: real)
    requires deltaMs >= 0.0 && distance >= 0.0
    ensures StepOf(deltaMs, distance) >= 0.0
  {
  }

  // ----- Confinement

  /** Where a wandering agent may stand: on open tiles while roaming, in the cell while jailed. */
  predicate Allowed(r: Renderer, mode: Mode, p: Point) {
    if mode == Jailed then InCell(r, p) else IsOpenTile(r, p)
  }

  /** The confinement invariant of a wandering agent between frames. */
  predicate OnCourse(r: Renderer, a: WorldAgent) {
    && Wandering(a.mode)
    && Allowed(r, a.mode, PixelToTile(r, a.pos))
    && (a.path == [] ==> a.progress >= 1.0 || (OnLeg(r, a) && Allowed(r, a.mode, PixelToTile(r, a.target))))
    && (a.path != [] ==> OnLeg(r, a) && FollowsPath(r, a) && PathAllowed(r, a.mode, a.path, a.pathIndex + 1))
  }

  predicate PathAllowed(r: Renderer, mode: Mode, path: seq<Pixel>, from: nat) {
    forall j | from <= j < |path| :: Allowed(r, mode, PixelToTile(r, path[j]))
  }

  lemma BeginPathOnCourse(r: Renderer, a: WorldAgent, hops: seq<Point>)
    requires Wandering(a.mode) && Allowed(r, a.mode, PixelToTile(r, a.pos))
    requires RoamRoute(r, a.mode, PixelToTile(r, a.pos), hops)
    ensures OnCourse(r, BeginPath(a, Waypoints(r, a, hops)))
  {
    var grid, here := RoamAdapter(r, a.mode), PixelToTile(r, a.pos);
    RouteBecomesPath(r, grid, here, hops, a);
    RouteIsAllowed(r, a, here, hops);
    hide OnLeg, FollowsPath, PathAllowed, Allowed, IsShortestRoute;
  }

  lemma RouteIsAllowed(r: Renderer, a: WorldAgent, here: Point, hops: seq<Point>)
    requires Wandering(a.mode) && hops != []
    requires IsRoute(RoamAdapter(r, a.mode), here, hops, hops[|hops| - 1])
    ensures PathAllowed(r, a.mode, Waypoints(r, a, hops), 1)
  {
    forall j | 1 <= j < |Waypoints(r, a, hops)|
      ensures Allowed(r, a.mode, PixelToTile(r, Waypoints(r, a, hops)[j]))
    {
      WaypointAt(r, a, hops, j);
      RouteHop(RoamAdapter(r, a.mode), here, hops, hops[|hops| - 1], j - 1);
      hide *;
      OpenIsAllowed(r, a.mode, hops[j - 1]);
    }
  }

  lemma OpenIsAllowed(r: Renderer, mode: Mode, p: Point)
    requires Wandering(mode) && Open(RoamAdapter(r, mode), p)
    ensures Allowed(r, mode, p)
  {
  }

  lemma WaypointAt(r: Renderer, a: WorldAgent, hops: seq<Point>, j: nat)
    requires 1 <= j <= |hops|
    ensures |Waypoints(r, a, hops)| == |hops| + 1
    ensures Waypoints(r, a, hops)[j] == TileToPixel(r, hops[j - 1])
    ensures PixelToTile(r, Waypoints(r, a, hops)[j]) == hops[j - 1]
  {
    TileCornerIsInTile(r, hops[j - 1]);
  }

  lemma RouteBecomesPath(r: Renderer, grid: Walkable, here: Point, hops: seq<Point>, a: WorldAgent)
    requires here == PixelToTile(r, a.pos) && hops != []
    requires IsRoute(grid, here, hops, hops[|hops| - 1])
    ensures OnLeg(r, BeginPath(a, Waypoints(r, a, hops)))
    ensures FollowsPath(r, BeginPath(a, Waypoints(r, a, hops)))
  {
    var path := Waypoints(r, a, hops);
    forall j | 1 <= j < |path|
      ensures path[j] == TileToPixel(r, hops[j - 1]) && PixelToTile(r, path[j]) == hops[j - 1]
    {
      TileCornerIsInTile(r, hops[j - 1]);
    }
    forall j | 0 <= j < |hops|
      ensures Adjacent(At(here, hops, j), hops[j])
    {
    }
    assert Adjacent(here, hops[0]);
    assert forall j | 1 <= j < |path| && j + 1 < |path| ::
        hops[j] == hops[j - 1 + 1] && Adjacent(At(here, hops, j), hops[j]);
  }

  /** The settle step hands over from one leg to the next. */
  lemma SettleKeepsCourse(r: Renderer, a: WorldAgent)
    requires OnCourse(r, a) && (a.path != [] && a.progress == 1.0 ==> a.pos == a.target)
    ensures OnCourse(r, SettleAgent(a)) && SettleAgent(a).mode == a.mode && SettleAgent(a).pos == a.pos
  {
  }

  lemma AdvanceKeepsCourse(r: Renderer, a: WorldAgent, b: WorldAgent, now: real)
    requires OnCourse(r, a) && Advanced(r, a, b, now)
    ensures OnCourse(r, b) && b.mode == a.mode && b.pos == a.pos
  {
    AdvancedMay(r, a, b, now);
    hide Advanced;
    if a.path == [] && b != a {
      var here, awake := PixelToTile(r, a.pos), a.(restAnim := None);
      hide IsShortestRoute, FollowsPath, OnLeg;
      if hops :| RoamRoute(r, a.mode, here, hops) && b == BeginPath(awake, Waypoints(r, a, hops)) {
        BeginPathOnCourse(r, awake, hops);
      }
    }
  }

  lemma FrameKeepsCourse(r: Renderer, a: WorldAgent, b: WorldAgent, deltaMs: real, distance: real, now: real)
    requires OnCourse(r, a) && Frame(r, a, b, deltaMs, distance, now)
    ensures OnCourse(r, b) && b.mode == a.mode
  {
    var t := TickAgent(a, deltaMs, distance);
    if a.progress < 1.0 {
      TickStaysOnLeg(r, a, deltaMs, distance);
    }
    SettleKeepsCourse(r, t);
    AdvanceKeepsCourse(r, SettleAgent(t), b, now);
  }

  /** A sequence of frames of any lengths, at any times, with any random draws. */
  ghost predicate FrameRun(r: Renderer, run: seq<WorldAgent>) {
    forall i | 0 <= i < |run| - 1 :: FrameStep(r, run[i], run[i + 1])
  }

  ghost predicate FrameStep(r: Renderer, a: WorldAgent, b: WorldAgent) {
    exists deltaMs, distance, now :: Frame(r, a, b, deltaMs, distance, now)
  }

  /** Confinement over every run: an agent on course stays in its mode and on the tiles it is allowed on. */
  lemma {:induction false} Confined(r: Renderer, run: seq<WorldAgent>, i: nat)
    requires FrameRun(r, run) && i < |run|
    requires OnCourse(r, run[0])
    ensures OnCourse(r, run[i]) && run[i].mode == run[0].mode && Allowed(r, run[0].mode, PixelToTile(r, run[i].pos))
  {
    hide OnCourse, Frame;
    if i == 0 {
      CourseIsAllowed(r, run[0]);
    } else {
      Confined(r, run, i - 1);
      assert FrameStep(r, run[i - 1], run[i]);
      var deltaMs, distance, now :| Frame(r, run[i - 1], run[i], deltaMs, distance, now);
      FrameKeepsCourse(r, run[i - 1], run[i], deltaMs, distance, now);
      CourseIsAllowed(r, run[i]);
    }
  }

  lemma CourseIsAllowed(r: Renderer, a: WorldAgent)
    requires OnCourse(r, a)
    ensures Allowed(r, a.mode, PixelToTile(r, a.pos))
  {
  }

  predicate AtRest(a: WorldAgent) {
    a.path == [] && a.progress >= 1.0
  }

  /** A roaming agent at rest on an open tile stands on open tiles through every run of frames. */
  lemma RoamingIsConfined(r: Renderer, run: seq<WorldAgent>)
    requires FrameRun(r, run) && run != []
    requires run[0].mode == Roaming && AtRest(run[0]) && IsOpenTile(r, PixelToTile(r, run[0].pos))
    ensures forall i | 0 <= i < |run| :: run[i].mode == Roaming && IsOpenTile(r, PixelToTile(r, run[i].pos))
  {
    forall i | 0 <= i < |run|
      ensures run[i].mode == Roaming && IsOpenTile(r, PixelToTile(r, run[i].pos))
    {
      Confined(r, run, i);
    }
  }

  /** The cell's centre is off the bars exactly in a zone at least one tile wide and three high. */
  lemma CellCentre(r: Renderer, a: WorldAgent)
    requires JAIL_ROOM_ID in r.zones
    ensures InCell(r, PixelToTile(r, JailAgent(a, r).pos))
       <==> r.zones[JAIL_ROOM_ID].width >= 1 && r.zones[JAIL_ROOM_ID].height >= 3
  {
    var zone := r.zones[JAIL_ROOM_ID];
    TileCornerIsInTile(r, Point(zone.x + zone.width / 2, zone.y + zone.height / 2));
  }

  /** A jailed agent stays in the cell, off its last row, through every run of frames -- exactly when the zone is big
      enough to hold one. */
  lemma JailedIsConfined(r: Renderer, a: WorldAgent)
    requires JAIL_ROOM_ID in r.zones
    ensures r.zones[JAIL_ROOM_ID].width >= 1 && r.zones[JAIL_ROOM_ID].height >= 3
       <==> forall run: seq<WorldAgent>, i | FrameRun(r, run) && 0 <= i < |run| && run[0] == JailAgent(a, r) ::
              run[i].mode == Jailed && InCell(r, PixelToTile(r, run[i].pos))
  {
    var jailed := JailAgent(a, r);
    CellCentre(r, a);
    if InCell(r, PixelToTile(r, jailed.pos)) {
      forall run: seq<WorldAgent>, i | FrameRun(r, run) && 0 <= i < |run| && run[0] == jailed
        ensures run[i].mode == Jailed && InCell(r, PixelToTile(r, run[i].pos))
      {
        Confined(r, run, i);
      }
    } else {
      var run := [jailed];
      assert FrameRun(r, run) && run[0] == JailAgent(a, r);
    }
  }

  /** A jailed agent is free to pace at once: in the first frame, unless it draws a rest, it sets out for the first
      of the candidates drawn that it can walk to within the cell. */
  lemma JailedPacesAtOnce(r: Renderer, a: WorldAgent, b: WorldAgent, now: real, random: Dice)
    requires JAIL_ROOM_ID in r.zones && now >= 0.0 && random(0) >= 0.25
    ensures var jailed := JailAgent(a, r);
      && jailed.mode == Jailed && jailed.occupiedDeskId == None && jailed.restAnim == None && AtRest(jailed)
      && (AdvancedBy(r, jailed, b, now, random) <==>
            PicksFirst(r, jailed, b, PixelToTile(r, jailed.pos), random))
  {
    hide PicksFirst, TileToPixel, PixelToTile;
    var jailed := JailAgent(a, r);
    assert jailed.(restAnim := None) == jailed;
  }

  /** A released agent stands at rest on the common spawn point, or in the corner of a map without one, and stays on
      open tiles from then on if that tile is one. */
  lemma ReleasedIsConfined(r: Renderer, a: WorldAgent, run: seq<WorldAgent>)
    requires FrameRun(r, run) && run != [] && run[0] == ReleaseAgent(a, r)
    ensures var spot := if "common" in r.spawnPoints then r.spawnPoints["common"] else Point(0, 0);
      && PixelToTile(r, run[0].pos) == spot && run[0].mode == Roaming && AtRest(run[0]) && run[0].occupiedDeskId == None
      && (IsOpenTile(r, spot) ==>
            forall i | 0 <= i < |run| :: run[i].mode == Roaming && IsOpenTile(r, PixelToTile(r, run[i].pos)))
  {
    TileCornerIsInTile(r, SpawnTile(r));
    hide FrameRun, IsOpenTile, TileToPixel, PixelToTile;
    if IsOpenTile(r, SpawnTile(r)) {
      RoamingIsConfined(r, run);
    }
  }

  // ----- Speed

  /** A frame covers 0.12 pixels for each of its milliseconds, and no more than what is left of the leg. */
  lemma TickCoversGround(a: WorldAgent, deltaMs: real, distance: real)
    requires a.progress < 1.0 && distance > 0.0
    ensures var after := TickAgent(a, deltaMs, distance).progress * distance;
      var way := a.progress * distance + 0.12 * deltaMs;
      after == if way < distance then way else distance
  {
    var step := StepOf(deltaMs, distance);
    Quotient(0.12 * deltaMs, distance);
    assert (a.progress + step) * distance == a.progress * distance + 0.12 * deltaMs;
    ScaleOrder(1.0, a.progress + step, distance);
  }

  // ----- Facing

  /** One tile that way; down the screen is up the axis. */
  function Ahead(p: Point, facing: Facing): Point {
    match facing
    case Up => Point(p.x, p.y - 1)
    case Down => Point(p.x, p.y + 1)
    case Left => Point(p.x - 1, p.y)
    case Right => Point(p.x + 1, p.y)
  }

  /** On a leg from a tile to its neighbour an agent faces the neighbour. */
  lemma FacesTheNeighbour(r: Renderer, p: Point, facing: Facing)
    ensures FacingFromDelta(TileToPixel(r, p), TileToPixel(r, Ahead(p, facing))) == facing
  {
    var size := r.tileSize;
    assert (p.x + 1) * size == p.x * size + size && (p.x - 1) * size == p.x * size - size;
    assert (p.y + 1) * size == p.y * size + size && (p.y - 1) * size == p.y * size - size;
  }

  /** Walking, it faces along its leg. */
  predicate FacesItsWay(a: WorldAgent) {
    a.path != [] && a.progress < 1.0 ==> a.facing == FacingFromDelta(a.origin, a.target)
  }

  lemma FrameKeepsFacing(r: Renderer, a: WorldAgent, b: WorldAgent, deltaMs: real, distance: real, now: real)
    requires FacesItsWay(a) && Frame(r, a, b, deltaMs, distance, now)
    ensures FacesItsWay(b)
  {
    var t := SettleAgent(TickAgent(a, deltaMs, distance));
    assert FacesItsWay(t) by {
      hide FacingFromDelta, Lerp, StepOf, Frame;
    }
    AdvancedMay(r, t, b, now);
    hide Frame, Advanced, TickAgent, SettleAgent, FacingFromDelta, RoamRoute, LeadsOut, WalksOut, IsGatedTile,
         Waypoints;
  }

  /** So it does in every frame, from every agent that does. */
  lemma {:induction false} WalkersFaceTheirWay(r: Renderer, run: seq<WorldAgent>, i: nat)
    requires FrameRun(r, run) && i < |run| && FacesItsWay(run[0])
    ensures FacesItsWay(run[i])
  {
    hide Frame, FacesItsWay;
    if i > 0 {
      WalkersFaceTheirWay(r, run, i - 1);
      assert FrameStep(r, run[i - 1], run[i]);
      var deltaMs, distance, now :| Frame(r, run[i - 1], run[i], deltaMs, distance, now);
      FrameKeepsFacing(r, run[i - 1], run[i], deltaMs, distance, now);
    }
  }

  /** An agent just sent to a desk faces its way, as does one at rest. */
  lemma SentFacesItsWay(r: Renderer, a: WorldAgent, b: WorldAgent, desk: string, hops: seq<Point>)
    requires SentToDesk(r, a, b, desk, hops)
    ensures FacesItsWay(b)
  {
    hide Connected, IsShortestRoute, FacingFromDelta;
  }
}
