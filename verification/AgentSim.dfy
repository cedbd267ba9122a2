/** The per-frame simulation of one world agent. */
module AgentSim {
  import opened Wrappers
  import opened Grid
  import opened Rooms
  import opened TileMap
  import opened ExitSearch

  const MOVE_SPEED_PX_PER_MS: real := 0.12
  const ROAM_RADIUS_TILES := 4
  const ROAM_PICK_ATTEMPTS := 20
  const REST_CHANCE: real := 0.25
  const REST_MIN_MS: real := 2500.0
  const REST_VAR_MS: real := 3500.0

  datatype Facing = Up | Down | Left | Right
  datatype Mode = Roaming | HeadingToDesk | Working | Jailed
  datatype RestAnim = Read | Phone

  datatype WorldAgent = WorldAgent(
    pos: Pixel,
    origin: Pixel,
    target: Pixel,
    facing: Facing,
    progress: real,
    path: seq<Pixel>,
    pathIndex: nat,
    mode: Mode,
    occupiedDeskId: Option<string>,
    restAnim: Option<RestAnim>,
    restUntil: real)

  const WORK_FACING: map<string, Facing> := map[
    "desk-auth-module-1" := Up, "desk-auth-module-2" := Up, "desk-analytics-1" := Down, "desk-analytics-2" := Up,
    "desk-billing-1" := Up, "desk-billing-2" := Up, "desk-deploy-config-1" := Up, "desk-deploy-config-2" := Down]

  function Abs(v: real): real {
    if v < 0.0 then -v else v
  }

  function FacingFromDelta(from: Pixel, to: Pixel): Facing {
    var dx, dy := to.x - from.x, to.y - from.y;
    if Abs(dx) > Abs(dy) then (if dx > 0.0 then Right else Left) else if dy > 0.0 then Down else Up
  }

  predicate Wandering(mode: Mode) {
    mode == Roaming || mode == Jailed
  }

  /** The point a fraction `progress` of the way along a leg. */
  function Lerp(from: Pixel, to: Pixel, progress: real): Pixel {
    Pixel(from.x + (to.x - from.x) * progress, from.y + (to.y - from.y) * progress)
  }

  /** `distance` is what Math.hypot gives for the leg. */
  predicate IsLegLength(a: WorldAgent, distance: real) {
    && distance >= 0.0
    && distance * distance
       == (a.target.x - a.origin.x) * (a.target.x - a.origin.x) + (a.target.y - a.origin.y) * (a.target.y - a.origin.y)
  }

  // ----- The record-to-record operations

  function BeginPath(a: WorldAgent, waypoints: seq<Pixel>): WorldAgent
    requires waypoints != []
  {
    var first := waypoints[0];
    var next := if |waypoints| > 1 then waypoints[1] else first;
    a.(origin := first, target := next, facing := FacingFromDelta(first, next), progress := 0.0, path := waypoints,
       pathIndex := 0)
  }

  function StepOf(deltaMs: real, distance: real): real {
    MOVE_SPEED_PX_PER_MS * deltaMs / (if distance == 0.0 then 1.0 else distance)
  }

  function TickAgent(a: WorldAgent, deltaMs: real, distance: real): WorldAgent {
    if a.progress >= 1.0 then a
    else
      var moved := a.progress + StepOf(deltaMs, distance);
      var progress := if moved < 1.0 then moved else 1.0;
      a.(progress := progress, pos := Lerp(a.origin, a.target, progress))
  }

  function SettleAgent(a: WorldAgent): WorldAgent {
    if a.progress < 1.0 then a
    else
      var nextIndex := a.pathIndex + 1;
      if nextIndex < |a.path| - 1 then
        var from, to := a.path[nextIndex], a.path[nextIndex + 1];
        a.(pathIndex := nextIndex, origin := from, target := to, facing := FacingFromDelta(from, to), progress := 0.0)
      else if a.path == [] then a
      else if a.mode == HeadingToDesk then
        var desk := if a.occupiedDeskId.Some? then a.occupiedDeskId.value else "";
        a.(mode := Working, path := [], pathIndex := 0,
           facing := if desk in WORK_FACING then WORK_FACING[desk] else a.facing)
      else a.(path := [], pathIndex := 0)
  }

  function EndWorking(a: WorldAgent): WorldAgent {
    a.(mode := Roaming, occupiedDeskId := None, path := [], pathIndex := 0)
  }

  function StandAt(a: WorldAgent, spot: Pixel): WorldAgent {
    a.(pos := spot, origin := spot, target := spot, facing := Down, progress := 1.0, path := [], pathIndex := 0)
  }

  function JailAgent(a: WorldAgent, r: Renderer): WorldAgent {
    if JAIL_ROOM_ID !in r.zones then a
    else
      var zone := r.zones[JAIL_ROOM_ID];
      var cell := TileToPixel(r, Point(zone.x + zone.width / 2, zone.y + zone.height / 2));
      StandAt(a, cell).(mode := Jailed, occupiedDeskId := None, restAnim := None, restUntil := 0.0)
  }

  function SpawnTile(r: Renderer): Point {
    if "common" in r.spawnPoints then r.spawnPoints["common"] else Point(0, 0)
  }

  function ReleaseAgent(a: WorldAgent, r: Renderer): WorldAgent {
    StandAt(a, TileToPixel(r, SpawnTile(r))).(mode := Roaming, occupiedDeskId := None)
  }

  // ----- Paths of pixels

  function ToPixels(r: Renderer, hops: seq<Point>): (pixels: seq<Pixel>)
    ensures |pixels| == |hops|
  {
    seq(|hops|, i requires 0 <= i < |hops| => TileToPixel(r, hops[i]))
  }

  function Waypoints(r: Renderer, a: WorldAgent, hops: seq<Point>): seq<Pixel> {
    [a.pos] + ToPixels(r, hops)
  }

  /** The position, then a shortest way to the goal; the position alone when there is none. */
  ghost predicate WaypointsTo(r: Renderer, a: WorldAgent, goal: Point, adapter: Walkable, waypoints: seq<Pixel>,
                              hops: seq<Point>) {
    && waypoints == Waypoints(r, a, hops)
    && if Connected(adapter, PixelToTile(r, a.pos), goal)
       then IsShortestRoute(adapter, PixelToTile(r, a.pos), hops, goal) else hops == []
  }

  method PathWaypoints(r: Renderer, a: WorldAgent, goal: Point, adapter: Walkable)
    returns (waypoints: seq<Pixel>, ghost hops: seq<Point>)
    requires Finite(adapter)
    ensures WaypointsTo(r, a, goal, adapter, waypoints, hops)
  {
    var startTile := PixelToTile(r, a.pos);
    var found := FindPath(adapter, startTile, goal);
    var tileHops := if found.Some? then found.value else [];
    hops := tileHops;
    waypoints := [a.pos] + ToPixels(r, tileHops);
  }

  // ----- What one call of advanceBehavior may do

  /** Standing in a gated room: walk the shortest way to a nearest open tile, or stand still when none is within
      reach. */
  ghost predicate WalksOut(r: Renderer, a: WorldAgent, b: WorldAgent, here: Point) {
    || (b == a
        && forall u | u != here && Qualifies(r, u) :: !Reach(WalkableAdapter(r), here, u, EXIT_SEARCH_RADIUS_TILES))
    || exists hops :: LeadsOut(r, here, hops) && b == BeginPath(a, Waypoints(r, a, hops))
  }

  ghost predicate LeadsOut(r: Renderer, here: Point, hops: seq<Point>) {
    && 0 < |hops| <= EXIT_SEARCH_RADIUS_TILES
    && Qualifies(r, hops[|hops| - 1])
    && IsShortestRoute(WalkableAdapter(r), here, hops, hops[|hops| - 1])
    && forall u | u != here && Qualifies(r, u) :: !Reach(WalkableAdapter(r), here, u, |hops| - 1)
  }

  function RoamAdapter(r: Renderer, mode: Mode): Walkable {
    if mode == Jailed then JailRoamAdapter(r) else OpenRoamAdapter(r)
  }

  /** A roam target's route: non-empty, walkable for this mode, to a tile within the roam radius. */
  ghost predicate RoamRoute(r: Renderer, mode: Mode, here: Point, hops: seq<Point>) {
    && hops != []
    && var goal := hops[|hops| - 1];
       && IsShortestRoute(RoamAdapter(r, mode), here, hops, goal)
       && -ROAM_RADIUS_TILES <= goal.x - here.x <= ROAM_RADIUS_TILES
       && -ROAM_RADIUS_TILES <= goal.y - here.y <= ROAM_RADIUS_TILES
  }

  /** Draw number `i` of Math.random. */
  type Dice = nat -> real

  ghost predicate Fair(random: Dice) {
    forall i: nat :: 0.0 <= random(i) < 1.0
  }

  function Offset(draw: real): int {
    (draw * (ROAM_RADIUS_TILES * 2 + 1) as real).Floor - ROAM_RADIUS_TILES
  }

  /** The nine offsets from -4 to 4 divide the draws between 0 and 1 evenly. */
  lemma OffsetInRange(draw: real)
    requires 0.0 <= draw < 1.0
    ensures -4 <= Offset(draw) <= 4 && (Offset(draw) + 4) as real / 9.0 <= draw < (Offset(draw) + 5) as real / 9.0
  {
    assert 0.0 <= draw * 9.0 < 9.0;
  }

  /** The tile that two draws name, in the square of nine by nine around the agent. */
  ghost predicate Draws(here: Point, candidate: Point, acrossDraw: real, downDraw: real) {
    && -4 <= candidate.x - here.x <= 4 && -4 <= candidate.y - here.y <= 4
    && (candidate.x - here.x + 4) as real / 9.0 <= acrossDraw < (candidate.x - here.x + 5) as real / 9.0
    && (candidate.y - here.y + 4) as real / 9.0 <= downDraw < (candidate.y - here.y + 5) as real / 9.0
  }

  /** The candidate of an attempt, each of which takes two draws after the one for a rest. */
  ghost predicate Candidate(here: Point, random: Dice, attempt: nat, candidate: Point) {
    Draws(here, candidate, random(1 + 2 * attempt), random(2 + 2 * attempt))
  }

  /** Neither blocked, nor where the agent stands, nor out of reach. */
  ghost predicate Suits(adapter: Walkable, here: Point, candidate: Point) {
    Open(adapter, candidate) && candidate != here && Connected(adapter, here, candidate)
  }

  ghost predicate NoneSuits(adapter: Walkable, here: Point, random: Dice, attempts: nat) {
    forall k: nat, c | k < attempts && Candidate(here, random, k, c) :: !Suits(adapter, here, c)
  }

  /** The path leads by a shortest way to the first of twenty candidates that suits; if none does, nothing changes. */
  ghost predicate PicksFirst(r: Renderer, a: WorldAgent, b: WorldAgent, here: Point, random: Dice) {
    var adapter := RoamAdapter(r, a.mode);
    || (NoneSuits(adapter, here, random, 20) && b == a)
    || exists k: nat, c, hops ::
        && k < 20 && NoneSuits(adapter, here, random, k) && Candidate(here, random, k, c) && Suits(adapter, here, c)
        && IsShortestRoute(adapter, here, hops, c) && b == BeginPath(a, Waypoints(r, a, hops))
  }

  /** Read or phone, for between 2.5 and 6 seconds, facing the viewer. */
  ghost predicate Rests(a: WorldAgent, b: WorldAgent, now: real, animDraw: real, timeDraw: real) {
    && b == a.(restAnim := b.restAnim, restUntil := b.restUntil, facing := Down)
    && b.restAnim == Some(if animDraw < 0.5 then Read else Phone)
    && b.restUntil == now + 2500.0 + timeDraw * 3500.0
  }

  /** Resting still; or, on a draw below a quarter, resting anew; or picking somewhere to go. */
  ghost predicate WandersBy(r: Renderer, a: WorldAgent, b: WorldAgent, here: Point, now: real, random: Dice) {
    var awake := a.(restAnim := None);
    if a.restUntil > now then b == a
    else if random(0) < 0.25 then Rests(awake, b, now, random(1), random(2))
    else PicksFirst(r, awake, b, here, random)
  }

  ghost predicate AdvancedBy(r: Renderer, a: WorldAgent, b: WorldAgent, now: real, random: Dice) {
    if !Wandering(a.mode) || a.path != [] then b == a
    else
      var here := PixelToTile(r, a.pos);
      if a.mode == Roaming && IsGatedTile(r, here) then WalksOut(r, a, b, here)
      else WandersBy(r, a, b, here, now, random)
  }

  /** What some draws make of the agent. */
  ghost predicate Advanced(r: Renderer, a: WorldAgent, b: WorldAgent, now: real) {
    exists random: Dice :: Fair(random) && AdvancedBy(r, a, b, now, random)
  }

  /** Whatever the draws, an agent that wanders rests, begins to rest, stays or sets out by a roam route. */
  ghost predicate MayWander(r: Renderer, a: WorldAgent, b: WorldAgent, here: Point, now: real) {
    || b == a
    || b == a.(restAnim := None)
    || b == a.(restAnim := b.restAnim, restUntil := b.restUntil, facing := Down)
    || exists hops :: RoamRoute(r, a.mode, here, hops) && b == BeginPath(a.(restAnim := None), Waypoints(r, a, hops))
  }

  lemma WanderersMay(r: Renderer, a: WorldAgent, b: WorldAgent, here: Point, now: real, random: Dice)
    requires WandersBy(r, a, b, here, now, random)
    ensures MayWander(r, a, b, here, now)
  {
    var awake, adapter := a.(restAnim := None), RoamAdapter(r, a.mode);
    hide IsShortestRoute, Suits, NoneSuits;
    if a.restUntil <= now && random(0) >= 0.25 && b != awake {
      var k: nat, c, hops :|
        && k < 20 && NoneSuits(adapter, here, random, k) && Candidate(here, random, k, c) && Suits(adapter, here, c)
        && IsShortestRoute(adapter, here, hops, c) && b == BeginPath(awake, Waypoints(r, awake, hops));
      SuitedIsRoamRoute(r, a.mode, here, random, k, c, hops);
      assert Waypoints(r, awake, hops) == Waypoints(r, a, hops);
    }
  }

  /** What a step of the behaviour may come to, whatever the draws. */
  lemma AdvancedMay(r: Renderer, a: WorldAgent, b: WorldAgent, now: real)
    requires Advanced(r, a, b, now)
    ensures var here := PixelToTile(r, a.pos);
      if !Wandering(a.mode) || a.path != [] then b == a
      else if a.mode == Roaming && IsGatedTile(r, here) then WalksOut(r, a, b, here)
      else MayWander(r, a, b, here, now)
  {
    hide WandersBy, MayWander, WalksOut, IsGatedTile;
    var here := PixelToTile(r, a.pos);
    var random: Dice :| Fair(random) && AdvancedBy(r, a, b, now, random);
    if Wandering(a.mode) && a.path == [] && !(a.mode == Roaming && IsGatedTile(r, here)) {
      WanderersMay(r, a, b, here, now, random);
    }
  }

  lemma SuitedIsRoamRoute(r: Renderer, mode: Mode, here: Point, random: Dice, k: nat, c: Point, hops: seq<Point>)
    requires Candidate(here, random, k, c) && Suits(RoamAdapter(r, mode), here, c)
    requires IsShortestRoute(RoamAdapter(r, mode), here, hops, c)
    ensures RoamRoute(r, mode, here, hops)
  {
    AtEnd(RoamAdapter(r, mode), here, hops, c);
  }

  /** Two draws name one tile. */
  lemma CandidateIsUnique(here: Point, random: Dice, k: nat, c: Point, d: Point)
    requires Candidate(here, random, k, c) && Candidate(here, random, k, d)
    ensures c == d
  {
  }

  method AdvanceBehavior(a: WorldAgent, r: Renderer, now: real, random: Dice) returns (b: WorldAgent)
    requires Fair(random)
    ensures AdvancedBy(r, a, b, now, random)
  {
    if !Wandering(a.mode) || a.path != [] {
      return a;
    }
    var startTile := PixelToTile(r, a.pos);
    if a.mode == Roaming && IsGatedTile(r, startTile) {
      b := WalkOut(a, r, startTile);
      return;
    }
    if a.restUntil > now {
      return a;
    }
    var awake := a.(restAnim := None);
    if random(0) < REST_CHANCE {
      var anim := if random(1) < 0.5 then Read else Phone;
      return awake.(restAnim := Some(anim), restUntil := now + REST_MIN_MS + random(2) * REST_VAR_MS, facing := Down);
    }
    b := PickRoamTarget(awake, r, startTile, random);
  }

  method WalkOut(a: WorldAgent, r: Renderer, startTile: Point) returns (b: WorldAgent)
    requires startTile == PixelToTile(r, a.pos)
    ensures WalksOut(r, a, b, startTile)
  {
    AdaptersAreFinite(r);
    var exit, d := NearestOpenTile(r, startTile);
    if exit.None? {
      return a;
    }
    var waypoints, hops := PathWaypoints(r, a, exit.value, WalkableAdapter(r));
    ghost var route := ReachHasRoute(WalkableAdapter(r), startTile, exit.value, d);
    SearchesAgree(WalkableAdapter(r), startTile, exit.value, d, hops);
    AtEnd(WalkableAdapter(r), startTile, hops, exit.value);
    assert LeadsOut(r, startTile, hops);
    b := if |waypoints| > 1 then BeginPath(a, waypoints) else a;
  }

  method PickRoamTarget(a: WorldAgent, r: Renderer, startTile: Point, random: Dice) returns (b: WorldAgent)
    requires Fair(random) && startTile == PixelToTile(r, a.pos)
    ensures PicksFirst(r, a, b, startTile, random)
  {
    hide IsShortestRoute, Connected;
    AdaptersAreFinite(r);
    var adapter := RoamAdapter(r, a.mode);
    for attempt := 0 to ROAM_PICK_ATTEMPTS
      invariant NoneSuits(adapter, startTile, random, attempt)
    {
      var dx, dy := Offset(random(1 + 2 * attempt)), Offset(random(2 + 2 * attempt));
      var candidate := Point(startTile.x + dx, startTile.y + dy);
      OffsetIsCandidate(startTile, random, attempt, candidate);
      if !Open(adapter, candidate) {
        NextDoesNotSuit(adapter, startTile, random, attempt, candidate);
        continue;
      }
      var waypoints, hops := PathWaypoints(r, a, candidate, adapter);
      NoHopsDoNotSuit(adapter, startTile, hops, candidate);
      if |waypoints| <= 1 {
        NextDoesNotSuit(adapter, startTile, random, attempt, candidate);
        continue;
      }
      assert NoneSuits(adapter, startTile, random, attempt) && Candidate(startTile, random, attempt, candidate);
      return BeginPath(a, waypoints);
    }
    return a;
  }

  lemma OffsetIsCandidate(here: Point, random: Dice, attempt: nat, candidate: Point)
    requires Fair(random)
    requires candidate.x == here.x + Offset(random(1 + 2 * attempt))
    requires candidate.y == here.y + Offset(random(2 + 2 * attempt))
    ensures Candidate(here, random, attempt, candidate)
  {
    OffsetInRange(random(1 + 2 * attempt));
    OffsetInRange(random(2 + 2 * attempt));
  }

  lemma NextDoesNotSuit(adapter: Walkable, here: Point, random: Dice, attempt: nat, candidate: Point)
    requires NoneSuits(adapter, here, random, attempt) && Candidate(here, random, attempt, candidate)
    requires !Suits(adapter, here, candidate)
    ensures NoneSuits(adapter, here, random, attempt + 1)
  {
    hide Suits, Candidate;
    forall k: nat, c | k < attempt + 1 && Candidate(here, random, k, c)
      ensures !Suits(adapter, here, c)
    {
      if k == attempt {
        CandidateIsUnique(here, random, k, c, candidate);
      }
    }
  }

  /** No way leads there, or none is needed, exactly when the found one has no hops. */
  lemma NoHopsDoNotSuit(adapter: Walkable, here: Point, hops: seq<Point>, goal: Point)
    requires if Connected(adapter, here, goal) then IsShortestRoute(adapter, here, hops, goal) else hops == []
    requires Open(adapter, goal)
    ensures hops != [] <==> Suits(adapter, here, goal)
    ensures hops != [] ==> IsShortestRoute(adapter, here, hops, goal)
  {
    if Connected(adapter, here, goal) {
      AtEnd(adapter, here, hops, goal);
      if goal == here {
        assert IsRoute(adapter, here, [], goal);
      }
    }
  }

  // ----- One frame

  /** What one animation frame of length `deltaMs` may turn the agent into. */
  ghost predicate Frame(r: Renderer, a: WorldAgent, b: WorldAgent, deltaMs: real, distance: real, now: real) {
    && deltaMs >= 0.0
    && IsLegLength(a, distance)
    && Advanced(r, SettleAgent(TickAgent(a, deltaMs, distance)), b, now)
  }

  /** The same for given draws. */
  ghost predicate FrameBy(r: Renderer, a: WorldAgent, b: WorldAgent, deltaMs: real, distance: real, now: real,
                          random: Dice) {
    AdvancedBy(r, SettleAgent(TickAgent(a, deltaMs, distance)), b, now, random)
  }

  method NextFrame(r: Renderer, a: WorldAgent, deltaMs: real, distance: real, now: real, random: Dice)
    returns (b: WorldAgent)
    requires deltaMs >= 0.0 && IsLegLength(a, distance) && Fair(random)
    ensures Frame(r, a, b, deltaMs, distance, now) && FrameBy(r, a, b, deltaMs, distance, now, random)
  {
    hide AdvancedBy, TickAgent, SettleAgent;
    b := AdvanceBehavior(SettleAgent(TickAgent(a, deltaMs, distance)), r, now, random);
  }

  method BeginHeadingToDesk(a: WorldAgent, room: FileRoom, occupied: set<string>, r: Renderer)
    returns (b: Option<WorldAgent>, ghost hops: seq<Point>)
    ensures b.Some? <==> exists i | 0 <= i < |room.deskIds| ::
        FirstFree(room.deskIds, occupied, i) && room.deskIds[i] != "" && room.deskIds[i] in r.spawnPoints
    ensures b.Some? ==> exists i | 0 <= i < |room.deskIds| ::
        FirstFree(room.deskIds, occupied, i) && room.deskIds[i] in r.spawnPoints &&
        SentToDesk(r, a, b.value, room.deskIds[i], hops)
  {
    hops := [];
    var i := 0;
    while i < |room.deskIds| && room.deskIds[i] in occupied
      invariant i <= |room.deskIds|
      invariant forall j | 0 <= j < i :: room.deskIds[j] in occupied
    {
      i := i + 1;
    }
    if i == |room.deskIds| || room.deskIds[i] == "" || room.deskIds[i] !in r.spawnPoints {
      return None, [];
    }
    assert FirstFree(room.deskIds, occupied, i);
    AdaptersAreFinite(r);
    var deskTile := r.spawnPoints[room.deskIds[i]];
    var waypoints;
    waypoints, hops := PathWaypoints(r, a, deskTile, WalkableAdapter(r));
    var sent := BeginPath(a, waypoints).(mode := HeadingToDesk, occupiedDeskId := Some(room.deskIds[i]),
                                         restAnim := None, restUntil := 0.0);
    assert SentToDesk(r, a, sent, room.deskIds[i], hops);
    return Some(sent), hops;
  }

  predicate FirstFree(deskIds: seq<string>, occupied: set<string>, i: nat) {
    i < |deskIds| && deskIds[i] !in occupied && forall j | 0 <= j < i :: deskIds[j] in occupied
  }

  /** The agent is on a shortest way to the desk, or on a one-point path when the desk cannot be walked to. */
  ghost predicate SentToDesk(r: Renderer, a: WorldAgent, b: WorldAgent, desk: string, hops: seq<Point>) {
    && desk in r.spawnPoints
    && var here, deskTile := PixelToTile(r, a.pos), r.spawnPoints[desk];
       && (if Connected(WalkableAdapter(r), here, deskTile)
           then IsShortestRoute(WalkableAdapter(r), here, hops, deskTile) else hops == [])
       && b == BeginPath(a, Waypoints(r, a, hops)).(mode := HeadingToDesk, occupiedDeskId := Some(desk),
                                                    restAnim := None, restUntil := 0.0)
  }
}
