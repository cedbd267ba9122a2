/** The layered search for a way out of a gated room. */
module ExitSearch {
  import opened Wrappers
  import opened Grid
  import opened TileMap

  const EXIT_SEARCH_RADIUS_TILES: nat := 40

  const NEIGHBOURS: seq<Point> := [Point(1, 0), Point(-1, 0), Point(0, 1), Point(0, -1)]

  /** An ungated walkable tile that has an ungated walkable neighbour: a place to roam from. */
  predicate Qualifies(r: Renderer, p: Point) {
    IsOpenTile(r, p) && exists j | 0 <= j < 4 :: IsOpenTile(r, Step(p, NEIGHBOURS[j]))
  }

  /** From such a tile, and from no other open one, a roaming agent can get somewhere else. */
  lemma QualifiesToRoam(r: Renderer, p: Point)
    ensures Qualifies(r, p) <==> IsOpenTile(r, p) && exists q :: q != p && Connected(OpenRoamAdapter(r), p, q)
  {
    hide IsOpenTile;
    if Qualifies(r, p) {
      var j :| 0 <= j < 4 && IsOpenTile(r, Step(p, NEIGHBOURS[j]));
      var q := Step(p, NEIGHBOURS[j]);
      NeighbourIs(p, q);
      assert At(p, [q], 0) == p && Open(OpenRoamAdapter(r), q);
      assert IsRoute(OpenRoamAdapter(r), p, [q], q);
      assert q != p && Connected(OpenRoamAdapter(r), p, q);
    }
    if q :| q != p && Connected(OpenRoamAdapter(r), p, q) {
      var hops :| IsRoute(OpenRoamAdapter(r), p, hops, q);
      assert hops != [] by { AtEnd(OpenRoamAdapter(r), p, hops, q); }
      assert Open(OpenRoamAdapter(r), hops[0]) && Adjacent(At(p, hops, 0), hops[0]);
      assert IsOpenTile(r, hops[0]);
      NeighbourIs(p, hops[0]);
      var j :| 0 <= j < 4 && Step(p, NEIGHBOURS[j]) == hops[0];
    }
  }

  lemma NeighbourIs(p: Point, q: Point)
    ensures Adjacent(p, q) <==> exists j | 0 <= j < 4 :: Step(p, NEIGHBOURS[j]) == q
  {
    if Adjacent(p, q) {
      var j := if q.x > p.x then 0 else if q.x < p.x then 1 else if q.y > p.y then 2 else 3;
      assert Step(p, NEIGHBOURS[j]) == q;
    }
  }

  /** Some walk of at most `k` steps leads from `start` to `p`. */
  ghost predicate Reach(grid: Walkable, start: Point, p: Point, k: nat)
    decreases k
  {
    p == start || (k > 0 && Open(grid, p) && exists n :: Adjacent(n, p) && Reach(grid, start, n, k - 1))
  }

  /** `d` is the length of the shortest walk to `p`. */
  ghost predicate WalkingDistance(grid: Walkable, start: Point, p: Point, d: nat) {
    Reach(grid, start, p, d) && (d > 0 ==> !Reach(grid, start, p, d - 1))
  }

  lemma {:induction false} ReachGrows(grid: Walkable, start: Point, p: Point, k: nat)
    requires Reach(grid, start, p, k)
    ensures Reach(grid, start, p, k + 1)
    decreases k
  {
    if p != start {
      var n :| Adjacent(n, p) && Reach(grid, start, n, k - 1);
      ReachGrows(grid, start, n, k - 1);
    }
  }

  lemma {:induction false} ReachGrowsBy(grid: Walkable, start: Point, p: Point, k: nat, m: nat)
    requires Reach(grid, start, p, k) && k <= m
    ensures Reach(grid, start, p, m)
    decreases m - k
  {
    if k < m {
      ReachGrows(grid, start, p, k);
      ReachGrowsBy(grid, start, p, k + 1, m);
    }
  }

  /** Reach is exactly the existence of a short enough route. */
  lemma {:induction false} RouteReaches(grid: Walkable, start: Point, hops: seq<Point>, p: Point)
    requires IsRoute(grid, start, hops, p)
    ensures Reach(grid, start, p, |hops|)
  {
    hide IsRoute, Adjacent;
    if hops == [] {
      assert p == start by { AtEnd(grid, start, hops, p); }
    } else {
      var n := At(start, hops, |hops| - 1);
      DropLastHop(grid, start, hops, p);
      RouteReaches(grid, start, hops[..|hops| - 1], n);
      assert Adjacent(n, p);
    }
  }

  lemma AtEnd(grid: Walkable, start: Point, hops: seq<Point>, p: Point)
    requires IsRoute(grid, start, hops, p)
    ensures At(start, hops, |hops|) == p
  {
  }

  lemma DropLastHop(grid: Walkable, start: Point, hops: seq<Point>, p: Point)
    requires IsRoute(grid, start, hops, p) && hops != []
    ensures IsRoute(grid, start, hops[..|hops| - 1], At(start, hops, |hops| - 1))
    ensures Adjacent(At(start, hops, |hops| - 1), p) && Open(grid, p)
  {
    var shorter := hops[..|hops| - 1];
    assert forall i | 0 <= i <= |shorter| :: At(start, shorter, i) == At(start, hops, i);
    assert forall i | 0 <= i < |shorter| :: shorter[i] == hops[i];
    assert hops[|hops| - 1] == p;
  }

  lemma {:induction false} ReachHasRoute(grid: Walkable, start: Point, p: Point, k: nat) returns (hops: seq<Point>)
    requires Reach(grid, start, p, k)
    ensures IsRoute(grid, start, hops, p) && |hops| <= k
    decreases k
  {
    if p == start {
      hops := [];
    } else {
      var n :| Adjacent(n, p) && Reach(grid, start, n, k - 1);
      var before := ReachHasRoute(grid, start, n, k - 1);
      hops := before + [p];
      AppendHop(grid, start, before, n, p);
    }
  }

  lemma AppendHop(grid: Walkable, start: Point, hops: seq<Point>, last: Point, p: Point)
    requires IsRoute(grid, start, hops, last) && Adjacent(last, p) && Open(grid, p)
    ensures IsRoute(grid, start, hops + [p], p)
  {
    var longer := hops + [p];
    assert forall i | 0 <= i <= |hops| :: At(start, longer, i) == At(start, hops, i);
    assert forall i | 0 <= i < |hops| :: longer[i] == hops[i];
  }

  /** The two searches measure the same thing: a shortest route found by FindPath has the length the layered search
      assigns to the tile. */
  lemma SearchesAgree(grid: Walkable, start: Point, p: Point, d: nat, hops: seq<Point>)
    requires WalkingDistance(grid, start, p, d)
    requires IsShortestRoute(grid, start, hops, p)
    ensures |hops| == d
  {
    var route := ReachHasRoute(grid, start, p, d);
    RouteReaches(grid, start, hops, p);
    if |hops| < d {
      ReachGrowsBy(grid, start, p, |hops|, d - 1);
    }
  }

  // ----- The layered search

  /** Before layer `depth` is scanned: `seen` holds every tile within `depth` steps, `frontier` those at exactly that
      distance, and none of them but the start qualifies. */
  ghost predicate Layer(r: Renderer, from: Point, depth: nat, seen: set<Point>, frontier: seq<Point>) {
    var grid := WalkableAdapter(r);
    && (forall p | Reach(grid, from, p, depth) :: p in seen)
    && (forall p | p in seen && Open(grid, p) :: Reach(grid, from, p, depth))
    && (forall i | 0 <= i < |frontier| :: Reach(grid, from, frontier[i], depth))
    && (forall p | WalkingDistance(grid, from, p, depth) :: p in frontier)
    && (forall p | Reach(grid, from, p, depth) && p != from :: !Qualifies(r, p))
  }

  predicate NeighboursSeen(p: Point, count: nat, seen: set<Point>) {
    forall j | 0 <= j < count && j < 4 :: Step(p, NEIGHBOURS[j]) in seen
  }

  /** While layer `depth` is scanned, with `i` frontier tiles done; `next` collects the following layer. */
  ghost predicate Scanning(r: Renderer, from: Point, depth: nat, frontier: seq<Point>, i: nat, seen: set<Point>,
                           next: seq<Point>) {
    var grid := WalkableAdapter(r);
    && (forall p | Reach(grid, from, p, depth) :: p in seen)
    && (forall p | p in seen && Open(grid, p) :: Reach(grid, from, p, depth) || p in next)
    && (forall j | 0 <= j < |next| :: Reach(grid, from, next[j], depth + 1) && !Qualifies(r, next[j]))
    && i <= |frontier|
    && (forall j | 0 <= j < i :: NeighboursSeen(frontier[j], 4, seen))
  }

  lemma OneMoreSeen(p: Point, j: nat, seen: set<Point>, step: Point)
    requires j < 4 && step == Step(p, NEIGHBOURS[j]) && NeighboursSeen(p, j, seen)
    ensures NeighboursSeen(p, j + 1, seen + {step})
    ensures step in seen ==> NeighboursSeen(p, j + 1, seen)
  {
  }

  lemma AdjacentIsANeighbour(p: Point, q: Point) returns (j: nat)
    requires Adjacent(p, q)
    ensures j < 4 && q == Step(p, NEIGHBOURS[j])
  {
    j := if q.x > p.x then 0 else if q.x < p.x then 1 else if q.y > p.y then 2 else 3;
  }

  lemma NeighbourIsAdjacent(p: Point, j: nat)
    requires j < 4
    ensures Adjacent(p, Step(p, NEIGHBOURS[j]))
  {
  }

  lemma StartLayer(r: Renderer, from: Point)
    ensures Layer(r, from, 0, {from}, [from])
  {
  }

  lemma StartScan(r: Renderer, from: Point, depth: nat, seen: set<Point>, frontier: seq<Point>)
    requires Layer(r, from, depth, seen, frontier)
    ensures Scanning(r, from, depth, frontier, 0, seen, [])
  {
  }

  lemma ReachNeighbour(r: Renderer, from: Point, depth: nat, p: Point, j: nat)
    requires Reach(WalkableAdapter(r), from, p, depth) && j < 4
    requires Open(WalkableAdapter(r), Step(p, NEIGHBOURS[j]))
    ensures Reach(WalkableAdapter(r), from, Step(p, NEIGHBOURS[j]), depth + 1)
  {
    NeighbourIsAdjacent(p, j);
  }

  /** Marking a tile seen that is not walkable, or putting a walkable non-qualifying one on the next layer. */
  lemma ScanTile(r: Renderer, from: Point, depth: nat, frontier: seq<Point>, i: nat, seen: set<Point>, next: seq<Point>,
                 step: Point, next': seq<Point>)
    requires Scanning(r, from, depth, frontier, i, seen, next)
    requires next' == if Open(WalkableAdapter(r), step) then next + [step] else next
    requires Open(WalkableAdapter(r), step) ==> Reach(WalkableAdapter(r), from, step, depth + 1) && !Qualifies(r, step)
    ensures Scanning(r, from, depth, frontier, i, seen + {step}, next')
  {
    hide Reach, Qualifies, Open;
    assert forall p | p in next :: p in next';
    if Open(WalkableAdapter(r), step) {
      assert next'[|next|] == step;
    }
  }

  lemma FinishTile(r: Renderer, from: Point, depth: nat, frontier: seq<Point>, i: nat, seen: set<Point>,
                   next: seq<Point>)
    requires Scanning(r, from, depth, frontier, i, seen, next) && i < |frontier|
    requires NeighboursSeen(frontier[i], 4, seen)
    ensures Scanning(r, from, depth, frontier, i + 1, seen, next)
  {
  }

  /** Everything one step beyond the layer has been seen once the whole frontier is scanned. */
  lemma NextLayerSeen(r: Renderer, from: Point, depth: nat, seen0: set<Point>, frontier: seq<Point>, seen: set<Point>,
                      next: seq<Point>, p: Point)
    requires Layer(r, from, depth, seen0, frontier)
    requires Scanning(r, from, depth, frontier, |frontier|, seen, next)
    requires Reach(WalkableAdapter(r), from, p, depth + 1)
    ensures p in seen
  {
    var grid := WalkableAdapter(r);
    hide Qualifies;
    if p != from {
      var n :| Adjacent(n, p) && Reach(grid, from, n, depth);
      if depth > 0 && Reach(grid, from, n, depth - 1) {
        assert Reach(grid, from, p, depth);
      } else {
        assert WalkingDistance(grid, from, n, depth);
        assert n in frontier;
        var j := AdjacentIsANeighbour(n, p);
      }
    }
  }

  lemma FinishLayer(r: Renderer, from: Point, depth: nat, seen0: set<Point>, frontier: seq<Point>, seen: set<Point>,
                    next: seq<Point>)
    requires Layer(r, from, depth, seen0, frontier)
    requires Scanning(r, from, depth, frontier, |frontier|, seen, next)
    ensures Layer(r, from, depth + 1, seen, next)
  {
    var grid := WalkableAdapter(r);
    forall p | Reach(grid, from, p, depth + 1)
      ensures p in seen
    {
      NextLayerSeen(r, from, depth, seen0, frontier, seen, next, p);
    }
    forall p | p in seen && Open(grid, p)
      ensures Reach(grid, from, p, depth + 1)
    {
      if Reach(grid, from, p, depth) {
        ReachGrows(grid, from, p, depth);
      }
    }
    forall p | Reach(grid, from, p, depth + 1) && !Reach(grid, from, p, depth)
      ensures p in next
    {
      OffStartIsOpen(grid, from, p, depth);
    }
    hide Reach, Qualifies, Open;
    forall p | Reach(grid, from, p, depth + 1) && p != from
      ensures !Qualifies(r, p)
    {
    }
  }

  lemma OffStartIsOpen(grid: Walkable, start: Point, p: Point, depth: nat)
    requires Reach(grid, start, p, depth + 1) && !Reach(grid, start, p, depth)
    ensures Open(grid, p)
  {
  }

  /** An empty layer means the reachable region is exhausted. */
  lemma {:induction false} NothingFurther(r: Renderer, from: Point, depth: nat, seen: set<Point>, p: Point, k: nat)
    requires Layer(r, from, depth, seen, [])
    requires Reach(WalkableAdapter(r), from, p, k)
    ensures Reach(WalkableAdapter(r), from, p, depth)
    decreases k
  {
    var grid := WalkableAdapter(r);
    hide Qualifies;
    if p != from && k > depth {
      var n :| Adjacent(n, p) && Reach(grid, from, n, k - 1);
      NothingFurther(r, from, depth, seen, n, k - 1);
      assert !WalkingDistance(grid, from, n, depth);
      assert depth > 0 && Reach(grid, from, n, depth - 1);
    } else if k <= depth {
      ReachGrowsBy(grid, from, p, k, depth);
    }
  }

  /** A qualifying tile at minimal walking distance, or None exactly when none lies within the search radius. */
  method NearestOpenTile(r: Renderer, from: Point) returns (exit: Option<Point>, ghost d: nat)
    ensures exit.Some? ==>
        && exit.value != from && Qualifies(r, exit.value)
        && 0 < d <= 40
        && WalkingDistance(WalkableAdapter(r), from, exit.value, d)
        && forall u | u != from && Qualifies(r, u) :: !Reach(WalkableAdapter(r), from, u, d - 1)
    ensures exit.None? ==>
        forall u | u != from && Qualifies(r, u) :: !Reach(WalkableAdapter(r), from, u, 40)
  {
    var grid := WalkableAdapter(r);
    var seen := {from};
    var frontier := [from];
    StartLayer(r, from);
    hide Qualifies, Layer, Scanning, Reach, WalkingDistance;
    var depth := 0;
    while depth < EXIT_SEARCH_RADIUS_TILES && |frontier| > 0
      invariant depth <= EXIT_SEARCH_RADIUS_TILES
      invariant Layer(r, from, depth, seen, frontier)
    {
      ghost var seen0 := seen;
      var next := [];
      StartScan(r, from, depth, seen, frontier);
      for i := 0 to |frontier|
        invariant Scanning(r, from, depth, frontier, i, seen, next)
      {
        exit, seen, next := ScanNeighbours(r, from, depth, frontier, i, seen0, seen, next);
        if exit.Some? {
          return exit, depth + 1;
        }
        FinishTile(r, from, depth, frontier, i, seen, next);
      }
      FinishLayer(r, from, depth, seen0, frontier, seen, next);
      frontier := next;
      depth := depth + 1;
    }
    SearchFailed(r, from, depth, seen, frontier);
    return None, 0;
  }

  /** The innermost loop: the four neighbours of one frontier tile. */
  method ScanNeighbours(r: Renderer, from: Point, ghost depth: nat, frontier: seq<Point>, i: nat,
                        ghost seen0: set<Point>, seen1: set<Point>, next1: seq<Point>)
    returns (exit: Option<Point>, seen: set<Point>, next: seq<Point>)
    requires i < |frontier|
    requires Layer(r, from, depth, seen0, frontier)
    requires Scanning(r, from, depth, frontier, i, seen1, next1)
    ensures exit.Some? ==>
        && exit.value != from && Qualifies(r, exit.value)
        && WalkingDistance(WalkableAdapter(r), from, exit.value, depth + 1)
        && forall u | u != from && Qualifies(r, u) :: !Reach(WalkableAdapter(r), from, u, depth)
    ensures exit.None? ==> Scanning(r, from, depth, frontier, i, seen, next) && NeighboursSeen(frontier[i], 4, seen)
  {
    var grid := WalkableAdapter(r);
    var tile := frontier[i];
    seen, next := seen1, next1;
    assert NeighboursSeen(tile, 0, seen);
    hide Qualifies, Layer, Scanning, Reach, WalkingDistance, Open, NeighboursSeen;
    for j := 0 to 4
      invariant Scanning(r, from, depth, frontier, i, seen, next)
      invariant NeighboursSeen(tile, j, seen)
    {
      var step := Step(tile, NEIGHBOURS[j]);
      OneMoreSeen(tile, j, seen, step);
      if step in seen {
        continue;
      }
      if !Open(grid, step) {
        ScanTile(r, from, depth, frontier, i, seen, next, step, next);
        seen := seen + {step};
        continue;
      }
      ScannedStep(r, from, depth, frontier, i, seen0, seen, next, j);
      if Qualifies(r, step) {
        return Some(step), seen, next;
      }
      ScanTile(r, from, depth, frontier, i, seen, next, step, next + [step]);
      seen := seen + {step};
      next := next + [step];
    }
    return None, seen, next;
  }

  lemma ScannedStep(r: Renderer, from: Point, depth: nat, frontier: seq<Point>, i: nat, seen0: set<Point>,
                    seen: set<Point>, next: seq<Point>, j: nat)
    requires i < |frontier| && j < 4
    requires Layer(r, from, depth, seen0, frontier)
    requires Scanning(r, from, depth, frontier, i, seen, next)
    requires Step(frontier[i], NEIGHBOURS[j]) !in seen && Open(WalkableAdapter(r), Step(frontier[i], NEIGHBOURS[j]))
    ensures WalkingDistance(WalkableAdapter(r), from, Step(frontier[i], NEIGHBOURS[j]), depth + 1)
    ensures Reach(WalkableAdapter(r), from, Step(frontier[i], NEIGHBOURS[j]), depth + 1)
    ensures Step(frontier[i], NEIGHBOURS[j]) != from
    ensures forall u | u != from && Qualifies(r, u) :: !Reach(WalkableAdapter(r), from, u, depth)
  {
    hide Qualifies;
    ReachNeighbour(r, from, depth, frontier[i], j);
    assert Reach(WalkableAdapter(r), from, from, depth);
  }

  lemma SearchFailed(r: Renderer, from: Point, depth: nat, seen: set<Point>, frontier: seq<Point>)
    requires Layer(r, from, depth, seen, frontier)
    requires depth == EXIT_SEARCH_RADIUS_TILES || frontier == []
    ensures forall u | u != from && Qualifies(r, u) :: !Reach(WalkableAdapter(r), from, u, EXIT_SEARCH_RADIUS_TILES)
  {
    hide Qualifies;
    forall u | u != from && Qualifies(r, u) && Reach(WalkableAdapter(r), from, u, EXIT_SEARCH_RADIUS_TILES)
      ensures false
    {
      if frontier == [] {
        NothingFurther(r, from, depth, seen, u, EXIT_SEARCH_RADIUS_TILES);
      }
    }
  }
}
