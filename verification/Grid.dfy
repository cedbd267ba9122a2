/** Breadth-first search on a tile walkability grid. */
module Grid {
  import opened Wrappers

  datatype Point = Point(x: int, y: int)

  /** A walkability map; `isWalkable` may be asked about any tile, in bounds or not. */
  datatype Walkable = Walkable(width: int, height: int, isWalkable: (int, int) -> bool)

  predicate Open(grid: Walkable, p: Point) {
    grid.isWalkable(p.x, p.y)
  }

  /** The grid is finite: no tile outside the rectangle is walkable. */
  ghost predicate Finite(grid: Walkable) {
    forall x, y :: grid.isWalkable(x, y) ==> 0 <= x < grid.width && 0 <= y < grid.height
  }

  ghost function Tiles(grid: Walkable): set<Point> {
    set x, y | 0 <= x < grid.width && 0 <= y < grid.height :: Point(x, y)
  }

  predicate Adjacent(p: Point, q: Point) {
    (p.x == q.x && (p.y == q.y + 1 || q.y == p.y + 1)) ||
    (p.y == q.y && (p.x == q.x + 1 || q.x == p.x + 1))
  }

  const DIRECTIONS: seq<Point> := [Point(0, -1), Point(0, 1), Point(-1, 0), Point(1, 0)]

  function Step(p: Point, direction: Point): Point {
    Point(p.x + direction.x, p.y + direction.y)
  }

  // ----- Routes: the reference notion of walking

  /** The tile a walk stands on after its first `i` hops. */
  function At(start: Point, hops: seq<Point>, i: nat): Point
    requires i <= |hops|
  {
    if i == 0 then start else hops[i - 1]
  }

  /** `hops` leads from `start` to `goal` by single steps onto walkable tiles. The start tile itself is not asked
      to be walkable, as in the source. */
  ghost predicate IsRoute(grid: Walkable, start: Point, hops: seq<Point>, goal: Point) {
    && (forall i | 0 <= i < |hops| :: Open(grid, hops[i]) && Adjacent(At(start, hops, i), hops[i]))
    && At(start, hops, |hops|) == goal
  }

  ghost predicate Connected(grid: Walkable, start: Point, goal: Point) {
    exists hops :: IsRoute(grid, start, hops, goal)
  }

  ghost predicate IsShortestRoute(grid: Walkable, start: Point, hops: seq<Point>, goal: Point) {
    && IsRoute(grid, start, hops, goal)
    && forall other | IsRoute(grid, start, other, goal) :: |hops| <= |other|
  }

  predicate NoRepeats(start: Point, hops: seq<Point>) {
    && start !in hops
    && forall i, j | 0 <= i < j < |hops| :: hops[i] != hops[j]
  }

  // ----- The search state

  /** The variables of the search loop, with the number of steps (`depth`) on the way back each tile records. */
  datatype Search = Search(visited: set<Point>, parent: map<Point, Point>, depth: map<Point, nat>, queue: seq<Point>)

  /** What `parent` records: every visited tile but the start was first reached from an adjacent visited tile
      one step nearer. */
  ghost predicate ParentTree(grid: Walkable, start: Point, s: Search) {
    && start in s.visited
    && s.depth.Keys == s.visited
    && s.depth[start] == 0
    && s.parent.Keys == s.visited - {start}
    && forall p {:trigger s.parent[p]} | p in s.parent ::
         && Open(grid, p)
         && s.parent[p] in s.visited
         && Adjacent(s.parent[p], p)
         && s.depth[p] == s.depth[s.parent[p]] + 1
  }

  /** Every walkable neighbour of `p` has been visited, at most one step further out. */
  ghost predicate Expanded(grid: Walkable, p: Point, depth: map<Point, nat>) {
    && p in depth
    && forall q | Adjacent(p, q) && Open(grid, q) :: q in depth && depth[q] <= depth[p] + 1
  }

  /** The queue is in order of depth and no visited tile lies more than one step beyond its front. */
  ghost predicate Layered(s: Search, front: nat) {
    && (forall i | 0 <= i < |s.queue| :: s.queue[i] in s.depth && front <= s.depth[s.queue[i]])
    && (forall i, j | 0 <= i < j < |s.queue| :: s.depth[s.queue[i]] <= s.depth[s.queue[j]])
    && (forall p | p in s.depth :: s.depth[p] <= front + 1)
  }

  /** Between two iterations of the outer loop: all tiles but the queued ones are expanded. */
  ghost predicate Between(grid: Walkable, start: Point, s: Search, done: set<Point>) {
    && ParentTree(grid, start, s)
    && (forall p | p in done :: Expanded(grid, p, s.depth))
    && (forall p | p in s.visited :: p in done || p in s.queue)
    && (s.queue != [] ==> s.queue[0] in s.depth && Layered(s, s.depth[s.queue[0]]))
  }

  /** Inside the outer loop, with the first `k` neighbours of `current` looked at. */
  ghost predicate Within(grid: Walkable, start: Point, s: Search, done: set<Point>, current: Point, k: nat) {
    && ParentTree(grid, start, s)
    && current in s.visited
    && (forall p | p in done :: Expanded(grid, p, s.depth))
    && (forall p | p in s.visited :: p == current || p in done || p in s.queue)
    && Layered(s, s.depth[current])
    && k <= 4
    && (forall j | 0 <= j < k && Open(grid, Step(current, DIRECTIONS[j])) :: Step(current, DIRECTIONS[j]) in s.visited)
  }

  function Discover(s: Search, current: Point, next: Point): Search
    requires current in s.depth
  {
    Search(s.visited + {next}, s.parent[next := current], s.depth[next := s.depth[current] + 1], s.queue + [next])
  }

  lemma FoundShortest(grid: Walkable, start: Point, hops: seq<Point>, goal: Point)
    requires IsRoute(grid, start, hops, goal)
    requires forall other | IsRoute(grid, start, other, goal) :: |hops| <= |other|
    ensures Connected(grid, start, goal) && IsShortestRoute(grid, start, hops, goal)
  {
  }

  lemma LessRoom(room: set<Point>, before: set<Point>, after: set<Point>)
    requires before < after <= room
    ensures |room - after| < |room - before|
  {
    assert room - before == (room - after) + (after - before);
  }

  lemma StartOfSearch(grid: Walkable, start: Point)
    ensures Between(grid, start, Search({start}, map[], map[start := 0], [start]), {})
  {
  }

  lemma PopFront(grid: Walkable, start: Point, s: Search, done: set<Point>)
    requires Between(grid, start, s, done) && s.queue != []
    ensures Within(grid, start, s.(queue := s.queue[1..]), done, s.queue[0], 0)
  {
    var rest := s.queue[1..];
    assert forall i | 0 <= i < |rest| :: rest[i] == s.queue[i + 1];
    assert forall p | p in s.queue :: p == s.queue[0] || p in rest;
  }

  lemma SkipNeighbour(grid: Walkable, start: Point, s: Search, done: set<Point>, current: Point, k: nat)
    requires Within(grid, start, s, done, current, k) && k < 4
    requires Step(current, DIRECTIONS[k]) in s.visited || !Open(grid, Step(current, DIRECTIONS[k]))
    ensures Within(grid, start, s, done, current, k + 1)
  {
  }

  lemma CurrentHasDepth(grid: Walkable, start: Point, s: Search, done: set<Point>, current: Point, k: nat)
    requires Within(grid, start, s, done, current, k)
    ensures current in s.depth && ParentTree(grid, start, s)
  {
  }

  lemma InTheRoom(grid: Walkable, p: Point)
    requires Finite(grid) && Open(grid, p)
    ensures p in Tiles(grid)
  {
  }

  lemma StepIsAdjacent(p: Point, k: nat)
    requires k < 4
    ensures Adjacent(p, Step(p, DIRECTIONS[k]))
  {
  }

  lemma DiscoverKeepsTree(grid: Walkable, start: Point, s: Search, current: Point, next: Point)
    requires ParentTree(grid, start, s) && current in s.visited
    requires next !in s.visited && Open(grid, next) && Adjacent(current, next)
    ensures ParentTree(grid, start, Discover(s, current, next))
  {
  }

  lemma DiscoverKeepsExpanded(grid: Walkable, s: Search, p: Point, current: Point, next: Point)
    requires current in s.depth && next !in s.depth && Expanded(grid, p, s.depth)
    ensures Expanded(grid, p, Discover(s, current, next).depth)
  {
  }

  lemma DiscoverKeepsLayers(s: Search, current: Point, next: Point)
    requires current in s.depth && next !in s.depth && Layered(s, s.depth[current])
    ensures Layered(Discover(s, current, next), s.depth[current])
  {
  }

  lemma DiscoverNeighbour(grid: Walkable, start: Point, s: Search, done: set<Point>, current: Point, k: nat)
    requires Within(grid, start, s, done, current, k) && k < 4
    requires Step(current, DIRECTIONS[k]) !in s.visited && Open(grid, Step(current, DIRECTIONS[k]))
    ensures Within(grid, start, Discover(s, current, Step(current, DIRECTIONS[k])), done, current, k + 1)
  {
    var next := Step(current, DIRECTIONS[k]);
    var s' := Discover(s, current, next);
    StepIsAdjacent(current, k);
    DiscoverKeepsTree(grid, start, s, current, next);
    DiscoverKeepsLayers(s, current, next);
    forall p | p in done
      ensures Expanded(grid, p, s'.depth)
    {
      DiscoverKeepsExpanded(grid, s, p, current, next);
    }
    assert forall p | p in s'.visited :: p == next || p in s.visited;
    assert s'.queue[|s.queue|] == next;
  }

  lemma AdjacentIsAStep(p: Point, q: Point) returns (k: nat)
    requires Adjacent(p, q)
    ensures k < 4 && q == Step(p, DIRECTIONS[k])
  {
    k := if q.y < p.y then 0 else if q.y > p.y then 1 else if q.x < p.x then 2 else 3;
  }

  lemma AllNeighboursSeen(grid: Walkable, start: Point, s: Search, done: set<Point>, current: Point)
    requires Within(grid, start, s, done, current, 4)
    ensures Between(grid, start, s, done + {current})
  {
    forall q | Adjacent(current, q) && Open(grid, q)
      ensures q in s.visited && s.depth[q] <= s.depth[current] + 1
    {
      var k := AdjacentIsAStep(current, q);
    }
    assert Expanded(grid, current, s.depth);
    if s.queue != [] {
      assert s.depth[current] <= s.depth[s.queue[0]];
    }
  }

  lemma NeighbourSeen(grid: Walkable, p: Point, q: Point, depth: map<Point, nat>)
    requires Expanded(grid, p, depth) && Adjacent(p, q) && Open(grid, q)
    ensures q in depth && depth[q] <= depth[p] + 1
  {
  }

  lemma RouteHop(grid: Walkable, start: Point, hops: seq<Point>, goal: Point, i: nat)
    requires IsRoute(grid, start, hops, goal) && i < |hops|
    ensures Open(grid, At(start, hops, i + 1)) && Adjacent(At(start, hops, i), At(start, hops, i + 1))
  {
  }

  /** Any route no longer than the depth of the queue's front ends on a visited tile: the search cannot have skipped
      past a shorter way. */
  lemma {:induction false} RoutesAreVisited(grid: Walkable, start: Point, hops: seq<Point>, goal: Point, i: nat,
                                            front: nat, depth: map<Point, nat>)
    requires start in depth && depth[start] == 0
    requires forall p | p in depth && depth[p] < front :: Expanded(grid, p, depth)
    requires i <= |hops| && i <= front
    requires IsRoute(grid, start, hops, goal)
    ensures At(start, hops, i) in depth && depth[At(start, hops, i)] <= i
  {
    hide Expanded, IsRoute, Adjacent;
    if i > 0 {
      RoutesAreVisited(grid, start, hops, goal, i - 1, front, depth);
      RouteHop(grid, start, hops, goal, i - 1);
      NeighbourSeen(grid, At(start, hops, i - 1), At(start, hops, i), depth);
    }
  }

  /** The moment the goal is discovered, no route to it can be shorter than the way just found. */
  lemma GoalIsNearest(grid: Walkable, start: Point, s: Search, done: set<Point>, current: Point, k: nat, goal: Point)
    requires Within(grid, start, s, done, current, k)
    requires goal !in s.visited
    ensures forall other | IsRoute(grid, start, other, goal) :: s.depth[current] + 1 <= |other|
  {
    var d := s.depth[current];
    forall other | IsRoute(grid, start, other, goal)
      ensures d + 1 <= |other|
    {
      if |other| <= d {
        forall p | p in s.depth && s.depth[p] < d
          ensures Expanded(grid, p, s.depth)
        {
          assert p in s.visited;
        }
        RoutesAreVisited(grid, start, other, goal, |other|, d, s.depth);
      }
    }
  }

  /** When the queue runs empty, everything a route can reach has been visited. */
  lemma EmptyQueue(grid: Walkable, start: Point, s: Search, done: set<Point>, goal: Point)
    requires Between(grid, start, s, done) && s.queue == []
    requires goal !in s.visited
    ensures !Connected(grid, start, goal)
  {
    forall hops | IsRoute(grid, start, hops, goal)
      ensures false
    {
      RoutesAreVisited(grid, start, hops, goal, |hops|, |hops|, s.depth);
    }
  }

  /** The body of the search loop: looks at the four neighbours of the tile just taken off the queue. */
  method ExpandCurrent(grid: Walkable, start: Point, goal: Point, current: Point, visited0: set<Point>,
                       parent0: map<Point, Point>, queue0: seq<Point>, ghost s0: Search, ghost done: set<Point>,
                       ghost room: set<Point>)
    returns (visited: set<Point>, parent: map<Point, Point>, queue: seq<Point>, found: bool, ghost s: Search)
    requires Within(grid, start, s0, done, current, 0)
    requires s0.visited == visited0 && s0.parent == parent0 && s0.queue == queue0
    requires goal !in visited0 && Finite(grid)
    requires visited0 <= room && Tiles(grid) <= room
    ensures s.visited == visited && s.parent == parent
    ensures visited0 <= visited <= room
    ensures found ==> ParentTree(grid, start, s) && goal in visited
    ensures found ==> forall other | IsRoute(grid, start, other, goal) :: s.depth[goal] <= |other|
    ensures !found ==> s.queue == queue && Within(grid, start, s, done, current, 4) && goal !in visited
    ensures !found ==> |room - visited| < |room - visited0| || (visited == visited0 && |queue| == |queue0|)
  {
    visited, parent, queue, s := visited0, parent0, queue0, s0;
    found := false;
    hide Within, ParentTree, Tiles, Finite, IsRoute;
    for k := 0 to 4
      invariant s.visited == visited && s.parent == parent && s.queue == queue
      invariant Within(grid, start, s, done, current, k)
      invariant visited0 <= visited <= room && goal !in visited
      invariant |room - visited| < |room - visited0| || (visited == visited0 && queue == queue0)
    {
      var next := Step(current, DIRECTIONS[k]);
      if next in visited || !Open(grid, next) {
        SkipNeighbour(grid, start, s, done, current, k);
        continue;
      }
      CurrentHasDepth(grid, start, s, done, current, k);
      InTheRoom(grid, next);
      GoalIsNearest(grid, start, s, done, current, k, goal);
      DiscoverNeighbour(grid, start, s, done, current, k);
      s := Discover(s, current, next);
      LessRoom(room, visited0, visited + {next});
      visited := visited + {next};
      parent := parent[next := current];
      queue := queue + [next];
      if next == goal {
        CurrentHasDepth(grid, start, s, done, current, k + 1);
        return visited, parent, queue, true, s;
      }
    }
  }

  /** The queue-based search: a shortest route without repeats when any route exists, and None exactly otherwise. */
  method FindPath(grid: Walkable, start: Point, goal: Point) returns (path: Option<seq<Point>>)
    requires Finite(grid)
    ensures path.Some? <==> Connected(grid, start, goal)
    ensures path.Some? ==> IsShortestRoute(grid, start, path.value, goal) && NoRepeats(start, path.value)
  {
    if start == goal {
      FoundShortest(grid, start, [], goal);
      return Some([]);
    }
    if !Open(grid, goal) {
      return None;
    }
    var visited: set<Point> := {start};
    var parent: map<Point, Point> := map[];
    var queue: seq<Point> := [start];
    ghost var done: set<Point> := {};
    ghost var room := Tiles(grid) + {start};
    ghost var s := Search(visited, parent, map[start := 0], queue);
    hide Between, Within, ParentTree, Tiles, Finite, IsRoute, NoRepeats, Connected, IsShortestRoute;
    StartOfSearch(grid, start);

    while |queue| > 0
      invariant s.visited == visited && s.parent == parent && s.queue == queue
      invariant Between(grid, start, s, done)
      invariant visited <= room && goal !in visited
      decreases |room - visited|, |queue|
    {
      var current := queue[0];
      PopFront(grid, start, s, done);
      queue := queue[1..];
      s := s.(queue := queue);
      var found;
      visited, parent, queue, found, s := ExpandCurrent(grid, start, goal, current, visited, parent, queue, s, done,
                                                        room);
      if found {
        var hops := ReconstructPath(grid, parent, start, goal, s);
        FoundShortest(grid, start, hops, goal);
        return Some(hops);
      }
      AllNeighboursSeen(grid, start, s, done, current);
      done := done + {current};
    }
    EmptyQueue(grid, start, s, done, goal);
    return None;
  }

  /** Follows `parent` back from the goal. Terminates because the depth drops along parents. */
  method ReconstructPath(grid: Walkable, parent: map<Point, Point>, start: Point, goal: Point, ghost s: Search)
    returns (path: seq<Point>)
    requires ParentTree(grid, start, s) && parent == s.parent
    requires goal in s.visited
    ensures IsRoute(grid, start, path, goal) && NoRepeats(start, path)
    ensures |path| == s.depth[goal]
  {
    path := [];
    var current := goal;
    while current != start
      invariant current in s.visited
      invariant IsRoute(grid, current, path, goal)
      invariant s.depth[current] + |path| == s.depth[goal]
      invariant forall i | 0 <= i < |path| :: path[i] in s.visited && s.depth[path[i]] == s.depth[current] + 1 + i
      decreases s.depth[current]
    {
      var tail := path;
      path := [current] + path;
      current := parent[current];
      PrependHop(grid, current, path[0], tail, goal);
    }
  }

  lemma PrependHop(grid: Walkable, from: Point, hop: Point, tail: seq<Point>, goal: Point)
    requires IsRoute(grid, hop, tail, goal)
    requires Open(grid, hop) && Adjacent(from, hop)
    ensures IsRoute(grid, from, [hop] + tail, goal)
  {
    var hops := [hop] + tail;
    hide Adjacent, Open;
    forall i | 0 <= i < |hops|
      ensures Open(grid, hops[i]) && Adjacent(At(from, hops, i), hops[i])
    {
      if i > 0 {
        assert hops[i] == tail[i - 1];
        assert At(from, hops, i) == At(hop, tail, i - 1);
      }
    }
  }
}
