/** Walks to completion: waypoints in order, arrival at desks, the way out of a gated room, and the unfinished leg. */
module Journeys {
  import opened Wrappers
  import opened Grid
  import opened TileMap
  import opened ExitSearch
  import opened AgentSim
  import opened Movement

  // ----- Waypoints are visited in order

  function NextIndex(a: WorldAgent): nat {
    if a.pathIndex + 1 < |a.path| then a.pathIndex + 1 else a.pathIndex
  }

  /** The bookkeeping of an agent part-way along its path (a one-point path included). */
  predicate Following(a: WorldAgent) {
    && a.pathIndex < |a.path|
    && (a.pathIndex + 1 < |a.path| || a.pathIndex == 0)
    && a.origin == a.path[a.pathIndex] && a.target == a.path[NextIndex(a)]
    && 0.0 <= a.progress < 1.0
    && a.pos == Lerp(a.origin, a.target, a.progress)
  }

  /** Still on the same leg, no nearer to its start than before. */
  predicate SameLeg(a: WorldAgent, b: WorldAgent) {
    Following(b) && b.path == a.path && b.pathIndex == a.pathIndex && b.mode == a.mode && a.progress <= b.progress
  }

  /** Exactly on the next waypoint, at the start of the leg after it. */
  predicate NextLeg(a: WorldAgent, b: WorldAgent) {
    && Following(b) && b.path == a.path && b.pathIndex == a.pathIndex + 1 && b.mode == a.mode
    && b.progress == 0.0 && b.pos == a.path[a.pathIndex + 1]
  }

  /** Exactly on the last waypoint. */
  predicate Arrived(a: WorldAgent, b: WorldAgent) {
    && a.path != [] && a.pathIndex + 2 >= |a.path| && b.pos == a.path[|a.path| - 1]
    && (a.mode == HeadingToDesk ==>
          && b.mode == Working && b.path == []
          && b.facing == match a.occupiedDeskId
             case Some(desk) => (if desk in WORK_FACING then WORK_FACING[desk] else a.facing)
             case None => a.facing)
    && (a.mode != HeadingToDesk ==> b.mode == a.mode)
  }

  /** No waypoint is skipped, whatever the frame's length. */
  lemma OneFrameOnPath(r: Renderer, a: WorldAgent, b: WorldAgent, deltaMs: real, distance: real, now: real)
    requires Following(a) && Frame(r, a, b, deltaMs, distance, now)
    ensures var t := TickAgent(a, deltaMs, distance);
      if t.progress < 1.0 then b == t && SameLeg(a, b)
      else if a.pathIndex + 2 < |a.path| then NextLeg(a, b)
      else Arrived(a, b) && b.occupiedDeskId == a.occupiedDeskId
  {
    hide *;
    FrameParts(r, a, b, deltaMs, distance, now);
    var t := TickAgent(a, deltaMs, distance);
    TickOnPath(a, deltaMs, distance);
    if t.progress < 1.0 {
      UnfinishedLegGoesOn(r, a, t, b, now);
    } else if a.pathIndex + 2 < |a.path| {
      SettleOntoNextLeg(r, a, t, b, now);
    } else {
      SettleAtEnd(r, a, t, b, now);
    }
  }

  lemma FrameParts(r: Renderer, a: WorldAgent, b: WorldAgent, deltaMs: real, distance: real, now: real)
    requires Frame(r, a, b, deltaMs, distance, now)
    ensures deltaMs >= 0.0 && distance >= 0.0
    ensures Advanced(r, SettleAgent(TickAgent(a, deltaMs, distance)), b, now)
  {
    hide TickAgent, SettleAgent, Advanced;
  }

  lemma UnfinishedLegGoesOn(r: Renderer, a: WorldAgent, t: WorldAgent, b: WorldAgent, now: real)
    requires Following(a) && a.progress <= t.progress < 1.0
    requires t == a.(pos := t.pos, progress := t.progress) && t.pos == Lerp(t.origin, t.target, t.progress)
    requires Advanced(r, SettleAgent(t), b, now)
    ensures b == t && SameLeg(a, b)
  {
    hide Lerp, WalksOut, WandersBy, IsGatedTile;
  }

  lemma SettleAtEnd(r: Renderer, a: WorldAgent, t: WorldAgent, b: WorldAgent, now: real)
    requires Following(a) && a.pathIndex + 2 >= |a.path|
    requires t == a.(pos := a.target, progress := 1.0)
    requires Advanced(r, SettleAgent(t), b, now)
    ensures Arrived(a, b) && b.occupiedDeskId == a.occupiedDeskId
  {
    AdvanceKeepsPlace(r, SettleAgent(t), b, now);
    hide Lerp, WalksOut, WandersBy, IsGatedTile;
  }

  lemma TickOnPath(a: WorldAgent, deltaMs: real, distance: real)
    requires Following(a) && deltaMs >= 0.0 && distance >= 0.0
    ensures var t := TickAgent(a, deltaMs, distance);
      && t == a.(pos := t.pos, progress := t.progress)
      && t.pos == Lerp(t.origin, t.target, t.progress)
      && a.progress <= t.progress <= 1.0
      && (t.progress == 1.0 ==> t.pos == a.target)
  {
    var t := TickAgent(a, deltaMs, distance);
    StepIsForward(deltaMs, distance);
    LerpMoves(a.origin, a.target, a.progress, t.progress);
    hide StepOf, Lerp;
  }

  lemma SettleOntoNextLeg(r: Renderer, a: WorldAgent, t: WorldAgent, b: WorldAgent, now: real)
    requires Following(a) && a.pathIndex + 2 < |a.path|
    requires t == a.(pos := a.target, progress := 1.0)
    requires Advanced(r, SettleAgent(t), b, now)
    ensures NextLeg(a, b)
  {
    assert Lerp(a.path[a.pathIndex + 1], a.path[a.pathIndex + 2], 0.0) == a.path[a.pathIndex + 1];
    hide Lerp, WalksOut, WandersBy, IsGatedTile;
  }

  /** Deciding what to do next never moves the agent or changes its mode or its desk. */
  lemma AdvanceKeepsPlace(r: Renderer, a: WorldAgent, b: WorldAgent, now: real)
    requires Advanced(r, a, b, now)
    ensures b.pos == a.pos && b.mode == a.mode && b.occupiedDeskId == a.occupiedDeskId
  {
    AdvancedMay(r, a, b, now);
    hide Advanced, RoamRoute, LeadsOut, Qualifies, IsGatedTile;
  }

  // ----- Frames needed

  /** The frame that finishes the path: the tick reaches its last waypoint. */
  ghost predicate Finishes(r: Renderer, a: WorldAgent, b: WorldAgent) {
    && Following(a) && a.pathIndex + 2 >= |a.path|
    && exists deltaMs, distance, now ::
        Frame(r, a, b, deltaMs, distance, now) && TickAgent(a, deltaMs, distance).progress == 1.0
  }

  lemma FinishingArrives(r: Renderer, a: WorldAgent, b: WorldAgent)
    requires Finishes(r, a, b)
    ensures Arrived(a, b) && b.occupiedDeskId == a.occupiedDeskId
  {
    hide Following, Frame, TickAgent, Arrived;
    var deltaMs, distance, now :| Frame(r, a, b, deltaMs, distance, now)
      && TickAgent(a, deltaMs, distance).progress == 1.0;
    OneFrameOnPath(r, a, b, deltaMs, distance, now);
  }

  function SquaredLength(dx: real, dy: real): real {
    dx * dx + dy * dy
  }

  function Gain(shortest: real): real {
    MOVE_SPEED_PX_PER_MS * shortest
  }

  /** A leg of no length is walked as if it were one pixel long. */
  function Walked(distance: real): real {
    if distance == 0.0 then 1.0 else distance
  }

  /** `left` frames of at least `shortest` ms are enough for what remains of a leg of length `distance`. */
  ghost predicate Enough(progress: real, distance: real, left: int, shortest: real) {
    (1.0 - progress) * Walked(distance) <= left as real * Gain(shortest)
  }

  /** ceil(d / (0.12 * shortest)): the frames a leg of length `distance` takes at most. */
  function FramesFor(distance: real, shortest: real): (n: nat)
    requires distance >= 0.0 && shortest > 0.0
    ensures (n - 1) as real * Gain(shortest) < Walked(distance) <= n as real * Gain(shortest)
  {
    var quotient := Walked(distance) / Gain(shortest);
    var n := -((-quotient).Floor);
    CeilingFits(Walked(distance), Gain(shortest), n);
    n
  }

  lemma CeilingFits(length: real, gain: real, n: int)
    requires length > 0.0 && gain > 0.0 && n == -((-(length / gain)).Floor)
    ensures n >= 0 && (n - 1) as real * gain < length <= n as real * gain
  {
    var q := length / gain;
    Quotient(length, gain);
    CeilingOf(q, n);
    Scaled(q, n as real, (n - 1) as real, gain, length);
    ScaleOrder(q, 0.0, gain);
  }

  lemma CeilingOf(q: real, n: int)
    requires n == -((-q).Floor)
    ensures (n - 1) as real < q <= n as real
  {
  }

  lemma Scaled(q: real, above: real, below: real, gain: real, length: real)
    requires gain > 0.0 && q * gain == length && below < q <= above
    ensures below * gain < length <= above * gain
  {
    ScaleOrder(q, above, gain);
    ScaleOrder(q, below, gain);
  }

  lemma ProductMonotone(a: real, b: real, c: real)
    requires a <= b && c >= 0.0
    ensures a * c <= b * c
  {
    if c > 0.0 {
      ScaleOrder(a, b, c);
    }
  }

  lemma SquareRootOrder(a: real, b: real)
    requires a >= 0.0 && b >= 0.0 && a * a <= b * b
    ensures a <= b
  {
    assert (a - b) * (a + b) == a * a - b * b;
    if a > b {
      ScaleOrder(a - b, 0.0, a + b);
    }
  }

  /** One frame of at least `shortest` ms covers at least 0.12 px for each of them. */
  lemma StepGain(deltaMs: real, distance: real, shortest: real)
    requires 0.0 < shortest <= deltaMs && 0.0 <= distance
    ensures StepOf(deltaMs, distance) * Walked(distance) >= Gain(shortest)
  {
    Quotient(MOVE_SPEED_PX_PER_MS * deltaMs, Walked(distance));
    ProductMonotone(shortest, deltaMs, MOVE_SPEED_PX_PER_MS);
  }

  lemma SpendFrame(before: real, step: real, distance: real, left: int, shortest: real)
    requires Enough(before, distance, left, shortest) && step * Walked(distance) >= Gain(shortest)
    ensures Enough(before + step, distance, left - 1, shortest)
  {
    var d := Walked(distance);
    assert (1.0 - (before + step)) * d == (1.0 - before) * d - step * d;
    assert (left - 1) as real * Gain(shortest) == left as real * Gain(shortest) - Gain(shortest);
  }

  lemma EnoughIsSome(progress: real, distance: real, left: int, shortest: real)
    requires progress < 1.0 && distance >= 0.0 && shortest > 0.0 && Enough(progress, distance, left, shortest)
    ensures left >= 1
  {
    ScaleOrder(1.0 - progress, 0.0, Walked(distance));
    if left <= 0 {
      ProductMonotone(left as real, 0.0, Gain(shortest));
    }
  }

  lemma TickAmount(a: WorldAgent, deltaMs: real, distance: real)
    requires a.progress < 1.0 && TickAgent(a, deltaMs, distance).progress < 1.0
    ensures TickAgent(a, deltaMs, distance).progress == a.progress + StepOf(deltaMs, distance)
  {
  }

  lemma TickAtMost(a: WorldAgent, deltaMs: real, distance: real)
    requires Following(a) && deltaMs >= 0.0 && distance >= 0.0
    ensures TickAgent(a, deltaMs, distance).progress <= 1.0
  {
    hide Lerp, StepOf;
  }

  lemma SameLength(a: WorldAgent, d: real, e: real)
    requires IsLegLength(a, d) && IsLegLength(a, e)
    ensures d == e
  {
    SquareRootOrder(d, e);
    SquareRootOrder(e, d);
  }

  /** A run in which every frame lasts at least `shortest` ms. */
  ghost predicate TimedRun(r: Renderer, run: seq<WorldAgent>, shortest: real) {
    forall i | 0 <= i < |run| - 1 :: TimedStep(r, run[i], run[i + 1], shortest)
  }

  ghost predicate TimedStep(r: Renderer, a: WorldAgent, b: WorldAgent, shortest: real) {
    exists deltaMs, distance, now :: deltaMs >= shortest && Frame(r, a, b, deltaMs, distance, now)
  }

  /** What one frame comes to: the leg goes on with a frame less to go, or the next one begins, or the path is
      finished. */
  ghost predicate OneFrameOn(r: Renderer, a: WorldAgent, b: WorldAgent, distance: real, left: int, shortest: real) {
    (SameLeg(a, b) && Enough(b.progress, distance, left - 1, shortest)) || NextLeg(a, b) || Finishes(r, a, b)
  }

  lemma FrameOnLeg(r: Renderer, a: WorldAgent, b: WorldAgent, distance: real, left: int, shortest: real)
    requires Following(a) && TimedStep(r, a, b, shortest) && shortest > 0.0
    requires IsLegLength(a, distance) && Enough(a.progress, distance, left, shortest)
    ensures OneFrameOn(r, a, b, distance, left, shortest)
  {
    hide Following, Frame, Enough, IsLegLength, OneFrameOn;
    var deltaMs, e, now :| deltaMs >= shortest && Frame(r, a, b, deltaMs, e, now);
    FrameLength(r, a, b, deltaMs, e, now);
    SameLength(a, e, distance);
    ThisFrameOnLeg(r, a, b, deltaMs, distance, now, left, shortest);
  }

  lemma ThisFrameOnLeg(r: Renderer, a: WorldAgent, b: WorldAgent, deltaMs: real, distance: real, now: real, left: int,
                       shortest: real)
    requires Following(a) && Frame(r, a, b, deltaMs, distance, now) && deltaMs >= shortest > 0.0 && distance >= 0.0
    requires Enough(a.progress, distance, left, shortest)
    ensures OneFrameOn(r, a, b, distance, left, shortest)
  {
    OneFrameOnPath(r, a, b, deltaMs, distance, now);
    TickAtMost(a, deltaMs, distance);
    StepGain(deltaMs, distance, shortest);
    SpendFrame(a.progress, StepOf(deltaMs, distance), distance, left, shortest);
    FollowingIsPartWay(a);
    hide *;
    var t := TickAgent(a, deltaMs, distance);
    if t.progress < 1.0 {
      TickAmount(a, deltaMs, distance);
      GoesOn(r, a, b, distance, left, shortest);
    } else if a.pathIndex + 2 < |a.path| {
      GoesOn(r, a, b, distance, left, shortest);
    } else {
      FinishesBy(r, a, b, deltaMs, distance, now);
      GoesOn(r, a, b, distance, left, shortest);
    }
  }

  lemma FollowingIsPartWay(a: WorldAgent)
    requires Following(a)
    ensures 0.0 <= a.progress < 1.0
  {
  }

  lemma GoesOn(r: Renderer, a: WorldAgent, b: WorldAgent, distance: real, left: int, shortest: real)
    requires (SameLeg(a, b) && Enough(b.progress, distance, left - 1, shortest)) || NextLeg(a, b) || Finishes(r, a, b)
    ensures OneFrameOn(r, a, b, distance, left, shortest)
  {
    hide SameLeg, NextLeg, Finishes, Enough;
  }

  lemma FinishesBy(r: Renderer, a: WorldAgent, b: WorldAgent, deltaMs: real, distance: real, now: real)
    requires Following(a) && a.pathIndex + 2 >= |a.path|
    requires Frame(r, a, b, deltaMs, distance, now) && TickAgent(a, deltaMs, distance).progress == 1.0
    ensures Finishes(r, a, b)
  {
    hide Following, Frame, TickAgent;
  }

  lemma FrameLength(r: Renderer, a: WorldAgent, b: WorldAgent, deltaMs: real, distance: real, now: real)
    requires Frame(r, a, b, deltaMs, distance, now)
    ensures IsLegLength(a, distance) && distance >= 0.0 && deltaMs >= 0.0
  {
    hide Advanced, TickAgent, SettleAgent;
  }

  lemma SameLegOn(r: Renderer, a: WorldAgent, b: WorldAgent)
    requires Following(a) && SameLeg(a, b)
    ensures Following(b) && b.mode == a.mode && b.path == a.path && b.pathIndex == a.pathIndex
    ensures forall d | IsLegLength(a, d) :: IsLegLength(b, d)
    ensures forall c :: (SameLeg(b, c) ==> SameLeg(a, c)) && (NextLeg(b, c) ==> NextLeg(a, c))
  {
  }

  /** In whatever mode, what remains of a leg is walked within the frames that are enough for it: then the agent is
      on the next leg, or the path is finished. */
  lemma {:induction false} LegCompletes(r: Renderer, run: seq<WorldAgent>, from: nat, left: int, distance: real,
                                        shortest: real)
    returns (i: nat)
    requires TimedRun(r, run, shortest) && shortest > 0.0 && from < |run|
    requires Following(run[from]) && IsLegLength(run[from], distance)
    requires Enough(run[from].progress, distance, left, shortest) && |run| > from + left
    ensures from < i <= from + left && i < |run|
    ensures SameLeg(run[from], run[i - 1])
    ensures NextLeg(run[from], run[i]) || Finishes(r, run[i - 1], run[i])
    ensures forall j | from <= j < i :: SameLeg(run[from], run[j])
    decreases left
  {
    hide *;
    var a := run[from];
    LengthIsPositive(a, distance);
    FollowingIsPartWay(a);
    StaysItself(a);
    EnoughIsSome(a.progress, distance, left, shortest);
    var b := run[from + 1];
    StepIsTimed(r, run, from, shortest);
    FrameOnLeg(r, a, b, distance, left, shortest);
    WhichOf(r, a, b, distance, left, shortest);
    if NextLeg(a, b) || Finishes(r, a, b) {
      i := from + 1;
    } else {
      SameLegOn(r, a, b);
      i := LegCompletes(r, run, from + 1, left - 1, distance, shortest);
    }
  }

  lemma StaysItself(a: WorldAgent)
    requires Following(a)
    ensures SameLeg(a, a)
  {
  }

  lemma StepIsTimed(r: Renderer, run: seq<WorldAgent>, i: nat, shortest: real)
    requires TimedRun(r, run, shortest) && i + 1 < |run|
    ensures TimedStep(r, run[i], run[i + 1], shortest)
  {
    hide TimedStep;
  }

  lemma WhichOf(r: Renderer, a: WorldAgent, b: WorldAgent, distance: real, left: int, shortest: real)
    requires OneFrameOn(r, a, b, distance, left, shortest)
    ensures (SameLeg(a, b) && Enough(b.progress, distance, left - 1, shortest)) || NextLeg(a, b) || Finishes(r, a, b)
  {
    hide SameLeg, NextLeg, Finishes, Enough;
  }

  lemma LengthIsPositive(a: WorldAgent, distance: real)
    requires IsLegLength(a, distance)
    ensures distance >= 0.0
  {
  }

  // ----- Whole paths

  function Legs(path: seq<Pixel>): nat {
    if |path| < 2 then 1 else |path| - 1
  }

  function LegEnd(path: seq<Pixel>, j: nat): Pixel
    requires j < |path|
  {
    if j + 1 < |path| then path[j + 1] else path[j]
  }

  predicate IsLength(from: Pixel, to: Pixel, distance: real) {
    distance >= 0.0 && distance * distance == SquaredLength(to.x - from.x, to.y - from.y)
  }

  /** The lengths of the path's legs; a one-point path has one leg, of no length. */
  predicate LegLengths(path: seq<Pixel>, lengths: seq<real>) {
    && path != [] && |lengths| == Legs(path)
    && forall j | 0 <= j < |lengths| :: IsLength(path[j], LegEnd(path, j), lengths[j])
  }

  lemma LegHasLength(a: WorldAgent, lengths: seq<real>)
    requires Following(a) && LegLengths(a.path, lengths)
    ensures a.pathIndex < |lengths| && IsLegLength(a, lengths[a.pathIndex])
  {
    assert IsLength(a.path[a.pathIndex], LegEnd(a.path, a.pathIndex), lengths[a.pathIndex]);
  }

  /** Frames enough for the legs from leg `k` on, each by its own length. */
  function FramesFrom(lengths: seq<real>, k: nat, shortest: real): nat
    requires shortest > 0.0 && forall j | 0 <= j < |lengths| :: lengths[j] >= 0.0
    decreases |lengths| - k
  {
    if k >= |lengths| then 0 else FramesFor(lengths[k], shortest) + FramesFrom(lengths, k + 1, shortest)
  }

  lemma FullLegIsEnough(distance: real, shortest: real)
    requires distance >= 0.0 && shortest > 0.0
    ensures Enough(0.0, distance, FramesFor(distance, shortest), shortest)
  {
  }

  /** In whatever mode, the rest of a path is walked, every leg within the frames its own length takes, and the agent
      comes to stand exactly on the last waypoint. */
  lemma {:induction false} PathCompletes(r: Renderer, run: seq<WorldAgent>, from: nat, left: nat, lengths: seq<real>,
                                         shortest: real)
    returns (i: nat)
    requires TimedRun(r, run, shortest) && shortest > 0.0 && from < |run|
    requires Following(run[from]) && LegLengths(run[from].path, lengths)
    requires run[from].pathIndex < |lengths| && Enough(run[from].progress, lengths[run[from].pathIndex], left, shortest)
    requires |run| > from + left + FramesFrom(lengths, run[from].pathIndex + 1, shortest)
    ensures from < i <= from + left + FramesFrom(lengths, run[from].pathIndex + 1, shortest)
    ensures Finishes(r, run[i - 1], run[i])
    ensures forall j | from <= j < i ::
        Following(run[j]) && run[j].path == run[from].path && run[j].mode == run[from].mode
    decreases |run[from].path| - run[from].pathIndex
  {
    hide *;
    var a := run[from];
    LegHasLength(a, lengths);
    var next := LegCompletes(r, run, from, left, lengths[a.pathIndex], shortest);
    WholeLegFollows(r, run, from, next);
    if Finishes(r, run[next - 1], run[next]) {
      i := next;
    } else {
      var b := run[next];
      NextLegHasLength(a, b, lengths);
      FullLegIsEnough(lengths[b.pathIndex], shortest);
      OneLegMore(lengths, b.pathIndex, shortest);
      i := PathCompletes(r, run, next, FramesFor(lengths[b.pathIndex], shortest), lengths, shortest);
    }
  }

  lemma OneLegMore(lengths: seq<real>, k: nat, shortest: real)
    requires shortest > 0.0 && k < |lengths| && forall j | 0 <= j < |lengths| :: lengths[j] >= 0.0
    ensures FramesFrom(lengths, k, shortest) == FramesFor(lengths[k], shortest) + FramesFrom(lengths, k + 1, shortest)
  {
    hide FramesFor;
  }

  lemma NextLegHasLength(a: WorldAgent, b: WorldAgent, lengths: seq<real>)
    requires NextLeg(a, b) && LegLengths(a.path, lengths)
    ensures b.pathIndex == a.pathIndex + 1 && b.pathIndex < |lengths| && b.progress == 0.0 && b.path == a.path
    ensures b.mode == a.mode
    ensures Following(b) && forall j | 0 <= j < |lengths| :: lengths[j] >= 0.0
  {
    LegHasLength(b, lengths);
  }

  lemma WholeLegFollows(r: Renderer, run: seq<WorldAgent>, from: nat, next: nat)
    requires from < next <= |run| && forall j | from <= j < next :: SameLeg(run[from], run[j])
    ensures forall j | from <= j < next ::
        Following(run[j]) && run[j].path == run[from].path && run[j].mode == run[from].mode
  {
  }

  // ----- Arrival at a desk

  /** The first leg is as long as the way from where the agent stands to the first corner; each later one is one
      tile. */
  function WalkLengths(r: Renderer, hops: seq<Point>, first: real): (lengths: seq<real>)
    requires hops != [] && first >= 0.0
    ensures |lengths| == |hops| && forall j | 0 <= j < |lengths| :: lengths[j] >= 0.0
  {
    [first] + seq(|hops| - 1, i => r.tileSize as real)
  }

  predicate IsFirstLength(r: Renderer, a: WorldAgent, hops: seq<Point>, first: real)
    requires hops != []
  {
    IsLength(a.pos, TileToPixel(r, hops[0]), first)
  }

  /** The frames a walk of these hops takes at most. */
  function WalkFrames(r: Renderer, hops: nat, first: real, shortest: real): nat
    requires hops > 0 && first >= 0.0 && shortest > 0.0
  {
    FramesFor(first, shortest) + (hops - 1) * FramesFor(r.tileSize as real, shortest)
  }

  lemma {:induction false} LaterLegsTake(r: Renderer, hops: seq<Point>, first: real, k: nat, shortest: real)
    requires hops != [] && first >= 0.0 && shortest > 0.0 && 1 <= k <= |hops|
    ensures FramesFrom(WalkLengths(r, hops, first), k, shortest)
         == (|hops| - k) * FramesFor(r.tileSize as real, shortest)
    decreases |hops| - k
  {
    hide FramesFor;
    if k < |hops| {
      LaterLegsTake(r, hops, first, k + 1, shortest);
      OneMoreTile(|hops| - k, FramesFor(r.tileSize as real, shortest));
    }
  }

  lemma OneMoreTile(n: nat, frames: nat)
    requires n > 0
    ensures n * frames == frames + (n - 1) * frames
  {
  }

  lemma WalkHasLengths(r: Renderer, grid: Walkable, a: WorldAgent, hops: seq<Point>, goal: Point, first: real)
    requires IsRoute(grid, PixelToTile(r, a.pos), hops, goal) && hops != [] && IsFirstLength(r, a, hops, first)
    ensures LegLengths(Waypoints(r, a, hops), WalkLengths(r, hops, first))
  {
    var path, lengths := Waypoints(r, a, hops), WalkLengths(r, hops, first);
    WaypointAt(r, a, hops, 1);
    forall j | 0 <= j < |lengths|
      ensures IsLength(path[j], LegEnd(path, j), lengths[j])
    {
      WaypointAt(r, a, hops, j + 1);
      if j > 0 {
        WaypointAt(r, a, hops, j);
        RouteHop(grid, PixelToTile(r, a.pos), hops, goal, j);
        OneTileApart(r, hops[j - 1], hops[j]);
      }
    }
  }

  lemma OneTileApart(r: Renderer, p: Point, q: Point)
    requires Adjacent(p, q)
    ensures IsLength(TileToPixel(r, p), TileToPixel(r, q), r.tileSize as real)
  {
    var s := r.tileSize;
    TilesApart(p.x, q.x, s);
    TilesApart(p.y, q.y, s);
  }

  lemma TilesApart(p: int, q: int, s: nat)
    requires -1 <= q - p <= 1
    ensures (q * s) as real - (p * s) as real == if q == p then 0.0 else if q == p + 1 then s as real else -(s as real)
  {
    assert q * s - p * s == (q - p) * s;
  }

  /** Sent to a desk it can walk to, the agent is exactly on the desk's tile corner, working, within the frames the
      way takes: ceil(first / (0.12 * shortest)) for the first leg and ceil(tile / (0.12 * shortest)) for each later
      one. */
  lemma ReachesItsDesk(r: Renderer, run: seq<WorldAgent>, a: WorldAgent, desk: string, hops: seq<Point>, first: real,
                       shortest: real)
    returns (i: nat)
    requires run != [] && SentToDesk(r, a, run[0], desk, hops) && hops != []
    requires TimedRun(r, run, shortest) && shortest > 0.0 && IsFirstLength(r, a, hops, first)
    requires first >= 0.0 && |run| > WalkFrames(r, |hops|, first, shortest)
    ensures 0 < i <= WalkFrames(r, |hops|, first, shortest) && run[i].mode == Working
    ensures run[i].pos == TileToPixel(r, r.spawnPoints[desk])
    ensures forall j | 0 <= j < i :: run[j].mode == HeadingToDesk
  {
    hide *;
    FirstIsPositive(r, a, hops, first);
    var lengths := WalkLengths(r, hops, first);
    SentOnItsWay(r, a, run[0], desk, hops, first);
    FirstLegFrames(r, hops, first, shortest);
    i := PathCompletes(r, run, 0, FramesFor(first, shortest), lengths, shortest);
    FinishingArrives(r, run[i - 1], run[i]);
    ArrivesToWork(run[i - 1], run[i]);
  }

  lemma FirstIsPositive(r: Renderer, a: WorldAgent, hops: seq<Point>, first: real)
    requires hops != [] && IsFirstLength(r, a, hops, first)
    ensures first >= 0.0
  {
  }

  lemma FirstLegFrames(r: Renderer, hops: seq<Point>, first: real, shortest: real)
    requires hops != [] && first >= 0.0 && shortest > 0.0
    ensures WalkLengths(r, hops, first)[0] == first && Enough(0.0, first, FramesFor(first, shortest), shortest)
    ensures FramesFor(first, shortest) + FramesFrom(WalkLengths(r, hops, first), 1, shortest)
         == WalkFrames(r, |hops|, first, shortest)
  {
    LaterLegsTake(r, hops, first, 1, shortest);
    FullLegIsEnough(first, shortest);
  }

  lemma ArrivesToWork(a: WorldAgent, b: WorldAgent)
    requires Arrived(a, b) && a.mode == HeadingToDesk
    ensures b.mode == Working && a.path != [] && b.pos == a.path[|a.path| - 1]
  {
  }

  lemma SentOnItsWay(r: Renderer, a: WorldAgent, sent: WorldAgent, desk: string, hops: seq<Point>, first: real)
    requires SentToDesk(r, a, sent, desk, hops) && hops != [] && IsFirstLength(r, a, hops, first) && first >= 0.0
    ensures sent.mode == HeadingToDesk && Following(sent) && sent.pathIndex == 0 && sent.progress == 0.0
    ensures |sent.path| == |hops| + 1 && sent.path[|hops|] == TileToPixel(r, r.spawnPoints[desk])
    ensures LegLengths(sent.path, WalkLengths(r, hops, first))
  {
    var here, goal := PixelToTile(r, a.pos), r.spawnPoints[desk];
    WalkHasLengths(r, WalkableAdapter(r), a, hops, goal, first);
    WaypointAt(r, a, hops, |hops|);
    AtEnd(WalkableAdapter(r), here, hops, goal);
    hide IsShortestRoute, LegLengths, WalkLengths;
    FreshPathIsFollowed(a, sent, Waypoints(r, a, hops));
  }

  lemma FreshPathIsFollowed(a: WorldAgent, sent: WorldAgent, path: seq<Pixel>)
    requires path != [] && path[0] == a.pos
    requires sent.path == path && sent.pathIndex == 0 && sent.progress == 0.0 && sent.pos == a.pos
    requires sent.origin == path[0] && sent.target == if |path| > 1 then path[1] else path[0]
    ensures Following(sent)
  {
  }

  /** An agent walking to a desk heads for one fixed point until it works there. */
  predicate BoundFor(a: WorldAgent, goal: Pixel) {
    || (a.mode == HeadingToDesk && Following(a) && a.path[|a.path| - 1] == goal)
    || (a.mode == Working && a.path == [] && a.pos == goal)
  }

  lemma FrameKeepsGoal(r: Renderer, a: WorldAgent, b: WorldAgent, goal: Pixel, deltaMs: real, distance: real, now: real)
    requires BoundFor(a, goal) && Frame(r, a, b, deltaMs, distance, now)
    requires a.mode == Working ==> a.progress >= 1.0
    ensures BoundFor(b, goal) && (b.mode == Working ==> b.progress >= 1.0)
  {
    if a.mode == HeadingToDesk {
      OneFrameOnPath(r, a, b, deltaMs, distance, now);
    }
  }

  lemma {:induction false} GoalIsKept(r: Renderer, run: seq<WorldAgent>, goal: Pixel, i: nat)
    requires FrameRun(r, run) && i < |run|
    requires run[0].mode == HeadingToDesk && BoundFor(run[0], goal)
    ensures BoundFor(run[i], goal) && (run[i].mode == Working ==> run[i].progress >= 1.0)
  {
    hide BoundFor, Frame;
    if i > 0 {
      GoalIsKept(r, run, goal, i - 1);
      assert FrameStep(r, run[i - 1], run[i]);
      var deltaMs, distance, now :| Frame(r, run[i - 1], run[i], deltaMs, distance, now);
      FrameKeepsGoal(r, run[i - 1], run[i], goal, deltaMs, distance, now);
    }
  }

  /** An agent that starts working does so on the desk's tile exactly when the desk could be walked to; otherwise it
      "works" where it stood. */
  lemma WorksAtItsDesk(r: Renderer, run: seq<WorldAgent>, a: WorldAgent, desk: string, hops: seq<Point>, i: nat)
    requires FrameRun(r, run) && i < |run|
    requires SentToDesk(r, a, run[0], desk, hops) && run[i].mode == Working
    ensures PixelToTile(r, run[i].pos) == r.spawnPoints[desk]
       <==> Connected(WalkableAdapter(r), PixelToTile(r, a.pos), r.spawnPoints[desk])
    ensures hops == [] ==> run[i].pos == a.pos
  {
    var grid, here, goal := WalkableAdapter(r), PixelToTile(r, a.pos), r.spawnPoints[desk];
    var path := Waypoints(r, a, hops);
    FreshPathIsFollowed(a, run[0], path);
    GoalIsKept(r, run, path[|path| - 1], i);
    if here == goal {
      assert IsRoute(grid, here, [], goal);
    }
    if hops != [] {
      WaypointAt(r, a, hops, |hops|);
      AtEnd(grid, here, hops, goal);
    }
  }

  // ----- Desks

  /** Everything that can happen to an agent in the world. */
  ghost predicate Happens(r: Renderer, a: WorldAgent, b: WorldAgent) {
    || FrameStep(r, a, b)
    || (exists desk, hops :: SentToDesk(r, a, b, desk, hops))
    || b == EndWorking(a)
    || b == JailAgent(a, r)
    || b == ReleaseAgent(a, r)
  }

  /** A desk is held exactly while walking to it and working at it. */
  predicate DeskHeldInTurn(a: WorldAgent) {
    a.occupiedDeskId.Some? <==> a.mode == HeadingToDesk || a.mode == Working
  }

  lemma {:induction false} DesksAreHeldInTurn(r: Renderer, run: seq<WorldAgent>, i: nat)
    requires i < |run| && DeskHeldInTurn(run[0])
    requires forall j | 0 <= j < |run| - 1 :: Happens(r, run[j], run[j + 1])
    ensures DeskHeldInTurn(run[i])
  {
    hide *;
    if i > 0 {
      DesksAreHeldInTurn(r, run, i - 1);
      assert Happens(r, run[i - 1], run[i - 1 + 1]);
      DeskStep(r, run[i - 1], run[i]);
    }
  }

  lemma DeskStep(r: Renderer, a: WorldAgent, b: WorldAgent)
    requires DeskHeldInTurn(a) && Happens(r, a, b)
    ensures DeskHeldInTurn(b)
  {
    hide Advanced, IsShortestRoute, Connected, TickAgent, SettleAgent;
    if FrameStep(r, a, b) {
      var deltaMs, distance, now :| Frame(r, a, b, deltaMs, distance, now);
      SettleKeepsDesk(TickAgent(a, deltaMs, distance));
      TickKeepsDesk(a, deltaMs, distance);
      AdvanceKeepsPlace(r, SettleAgent(TickAgent(a, deltaMs, distance)), b, now);
    }
  }

  lemma TickKeepsDesk(a: WorldAgent, deltaMs: real, distance: real)
    ensures TickAgent(a, deltaMs, distance).mode == a.mode
    ensures TickAgent(a, deltaMs, distance).occupiedDeskId == a.occupiedDeskId
  {
  }

  lemma SettleKeepsDesk(t: WorldAgent)
    ensures SettleAgent(t).occupiedDeskId == t.occupiedDeskId
    ensures SettleAgent(t).mode == t.mode || (t.mode == HeadingToDesk && SettleAgent(t).mode == Working)
  {
  }

  // ----- The way out of a gated room

  /** Walking a path whose last waypoint is an open tile. */
  predicate LeavingRoom(r: Renderer, a: WorldAgent) {
    a.mode == Roaming && Following(a) && |a.path| > 1 && IsOpenTile(r, PixelToTile(r, a.path[|a.path| - 1]))
  }

  /** A roaming agent standing in a gated room with an open tile within reach always sets out, by a path exactly as long
      as the walking distance of the nearest one. */
  lemma SetsOut(r: Renderer, a: WorldAgent, b: WorldAgent, now: real, exit: Point)
    requires a.mode == Roaming && a.path == [] && IsGatedTile(r, PixelToTile(r, a.pos))
    requires Advanced(r, a, b, now)
    requires exit != PixelToTile(r, a.pos) && Qualifies(r, exit)
    requires Reach(WalkableAdapter(r), PixelToTile(r, a.pos), exit, EXIT_SEARCH_RADIUS_TILES)
    ensures LeavingRoom(r, b) && b.path[0] == a.pos && Qualifies(r, PixelToTile(r, b.path[|b.path| - 1]))
    ensures WalkingDistance(WalkableAdapter(r), PixelToTile(r, a.pos), PixelToTile(r, b.path[|b.path| - 1]),
                            |b.path| - 1)
    ensures forall u | u != PixelToTile(r, a.pos) && Qualifies(r, u) ::
        !Reach(WalkableAdapter(r), PixelToTile(r, a.pos), u, |b.path| - 2)
  {
    var here := PixelToTile(r, a.pos);
    hide Reach, IsRoute, Qualifies, Following, IsShortestRoute;
    var hops :| LeadsOut(r, here, hops) && b == BeginPath(a, Waypoints(r, a, hops));
    WaypointAt(r, a, hops, |hops|);
    RouteReaches(WalkableAdapter(r), here, hops, hops[|hops| - 1]) by {
      ShortestIsRoute(WalkableAdapter(r), here, hops, hops[|hops| - 1]);
    }
    LeadsElsewhere(r, here, hops);
    FreshPathIsFollowed(a, b, Waypoints(r, a, hops));
    QualifiedIsOpen(r, hops[|hops| - 1]);
  }

  lemma ShortestIsRoute(grid: Walkable, start: Point, hops: seq<Point>, goal: Point)
    requires IsShortestRoute(grid, start, hops, goal)
    ensures IsRoute(grid, start, hops, goal)
  {
  }

  lemma QualifiedIsOpen(r: Renderer, p: Point)
    requires Qualifies(r, p)
    ensures IsOpenTile(r, p)
  {
  }

  lemma LeadsElsewhere(r: Renderer, here: Point, hops: seq<Point>)
    requires LeadsOut(r, here, hops)
    ensures !Reach(WalkableAdapter(r), here, hops[|hops| - 1], |hops| - 1)
  {
    var grid, exit := WalkableAdapter(r), hops[|hops| - 1];
    if Reach(grid, here, exit, |hops| - 1) {
      var shorter := ReachHasRoute(grid, here, exit, |hops| - 1);
    }
  }

  lemma SettledOutside(r: Renderer, a: WorldAgent, t: WorldAgent)
    requires LeavingRoom(r, a) && a.pathIndex + 2 >= |a.path| && t == a.(pos := a.target, progress := 1.0)
    ensures OnCourse(r, SettleAgent(t)) && SettleAgent(t).mode == Roaming
  {
    hide IsOpenTile, PixelToTile, Lerp;
  }

  lemma LastFrameGetsOut(r: Renderer, a: WorldAgent, b: WorldAgent, deltaMs: real, distance: real, now: real)
    requires LeavingRoom(r, a) && Frame(r, a, b, deltaMs, distance, now) && a.pathIndex + 2 >= |a.path|
    requires TickAgent(a, deltaMs, distance).progress == 1.0
    ensures OnCourse(r, b) && b.mode == Roaming
  {
    hide *;
    FrameParts(r, a, b, deltaMs, distance, now);
    LeavingFollows(r, a);
    TickOnPath(a, deltaMs, distance);
    SettledOutside(r, a, TickAgent(a, deltaMs, distance));
    AdvanceKeepsCourse(r, SettleAgent(TickAgent(a, deltaMs, distance)), b, now);
  }

  lemma LeavingFollows(r: Renderer, a: WorldAgent)
    requires LeavingRoom(r, a)
    ensures Following(a) && a.mode == Roaming && |a.path| > 1
  {
  }

  lemma FrameKeepsLeaving(r: Renderer, a: WorldAgent, b: WorldAgent, deltaMs: real, distance: real, now: real)
    requires LeavingRoom(r, a) && Frame(r, a, b, deltaMs, distance, now)
    ensures (LeavingRoom(r, b) && b.path == a.path) || OnCourse(r, b)
    ensures b.mode == Roaming
  {
    LeavingFollows(r, a);
    OneFrameOnPath(r, a, b, deltaMs, distance, now);
    var t := TickAgent(a, deltaMs, distance);
    if t.progress == 1.0 && a.pathIndex + 2 >= |a.path| {
      LastFrameGetsOut(r, a, b, deltaMs, distance, now);
    } else {
      TickIsAtMost(r, a, b, deltaMs, distance, now);
    }
    hide Following, Frame, TickAgent, IsOpenTile, OnCourse;
  }

  lemma TickIsAtMost(r: Renderer, a: WorldAgent, b: WorldAgent, deltaMs: real, distance: real, now: real)
    requires Following(a) && Frame(r, a, b, deltaMs, distance, now)
    ensures TickAgent(a, deltaMs, distance).progress <= 1.0
  {
    FrameLength(r, a, b, deltaMs, distance, now);
    TickAtMost(a, deltaMs, distance);
    hide Following, Frame, TickAgent;
  }

  /** The agent either is still on its way out, by the same path, or has come out and is confined to open tiles
      since. */
  lemma {:induction false} LeavesAndStaysOut(r: Renderer, run: seq<WorldAgent>, i: nat)
    requires FrameRun(r, run) && i < |run| && LeavingRoom(r, run[0])
    ensures run[i].mode == Roaming
    ensures (LeavingRoom(r, run[i]) && run[i].path == run[0].path) || OnCourse(r, run[i])
    ensures i > 0 && OnCourse(r, run[i - 1]) ==> OnCourse(r, run[i])
  {
    hide LeavingRoom, OnCourse, Frame;
    if i == 0 {
      assert run[0].mode == Roaming by { LeavingIsRoaming(r, run[0]); }
    } else {
      LeavesAndStaysOut(r, run, i - 1);
      var a, b := run[i - 1], run[i];
      assert FrameStep(r, a, b);
      var deltaMs, distance, now :| Frame(r, a, b, deltaMs, distance, now);
      if OnCourse(r, a) {
        FrameKeepsCourse(r, a, b, deltaMs, distance, now);
      } else {
        FrameKeepsLeaving(r, a, b, deltaMs, distance, now);
      }
    }
  }

  lemma LeavingIsRoaming(r: Renderer, a: WorldAgent)
    requires LeavingRoom(r, a)
    ensures a.mode == Roaming
  {
  }

  /** The frame that finishes the way out leaves the agent on course. */
  lemma FinishingGetsOut(r: Renderer, a: WorldAgent, b: WorldAgent)
    requires LeavingRoom(r, a) && Finishes(r, a, b)
    ensures OnCourse(r, b) && b.mode == Roaming && b.pos == a.path[|a.path| - 1]
  {
    FinishingArrives(r, a, b);
    hide Frame, LeavingRoom, OnCourse, TickAgent, Following;
    var deltaMs, distance, now :| Frame(r, a, b, deltaMs, distance, now)
      && TickAgent(a, deltaMs, distance).progress == 1.0;
    LastFrameGetsOut(r, a, b, deltaMs, distance, now);
  }

  /** A roaming agent in a gated room with an open tile in reach is out, on a nearest such tile and confined to open
      tiles from then on, within the frames its way takes. `first` is the length of its first leg. */
  lemma GetsOut(r: Renderer, run: seq<WorldAgent>, a: WorldAgent, now: real, exit: Point, first: real, shortest: real)
    returns (i: nat)
    requires a.mode == Roaming && a.path == [] && IsGatedTile(r, PixelToTile(r, a.pos))
    requires exit != PixelToTile(r, a.pos) && Qualifies(r, exit)
    requires Reach(WalkableAdapter(r), PixelToTile(r, a.pos), exit, EXIT_SEARCH_RADIUS_TILES)
    requires run != [] && Advanced(r, a, run[0], now) && TimedRun(r, run, shortest) && shortest > 0.0
    requires first >= 0.0 && |run[0].path| > 1 && IsLength(run[0].path[0], run[0].path[1], first)
    requires |run| > WalkFrames(r, |run[0].path| - 1, first, shortest)
    ensures 0 < i <= WalkFrames(r, |run[0].path| - 1, first, shortest)
    ensures run[i].pos == run[0].path[|run[0].path| - 1] && Qualifies(r, PixelToTile(r, run[i].pos))
    ensures forall j | i <= j < |run| :: OnCourse(r, run[j]) && IsOpenTile(r, PixelToTile(r, run[j].pos))
  {
    hide *;
    SetsOut(r, a, run[0], now, exit);
    var hops := WayOut(r, a, run[0], now, exit);
    OutOnItsWay(r, a, hops, run[0], first);
    FirstLegFrames(r, hops, first, shortest);
    i := PathCompletes(r, run, 0, FramesFor(first, shortest), WalkLengths(r, hops, first), shortest);
    TimedIsFrames(r, run, shortest);
    StillLeaving(r, run[0], run[i - 1]);
    FinishingGetsOut(r, run[i - 1], run[i]);
    StaysOut(r, run, i);
  }

  lemma WayOut(r: Renderer, a: WorldAgent, b: WorldAgent, now: real, exit: Point) returns (hops: seq<Point>)
    requires a.mode == Roaming && a.path == [] && IsGatedTile(r, PixelToTile(r, a.pos)) && Advanced(r, a, b, now)
    requires exit != PixelToTile(r, a.pos) && Qualifies(r, exit)
    requires Reach(WalkableAdapter(r), PixelToTile(r, a.pos), exit, EXIT_SEARCH_RADIUS_TILES)
    ensures hops != [] && LeadsOut(r, PixelToTile(r, a.pos), hops) && b == BeginPath(a, Waypoints(r, a, hops))
  {
    hide Reach, IsRoute, Qualifies, IsShortestRoute;
    hops :| LeadsOut(r, PixelToTile(r, a.pos), hops) && b == BeginPath(a, Waypoints(r, a, hops));
  }

  lemma OutOnItsWay(r: Renderer, a: WorldAgent, hops: seq<Point>, b: WorldAgent, first: real)
    requires hops != [] && LeadsOut(r, PixelToTile(r, a.pos), hops) && b == BeginPath(a, Waypoints(r, a, hops))
    requires first >= 0.0 && |b.path| > 1 && IsLength(b.path[0], b.path[1], first)
    ensures Following(b) && b.pathIndex == 0 && b.progress == 0.0
    ensures LegLengths(b.path, WalkLengths(r, hops, first)) && |WalkLengths(r, hops, first)| == |hops| == |b.path| - 1
  {
    WaypointAt(r, a, hops, 1);
    hide IsLength;
    assert IsFirstLength(r, a, hops, first);
    WalkHasLengths(r, WalkableAdapter(r), a, hops, hops[|hops| - 1], first) by {
      ShortestIsRoute(WalkableAdapter(r), PixelToTile(r, a.pos), hops, hops[|hops| - 1]);
    }
    hide IsShortestRoute, LegLengths, WalkLengths, Qualifies, Reach;
    FreshPathIsFollowed(a, b, Waypoints(r, a, hops));
  }

  lemma TimedIsFrames(r: Renderer, run: seq<WorldAgent>, shortest: real)
    requires TimedRun(r, run, shortest)
    ensures FrameRun(r, run)
  {
    hide Frame;
    forall i | 0 <= i < |run| - 1
      ensures FrameStep(r, run[i], run[i + 1])
    {
      assert TimedStep(r, run[i], run[i + 1], shortest);
    }
  }

  lemma StillLeaving(r: Renderer, a: WorldAgent, b: WorldAgent)
    requires LeavingRoom(r, a) && Following(b) && b.path == a.path && b.mode == a.mode
    ensures LeavingRoom(r, b)
  {
  }

  lemma {:induction false} StaysOut(r: Renderer, run: seq<WorldAgent>, i: nat)
    requires FrameRun(r, run) && i < |run| && OnCourse(r, run[i]) && run[i].mode == Roaming
    ensures forall j | i <= j < |run| :: OnCourse(r, run[j]) && IsOpenTile(r, PixelToTile(r, run[j].pos))
    decreases |run| - i
  {
    hide OnCourse, Frame, IsOpenTile;
    OpenOnCourse(r, run[i]);
    if i + 1 < |run| {
      assert FrameStep(r, run[i], run[i + 1]);
      var deltaMs, distance, now :| Frame(r, run[i], run[i + 1], deltaMs, distance, now);
      FrameKeepsCourse(r, run[i], run[i + 1], deltaMs, distance, now);
      StaysOut(r, run, i + 1);
    }
  }

  lemma OpenOnCourse(r: Renderer, a: WorldAgent)
    requires OnCourse(r, a) && a.mode == Roaming
    ensures IsOpenTile(r, PixelToTile(r, a.pos))
  {
    hide IsOpenTile;
  }

  // ----- The unfinished leg

  /** A search that can succeed does: the nearest qualifying tile and the way to it. */
  lemma {:induction false} SomeWayOut(r: Renderer, here: Point, exit: Point, k: nat) returns (hops: seq<Point>)
    requires exit != here && Qualifies(r, exit) && Reach(WalkableAdapter(r), here, exit, k)
    requires k <= EXIT_SEARCH_RADIUS_TILES
    ensures LeadsOut(r, here, hops)
    decreases k
  {
    var grid := WalkableAdapter(r);
    hide Qualifies, LeadsOut, Reach, IsRoute;
    if u :| k > 0 && u != here && Qualifies(r, u) && Reach(grid, here, u, k - 1) {
      hops := SomeWayOut(r, here, u, k - 1);
    } else {
      assert k > 0 by { NotReachedInNoSteps(grid, here, exit, k); }
      hops := ReachHasRoute(grid, here, exit, k);
      NearestRouteLeadsOut(r, here, exit, k, hops);
    }
  }

  lemma NotReachedInNoSteps(grid: Walkable, here: Point, exit: Point, k: nat)
    requires Reach(grid, here, exit, k) && exit != here
    ensures k > 0
  {
  }

  lemma NearestRouteLeadsOut(r: Renderer, here: Point, exit: Point, k: nat, hops: seq<Point>)
    requires exit != here && Qualifies(r, exit) && 0 < k <= EXIT_SEARCH_RADIUS_TILES
    requires forall u | u != here && Qualifies(r, u) :: !Reach(WalkableAdapter(r), here, u, k - 1)
    requires IsRoute(WalkableAdapter(r), here, hops, exit) && |hops| <= k
    ensures LeadsOut(r, here, hops)
  {
    var grid := WalkableAdapter(r);
    hide Qualifies, Reach, IsRoute;
    forall other | IsRoute(grid, here, other, exit)
      ensures k <= |other|
    {
      RouteReaches(grid, here, other, exit);
      if |other| < k {
        ReachGrowsBy(grid, here, exit, |other|, k - 1);
      }
    }
    AtEnd(grid, here, hops, exit);
  }

  lemma SomethingHappensNext(r: Renderer, a: WorldAgent, now: real) returns (b: WorldAgent)
    ensures Advanced(r, a, b, now)
  {
    var here := PixelToTile(r, a.pos);
    var random: Dice := i => 0.0;
    hide Qualifies, Reach, LeadsOut, IsGatedTile;
    if Wandering(a.mode) && a.path == [] && a.mode == Roaming && IsGatedTile(r, here) {
      if u :| u != here && Qualifies(r, u) && Reach(WalkableAdapter(r), here, u, EXIT_SEARCH_RADIUS_TILES) {
        var hops := SomeWayOut(r, here, u, EXIT_SEARCH_RADIUS_TILES);
        b := BeginPath(a, Waypoints(r, a, hops));
      } else {
        b := a;
      }
    } else if !Wandering(a.mode) || a.path != [] || a.restUntil > now {
      b := a;
    } else {
      b := a.(restAnim := Some(Read), restUntil := now + 2500.0, facing := Down);
    }
    assert Fair(random) && AdvancedBy(r, a, b, now, random);
  }

  /** A frame long enough to finish the leg puts the agent on its target. */
  lemma LongFrame(r: Renderer, a: WorldAgent, distance: real, now: real) returns (b: WorldAgent, deltaMs: real)
    requires OnLeg(r, a) && a.path == [] && IsLegLength(a, distance)
    ensures Frame(r, a, b, deltaMs, distance, now) && b.pos == a.target
  {
    var d := if distance == 0.0 then 1.0 else distance;
    deltaMs := d / MOVE_SPEED_PX_PER_MS;
    Quotient(d, MOVE_SPEED_PX_PER_MS);
    assert StepOf(deltaMs, distance) == d / d;
    Quotient(d, d);
    assert StepOf(deltaMs, distance) == 1.0;
    var t := TickAgent(a, deltaMs, distance);
    LerpMoves(a.origin, a.target, a.progress, 1.0);
    b := SomethingHappensNext(r, SettleAgent(t), now);
    AdvanceKeepsPlace(r, SettleAgent(t), b, now);
  }

  /** Called back mid-walk, an agent keeps the leg it was on. */
  lemma EndWorkingKeepsLeg(r: Renderer, a: WorldAgent)
    requires OnLeg(r, a)
    ensures OnLeg(r, EndWorking(a)) && EndWorking(a).path == [] && EndWorking(a).mode == Roaming
    ensures EndWorking(a).pos == a.pos && EndWorking(a).target == a.target
  {
  }

  /** Exactly when a roaming agent with an unfinished leg stays on open tiles: when the leg's target is one. `distance`
      is the leg's length. */
  lemma UnfinishedLegIsConfined(r: Renderer, a: WorldAgent, distance: real)
    requires a.mode == Roaming && a.path == [] && OnLeg(r, a) && IsLegLength(a, distance)
    requires IsOpenTile(r, PixelToTile(r, a.pos))
    ensures IsOpenTile(r, PixelToTile(r, a.target))
       <==> forall run: seq<WorldAgent>, i | FrameRun(r, run) && 0 <= i < |run| && run[0] == a ::
              IsOpenTile(r, PixelToTile(r, run[i].pos))
  {
    hide IsOpenTile, Frame;
    if IsOpenTile(r, PixelToTile(r, a.target)) {
      forall run: seq<WorldAgent>, i | FrameRun(r, run) && 0 <= i < |run| && run[0] == a
        ensures IsOpenTile(r, PixelToTile(r, run[i].pos))
      {
        Confined(r, run, i);
      }
    } else {
      var b, deltaMs := LongFrame(r, a, distance, 0.0);
      var run := [a, b];
      assert FrameStep(r, run[0], run[1]);
      assert FrameRun(r, run) && run[0] == a && !IsOpenTile(r, PixelToTile(r, run[1].pos));
    }
  }

  // ----- Called back

  /** On the way to a desk, every leg of it between neighbouring tiles; or at work, standing still. */
  predicate WalkingOrWorking(r: Renderer, a: WorldAgent) {
    || (a.mode == HeadingToDesk && OnLeg(r, a) && FollowsPath(r, a) && a.progress < 1.0)
    || (a.mode == Working && a.path == [] && a.progress >= 1.0)
  }

  lemma FrameKeepsWalking(r: Renderer, a: WorldAgent, b: WorldAgent, deltaMs: real, distance: real, now: real)
    requires WalkingOrWorking(r, a) && Frame(r, a, b, deltaMs, distance, now)
    ensures WalkingOrWorking(r, b)
  {
    FrameParts(r, a, b, deltaMs, distance, now);
    var t := TickAgent(a, deltaMs, distance);
    if a.mode == HeadingToDesk {
      TickStaysOnLeg(r, a, deltaMs, distance);
      TickKeepsPath(a, deltaMs, distance);
    }
    hide OnLeg, Frame, TickAgent, WalksOut, WandersBy;
    SettleKeepsWalking(r, a, t);
  }

  lemma TickKeepsPath(a: WorldAgent, deltaMs: real, distance: real)
    requires a.progress < 1.0
    ensures var t := TickAgent(a, deltaMs, distance);
      t == a.(pos := t.pos, progress := t.progress) && t.progress <= 1.0
  {
    hide Lerp, StepOf;
  }

  lemma SettleKeepsWalking(r: Renderer, a: WorldAgent, t: WorldAgent)
    requires WalkingOrWorking(r, a) && (a.mode == Working ==> t == a)
    requires a.mode == HeadingToDesk ==>
        && OnLeg(r, t) && t == a.(pos := t.pos, progress := t.progress)
        && t.progress <= 1.0 && (t.progress == 1.0 ==> t.pos == a.target)
    ensures WalkingOrWorking(r, SettleAgent(t)) && SettleAgent(t).mode != Roaming && SettleAgent(t).mode != Jailed
  {
    if a.mode == HeadingToDesk && t.progress == 1.0 && a.pathIndex + 2 < |a.path| {
      NextLegStarts(r, a, t);
    }
    hide OnLeg;
  }

  lemma NextLegStarts(r: Renderer, a: WorldAgent, t: WorldAgent)
    requires FollowsPath(r, a) && a.pathIndex + 2 < |a.path| && t == a.(pos := a.target, progress := 1.0)
    ensures OnLeg(r, SettleAgent(t)) && FollowsPath(r, SettleAgent(t)) && SettleAgent(t).mode == a.mode
    ensures SettleAgent(t).progress == 0.0
  {
    assert a.path[a.pathIndex + 1] == TileToPixel(r, PixelToTile(r, a.path[a.pathIndex + 1]));
    hide PixelToTile, TileToPixel;
  }

  lemma {:induction false} WalksOnLegs(r: Renderer, run: seq<WorldAgent>, a: WorldAgent, desk: string, hops: seq<Point>,
                                       i: nat)
    requires FrameRun(r, run) && i < |run| && SentToDesk(r, a, run[0], desk, hops) && hops != []
    ensures WalkingOrWorking(r, run[i])
  {
    hide WalkingOrWorking, Frame;
    if i == 0 {
      SentOnLegs(r, a, run[0], desk, hops);
    } else {
      WalksOnLegs(r, run, a, desk, hops, i - 1);
      assert FrameStep(r, run[i - 1], run[i]);
      var deltaMs, distance, now :| Frame(r, run[i - 1], run[i], deltaMs, distance, now);
      FrameKeepsWalking(r, run[i - 1], run[i], deltaMs, distance, now);
    }
  }

  lemma SentOnLegs(r: Renderer, a: WorldAgent, sent: WorldAgent, desk: string, hops: seq<Point>)
    requires SentToDesk(r, a, sent, desk, hops) && hops != []
    ensures WalkingOrWorking(r, sent)
  {
    var grid, here, goal := WalkableAdapter(r), PixelToTile(r, a.pos), r.spawnPoints[desk];
    AtEnd(grid, here, hops, goal);
    RouteBecomesPath(r, grid, here, hops, a);
    hide PixelToTile, TileToPixel, IsShortestRoute;
  }

  /** An agent called back on its way to a desk, from an open tile, stays on open tiles exactly when the leg it was
      on ends on one: that leg is all it still walks of its way. */
  lemma CalledBackIsConfined(r: Renderer, run: seq<WorldAgent>, a: WorldAgent, desk: string, hops: seq<Point>, i: nat,
                             distance: real)
    requires FrameRun(r, run) && i < |run| && SentToDesk(r, a, run[0], desk, hops) && hops != []
    requires run[i].mode == HeadingToDesk && IsOpenTile(r, PixelToTile(r, run[i].pos)) && IsLegLength(run[i], distance)
    ensures run[i].pathIndex + 1 < |run[i].path| && run[i].target == run[i].path[run[i].pathIndex + 1]
    ensures IsOpenTile(r, PixelToTile(r, run[i].target))
       <==> forall later: seq<WorldAgent>, j
              | FrameRun(r, later) && 0 <= j < |later| && later[0] == EndWorking(run[i]) ::
              IsOpenTile(r, PixelToTile(r, later[j].pos))
  {
    hide *;
    WalksOnLegs(r, run, a, desk, hops, i);
    CallBack(r, run[i], distance);
    UnfinishedLegIsConfined(r, EndWorking(run[i]), distance);
  }

  lemma CallBack(r: Renderer, a: WorldAgent, distance: real)
    requires WalkingOrWorking(r, a) && a.mode == HeadingToDesk && IsLegLength(a, distance)
    ensures a.pathIndex + 1 < |a.path| && a.target == a.path[a.pathIndex + 1]
    ensures var b := EndWorking(a);
      b.mode == Roaming && b.path == [] && OnLeg(r, b) && IsLegLength(b, distance) && b.pos == a.pos
        && b.target == a.target
  {
    hide OnLeg, IsLegLength;
    EndWorkingKeepsLeg(r, a);
    EndWorkingKeepsLength(a, distance);
  }

  lemma EndWorkingKeepsLength(a: WorldAgent, distance: real)
    requires IsLegLength(a, distance)
    ensures IsLegLength(EndWorking(a), distance)
  {
  }

  /** Called back from its desk it stands still, and stays on open tiles whenever the desk's is one. */
  lemma CalledBackFromWork(r: Renderer, run: seq<WorldAgent>, a: WorldAgent, desk: string, hops: seq<Point>, i: nat,
                           later: seq<WorldAgent>, j: nat)
    requires FrameRun(r, run) && i < |run| && SentToDesk(r, a, run[0], desk, hops) && hops != []
    requires run[i].mode == Working && IsOpenTile(r, PixelToTile(r, run[i].pos))
    requires FrameRun(r, later) && j < |later| && later[0] == EndWorking(run[i])
    ensures IsOpenTile(r, PixelToTile(r, later[j].pos))
  {
    WalksOnLegs(r, run, a, desk, hops, i);
    assert AtRest(later[0]);
    hide IsOpenTile, FrameRun, SentToDesk;
    RoamingIsConfined(r, later);
  }

  // ----- Called back from a desk that cannot be walked to

  /** Standing on a leg that leads nowhere. */
  predicate InPlace(a: WorldAgent) {
    a.path == [] && a.mode == Roaming && a.origin == a.pos && a.target == a.pos && 0.0 <= a.progress <= 1.0
  }

  lemma StaysInPlace(r: Renderer, a: WorldAgent, b: WorldAgent, deltaMs: real, distance: real, now: real)
    requires InPlace(a) && IsOpenTile(r, PixelToTile(r, a.pos)) && Frame(r, a, b, deltaMs, distance, now)
    ensures b.mode == Roaming && IsOpenTile(r, PixelToTile(r, b.pos)) && (InPlace(b) || OnCourse(r, b))
  {
    FrameParts(r, a, b, deltaMs, distance, now);
    TickInPlace(a, deltaMs, distance);
    hide Frame, IsOpenTile, TickAgent, OnLeg, FollowsPath, PathAllowed;
    AdvanceInPlace(r, SettleAgent(TickAgent(a, deltaMs, distance)), b, now);
  }

  lemma TickInPlace(a: WorldAgent, deltaMs: real, distance: real)
    requires InPlace(a) && deltaMs >= 0.0 && distance >= 0.0
    ensures InPlace(SettleAgent(TickAgent(a, deltaMs, distance))) && TickAgent(a, deltaMs, distance).pos == a.pos
    ensures SettleAgent(TickAgent(a, deltaMs, distance)).pos == a.pos
  {
    StepIsForward(deltaMs, distance);
    var t := TickAgent(a, deltaMs, distance);
    assert Lerp(a.pos, a.pos, t.progress) == a.pos;
    hide StepOf;
  }

  lemma AdvanceInPlace(r: Renderer, a: WorldAgent, b: WorldAgent, now: real)
    requires InPlace(a) && IsOpenTile(r, PixelToTile(r, a.pos)) && Advanced(r, a, b, now)
    ensures b.mode == Roaming && b.pos == a.pos && (InPlace(b) || OnCourse(r, b))
  {
    AdvancedMay(r, a, b, now);
    var here, awake := PixelToTile(r, a.pos), a.(restAnim := None);
    hide Advanced, IsShortestRoute, FollowsPath, OnLeg;
    if hops :| RoamRoute(r, a.mode, here, hops) && b == BeginPath(awake, Waypoints(r, a, hops)) {
      BeginPathOnCourse(r, awake, hops);
    }
  }

  /** The one-point path of an unreachable desk: from the sending to the call-back the agent stands where it was. */
  lemma WaitsInPlace(r: Renderer, run: seq<WorldAgent>, a: WorldAgent, desk: string, i: nat)
    requires FrameRun(r, run) && i < |run| && SentToDesk(r, a, run[0], desk, [])
    ensures InPlace(EndWorking(run[i])) && run[i].pos == a.pos
  {
    LonePathStays(r, run, a, desk, i);
  }

  predicate Lone(a: WorldAgent, spot: Pixel) {
    && a.pos == spot && a.origin == spot && a.target == spot && 0.0 <= a.progress <= 1.0
    && ((a.mode == HeadingToDesk && a.path == [spot] && a.pathIndex == 0 && a.progress < 1.0)
        || (a.mode == Working && a.path == []))
  }

  lemma {:induction false} LonePathStays(r: Renderer, run: seq<WorldAgent>, a: WorldAgent, desk: string, i: nat)
    requires FrameRun(r, run) && i < |run| && SentToDesk(r, a, run[0], desk, [])
    ensures Lone(run[i], a.pos)
  {
    hide Frame;
    if i > 0 {
      LonePathStays(r, run, a, desk, i - 1);
      assert FrameStep(r, run[i - 1], run[i]);
      var deltaMs, distance, now :| Frame(r, run[i - 1], run[i], deltaMs, distance, now);
      LoneFrame(r, run[i - 1], run[i], a.pos, deltaMs, distance, now);
    } else {
      hide Connected, IsShortestRoute, Lone;
      LoneStart(r, a, run[0], desk);
    }
  }

  lemma LoneStart(r: Renderer, a: WorldAgent, sent: WorldAgent, desk: string)
    requires SentToDesk(r, a, sent, desk, [])
    ensures Lone(sent, a.pos)
  {
    assert Waypoints(r, a, []) == [a.pos];
    hide Connected, IsShortestRoute;
  }

  lemma LoneFrame(r: Renderer, a: WorldAgent, b: WorldAgent, spot: Pixel, deltaMs: real, distance: real, now: real)
    requires Lone(a, spot) && Frame(r, a, b, deltaMs, distance, now)
    ensures Lone(b, spot)
  {
    FrameParts(r, a, b, deltaMs, distance, now);
    StepIsForward(deltaMs, distance);
    var t := TickAgent(a, deltaMs, distance);
    assert Lerp(spot, spot, t.progress) == spot;
    hide Lerp, StepOf, WalksOut, WandersBy;
  }

  /** Called back from there it stays on open tiles whenever it stands on one: its leg leads nowhere. */
  lemma {:induction false} CalledBackInPlace(r: Renderer, later: seq<WorldAgent>, j: nat)
    requires FrameRun(r, later) && j < |later| && InPlace(later[0]) && IsOpenTile(r, PixelToTile(r, later[0].pos))
    ensures later[j].mode == Roaming && IsOpenTile(r, PixelToTile(r, later[j].pos))
    ensures (InPlace(later[j]) || OnCourse(r, later[j]))
  {
    hide Frame, InPlace, OnCourse, IsOpenTile;
    if j == 0 {
      InPlaceRoams(later[0]);
    } else {
      CalledBackInPlace(r, later, j - 1);
      var a, b := later[j - 1], later[j];
      assert FrameStep(r, a, b);
      var deltaMs, distance, now :| Frame(r, a, b, deltaMs, distance, now);
      if InPlace(a) {
        StaysInPlace(r, a, b, deltaMs, distance, now);
      } else {
        FrameKeepsCourse(r, a, b, deltaMs, distance, now);
        OpenOnCourse(r, b);
      }
    }
  }

  lemma InPlaceRoams(a: WorldAgent)
    requires InPlace(a)
    ensures a.mode == Roaming
  {
  }
}
