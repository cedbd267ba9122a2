/** The service as an object, and one `executeRun` as its code is written: awaits, loops, early exits and a final
    wipe. */
module AgentService {
  import opened Wrappers
  import opened Keycards
  import opened KeycardHistory
  import opened ResourceFiles
  import opened AccessGate
  import opened AgentDatabase
  import opened RunProtocol
  import opened RunInvariants
  import opened RunSafety
  import opened RunHistory

  const GRANT_POLL_MS := 500

  /**
   * What a run cannot decide for itself: what everyone else does while it awaits for the n-th time, whether its n-th
   * call that can throw does (and if so, for cancellation), which files the removal that is its n-th such call leaves
   * if it fails, fresh ids, what a listing returns, and how long a wait may last.
   */
  datatype Outside = Outside(
    events: nat -> seq<Event>, throws: nat -> Option<bool>, kept: nat -> set<string>, newId: set<string> -> string,
    listing: nat -> seq<ResourceRef>, waitMs: int)

  ghost predicate Fitting(outside: Outside, ownerId: string) {
    && (forall used :: outside.newId(used) !in used)
    && (forall n :: InNamespace(ownerId, outside.listing(n)))
  }

  predicate IsMoveOf(event: Event, r: string) {
    event.Do? && event.runId == r
  }

  /** Where an execution stands, the moves that need nothing else. */
  predicate Awaits(e: Exec, move: Move) {
    match move
    case Begin => e.phase == Admitted
    case Reject => e.phase == Admitted
    case ClearInbox => e.phase == Judged
    case List(listing) => e.phase == Idle && InNamespace(e.ownerId, listing)
    case DecideNext => e.phase.Passing? && e.phase.next < |e.listing|
    case Stage => e.phase.Staging?
    case FinishPass => e.phase == Passing(|e.listing|)
    case BeginWait(_) => e.phase == Empty
    case GiveUp => e.phase == Waiting
    case Launch => e.phase == Launching
    case Succeed => e.phase == Launched
    case Throw(_) => InTry(e.phase)
    case Settle => e.phase.Ending?
    case SettleFails => e.phase.Ending?
    case Wipe => e.phase.Wiping?
    case WipeFails(_) => e.phase.Wiping?
    case _ => false
  }

  lemma AwaitedMoves(w: World, r: string, e: Exec, move: Move)
    requires Awaits(e, move)
    ensures Advance(w, r, e, move).Some?
  {
    hide Decided, MayExecute, HoldsDataCard, InNamespace, OthersHaveEnded;
  }

  lemma OneMore(start: World, history: seq<Event>, w: World, event: Event)
    requires Serves(start, history, w) && Step(w, event).Some?
    ensures Serves(start, history + [event], Step(w, event).value)
  {
    hide Step, IsStart;
    assert (history + [event])[..|history|] == history;
  }

  /** What a move makes of an execution, as far as the code after it depends on it. */
  predicate Led(e: Exec, move: Move, after: Exec) {
    && after.agentId == e.agentId && after.ownerId == e.ownerId
    && match move
       case Begin => after == e.(phase := Started)
       case Reject => after == e.(phase := Aborted)
       case TakeCard(_) => after == e.(phase := after.phase) && (after.phase == Judged || after.phase.Ending?)
       case ClearInbox => after.second == e.second && (after.phase == Idle || after.phase.Ending?)
       case ClearFails(_) => after == e.(phase := Ending(false))
       case List(listing) => after.phase == Passing(0) && after.listing == listing && after.second == e.second
       case DecideNext =>
         && e.phase.Passing? && after.listing == e.listing && after.second == e.second
         && (after.phase == Passing(e.phase.next + 1) || (after.phase.Staging? && after.phase.next == e.phase.next))
       case Stage =>
         e.phase.Staging? && after.phase == Passing(e.phase.next + 1) && after.listing == e.listing
           && after.second == e.second
       case FinishPass => after == e.(phase := if e.second || e.permitted != [] then Launching else Empty)
       case BeginWait(_) =>
         after == e.(phase := after.phase, second := true)
           && (after.phase == Idle || after.phase == Waiting || after.phase == Launching)
       case SeeGrant => after == e.(phase := Idle)
       case SeeRefusal => after == e.(phase := Ending(false))
       case GiveUp => after == e.(phase := Launching)
       case Launch => after == e.(phase := Launched)
       case Succeed => after == e.(phase := Wiping(true))
       case Throw(cancelled) => after == e.(phase := Ending(cancelled))
       case Settle => after == e.(phase := Wiping(true))
       case SettleFails => after == e.(phase := Wiping(false))
       case Wipe => e.phase.Wiping? && after == e.(phase := Done(e.phase.settled, true))
       case WipeFails(_) => e.phase.Wiping? && after == e.(phase := Done(e.phase.settled, false))
  }

  lemma Leads(w: World, r: string, e: Exec, move: Move)
    requires Advance(w, r, e, move).Some?
    ensures Led(e, move, Advance(w, r, e, move).value)
  {
    hide MayExecute, HoldsDataCard, OthersHaveEnded, InNamespace, VerdictFor, SameCards, StagerOf, CardFor, Lookup;
  }

  lemma ClockGrows(w: World, event: Event)
    requires Step(w, event).Some?
    ensures Step(w, event).value.clock >= w.clock
  {
    hide Advance, Apply, FreshId, FreshAgent, Disturb, DbAfter, InboxesAfter, DenialsAfter;
  }

  // ----- Calls that throw

  /** None of the calls from `from` up to `to` threw, except that the last did if `threw`. */
  predicate Calls(outside: Outside, from: nat, to: nat, threw: bool) {
    && from <= to && (threw ==> from < to)
    && forall n | from <= n < to :: outside.throws(n).Some? <==> threw && n == to - 1
  }

  lemma NoCall(outside: Outside, from: nat)
    ensures Calls(outside, from, from, false)
  {
  }

  lemma OneCall(outside: Outside, from: nat)
    ensures Calls(outside, from, from + 1, outside.throws(from).Some?)
  {
  }

  lemma MoreCalls(outside: Outside, from: nat, middle: nat, to: nat, threw: bool)
    requires Calls(outside, from, middle, false) && Calls(outside, middle, to, threw)
    ensures Calls(outside, from, to, threw)
  {
  }

  /** The calls from `from` up to `to` were made; a run that has come to its catch was led there by the last, which
      threw. */
  predicate HaltedByThrow(outside: Outside, from: nat, to: nat, history: seq<Event>, r: string, phase: Phase) {
    && Calls(outside, from, to, phase.Ending?)
    && (phase.Ending? ==>
          && phase == Ending(outside.throws(to - 1).value)
          && history != [] && history[|history| - 1] == Do(r, Throw(outside.throws(to - 1).value)))
  }

  /** A removal that fails is a call that throws. */
  predicate IsThrow(move: Move) {
    move.Throw? || move.ClearFails?
  }

  /** The calls from `from` up to `to` were made; a run that has come to its catch was led there by its own last
      step, and exactly if that is a throw, by the last call. */
  predicate Halted(outside: Outside, from: nat, to: nat, history: seq<Event>, r: string, phase: Phase) {
    && (phase.Ending? ==> history != [] && IsMoveOf(history[|history| - 1], r))
    && Calls(outside, from, to, phase.Ending? && IsThrow(history[|history| - 1].move))
  }

  lemma ThrewIsHalted(outside: Outside, from: nat, to: nat, history: seq<Event>, r: string, phase: Phase)
    requires HaltedByThrow(outside, from, to, history, r, phase)
    ensures Halted(outside, from, to, history, r, phase)
  {
  }

  lemma ThrewLater(outside: Outside, from: nat, middle: nat, to: nat, history: seq<Event>, r: string, phase: Phase)
    requires Calls(outside, from, middle, false) && HaltedByThrow(outside, middle, to, history, r, phase)
    ensures HaltedByThrow(outside, from, to, history, r, phase)
  {
    MoreCalls(outside, from, middle, to, phase.Ending?);
  }

  lemma HaltedLater(outside: Outside, from: nat, middle: nat, to: nat, history: seq<Event>, r: string, phase: Phase)
    requires Calls(outside, from, middle, false) && Halted(outside, middle, to, history, r, phase)
    ensures Halted(outside, from, to, history, r, phase) && from <= middle <= to
  {
    MoreCalls(outside, from, middle, to, phase.Ending? && IsThrow(history[|history| - 1].move));
  }

  /** The calls from `from` up to `to` were made and none threw; the run's last step saw the owner's refusal. */
  predicate HaltedByOwner(outside: Outside, from: nat, to: nat, history: seq<Event>, r: string, phase: Phase) {
    && Calls(outside, from, to, false)
    && phase == Ending(false)
    && history != []
    && history[|history| - 1] == Do(r, SeeRefusal)
  }

  lemma ThrewNothing(outside: Outside, from: nat, to: nat, history: seq<Event>, r: string, phase: Phase)
    requires HaltedByThrow(outside, from, to, history, r, phase) && !phase.Ending?
    ensures Calls(outside, from, to, false)
  {
  }

  lemma RefusedLater(outside: Outside, from: nat, middle: nat, to: nat, history: seq<Event>, r: string, phase: Phase)
    requires Calls(outside, from, middle, false) && HaltedByOwner(outside, middle, to, history, r, phase)
    ensures HaltedByOwner(outside, from, to, history, r, phase)
  {
    MoreCalls(outside, from, middle, to, false);
  }

  lemma NothingThrew(outside: Outside, at: nat, history: seq<Event>, r: string, phase: Phase)
    ensures !phase.Ending? ==> HaltedByThrow(outside, at, at, history, r, phase)
  {
  }

  lemma NotHalted(outside: Outside, from: nat, to: nat, history: seq<Event>, r: string, phase: Phase)
    requires Halted(outside, from, to, history, r, phase) && !phase.Ending?
    ensures Calls(outside, from, to, false)
  {
  }

  lemma HaltedLast(outside: Outside, from: nat, to: nat, history: seq<Event>, r: string, phase: Phase)
    requires Halted(outside, from, to, history, r, phase) && phase.Ending?
    ensures history != [] && IsMoveOf(history[|history| - 1], r)
  {
  }

  lemma DeniedIsHalted(outside: Outside, at: nat, history: seq<Event>, r: string, phase: Phase)
    requires history != [] && IsMoveOf(history[|history| - 1], r) && !IsThrow(history[|history| - 1].move)
    ensures Halted(outside, at, at, history, r, phase)
  {
  }

  lemma SawRefusal(outside: Outside, at: nat, history: seq<Event>, r: string, phase: Phase)
    requires history != [] && history[|history| - 1] == Do(r, SeeRefusal) && phase == Ending(false)
    ensures HaltedByOwner(outside, at, at, history, r, phase)
  {
  }

  lemma StagingIsHalted(outside: Outside, from: nat, to: nat, history: seq<Event>, r: string, phase: Phase,
                        refused: bool)
    requires if refused then HaltedByOwner(outside, from, to, history, r, phase)
             else HaltedByThrow(outside, from, to, history, r, phase)
    ensures Halted(outside, from, to, history, r, phase)
  {
  }

  /**
   * What a whole run's calls came to: the first mutation's, those of the try block, of which only one that led to the
   * catch threw, the catch's if it came to it, and the removal's.
   */
  predicate Accounted(outside: Outside, from: nat, to: nat, failures: set<Failure>, caught: bool, threw: bool) {
    if outside.throws(from).Some? then to == from + 1 && failures == {FirstMutation} && !caught
    else if caught then
      && from + 2 < to && Calls(outside, from, to - 2, threw) && FirstMutation !in failures
      && (CatchMutation in failures <==> outside.throws(to - 2).Some?)
      && (FinalRemoval in failures <==> outside.throws(to - 1).Some?)
    else
      && from + 1 < to && Calls(outside, from, to - 1, false)
      && failures == if outside.throws(to - 1).Some? then {FinalRemoval} else {}
  }

  /** The steps a call does that can throw; they do not lead to the catch. */
  predicate Plain(move: Move) {
    move.List? || move.DecideNext? || move.Stage? || move.FinishPass? || move.Launch? || move.Succeed?
  }

  lemma PlainLeads(e: Exec, move: Move, after: Exec)
    requires Led(e, move, after) && Plain(move)
    ensures !after.phase.Ending? && after.second == e.second
    ensures after.agentId == e.agentId && after.ownerId == e.ownerId
  {
  }

  lemma ClearIsHalted(outside: Outside, from: nat, to: nat, history: seq<Event>, r: string, e: Exec, move: Move,
                      after: Exec)
    requires Led(e, move, after) && (move == ClearInbox || move.ClearFails?)
    requires Calls(outside, from, to, move.ClearFails?)
    requires history != [] && history[|history| - 1] == Do(r, move)
    ensures Halted(outside, from, to, history, r, after.phase)
    ensures after.agentId == e.agentId && after.ownerId == e.ownerId && after.second == e.second
    ensures after.phase == Idle || after.phase.Ending?
  {
  }

  /** What takes a run to its catch: a denied execution, a cancellation seen, the owner's refusal, or a throw. */
  predicate Stops(w: World, r: string, e: Exec, move: Move) {
    match move
    case TakeCard(id) => !MayExecute(w, r, e, id)
    case ClearInbox => e.agentId in w.cancelling
    case SeeRefusal => !HoldsDataCard(w, e) && e.agentId in w.denials
    case _ => IsThrow(move)
  }

  /** The `i`-th event took the run to its catch. */
  ghost predicate StopsAt(start: World, history: seq<Event>, i: nat, r: string) {
    && i < |history| && IsMoveOf(history[i], r) && Reached(start, history[..i]).Some?
    && var w := Reached(start, history[..i]).value;
       r in w.execs && Stops(w, r, w.execs[r], history[i].move)
  }

  lemma StoppingMove(w: World, r: string, e: Exec, move: Move)
    requires Advance(w, r, e, move).Some? && Advance(w, r, e, move).value.phase.Ending?
    ensures Stops(w, r, e, move)
  {
    hide MayExecute, HoldsDataCard, OthersHaveEnded, InNamespace, VerdictFor, SameCards, StagerOf, CardFor, Lookup;
  }

  lemma LastStops(start: World, history: seq<Event>, w: World, r: string)
    requires Serves(start, history, w) && r in w.execs && w.execs[r].phase.Ending?
    requires history != [] && IsMoveOf(history[|history| - 1], r)
    ensures StopsAt(start, history, |history| - 1, r)
  {
    hide Advance, Stops, IsStart;
    var previous := ServesBefore(start, history, w);
    var move := history[|history| - 1].move;
    MoveStep(previous, r, move);
    StoppingMove(previous, r, previous.execs[r], move);
  }

  lemma StopStays(start: World, history: seq<Event>, more: seq<Event>, i: nat, r: string)
    requires StopsAt(start, history, i, r) && history <= more
    ensures StopsAt(start, more, i, r) && more[i] == history[i]
  {
    hide Stops, Reached;
    assert more[..i] == history[..i];
  }

  // ----- The bounded wait

  /** The wait's event at a turn. A card and, without one, a refusal are looked for after a sleep, so not at the
      first turn; then the time and a cancellation; then it sleeps. */
  function Turn(w: World, r: string, e: Exec, deadline: int, first: bool): Event {
    if !first && HoldsDataCard(w, e) then Do(r, SeeGrant)
    else if !first && e.agentId in w.denials then Do(r, SeeRefusal)
    else if w.clock >= deadline || e.agentId in w.cancelling then Do(r, GiveUp)
    else Tick(GRANT_POLL_MS)
  }

  ghost predicate TurnAt(start: World, history: seq<Event>, p: nat, r: string, e: Exec, deadline: int, first: bool) {
    && p < |history| && Reached(start, history[..p]).Some?
    && history[p] == Turn(Reached(start, history[..p]).value, r, e, deadline, first)
  }

  /** The turns of a wait, each a place in the history and each but the last a sleep. */
  ghost predicate Turns(start: World, history: seq<Event>, from: nat, turns: seq<nat>, r: string, e: Exec,
                        deadline: int) {
    && (turns != [] ==> turns[0] == from)
    && (forall i, j | 0 <= i < j < |turns| :: turns[i] < turns[j])
    && (forall i | 0 <= i < |turns| :: TurnAt(start, history, turns[i], r, e, deadline, i == 0))
    && (forall i | 0 <= i < |turns| - 1 :: history[turns[i]] == Tick(GRANT_POLL_MS))
  }

  ghost predicate Waited(start: World, history: seq<Event>, from: nat, turns: seq<nat>, r: string, e: Exec,
                         deadline: int) {
    && Turns(start, history, from, turns, r, e, deadline)
    && turns != [] && history[turns[|turns| - 1]] != Tick(GRANT_POLL_MS)
  }

  lemma TurnStays(start: World, history: seq<Event>, more: seq<Event>, p: nat, r: string, e: Exec, deadline: int,
                  first: bool)
    requires TurnAt(start, history, p, r, e, deadline, first) && history <= more
    ensures TurnAt(start, more, p, r, e, deadline, first)
  {
    hide Reached, Turn;
    assert more[..p] == history[..p];
  }

  lemma TurnsStay(start: World, history: seq<Event>, more: seq<Event>, from: nat, turns: seq<nat>, r: string, e: Exec,
                  deadline: int)
    requires Turns(start, history, from, turns, r, e, deadline) && history <= more
    ensures Turns(start, more, from, turns, r, e, deadline)
    ensures forall i | 0 <= i < |turns| :: more[turns[i]] == history[turns[i]]
  {
    forall i | 0 <= i < |turns|
      ensures TurnAt(start, more, turns[i], r, e, deadline, i == 0) && more[turns[i]] == history[turns[i]]
    {
      TurnStays(start, history, more, turns[i], r, e, deadline, i == 0);
    }
    hide TurnAt;
  }

  /** The turns of a wait that has slept at each of them and is not over. */
  ghost predicate Slept(start: World, history: seq<Event>, from: nat, turns: seq<nat>, r: string, e: Exec,
                        deadline: int) {
    && Turns(start, history, from, turns, r, e, deadline) && (turns == [] ==> |history| == from)
    && forall i | 0 <= i < |turns| :: turns[i] < |history| && history[turns[i]] == Tick(GRANT_POLL_MS)
  }

  lemma NoTurns(start: World, history: seq<Event>, r: string, e: Exec, deadline: int)
    ensures Slept(start, history, |history|, [], r, e, deadline)
  {
  }

  /** The step that answers a wait, from where it leads. */
  function Answering(phase: Phase): Move {
    if phase == Idle then SeeGrant else if phase.Ending? then SeeRefusal else GiveUp
  }

  lemma SleepsAgain(start: World, history: seq<Event>, more: seq<Event>, from: nat, turns: seq<nat>, r: string, e: Exec,
                    deadline: int, w: World)
    requires Slept(start, history, from, turns, r, e, deadline) && history + [Tick(GRANT_POLL_MS)] <= more
    requires turns == [] || (!HoldsDataCard(w, e) && e.agentId !in w.denials)
    requires Reached(start, history) == Some(w) && w.clock < deadline && e.agentId !in w.cancelling
    ensures Slept(start, more, from, turns + [|history|], r, e, deadline)
  {
    hide Turns, HoldsDataCard, Reached;
    assert Turn(w, r, e, deadline, turns == []) == Tick(GRANT_POLL_MS);
    assert history <= more && more[|history|] == Tick(GRANT_POLL_MS) by {
      assert (history + [Tick(GRANT_POLL_MS)])[|history|] == Tick(GRANT_POLL_MS);
    }
    TurnsGrow(start, history, more, from, turns, r, e, deadline, w);
  }

  lemma WaitEnds(start: World, history: seq<Event>, from: nat, turns: seq<nat>, r: string, e: Exec, deadline: int,
                 w: World, move: Move)
    requires Slept(start, history, from, turns, r, e, deadline) && Reached(start, history) == Some(w)
    requires Turn(w, r, e, deadline, turns == []) == Do(r, move)
    ensures Waited(start, history + [Do(r, move)], from, turns + [|history|], r, e, deadline)
  {
    hide Turns, Turn, Reached;
    TurnsGrow(start, history, history + [Do(r, move)], from, turns, r, e, deadline, w);
  }

  /** One more turn, at the end of a history so far, begins the rest of it. */
  lemma TurnsGrow(start: World, history: seq<Event>, more: seq<Event>, from: nat, turns: seq<nat>, r: string, e: Exec,
                  deadline: int, w: World)
    requires Slept(start, history, from, turns, r, e, deadline) && history <= more && |history| < |more|
    requires Reached(start, history) == Some(w) && more[|history|] == Turn(w, r, e, deadline, turns == [])
    ensures Turns(start, more, from, turns + [|history|], r, e, deadline)
    ensures forall i | 0 <= i < |turns| :: more[turns[i]] == Tick(GRANT_POLL_MS)
  {
    hide Turn, Reached, TurnAt, Turns;
    TurnsStay(start, history, more, from, turns, r, e, deadline);
    TurnHere(start, history, more, r, e, deadline, turns == [], w);
    OneMoreTurn(start, more, from, turns, |history|, r, e, deadline);
  }

  lemma TurnHere(start: World, history: seq<Event>, more: seq<Event>, r: string, e: Exec, deadline: int, first: bool,
                 w: World)
    requires history <= more && |history| < |more| && Reached(start, history) == Some(w)
    requires more[|history|] == Turn(w, r, e, deadline, first)
    ensures TurnAt(start, more, |history|, r, e, deadline, first)
  {
    hide Turn, Reached;
    assert more[..|history|] == history;
  }

  lemma OneMoreTurn(start: World, history: seq<Event>, from: nat, turns: seq<nat>, p: nat, r: string, e: Exec,
                    deadline: int)
    requires Turns(start, history, from, turns, r, e, deadline) && (turns == [] ==> p == from)
    requires TurnAt(start, history, p, r, e, deadline, turns == [])
    requires forall i | 0 <= i < |turns| :: turns[i] < p < |history| && history[turns[i]] == Tick(GRANT_POLL_MS)
    ensures Turns(start, history, from, turns + [p], r, e, deadline)
  {
    hide TurnAt;
    var all := turns + [p];
    forall i | 0 <= i < |all|
      ensures TurnAt(start, history, all[i], r, e, deadline, i == 0)
    {
      if i < |turns| {
        assert all[i] == turns[i];
      }
    }
  }

  /** A wait as a run's history shows it: where it begins, and its turns if it is not over at once. */
  datatype Wait = Wait(begin: nat, turns: seq<nat>)

  /** It begins for a run without a card, and, if there is time for it, takes its turns. */
  ghost predicate Stood(start: World, history: seq<Event>, wait: Wait, r: string, waitMs: int) {
    && wait.begin < |history| && history[wait.begin] == Do(r, BeginWait(waitMs > 0))
    && Reached(start, history[..wait.begin + 1]).Some?
    && var w := Reached(start, history[..wait.begin + 1]).value;
       && r in w.execs
       && if w.execs[r].phase == Waiting
          then Waited(start, history, wait.begin + 1, wait.turns, r, w.execs[r], w.clock + waitMs)
          else wait.turns == []
  }

  lemma WaitedStays(start: World, history: seq<Event>, more: seq<Event>, from: nat, turns: seq<nat>, r: string, e: Exec,
                    deadline: int)
    requires Waited(start, history, from, turns, r, e, deadline) && history <= more
    ensures Waited(start, more, from, turns, r, e, deadline)
    ensures turns != [] && turns[|turns| - 1] < |history| && more[turns[|turns| - 1]] == history[turns[|turns| - 1]]
  {
    TurnsStay(start, history, more, from, turns, r, e, deadline);
    assert TurnAt(start, history, turns[|turns| - 1], r, e, deadline, |turns| == 1);
    hide Reached, Turn;
  }

  lemma StoodStays(start: World, history: seq<Event>, more: seq<Event>, wait: Wait, r: string, waitMs: int)
    requires Stood(start, history, wait, r, waitMs) && history <= more
    ensures Stood(start, more, wait, r, waitMs)
    ensures Brought(start, history, wait, r, waitMs) <==> Brought(start, more, wait, r, waitMs)
  {
    hide Reached, Waited;
    assert more[..wait.begin + 1] == history[..wait.begin + 1];
    var w := Reached(start, more[..wait.begin + 1]).value;
    if w.execs[r].phase == Waiting {
      WaitedStays(start, history, more, wait.begin + 1, wait.turns, r, w.execs[r], w.clock + waitMs);
    }
  }

  lemma WaitStood(start: World, begun: seq<Event>, history: seq<Event>, wait: Wait, w: World, r: string, waitMs: int)
    requires Reached(start, begun) == Some(w) && begun <= history && wait.begin == |begun| - 1
    requires begun[wait.begin] == Do(r, BeginWait(waitMs > 0)) && r in w.execs
    requires if w.execs[r].phase == Waiting
             then Waited(start, history, |begun|, wait.turns, r, w.execs[r], w.clock + waitMs)
             else wait.turns == []
    ensures Stood(start, history, wait, r, waitMs)
    ensures Brought(start, history, wait, r, waitMs) <==>
        w.execs[r].phase == Idle
        || (wait.turns != [] && wait.turns[|wait.turns| - 1] < |history|
          && history[wait.turns[|wait.turns| - 1]] == Do(r, SeeGrant))
  {
    hide Reached, Waited;
    assert history[..wait.begin + 1] == begun;
  }

  /** A card was held at its beginning, or seen at its last turn. */
  ghost predicate Brought(start: World, history: seq<Event>, wait: Wait, r: string, waitMs: int)
    requires Stood(start, history, wait, r, waitMs)
  {
    Reached(start, history[..wait.begin + 1]).value.execs[r].phase == Idle ||
    (wait.turns != [] && wait.turns[|wait.turns| - 1] < |history|
      && history[wait.turns[|wait.turns| - 1]] == Do(r, SeeGrant))
  }

  class AgentService {
    var db: Database
    var cards: StoreState
    var clock: int
    var inboxes: map<string, Files>
    var executions: map<string, Exec>
    var cancellationRequests: set<string>
    var capabilityDenials: map<string, string>
    var latest: map<string, string>
    var disturbed: set<string>
    var used: set<string>
    var awaited: nat
    var called: nat
    ghost var start: World
    ghost var history: seq<Event>

    function State(): World
      reads this
    {
      World(db, cards, clock, inboxes, executions, cancellationRequests, capabilityDenials, latest, disturbed, used)
    }

    /** The object is in a state the service can come to, so every theorem about those holds of it. */
    ghost predicate Valid()
      reads this
    {
      Serves(start, history, State())
    }

    constructor (db: Database, clock: int, leftovers: map<string, set<string>>)
      requires Referential(db) && Conversational(db)
      ensures Valid() && State() == StartUp(db, clock, leftovers)
    {
      var w := StartUp(db, clock, leftovers);
      this.db, cards, this.clock, inboxes, executions := w.db, w.cards, w.clock, w.inboxes, w.execs;
      cancellationRequests, capabilityDenials := w.cancelling, w.denials;
      latest, disturbed, used := w.latest, w.disturbed, w.used;
      awaited, called := 0, 0;
      start, history := w, [];
      hide Referential, Conversational, StartUp;
    }

    /** One mutation, decision or store operation; a call that throws changes nothing. */
    method Happen(event: Event) returns (done: bool)
      requires Valid()
      modifies this`db, this`cards, this`clock, this`inboxes, this`executions, this`cancellationRequests,
        this`capabilityDenials, this`latest, this`disturbed, this`used, this`history
      ensures Valid()
      ensures done ==> Step(old(State()), event) == Some(State()) && history == old(history) + [event]
      ensures !done ==> Step(old(State()), event) == None && State() == old(State()) && history == old(history)
    {
      hide Step, Serves;
      var next := Step(State(), event);
      done := next.Some?;
      if done {
        OneMore(start, history, State(), event);
        var w := next.value;
        db, cards, clock, inboxes, executions := w.db, w.cards, w.clock, w.inboxes, w.execs;
        cancellationRequests, capabilityDenials := w.cancelling, w.denials;
        latest, disturbed, used := w.latest, w.disturbed, w.used;
        history := history + [event];
      }
    }

    /** While a run awaits, anything may happen but a step of its own. */
    method Yield(r: string, outside: Outside)
      requires Valid() && r in executions
      modifies this
      ensures Valid() && start == old(start) && clock >= old(clock)
      ensures old(history) <= history && awaited == old(awaited) + 1 && called == old(called)
      ensures r in executions && executions[r] == old(executions[r])
    {
      var events := outside.events(awaited);
      awaited := awaited + 1;
      assert Valid();
      hide Valid, Step;
      for i := 0 to |events|
        invariant Valid() && start == old(start) && clock >= old(clock)
        invariant old(history) <= history && awaited == old(awaited) + 1 && called == old(called)
        invariant r in executions && executions[r] == old(executions[r])
      {
        if !IsMoveOf(events[i], r) {
          label before:
          var done := Happen(events[i]);
          if done {
            OthersLeaveItAlone(old@before(State()), events[i], r);
            ClockGrows(old@before(State()), events[i]);
          }
        }
      }
    }

    /** A step of the run that nothing stands in the way of. */
    method Proceed(r: string, move: Move)
      requires Valid() && r in executions && Awaits(executions[r], move)
      modifies this
      ensures Valid() && start == old(start) && r in executions
      ensures history == old(history) + [Do(r, move)] && awaited == old(awaited) && called == old(called)
      ensures clock == old(clock) && cancellationRequests == old(cancellationRequests)
      ensures Advance(old(State()), r, old(executions[r]), move) == Some(executions[r])
      ensures Led(old(executions[r]), move, executions[r])
      ensures inboxes == InboxesAfter(old(State()), old(executions[r]), move)
    {
      AwaitedMoves(State(), r, executions[r], move);
      hide Valid, Awaits, Led, Step, Advance, InboxesAfter;
      Leads(State(), r, executions[r], move);
      StepMoves(State(), r, move);
      var _ := Happen(Do(r, move));
    }

    /** A call that can throw: whether it does, and the others' moves in the meantime. */
    method Awaiting(r: string, outside: Outside) returns (throws: Option<bool>)
      requires Valid() && r in executions
      modifies this
      ensures Valid() && start == old(start) && clock >= old(clock)
      ensures old(history) <= history
      ensures throws == outside.throws(old(called)) && called == old(called) + 1
      ensures r in executions && executions[r] == old(executions[r])
    {
      Yield(r, outside);
      throws := Calling(outside);
    }

    method Calling(outside: Outside) returns (throws: Option<bool>)
      requires Valid()
      modifies this
      ensures Valid() && start == old(start) && State() == old(State()) && history == old(history)
      ensures throws == outside.throws(old(called)) && called == old(called) + 1
    {
      throws := outside.throws(called);
      called := called + 1;
    }

    /** An awaited call inside the try block: others move first, then it throws or does its step. */
    method Try(r: string, move: Move, outside: Outside)
      requires Valid() && r in executions && Awaits(executions[r], move) && InTry(executions[r].phase) && Plain(move)
      modifies this
      ensures Valid() && start == old(start) && r in executions && old(history) <= history
      ensures HaltedByThrow(outside, old(called), called, history, r, executions[r].phase)
      ensures executions[r].agentId == old(executions[r]).agentId && executions[r].ownerId == old(executions[r]).ownerId
      ensures executions[r].second == old(executions[r]).second
      ensures executions[r].phase.Ending? || Led(old(executions[r]), move, executions[r])
    {
      hide Valid, Advance, InboxesAfter, Awaits, Led;
      var throws := Awaiting(r, outside);
      if throws.Some? {
        Fail(r, throws.value);
      } else {
        ghost var e := executions[r];
        Proceed(r, move);
        PlainLeads(e, move, executions[r]);
      }
    }

    method Fail(r: string, cancelled: bool)
      requires Valid() && r in executions && InTry(executions[r].phase)
      modifies this
      ensures Valid() && start == old(start) && r in executions
      ensures history == old(history) + [Do(r, Throw(cancelled))] && called == old(called)
      ensures executions[r] == old(executions[r]).(phase := Ending(cancelled))
    {
      hide Valid, Advance, InboxesAfter;
      InTryMayThrow(executions[r], cancelled);
      Proceed(r, Throw(cancelled));
    }

    /** An awaited call that has nothing to do but perhaps throw. */
    method MayFail(r: string, outside: Outside)
      requires Valid() && r in executions && InTry(executions[r].phase)
      modifies this
      ensures Valid() && start == old(start) && r in executions && old(history) <= history
      ensures HaltedByThrow(outside, old(called), called, history, r, executions[r].phase)
      ensures executions[r] == old(executions[r]).(phase := executions[r].phase)
      ensures executions[r].phase.Ending? || executions[r] == old(executions[r])
    {
      hide Valid;
      var throws := Awaiting(r, outside);
      if throws.Some? {
        Fail(r, throws.value);
      }
    }

    /** Ends a cancelled run; otherwise removes what is staged, which may fail half-way. */
    method ClearStaged(r: string, outside: Outside)
      requires Valid() && r in executions && executions[r].phase == Judged
      modifies this
      ensures Valid() && start == old(start) && r in executions && old(history) <= history
      ensures Halted(outside, old(called), called, history, r, executions[r].phase)
      ensures executions[r].agentId == old(executions[r]).agentId && executions[r].ownerId == old(executions[r]).ownerId
      ensures executions[r].second == old(executions[r]).second
      ensures (executions[r].phase == Idle || executions[r].phase.Ending?)
    {
      hide Valid, Advance, Step, Led, Calls, Halted, IsMoveOf;
      Yield(r, outside);
      var move := ClearInbox;
      var from := called;
      if executions[r].agentId !in cancellationRequests {
        var throws := Calling(outside);
        OneCall(outside, from);
        if throws.Some? {
          move := ClearFails(outside.kept(from));
        }
      } else {
        NoCall(outside, from);
      }
      assert Calls(outside, from, called, move.ClearFails?);
      ghost var e := executions[r];
      ClearingMoves(State(), r, move);
      MovesAre(State(), r, move);
      Leads(State(), r, e, move);
      var _ := Happen(Do(r, move));
      ClearIsHalted(outside, from, called, history, r, e, move, executions[r]);
    }

    /** One trip through the listing, decision by decision: unless one of its calls throws, its outcome is recorded,
        and it leads to the launch or, from a first pass that staged nothing, to the wait. */
    method StagingPass(r: string, listing: seq<ResourceRef>, outside: Outside)
      requires Valid() && r in executions && executions[r].phase == Idle && InNamespace(executions[r].ownerId, listing)
      modifies this
      ensures Valid() && start == old(start) && r in executions && old(history) <= history
      ensures HaltedByThrow(outside, old(called), called, history, r, executions[r].phase)
      ensures executions[r].agentId == old(executions[r]).agentId && executions[r].ownerId == old(executions[r]).ownerId
      ensures executions[r].second == old(executions[r]).second
      ensures executions[r].phase.Ending? || PassedOver(executions[r], listing, old(executions[r]).second, db, r)
    {
      hide Valid, InNamespace, HaltedByThrow, Calls;
      ghost var second := executions[r].second;
      Try(r, List(listing), outside);
      var next := 0;
      while executions[r].phase.Passing? && next < |listing|
        invariant Valid() && start == old(start) && r in executions && old(history) <= history && next <= |listing|
        invariant HaltedByThrow(outside, old(called), called, history, r, executions[r].phase)
        invariant executions[r].agentId == old(executions[r]).agentId
        invariant executions[r].ownerId == old(executions[r]).ownerId
        invariant executions[r].second == second
        invariant executions[r].phase.Ending? || OnPass(executions[r], listing, next, second)
        decreases |listing| - next
      {
        ghost var middle := called;
        ThrewNothing(outside, old(called), called, history, r, executions[r].phase);
        DecideAndStage(r, listing, next, second, outside);
        ThrewLater(outside, old(called), middle, called, history, r, executions[r].phase);
        next := next + 1;
      }
      if executions[r].phase.Passing? {
        ghost var middle := called;
        ThrewNothing(outside, old(called), called, history, r, executions[r].phase);
        Try(r, FinishPass, outside);
        ThrewLater(outside, old(called), middle, called, history, r, executions[r].phase);
        if !executions[r].phase.Ending? {
          PassRecorded(r);
        }
      }
    }

    lemma PassRecorded(r: string)
      requires Valid() && r in executions && PassStands(executions[r].phase)
      ensures var e := executions[r];
        && e.withheld + |e.permitted| == |e.listing|
        && (r in db.runs ==> db.runs[r].stagedResources == e.permitted && db.runs[r].withheldCount == e.withheld)
    {
      PassIsRecorded(start, history, State(), r);
      hide Serves, PassStands;
    }

    method DecideAndStage(r: string, listing: seq<ResourceRef>, next: nat, ghost second: bool, outside: Outside)
      requires Valid() && r in executions && OnPass(executions[r], listing, next, second) && next < |listing|
      modifies this
      ensures Valid() && start == old(start) && r in executions && old(history) <= history
      ensures HaltedByThrow(outside, old(called), called, history, r, executions[r].phase)
      ensures executions[r].agentId == old(executions[r]).agentId && executions[r].ownerId == old(executions[r]).ownerId
      ensures executions[r].second == second
      ensures executions[r].phase.Ending? || OnPass(executions[r], listing, next + 1, second)
    {
      hide Valid, HaltedByThrow, Calls;
      Try(r, DecideNext, outside);
      if executions[r].phase.Staging? {
        ghost var middle := called;
        ThrewNothing(outside, old(called), called, history, r, executions[r].phase);
        Try(r, Stage, outside);
        ThrewLater(outside, old(called), middle, called, history, r, executions[r].phase);
      }
    }

    /**
     * The wait. `turns` are the places of its turns in the history, the first where it begins and the last where it
     * answers: a card held or, without one, the owner's refusal, seen after a sleep; otherwise that its time is over or
     * the run cancelled. It changes nothing of the run but where it stands, and begins no sleep after its time.
     */
    method AwaitDataKeycard(r: string, outside: Outside) returns (ghost turns: seq<nat>)
      requires Valid() && r in executions && executions[r].phase == Waiting
      modifies this
      ensures Valid() && start == old(start) && r in executions && old(history) <= history && called == old(called)
      ensures Waited(start, history, |old(history)|, turns, r, old(executions[r]), old(clock) + outside.waitMs)
      ensures turns != [] && turns[|turns| - 1] == |history| - 1 && awaited == old(awaited) + |turns| - 1
      ensures |turns| == 1 || (|turns| - 2) * 500 < outside.waitMs
      ensures executions[r] == old(executions[r]).(phase := executions[r].phase)
      ensures executions[r].phase == Idle || executions[r].phase == Ending(false) || executions[r].phase == Launching
      ensures history[|history| - 1] == Do(r, Answering(executions[r].phase))
      ensures executions[r].phase == Idle ==> HoldsDataCard(State(), executions[r])
      ensures executions[r].phase.Ending? ==> !HoldsDataCard(State(), executions[r])
      ensures executions[r].phase == Launching ==>
          clock >= old(clock) + outside.waitMs || executions[r].agentId in cancellationRequests
    {
      hide Valid, HoldsDataCard, Slept, Waited, IsMoveOf;
      var deadline := clock + outside.waitMs;
      ghost var from := |history|;
      turns := [];
      NoTurns(start, history, r, executions[r], deadline);
      while clock < deadline
        invariant Valid() && start == old(start) && r in executions && executions[r] == old(executions[r])
        invariant old(history) <= history && called == old(called) && awaited == old(awaited) + |turns|
        invariant clock >= old(clock) + |turns| * GRANT_POLL_MS
        invariant turns == [] || (|turns| - 1) * GRANT_POLL_MS < outside.waitMs
        invariant Slept(start, history, from, turns, r, executions[r], deadline)
        invariant turns == [] || (!HoldsDataCard(State(), executions[r]) && executions[r].agentId !in capabilityDenials)
        decreases deadline - clock
      {
        if executions[r].agentId in cancellationRequests {
          break;
        }
        turns := Sleep(r, outside, from, turns, deadline);
        var granted, refusal := Seen(r);
        if granted || refusal.Some? {
          turns := Answered(r, granted, from, turns, deadline);
          return;
        }
      }
      turns := GivesUp(r, from, turns, deadline);
    }

    lemma Here()
      requires Valid()
      ensures Reached(start, history) == Some(State())
    {
      hide Reached;
    }

    /** A turn that sleeps. */
    method Sleep(r: string, outside: Outside, ghost from: nat, ghost turns: seq<nat>, ghost deadline: int)
      returns (ghost more: seq<nat>)
      requires Valid() && r in executions && Slept(start, history, from, turns, r, executions[r], deadline)
      requires turns == [] || (!HoldsDataCard(State(), executions[r]) && executions[r].agentId !in capabilityDenials)
      requires clock < deadline && executions[r].agentId !in cancellationRequests
      modifies this
      ensures Valid() && start == old(start) && clock >= old(clock) + GRANT_POLL_MS
      ensures old(history) <= history && awaited == old(awaited) + 1 && called == old(called)
      ensures r in executions && executions[r] == old(executions[r])
      ensures more == turns + [|old(history)|] && Slept(start, history, from, more, r, executions[r], deadline)
    {
      hide Valid, HoldsDataCard, Slept;
      ghost var w, before := State(), history;
      Here();
      var _ := Happen(Tick(GRANT_POLL_MS));
      Yield(r, outside);
      more := turns + [|before|];
      SleepsAgain(start, before, history, from, turns, r, executions[r], deadline, w);
    }

    method Seen(r: string) returns (granted: bool, refusal: Option<string>)
      requires r in executions
      ensures granted == HoldsDataCard(State(), executions[r])
      ensures var a := executions[r].agentId;
        refusal == if a in capabilityDenials then Some(capabilityDenials[a]) else None
    {
      granted := HoldsDataCard(State(), executions[r]);
      var a := executions[r].agentId;
      refusal := if a in capabilityDenials then Some(capabilityDenials[a]) else None;
    }

    /** A turn that ends the wait without an answer. */
    method GivesUp(r: string, ghost from: nat, ghost turns: seq<nat>, ghost deadline: int)
      returns (ghost more: seq<nat>)
      requires Valid() && r in executions && executions[r].phase == Waiting
      requires Slept(start, history, from, turns, r, executions[r], deadline)
      requires turns == [] || (!HoldsDataCard(State(), executions[r]) && executions[r].agentId !in capabilityDenials)
      requires clock >= deadline || executions[r].agentId in cancellationRequests
      modifies this
      ensures Valid() && start == old(start) && r in executions
      ensures history == old(history) + [Do(r, GiveUp)] && awaited == old(awaited) && called == old(called)
      ensures clock == old(clock) && cancellationRequests == old(cancellationRequests)
      ensures executions[r] == old(executions[r]).(phase := Launching)
      ensures more == turns + [|old(history)|] && Waited(start, history, from, more, r, old(executions[r]), deadline)
    {
      hide Valid, Advance, InboxesAfter, HoldsDataCard, Slept, Waited;
      ghost var w, before, e := State(), history, executions[r];
      Here();
      Proceed(r, GiveUp);
      more := turns + [|before|];
      WaitEnds(start, before, from, turns, r, e, deadline, w, GiveUp);
    }

    /** A turn whose answer takes effect. */
    method Answered(r: string, granted: bool, ghost from: nat, ghost turns: seq<nat>, ghost deadline: int)
      returns (ghost more: seq<nat>)
      requires Valid() && r in executions && executions[r].phase == Waiting
      requires granted == HoldsDataCard(State(), executions[r])
      requires granted || executions[r].agentId in capabilityDenials
      requires Slept(start, history, from, turns, r, executions[r], deadline) && turns != []
      modifies this
      ensures Valid() && start == old(start) && r in executions
      ensures history == old(history) + [Do(r, if granted then SeeGrant else SeeRefusal)]
      ensures awaited == old(awaited) && called == old(called)
      ensures executions[r] == old(executions[r]).(phase := if granted then Idle else Ending(false))
      ensures granted == HoldsDataCard(State(), executions[r])
      ensures more == turns + [|old(history)|] && Waited(start, history, from, more, r, old(executions[r]), deadline)
    {
      hide Valid, HoldsDataCard, Slept, Waited;
      ghost var w, before, e := State(), history, executions[r];
      Here();
      TakeAnswer(r, granted);
      more := turns + [|before|];
      WaitEnds(start, before, from, turns, r, e, deadline, w, if granted then SeeGrant else SeeRefusal);
    }

    method TakeAnswer(r: string, granted: bool)
      requires Valid() && r in executions && executions[r].phase == Waiting
      requires granted == HoldsDataCard(State(), executions[r])
      requires granted || executions[r].agentId in capabilityDenials
      modifies this
      ensures Valid() && start == old(start) && r in executions
      ensures history == old(history) + [Do(r, if granted then SeeGrant else SeeRefusal)]
      ensures awaited == old(awaited) && called == old(called)
      ensures executions[r] == old(executions[r]).(phase := if granted then Idle else Ending(false))
      ensures granted == HoldsDataCard(State(), executions[r])
    {
      hide Valid, HoldsDataCard, Step;
      var move := if granted then SeeGrant else SeeRefusal;
      AnswerTakesEffect(State(), r, granted);
      var _ := Happen(Do(r, move));
    }

    /** A first pass; if it staged nothing, a wait; if that brought a card, a second pass. Only a call that throws or
        the owner's refusal keep it from leading to the launch. */
    method StagePermittedResources(r: string, outside: Outside) returns (refusedByOwner: bool, ghost wait: Wait)
      requires Valid() && r in executions && executions[r].phase == Idle && !executions[r].second
      requires Fitting(outside, executions[r].ownerId)
      modifies this
      ensures Valid() && start == old(start) && r in executions && old(history) <= history
      ensures executions[r].agentId == old(executions[r]).agentId
      ensures refusedByOwner ==> HaltedByOwner(outside, old(called), called, history, r, executions[r].phase)
      ensures !refusedByOwner ==> HaltedByThrow(outside, old(called), called, history, r, executions[r].phase)
      ensures executions[r].second ==> Stood(start, history, wait, r, outside.waitMs)
      ensures executions[r].phase.Ending? || MayLaunch(start, history, wait, r, executions[r], outside)
    {
      hide Valid, Advance, InNamespace, HaltedByThrow, HaltedByOwner, Calls, Stood, Brought;
      refusedByOwner, wait := false, Wait(0, []);
      StagingPass(r, outside.listing(0), outside);
      if executions[r].phase == Empty {
        ghost var middle := called;
        ThrewNothing(outside, old(called), called, history, r, executions[r].phase);
        refusedByOwner, wait := WaitAndStage(r, outside);
        if refusedByOwner {
          RefusedLater(outside, old(called), middle, called, history, r, executions[r].phase);
        } else {
          ThrewLater(outside, old(called), middle, called, history, r, executions[r].phase);
        }
      }
    }

    /** Nothing staged: wait, and stage again if that brought a card. */
    method WaitAndStage(r: string, outside: Outside) returns (refusedByOwner: bool, ghost wait: Wait)
      requires Valid() && r in executions && executions[r].phase == Empty
      requires executions[r].permitted == [] && executions[r].listing == outside.listing(0)
      requires Fitting(outside, executions[r].ownerId)
      modifies this
      ensures Valid() && start == old(start) && r in executions && old(history) <= history
      ensures executions[r].agentId == old(executions[r]).agentId
      ensures refusedByOwner ==> HaltedByOwner(outside, old(called), called, history, r, executions[r].phase)
      ensures !refusedByOwner ==> HaltedByThrow(outside, old(called), called, history, r, executions[r].phase)
      ensures executions[r].second && Stood(start, history, wait, r, outside.waitMs)
      ensures executions[r].phase.Ending? || MayLaunch(start, history, wait, r, executions[r], outside)
    {
      hide Valid, Advance, InNamespace, HaltedByThrow, HaltedByOwner, Calls, Stood, Brought;
      refusedByOwner, wait := SeekDataKeycard(r, outside);
      ghost var stood := history;
      ghost var again := executions[r].phase == Idle;
      NothingThrew(outside, called, history, r, executions[r].phase);
      if executions[r].phase == Idle {
        StagingPass(r, outside.listing(1), outside);
      }
      if executions[r].phase == Launching {
        ghost var middle := called;
        ThrewNothing(outside, old(called), called, history, r, executions[r].phase);
        MayFail(r, outside);
        ThrewLater(outside, old(called), middle, called, history, r, executions[r].phase);
      }
      StoodStays(start, stood, history, wait, r, outside.waitMs);
      assert again <==> Brought(start, history, wait, r, outside.waitMs);
    }

    /** The wait, which a run that holds a card already, or has no time to wait, does without. */
    method SeekDataKeycard(r: string, outside: Outside) returns (refusedByOwner: bool, ghost wait: Wait)
      requires Valid() && r in executions && executions[r].phase == Empty
      modifies this
      ensures Valid() && start == old(start) && r in executions && old(history) <= history && called == old(called)
      ensures executions[r] == old(executions[r]).(phase := executions[r].phase, second := true)
      ensures executions[r].phase == Idle || executions[r].phase == Launching || executions[r].phase.Ending?
      ensures refusedByOwner <==> executions[r].phase.Ending?
      ensures refusedByOwner ==> HaltedByOwner(outside, called, called, history, r, executions[r].phase)
      ensures Stood(start, history, wait, r, outside.waitMs)
      ensures executions[r].phase == Idle <==> Brought(start, history, wait, r, outside.waitMs)
    {
      hide Valid, HoldsDataCard, HaltedByOwner, Stood, Brought, Waited;
      BeginToWait(r, outside.waitMs > 0);
      ghost var w, begun := State(), history;
      Here();
      wait := Wait(|old(history)|, []);
      refusedByOwner := false;
      if executions[r].phase == Waiting {
        ghost var turns := AwaitDataKeycard(r, outside);
        wait := Wait(|old(history)|, turns);
        refusedByOwner := executions[r].phase.Ending?;
        if refusedByOwner {
          SawRefusal(outside, called, history, r, executions[r].phase);
        }
      }
      WaitStood(start, begun, history, wait, w, r, outside.waitMs);
    }

    method BeginToWait(r: string, waits: bool)
      requires Valid() && r in executions && executions[r].phase == Empty
      modifies this
      ensures Valid() && start == old(start) && r in executions && called == old(called)
      ensures history == old(history) + [Do(r, BeginWait(waits))]
      ensures executions[r] == old(executions[r]).(phase := executions[r].phase, second := true)
      ensures executions[r].phase == Idle || executions[r].phase == Waiting || executions[r].phase == Launching
    {
      hide Valid, Advance, HoldsDataCard, InboxesAfter;
      Proceed(r, BeginWait(waits));
    }

    /** The run's card, the decision about it, and its audit. */
    method TakeExecutionCard(r: string, outside: Outside)
      requires Valid() && r in executions && executions[r].phase == Started && Fitting(outside, executions[r].ownerId)
      modifies this
      ensures Valid() && start == old(start) && r in executions && old(history) <= history
      ensures Halted(outside, old(called), called, history, r, executions[r].phase)
      ensures executions[r] == old(executions[r]).(phase := executions[r].phase)
      ensures executions[r].phase.Ending? || executions[r].phase == Judged
      ensures executions[r].phase == Judged ==>
          MayExecute(old(State()), r, old(executions[r]), outside.newId(old(cards).records.Keys))
    {
      hide Valid, MayExecute, Halted, HaltedByThrow, Calls;
      TakesFreshCard(r, outside);
      if executions[r].phase == Judged {
        MayFail(r, outside);
        ThrewIsHalted(outside, old(called), called, history, r, executions[r].phase);
      } else {
        DeniedIsHalted(outside, called, history, r, executions[r].phase);
      }
    }

    /** The card decides whether the run may go on. */
    method TakesFreshCard(r: string, outside: Outside)
      requires Valid() && r in executions && executions[r].phase == Started && Fitting(outside, executions[r].ownerId)
      modifies this
      ensures Valid() && start == old(start) && r in executions && called == old(called)
      ensures var id := outside.newId(old(cards).records.Keys);
        && history == old(history) + [Do(r, TakeCard(id))]
        && executions[r] == old(executions[r]).(
             phase := if MayExecute(old(State()), r, old(executions[r]), id) then Judged else Ending(false))
    {
      hide Valid, MayExecute;
      var move := TakeCard(outside.newId(cards.records.Keys));
      MovesAre(State(), r, move);
      hide Step, DoMove;
      var _ := Happen(Do(r, move));
    }

    /** The try block: it ends by the completion of the run, or is left for the catch by a denial, a cancellation, a
        refusal or a call that throws. */
    method Attempt(r: string, outside: Outside)
      requires Valid() && r in executions && executions[r].phase == Started && !executions[r].second
      requires Fitting(outside, executions[r].ownerId)
      modifies this
      ensures Valid() && start == old(start) && r in executions && old(history) <= history
      ensures executions[r].agentId == old(executions[r]).agentId
      ensures executions[r].phase.Ending? || executions[r].phase == Wiping(true)
      ensures Halted(outside, old(called), called, history, r, executions[r].phase)
    {
      hide Valid, Fitting, Halted, HaltedByThrow, HaltedByOwner, Calls, Stood, Brought;
      TakeExecutionCard(r, outside);
      if executions[r].phase == Judged {
        ghost var middle := called;
        NotHalted(outside, old(called), called, history, r, executions[r].phase);
        ClearStaged(r, outside);
        HaltedLater(outside, old(called), middle, called, history, r, executions[r].phase);
      }
      if executions[r].phase == Idle {
        ghost var middle := called;
        NotHalted(outside, old(called), called, history, r, executions[r].phase);
        var refusedByOwner, _ := StagePermittedResources(r, outside);
        StagingIsHalted(outside, middle, called, history, r, executions[r].phase, refusedByOwner);
        HaltedLater(outside, old(called), middle, called, history, r, executions[r].phase);
      }
      if executions[r].phase == Launching {
        RunModel(r, outside, old(called));
      }
    }

    method RunModel(r: string, outside: Outside, ghost from: nat)
      requires Valid() && r in executions && executions[r].phase == Launching
      requires Halted(outside, from, called, history, r, executions[r].phase)
      modifies this
      ensures Valid() && start == old(start) && r in executions && old(history) <= history
      ensures executions[r].agentId == old(executions[r]).agentId
      ensures executions[r].phase.Ending? || executions[r].phase == Wiping(true)
      ensures Halted(outside, from, called, history, r, executions[r].phase)
    {
      hide Valid, Halted, HaltedByThrow, Calls;
      ghost var middle := called;
      NotHalted(outside, from, called, history, r, executions[r].phase);
      Try(r, Launch, outside);
      ThrewIsHalted(outside, middle, called, history, r, executions[r].phase);
      HaltedLater(outside, from, middle, called, history, r, executions[r].phase);
      if executions[r].phase == Launched {
        middle := called;
        NotHalted(outside, from, called, history, r, executions[r].phase);
        Try(r, Succeed, outside);
        ThrewIsHalted(outside, middle, called, history, r, executions[r].phase);
        HaltedLater(outside, from, middle, called, history, r, executions[r].phase);
      }
    }

    /**
     * Whatever others do and whatever throws, an admitted run comes to its end. `failures` is what went wrong outside
     * the try block, in all its history: the run ends settled exactly when neither its first mutation nor its catch's
     * was rejected, and its wipe empties the inbox exactly when the first mutation was not rejected and the removal did
     * not fail. `stop` is where its history shows it was led to the catch, if it was: by a denial, a cancellation, a
     * refusal, or a call that throws, the only one in the try block. Each failure is a call that throws, in its place.
     */
    method ExecuteRun(r: string, outside: Outside) returns (failures: set<Failure>, ghost stop: Option<nat>)
      requires Valid() && r in executions && executions[r].phase == Admitted && !executions[r].second
      requires Fitting(outside, executions[r].ownerId)
      modifies this
      ensures Valid() && start == old(start)
      ensures r in executions && Ended(executions[r].phase)
      ensures forall f :: f in failures <==> Suffered(history, r, f)
      ensures r in db.runs ==>
          (!Active(db.runs[r].status) <==> FirstMutation !in failures && CatchMutation !in failures)
      ensures Wiped(executions[r].phase) <==> FirstMutation !in failures && FinalRemoval !in failures
      ensures Wiped(executions[r].phase) ==> FilesOf(inboxes, executions[r].agentId) == map[]
      ensures stop.Some? ==> |old(history)| <= stop.value && StopsAt(start, history, stop.value, r)
      ensures Accounted(outside, old(called), called, failures, stop.Some?,
                        stop.Some? && IsThrow(history[stop.value].move))
    {
      hide Valid, Fitting, InboxesAfter, FilesOf, Suffered, StopsAt, Calls, Halted, Accounted, Active, FailuresOf;
      stop := None;
      var throws := Awaiting(r, outside);
      OneCall(outside, old(called));
      if throws.Some? {
        Proceed(r, Reject);
        RejectedIsAccounted(outside, old(called));
      } else {
        Proceed(r, Begin);
        Attempt(r, outside);
        HaltedLater(outside, old(called), old(called) + 1, called, history, r, executions[r].phase);
        stop := CatchAndWipe(r, outside, old(called));
      }
      failures := FailuresOf(executions[r].phase);
      EndIsRecorded(r);
    }

    /** The catch, if the run came to it, and the final removal. */
    method CatchAndWipe(r: string, outside: Outside, ghost from: nat) returns (ghost stop: Option<nat>)
      requires Valid() && r in executions && (executions[r].phase.Ending? || executions[r].phase == Wiping(true))
      requires outside.throws(from).None? && from < called
      requires Halted(outside, from, called, history, r, executions[r].phase)
      modifies this
      ensures Valid() && start == old(start) && r in executions && executions[r].phase.Done?
      ensures Wiped(executions[r].phase) ==> FilesOf(inboxes, executions[r].agentId) == map[]
      ensures stop.Some? ==> |old(history)| <= stop.value + 1 && StopsAt(start, history, stop.value, r)
      ensures Accounted(outside, from, called, FailuresOf(executions[r].phase), stop.Some?,
                        stop.Some? && IsThrow(history[stop.value].move))
    {
      hide Valid, FilesOf, StopsAt, Halted, Accounted, FailuresOf, Calls;
      stop := None;
      ghost var middle, before, led := called, history, executions[r].phase;
      if executions[r].phase.Ending? {
        HaltedLast(outside, from, called, history, r, led);
        StopHere(r);
        stop := Some(|history| - 1);
        Settle(r, outside);
        Wipe(r, outside);
        StopStays(start, before, history, stop.value, r);
        CaughtIsAccounted(outside, from, middle, before, r, led, executions[r].phase);
      } else {
        Wipe(r, outside);
        UncaughtIsAccounted(outside, from, middle, before, r, led, executions[r].phase);
      }
    }

    lemma StopHere(r: string)
      requires Valid() && r in executions && executions[r].phase.Ending?
      requires history != [] && IsMoveOf(history[|history| - 1], r)
      ensures StopsAt(start, history, |history| - 1, r)
    {
      LastStops(start, history, State(), r);
      hide *;
    }

    /** The catch's mutation. */
    method Settle(r: string, outside: Outside)
      requires Valid() && r in executions && executions[r].phase.Ending?
      modifies this
      ensures Valid() && start == old(start) && r in executions && old(history) <= history && called == old(called) + 1
      ensures executions[r].phase == Wiping(outside.throws(old(called)).None?)
    {
      hide Valid, InboxesAfter;
      var throws := Awaiting(r, outside);
      Proceed(r, if throws.Some? then SettleFails else Move.Settle);
    }

    /** The final removal. */
    method Wipe(r: string, outside: Outside)
      requires Valid() && r in executions && executions[r].phase.Wiping?
      modifies this
      ensures Valid() && start == old(start) && r in executions && old(history) <= history && called == old(called) + 1
      ensures executions[r].phase == Done(old(executions[r]).phase.settled, outside.throws(old(called)).None?)
      ensures Wiped(executions[r].phase) ==> FilesOf(inboxes, executions[r].agentId) == map[]
    {
      hide Valid, InboxesAfter, FilesOf;
      var call := called;
      var throws := Awaiting(r, outside);
      label before:
      if throws.Some? {
        Proceed(r, WipeFails(outside.kept(call)));
      } else {
        Proceed(r, Move.Wipe);
        WipeMove(old@before(State()), r, old@before(executions[r]));
      }
    }

    lemma EndIsRecorded(r: string)
      requires Valid() && r in executions && Ended(executions[r].phase)
      ensures forall f :: f in FailuresOf(executions[r].phase) <==> Suffered(history, r, f)
      ensures r in db.runs ==> (!Active(db.runs[r].status) <==>
          FirstMutation !in FailuresOf(executions[r].phase) && CatchMutation !in FailuresOf(executions[r].phase))
      ensures Wiped(executions[r].phase) <==>
          FirstMutation !in FailuresOf(executions[r].phase) && FinalRemoval !in FailuresOf(executions[r].phase)
    {
      EndsAsRecorded(start, history, State(), r);
      PhaseIsRecorded(start, history, State(), r);
      PhaseTells(executions[r].phase, history, r);
      hide Serves, Suffered, FailuresOf, RunHistory.Recorded, Ended, Wiped;
    }

    /** Refused for an agent that is gone, stopped or busy; otherwise the run is admitted and the agent busy with it. */
    method SendMessage(agentId: string, runId: string) returns (refused: bool)
      requires Valid() && FreshRun(State(), runId)
      modifies this
      ensures Valid() && start == old(start)
      ensures refused <==>
        || agentId !in old(db.agents)
        || old(db.agents)[agentId].status == Stopped || old(db.agents)[agentId].status == Busy
      ensures refused ==> State() == old(State())
      ensures !refused ==>
        && runId in executions && executions[runId] == NewExec(agentId, old(db.agents)[agentId].ownerId)
        && agentId in db.agents && db.agents[agentId].status == Busy
        && runId in db.runs && db.runs[runId] == RunRow(agentId, AgentDatabase.Queued, 0, [])
        && db.messages == old(db.messages) + [Message(agentId, runId, User)]
    {
      SendAdmits(State(), agentId, runId);
      hide Valid, Step;
      var done := Happen(Send(agentId, runId));
      refused := !done;
    }

    /** Starting is refused for a busy agent, stopping is not. */
    method SetStatus(agentId: string, stop: bool) returns (refused: bool)
      requires Valid()
      modifies this
      ensures Valid() && start == old(start)
      ensures refused <==> agentId !in old(db.agents) || (!stop && old(db.agents)[agentId].status == Busy)
      ensures refused ==> State() == old(State())
      ensures !refused ==> db == WithStatus(old(db), agentId, if stop then Stopped else Ready)
      ensures executions == old(executions)
    {
      hide Valid, HasActiveRun;
      var done := Happen(if stop then StopAgent(agentId) else StartAgent(agentId));
      refused := !done;
    }
  }

  lemma SendAdmits(w: World, a: string, r: string)
    requires FreshRun(w, r)
    ensures Step(w, Send(a, r)).Some?
       <==> a in w.db.agents && w.db.agents[a].status != Stopped && w.db.agents[a].status != Busy
    ensures Step(w, Send(a, r)).Some? ==>
        var after := Step(w, Send(a, r)).value;
        && r in after.execs && after.execs[r] == NewExec(a, w.db.agents[a].ownerId)
        && a in after.db.agents && after.db.agents[a].status == Busy
        && r in after.db.runs && after.db.runs[r] == RunRow(a, AgentDatabase.Queued, 0, [])
        && after.db.messages == w.db.messages + [Message(a, r, User)]
  {
    hide NewExec;
  }

  /** What an ended execution's phase says went wrong. */
  function FailuresOf(phase: Phase): set<Failure>
    requires Ended(phase)
  {
    if phase.Aborted? then {FirstMutation}
    else (if phase.settled then {} else {CatchMutation}) + (if phase.wiped then {} else {FinalRemoval})
  }

  lemma PhaseTells(phase: Phase, events: seq<Event>, r: string)
    requires Ended(phase)
    requires RunHistory.Recorded(phase, Suffered(events, r, FirstMutation), Suffered(events, r, CatchMutation),
                                 Suffered(events, r, FinalRemoval))
    ensures forall f :: f in FailuresOf(phase) <==> Suffered(events, r, f)
  {
    hide Suffered;
    forall f
      ensures f in FailuresOf(phase) <==> Suffered(events, r, f)
    {
      match f
      case FirstMutation =>
      case CatchMutation =>
      case FinalRemoval =>
    }
  }

  lemma RejectedIsAccounted(outside: Outside, from: nat)
    requires outside.throws(from).Some?
    ensures Accounted(outside, from, from + 1, FailuresOf(Aborted), false, false)
  {
  }

  lemma CaughtIsAccounted(outside: Outside, from: nat, middle: nat, history: seq<Event>, r: string, phase: Phase,
                          end: Phase)
    requires outside.throws(from).None? && from < middle && Halted(outside, from, middle, history, r, phase)
    requires phase.Ending?
    requires end == Done(outside.throws(middle).None?, outside.throws(middle + 1).None?)
    ensures Accounted(outside, from, middle + 2, FailuresOf(end), true, IsThrow(history[|history| - 1].move))
  {
    hide Calls;
  }

  lemma UncaughtIsAccounted(outside: Outside, from: nat, middle: nat, history: seq<Event>, r: string, phase: Phase,
                            end: Phase)
    requires outside.throws(from).None? && from < middle && Halted(outside, from, middle, history, r, phase)
    requires !phase.Ending?
    requires end == Done(true, outside.throws(middle).None?)
    ensures Accounted(outside, from, middle + 1, FailuresOf(end), false, false)
  {
    hide Calls;
  }

  lemma ClearingMoves(w: World, r: string, move: Move)
    requires r in w.execs && w.execs[r].phase == Judged
    requires move == ClearInbox || (move.ClearFails? && w.execs[r].agentId !in w.cancelling)
    ensures Advance(w, r, w.execs[r], move).Some?
  {
    hide OthersHaveEnded;
  }

  lemma AnsweringMoves(w: World, r: string, move: Move)
    requires r in w.execs && w.execs[r].phase == Waiting
    requires move == if HoldsDataCard(w, w.execs[r]) then SeeGrant else SeeRefusal
    requires HoldsDataCard(w, w.execs[r]) || w.execs[r].agentId in w.denials
    ensures Advance(w, r, w.execs[r], move).Some?
  {
    hide HoldsDataCard;
  }

  lemma AnswerTakesEffect(w: World, r: string, granted: bool)
    requires r in w.execs && w.execs[r].phase == Waiting
    requires granted == HoldsDataCard(w, w.execs[r]) && (granted || w.execs[r].agentId in w.denials)
    ensures var next := Step(w, Do(r, if granted then SeeGrant else SeeRefusal));
      && next.Some? && r in next.value.execs
      && next.value.execs[r] == w.execs[r].(phase := if granted then Idle else Ending(false))
      && granted == HoldsDataCard(next.value, next.value.execs[r])
  {
    hide Step, Advance, HoldsDataCard, DoMove;
    var move := if granted then SeeGrant else SeeRefusal;
    AnsweringMoves(w, r, move);
    MovesAre(w, r, move);
    Leads(w, r, w.execs[r], move);
    SameHolding(w, r, move);
  }

  /** Seeing a card does not change the cards. */
  lemma SameHolding(w: World, r: string, move: Move)
    requires r in w.execs && !move.TakeCard? && Advance(w, r, w.execs[r], move).Some?
    ensures var after := DoMove(w, r, move); HoldsDataCard(after, after.execs[r]) == HoldsDataCard(w, w.execs[r])
    ensures Step(w, Do(r, move)) == Some(DoMove(w, r, move))
  {
    hide Advance, LiveFor, DbAfter, InboxesAfter, DenialsAfter, Apply, Step;
    AgentIsKept(w, r, w.execs[r], move);
    StepIsMove(w, r, move);
  }

  lemma StepIsMove(w: World, r: string, move: Move)
    requires r in w.execs && Advance(w, r, w.execs[r], move).Some?
    ensures Step(w, Do(r, move)) == Some(DoMove(w, r, move))
  {
    hide Advance, DoMove;
  }

  lemma PassIsRecorded(start: World, events: seq<Event>, w: World, r: string)
    requires Serves(start, events, w) && r in w.execs && PassStands(w.execs[r].phase)
    ensures var e := w.execs[r];
      && e.withheld + |e.permitted| == |e.listing|
      && (r in w.db.runs ==> w.db.runs[r].stagedResources == e.permitted && w.db.runs[r].withheldCount == e.withheld)
  {
    ServedIsGood(start, events, w);
    assert ExecOk(r, w.execs[r]) && RowOk(w.db, r, w.execs[r]);
    hide Serves, Referential, Conversational, Sound, BusyOk, InboxOk, LatestOk, AllowedNames, InNamespace;
  }

  /** Launching after a first pass that staged something; or after a wait: with a second pass if it brought a card, and
      otherwise with nothing. */
  ghost predicate MayLaunch(start: World, history: seq<Event>, wait: Wait, r: string, e: Exec, outside: Outside)
    requires e.second ==> Stood(start, history, wait, r, outside.waitMs)
  {
    && e.phase == Launching
    && if !e.second then e.permitted != [] && e.listing == outside.listing(0)
       else if Brought(start, history, wait, r, outside.waitMs) then e.listing == outside.listing(1)
       else e.permitted == [] && e.listing == outside.listing(0)
  }

  /** What a pass that came to its end leaves. */
  predicate PassedOver(e: Exec, listing: seq<ResourceRef>, second: bool, db: Database, r: string) {
    && e.listing == listing && e.second == second
    && e.phase == (if second || e.permitted != [] then Launching else Empty)
    && e.withheld + |e.permitted| == |listing|
    && (r in db.runs ==> db.runs[r].stagedResources == e.permitted && db.runs[r].withheldCount == e.withheld)
  }

  lemma StepMoves(w: World, r: string, move: Move)
    requires r in w.execs && Advance(w, r, w.execs[r], move).Some?
    ensures Step(w, Do(r, move)).Some?
    ensures var after := Step(w, Do(r, move)).value;
      r in after.execs && Some(after.execs[r]) == Advance(w, r, w.execs[r], move)
        && after.inboxes == InboxesAfter(w, w.execs[r], move)
  {
    hide Advance, DbAfter, InboxesAfter, DenialsAfter, Apply;
  }

  lemma MovesAre(w: World, r: string, move: Move)
    requires r in w.execs
    ensures Step(w, Do(r, move)).Some? <==> Advance(w, r, w.execs[r], move).Some?
    ensures Advance(w, r, w.execs[r], move).Some? ==>
        Step(w, Do(r, move)).value.execs == w.execs[r := Advance(w, r, w.execs[r], move).value]
  {
    hide Advance, DbAfter, InboxesAfter, DenialsAfter, Apply;
  }

  predicate OnPass(e: Exec, listing: seq<ResourceRef>, next: nat, second: bool) {
    e.phase == Passing(next) && e.listing == listing && e.second == second
  }

  lemma InTryMayThrow(e: Exec, cancelled: bool)
    requires InTry(e.phase)
    ensures Awaits(e, Throw(cancelled))
  {
  }
}
