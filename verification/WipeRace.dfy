/** A reachable state in which a run's staged files are gone when its model starts. */
module WipeRace {
  import opened Wrappers
  import opened ResourceUris
  import opened Scopes
  import opened ScopeLaws
  import opened Policy
  import opened Keycards
  import opened KeycardHistory
  import opened ResourceFiles
  import opened AccessGate
  import opened AgentDatabase
  import opened RunProtocol
  import opened RunInvariants

  ghost predicate Reachable(start: World, w: World) {
    exists events :: Reached(start, events) == Some(w)
  }

  lemma Continue(start: World, w: World, event: Event)
    requires Reachable(start, w) && Step(w, event).Some?
    ensures Reachable(start, Step(w, event).value)
  {
    hide Step;
    var events :| Reached(start, events) == Some(w);
    assert (events + [event])[..|events|] == events;
    assert Reached(start, events + [event]) == Some(Step(w, event).value);
  }

  lemma ContinueMove(start: World, w: World, r: string, move: Move)
    requires Reachable(start, w) && r in w.execs && Advance(w, r, w.execs[r], move).Some?
    ensures Reachable(start, DoMove(w, r, move))
  {
    hide Reachable, Advance, DoMove;
    Continue(start, w, Do(r, move));
  }

  /** `w` comes from `base` by steps of the run `r` alone. */
  ghost predicate ByMoves(base: World, w: World, r: string) {
    exists events :: Reached(base, events) == Some(w) && AllMovesOf(events, r)
  }

  predicate AllMovesOf(events: seq<Event>, r: string) {
    forall i | 0 <= i < |events| :: events[i].Do? && events[i].runId == r
  }

  lemma NoMove(w: World, r: string)
    ensures ByMoves(w, w, r)
  {
    assert Reached(w, []) == Some(w) && AllMovesOf([], r);
  }

  lemma OneMove(base: World, w: World, r: string, move: Move)
    requires ByMoves(base, w, r) && r in w.execs && Advance(w, r, w.execs[r], move).Some?
    ensures ByMoves(base, DoMove(w, r, move), r)
  {
    hide Advance, DoMove;
    var events :| Reached(base, events) == Some(w) && AllMovesOf(events, r);
    var more := events + [Do(r, move)];
    assert more[..|events|] == events;
    assert Step(w, Do(r, move)) == Some(DoMove(w, r, move));
    assert Reached(base, more) == Some(DoMove(w, r, move)) && AllMovesOf(more, r);
  }

  lemma MovesReach(start: World, base: World, w: World, r: string)
    requires Reachable(start, base) && ByMoves(base, w, r)
    ensures Reachable(start, w)
  {
    hide Reachable, Reached;
    var events :| Reached(base, events) == Some(w) && AllMovesOf(events, r);
    Onward(start, base, events);
  }

  lemma {:induction false} Onward(start: World, base: World, events: seq<Event>)
    requires Reachable(start, base) && Reached(base, events).Some?
    ensures Reachable(start, Reached(base, events).value)
  {
    hide Reachable, Step;
    if events != [] {
      Onward(start, base, events[..|events| - 1]);
      Continue(start, Reached(base, events[..|events| - 1]).value, events[|events| - 1]);
    }
  }

  /** An agent, a resource of its owner's, and the id of a card that allows the agent to read it. */
  datatype Cast = Cast(agentId: string, ownerId: string, ref: ResourceRef, card: string)

  predicate Possible(c: Cast) {
    IsOwner(c.ownerId) && c.agentId != "" && ':' !in c.agentId && Accepted(c.ref) && c.ref.ownerId == c.ownerId
  }

  ghost predicate HasCard(cards: StoreState, clock: int, c: Cast) {
    && c.agentId !in cards.suspended
    && Sound(cards)
    && c.card in cards.records && cards.records[c.card].agentId == c.agentId && Live(cards.records[c.card], clock)
    && Grants(cards.records[c.card].scope, "read", c.ref.uri)
  }

  ghost predicate Scene(w: World, c: Cast) {
    && Possible(c)
    && c.agentId in w.db.agents && w.db.agents[c.agentId].ownerId == c.ownerId
    && c.agentId !in w.cancelling
    && HasCard(w.cards, w.clock, c)
  }

  lemma RunCardAdds(cards: StoreState, agentId: string, ownerId: string, runId: string, id: string, clock: int)
    requires agentId !in cards.suspended
    ensures var after := Apply(cards, RunOp(agentId, ownerId, Some(runId), id, clock));
      && agentId !in after.suspended
      && after.records.Keys <= cards.records.Keys + {id}
      && (forall k | k in cards.records && k != id :: k in after.records && after.records[k] == cards.records[k])
  {
    hide CapabilityOwner, ExpectedScopeForOwner, NewRecord;
  }

  lemma RunCardKeepsCard(cards: StoreState, clock: int, c: Cast, runId: string, id: string)
    requires HasCard(cards, clock, c) && id !in cards.records
    ensures var after := Apply(cards, RunOp(c.agentId, c.ownerId, Some(runId), id, clock));
      HasCard(after, clock, c) && after.records.Keys <= cards.records.Keys + {id}
  {
    ApplyIsSound(cards, RunOp(c.agentId, c.ownerId, Some(runId), id, clock));
    RunCardAdds(cards, c.agentId, c.ownerId, runId, id, clock);
    hide Apply, Grants, Sound;
  }

  lemma UnderwayShows(w0: World, w: World, c: Cast, r: string, id: string, e: Exec)
    requires Underway(w0, w, c, r, id, e)
    ensures e.agentId == c.agentId && e.ownerId == c.ownerId && w.disturbed == w0.disturbed
    ensures w.execs == w0.execs[r := e]
    ensures c.agentId in w.db.agents && w.db.agents[c.agentId].status == Busy && r in w.db.runs
    ensures w.db.runs.Keys == w0.db.runs.Keys + {r}
    ensures w.used == w0.used + {r} && w.cards.records.Keys <= w0.cards.records.Keys + {id}
    ensures Scene(w, c) && Accepted(c.ref) && c.ref.ownerId == c.ownerId
  {
    hide HasCard, Accepted, IsOwner;
  }

  /** `w` is `w0` with the cast's agent busy with its run `r`, which has come to `e`; at most the card `id` was minted,
      and nobody was disturbed. */
  ghost predicate Underway(w0: World, w: World, c: Cast, r: string, id: string, e: Exec) {
    && Scene(w, c) && w.clock == w0.clock && w.disturbed == w0.disturbed && w.cancelling == w0.cancelling
    && e.agentId == c.agentId && e.ownerId == c.ownerId
    && w.execs == w0.execs[r := e]
    && w.db.runs.Keys == w0.db.runs.Keys + {r} && w.used == w0.used + {r}
    && w.db.agents[c.agentId].status == Busy
    && w.cards.records.Keys <= w0.cards.records.Keys + {id}
  }

  lemma CardsAfter(w: World, r: string, c: Cast, id: string, move: Move)
    requires r in w.execs && w.execs[r].agentId == c.agentId && w.execs[r].ownerId == c.ownerId
    requires Advance(w, r, w.execs[r], move).Some? && HasCard(w.cards, w.clock, c)
    requires move.TakeCard? ==> move.id == id && id !in w.cards.records
    ensures var after := DoMove(w, r, move).cards;
      HasCard(after, w.clock, c) && after.records.Keys <= w.cards.records.Keys + {id}
  {
    hide HasCard, Advance, DbAfter, InboxesAfter, DenialsAfter;
    if move.TakeCard? {
      RunCardKeepsCard(w.cards, w.clock, c, r, id);
    }
    hide Apply;
  }

  lemma DbStays(w: World, r: string, move: Move, c: Cast)
    requires r in w.execs && w.execs[r].agentId == c.agentId && !Terminal(move) && c.agentId in w.db.agents
    ensures var after := DbAfter(w.db, r, w.execs[r], move);
      c.agentId in after.agents && after.agents[c.agentId] == w.db.agents[c.agentId]
        && after.runs.Keys == w.db.runs.Keys
  {
    DbStep(w.db, r, w.execs[r], move);
    hide DbAfter;
  }

  lemma Proceed(base: World, w0: World, w: World, c: Cast, r: string, id: string, e: Exec, move: Move)
    requires ByMoves(base, w, r) && Underway(w0, w, c, r, id, e)
    requires Advance(w, r, e, move).Some? && !move.Succeed? && !move.Settle?
    requires move.TakeCard? ==> move.id == id && id !in w.cards.records
    ensures var after := DoMove(w, r, move);
      && ByMoves(base, after, r) && Underway(w0, after, c, r, id, Advance(w, r, e, move).value)
      && r in after.execs && after.execs[r] == Advance(w, r, e, move).value
  {
    hide Possible, HasCard, Advance, DbAfter, Apply, InboxesAfter, DenialsAfter, ByMoves;
    AgentIsKept(w, r, e, move);
    CardsAfter(w, r, c, id, move);
    DbStays(w, r, move, c);
    OneMove(base, w, r, move);
  }

  lemma MayRun(w: World, c: Cast, r: string, id: string, e: Exec)
    requires Scene(w, c) && e.agentId == c.agentId && e.ownerId == c.ownerId
    ensures MayExecute(w, r, e, id)
  {
    assert EXECUTE != "";
    UnsuspendedRunIsPermitted(w.cards, c.agentId, c.ownerId, Some(r), id, w.clock, w.clock, EXECUTE);
    hide *;
    MayExecuteIs(w, r, e, id);
  }

  lemma MayExecuteIs(w: World, r: string, e: Exec, id: string)
    ensures var t := IssueForRun(w.cards, e.agentId, e.ownerId, Some(r), id, w.clock);
      MayExecute(w, r, e, id) <==>
        && t.Stored? && id in t.state.records
        && Decide(Request(Agent(e.agentId, e.ownerId), EXECUTE, BuildAgentResource(e.ownerId, e.agentId),
                          Some(t.state.records[id])), w.clock) == Permit
  {
    hide IssueForRun, Decide, BuildAgentResource;
  }

  lemma TakesCard(w: World, c: Cast, r: string, id: string, e: Exec)
    requires Scene(w, c) && e.phase == Started && e.agentId == c.agentId && e.ownerId == c.ownerId
    requires id !in w.cards.records
    ensures Advance(w, r, e, TakeCard(id)) == Some(e.(phase := Judged))
  {
    MayRun(w, c, r, id, e);
    hide Scene, MayExecute;
  }

  lemma CardOpens(w: World, c: Cast, e: Exec)
    requires Scene(w, c) && e.base == w.cards && e.since == w.clock && e.agentId == c.agentId && e.ownerId == c.ownerId
    ensures VerdictFor(w, e, c.ref) == Permit
  {
    assert LiveCardAllows(w.cards.records, c.agentId, c.ref.uri, w.clock);
    DecisionIsExact(w, e, c.ref);
    hide VerdictFor, LiveCardAllows, Accepted, IsOwner, HasCard, Sound;
  }

  lemma SameMoment(records: map<string, CapabilityRecord>, at: int, agentId: string)
    ensures SameCards(records, at, records, at, agentId)
  {
  }

  lemma StagesTheFile(w: World, c: Cast, r: string, e: Exec)
    requires Scene(w, c) && e.phase == Passing(0) && e.listing == [c.ref] && e.base == w.cards && e.since == w.clock
    requires e.quiet
    requires e.agentId == c.agentId && e.ownerId == c.ownerId
    ensures Advance(w, r, e, DecideNext).Some?
    ensures var after := Advance(w, r, e, DecideNext).value;
      after.phase.Staging? && after.phase.next == 0 && after.phase.grant.ref == c.ref
        && after == e.(phase := after.phase)
  {
    CardOpens(w, c, e);
    SameMoment(w.cards.records, w.clock, e.agentId);
    hide *;
    PermitStages(w, r, e);
    DecideNextIs(w, r, e);
  }

  lemma PermitStages(w: World, r: string, e: Exec)
    requires e.phase.Passing? && e.phase.next < |e.listing| && VerdictFor(w, e, e.listing[e.phase.next]) == Permit
    requires e.quiet && SameCards(e.base.records, e.since, w.cards.records, w.clock, e.agentId)
    ensures var after := Decided(w, r, e, e.phase.next);
      && after.phase.Staging? && after.phase.next == e.phase.next && after.phase.grant.ref == e.listing[e.phase.next]
      && after == e.(phase := after.phase)
  {
    hide VerdictFor, StagerOf, CardFor, Lookup, SameCards;
  }

  lemma DecideNextIs(w: World, r: string, e: Exec)
    requires e.phase.Passing? && e.phase.next < |e.listing|
    ensures Advance(w, r, e, DecideNext) == Some(Decided(w, r, e, e.phase.next))
  {
    hide Decided;
  }

  lemma SendIsAdmitted(start: World, w0: World, c: Cast, r: string, id: string)
    requires Reachable(start, w0) && Scene(w0, c) && w0.db.agents[c.agentId].status == Ready && r !in w0.execs
    requires r !in w0.db.runs && r !in w0.used
    ensures Step(w0, Send(c.agentId, r)).Some?
    ensures var w := Step(w0, Send(c.agentId, r)).value;
      Reachable(start, w) && Underway(w0, w, c, r, id, NewExec(c.agentId, c.ownerId)) && w.cards == w0.cards
  {
    hide Possible, HasCard, Reachable;
    Continue(start, w0, Send(c.agentId, r));
  }

  /** From its admission up to the cleared inbox. */
  lemma Prepares(w0: World, base: World, c: Cast, r: string, id: string) returns (w: World, e: Exec)
    requires Underway(w0, base, c, r, id, NewExec(c.agentId, c.ownerId)) && id !in base.cards.records
    ensures ByMoves(base, w, r) && Underway(w0, w, c, r, id, e)
    ensures e.phase == Idle && FilesOf(w.inboxes, c.agentId) == map[]
  {
    hide ByMoves, HasCard, Possible, MayExecute, OthersHaveEnded, DbAfter, InboxesAfter, DenialsAfter, Step;
    NoMove(base, r);
    w, e := base, NewExec(c.agentId, c.ownerId);
    Proceed(base, w0, w, c, r, id, e, Begin);
    BeginMintsNothing(w, r);
    w, e := DoMove(w, r, Begin), e.(phase := Started);
    TakesCard(w, c, r, id, e);
    hide DoMove;
    Proceed(base, w0, w, c, r, id, e, TakeCard(id));
    w, e := DoMove(w, r, TakeCard(id)), e.(phase := Judged);
    ClearsTheInbox(w, r, e);
    Proceed(base, w0, w, c, r, id, e, ClearInbox);
    w, e := DoMove(w, r, ClearInbox), Advance(w, r, e, ClearInbox).value;
  }

  lemma ClearsTheInbox(w: World, r: string, e: Exec)
    requires r in w.execs && w.execs[r] == e && e.phase == Judged && e.agentId !in w.cancelling
    ensures Advance(w, r, e, ClearInbox).Some? && FilesOf(DoMove(w, r, ClearInbox).inboxes, e.agentId) == map[]
  {
    hide OthersHaveEnded, DbAfter, DenialsAfter;
  }

  lemma BeginMintsNothing(w: World, r: string)
    requires r in w.execs && Advance(w, r, w.execs[r], Begin).Some?
    ensures DoMove(w, r, Begin).cards == w.cards
  {
  }

  lemma ListBase(w: World, r: string, e: Exec, ref: ResourceRef)
    requires e.phase == Idle && Accepted(ref) && ref.ownerId == e.ownerId && r in w.execs && w.execs[r] == e
    ensures var listed := e.(phase := Passing(0), listing := [ref], permitted := [], withheld := 0, base := w.cards,
                             since := w.clock, quiet := true);
      Advance(w, r, e, List([ref])) == Some(listed)
    ensures DoMove(w, r, List([ref])).cards == w.cards && DoMove(w, r, List([ref])).clock == w.clock
  {
    hide Accepted;
  }

  lemma StagesAndFinishes(w: World, r: string, e: Exec)
    requires e.phase.Staging? && e.phase.next == 0 && |e.listing| == 1 && e.permitted == []
    ensures var staged := e.(phase := Passing(1), permitted := [e.phase.grant.ref.name]);
      && Advance(w, r, e, Stage) == Some(staged)
      && forall after: World :: Advance(after, r, staged, FinishPass) == Some(staged.(phase := Launching))
  {
    assert e.permitted + [e.phase.grant.ref.name] == [e.phase.grant.ref.name];
  }

  /** From its admission until it has its one file permitted, and not yet staged. */
  lemma Decides(w0: World, base: World, c: Cast, r: string, id: string) returns (w: World, e: Exec)
    requires Underway(w0, base, c, r, id, NewExec(c.agentId, c.ownerId)) && id !in base.cards.records
    ensures ByMoves(base, w, r) && Underway(w0, w, c, r, id, e)
    ensures e.phase.Staging? && e.phase.next == 0 && e.phase.grant.ref == c.ref && |e.listing| == 1 && e.permitted == []
    ensures e.quiet
  {
    hide *;
    w, e := Prepares(w0, base, c, r, id);
    UnderwayShows(w0, w, c, r, id, e);
    ListBase(w, r, e, c.ref);
    Proceed(base, w0, w, c, r, id, e, List([c.ref]));
    w, e := DoMove(w, r, List([c.ref])), Advance(w, r, e, List([c.ref])).value;
    UnderwayShows(w0, w, c, r, id, e);
    StagesTheFile(w, c, r, e);
    Proceed(base, w0, w, c, r, id, e, DecideNext);
    w, e := DoMove(w, r, DecideNext), Advance(w, r, e, DecideNext).value;
  }

  /** From its admission until it is about to launch with its one file staged. */
  lemma Rehearses(w0: World, base: World, c: Cast, r: string, id: string) returns (w: World, e: Exec)
    requires Underway(w0, base, c, r, id, NewExec(c.agentId, c.ownerId)) && id !in base.cards.records
    ensures ByMoves(base, w, r) && Underway(w0, w, c, r, id, e)
    ensures e.phase == Launching && e.permitted == [c.ref.name] && e.quiet
  {
    hide *;
    w, e := Decides(w0, base, c, r, id);
    UnderwayShows(w0, w, c, r, id, e);
    StagesAndFinishes(w, r, e);
    Proceed(base, w0, w, c, r, id, e, Stage);
    w, e := DoMove(w, r, Stage), Advance(w, r, e, Stage).value;
    Proceed(base, w0, w, c, r, id, e, FinishPass);
    w, e := DoMove(w, r, FinishPass), Advance(w, r, e, FinishPass).value;
  }

  /** A run sent to a ready agent that comes to launch with its one file staged. */
  lemma Rehearse(start: World, w0: World, c: Cast, r: string, id: string) returns (base: World, w: World, e: Exec)
    requires Reachable(start, w0) && Scene(w0, c) && w0.db.agents[c.agentId].status == Ready
    requires r !in w0.execs && r !in w0.db.runs && r !in w0.used && id !in w0.cards.records
    ensures Reachable(start, base) && Reachable(start, w) && ByMoves(base, w, r) && Underway(w0, w, c, r, id, e)
    ensures e.phase == Launching && e.permitted == [c.ref.name] && e.quiet
  {
    hide *;
    SendIsAdmitted(start, w0, c, r, id);
    base := Step(w0, Send(c.agentId, r)).value;
    w, e := Rehearses(w0, base, c, r, id);
    MovesReach(start, base, w, r);
  }

  lemma Launches(w: World, r: string, e: Exec)
    requires e.phase == Launching && r in w.execs && w.execs[r] == e
    ensures Advance(w, r, e, Launch) == Some(e.(phase := Launched))
    ensures var after := DoMove(w, r, Launch);
      after == w.(execs := w.execs[r := e.(phase := Launched)])
  {
  }

  lemma Succeeds(w: World, r: string, e: Exec)
    requires e.phase == Launched && r in w.execs && w.execs[r] == e && r in w.db.runs && e.agentId in w.db.agents
    ensures Advance(w, r, e, Succeed) == Some(e.(phase := Wiping(true)))
    ensures var after := DoMove(w, r, Succeed);
      && after == w.(execs := w.execs[r := e.(phase := Wiping(true))], db := after.db)
      && after.db.runs.Keys == w.db.runs.Keys && after.db.agents.Keys == w.db.agents.Keys
      && after.db.agents[e.agentId] == w.db.agents[e.agentId].(status := Ready)
  {
  }

  lemma Wipes(w: World, r: string, e: Exec)
    requires e.phase.Wiping? && r in w.execs && w.execs[r] == e
    ensures Advance(w, r, e, Wipe).Some?
    ensures var after := DoMove(w, r, Wipe);
      && after == w.(execs := w.execs[r := e.(phase := Done(e.phase.settled, true))],
                     inboxes := w.inboxes - {e.agentId})
      && FilesOf(after.inboxes, e.agentId) == map[]
  {
  }

  /** Its answer frees the agent. */
  lemma Frees(start: World, w0: World, w: World, c: Cast, r: string, id: string, e: Exec)
    requires Reachable(start, w) && Underway(w0, w, c, r, id, e) && e.phase == Launched
    ensures Advance(w, r, e, Succeed).Some?
    ensures var after := DoMove(w, r, Succeed);
      && Reachable(start, after) && Scene(after, c) && after.db.agents[c.agentId].status == Ready
      && after.execs == w0.execs[r := e.(phase := Wiping(true))]
      && after.db.runs.Keys == w0.db.runs.Keys + {r} && after.used == w0.used + {r} && after.disturbed == w0.disturbed
      && after.cards.records.Keys <= w0.cards.records.Keys + {id}
  {
    hide Reachable, HasCard, Possible, DoMove, Advance, Step;
    Succeeds(w, r, e);
    ContinueMove(start, w, r, Succeed);
  }

  /** A first run that has answered, and has only its final wipe to do. */
  lemma Answers(start: World, w0: World, c: Cast, r: string, id: string) returns (w: World)
    requires Reachable(start, w0) && Scene(w0, c) && w0.db.agents[c.agentId].status == Ready
    requires r !in w0.execs && r !in w0.db.runs && r !in w0.used && id !in w0.cards.records
    ensures Reachable(start, w) && Scene(w, c) && w.db.agents[c.agentId].status == Ready
    ensures r in w.execs && w.execs[r].phase.Wiping? && w.execs[r].agentId == c.agentId
    ensures w.execs.Keys == w0.execs.Keys + {r} && w.db.runs.Keys == w0.db.runs.Keys + {r} && w.used == w0.used + {r}
    ensures w.disturbed == w0.disturbed
    ensures w.cards.records.Keys <= w0.cards.records.Keys + {id}
  {
    hide *;
    var base: World, e: Exec;
    base, w, e := Rehearse(start, w0, c, r, id);
    UnderwayShows(w0, w, c, r, id, e);
    Launches(w, r, e);
    Proceed(base, w0, w, c, r, id, e, Launch);
    w, e := DoMove(w, r, Launch), e.(phase := Launched);
    MovesReach(start, base, w, r);
    Frees(start, w0, w, c, r, id, e);
    w := DoMove(w, r, Succeed);
  }

  /** The first run's wipe, while the second waits to launch. */
  lemma WipesUnder(start: World, w: World, c: Cast, r1: string, r2: string)
    requires Reachable(start, w) && r1 in w.execs && r2 in w.execs && r1 != r2
    requires w.execs[r1].phase.Wiping? && w.execs[r1].agentId == c.agentId
    ensures Advance(w, r1, w.execs[r1], Wipe).Some?
    ensures var after := DoMove(w, r1, Wipe);
      && Reachable(start, after) && r2 in after.execs && after.execs[r2] == w.execs[r2]
      && after.disturbed == w.disturbed
      && FilesOf(after.inboxes, c.agentId) == map[]
  {
    hide Reachable, DoMove, Advance, Step;
    Wipes(w, r1, w.execs[r1]);
    ContinueMove(start, w, r1, Wipe);
  }

  /** The race: the first run answers, which frees the agent; a second is sent and stages its file; the first run's
      final wipe empties the inbox; the second run's model starts with nothing, though its file was permitted, no
      card changed and the agent was never stopped. */
  lemma LaunchedWithNothing(start: World, w0: World, c: Cast, r1: string, r2: string, id1: string, id2: string)
    returns (w: World)
    requires Reachable(start, w0) && Scene(w0, c) && w0.db.agents[c.agentId].status == Ready && r1 != r2 && id1 != id2
    requires c.agentId !in w0.disturbed
    requires r1 !in w0.execs && r1 !in w0.db.runs && r1 !in w0.used && id1 !in w0.cards.records
    requires r2 !in w0.execs && r2 !in w0.db.runs && r2 !in w0.used && id2 !in w0.cards.records
    ensures Reachable(start, w) && c.agentId !in w.disturbed
    ensures r2 in w.execs && w.execs[r2].agentId == c.agentId && w.execs[r2].phase == Launched
    ensures w.execs[r2].permitted == [c.ref.name] && w.execs[r2].quiet && FilesOf(w.inboxes, c.agentId) == map[]
  {
    hide *;
    var w1 := Answers(start, w0, c, r1, id1);
    var _, w2, e := Rehearse(start, w1, c, r2, id2);
    w := w2;
    UnderwayShows(w1, w, c, r2, id2, e);
    WipesUnder(start, w, c, r1, r2);
    w := DoMove(w, r1, Wipe);
    Launches(w, r2, e);
    ContinueMove(start, w, r2, Launch);
    w := DoMove(w, r2, Launch);
  }

  // ----- From a service that has just started

  /** The owner's own scope opens every resource of theirs for reading. */
  lemma DefaultScopeOpens(ref: ResourceRef)
    requires Accepted(ref)
    ensures IsOwner(ref.ownerId)
    ensures CapabilityOwner(DefaultRunScope(ref.ownerId)) == Some(ref.ownerId)
    ensures Grants(DefaultRunScope(ref.ownerId), "read", ref.uri)
  {
    hide *;
    AcceptedParts(ref);
    DefaultScopeParses(ref.ownerId);
    OwnerOfDefaultScope(ref.ownerId);
    NamesAreDots(ref.name);
    AnyNameMatchesStar(ref.name);
    NameIsKnown(Read);
    OpensWith(DefaultRunScope(ref.ownerId), ref);
  }

  lemma AcceptedParts(ref: ResourceRef)
    requires Accepted(ref)
    ensures IsOwner(ref.ownerId) && IsName(ref.name)
  {
    AcceptedIsCanonical(ref.uri);
    hide ParseResourceUri, IsOwner, IsName, PrintUri;
  }

  lemma OpensWith(scope: string, ref: ResourceRef)
    requires Accepted(ref) && ParseScope(scope) == Some(ParsedScope([Read], ref.ownerId, "*"))
    requires RegExpTest("*", ref.name)
    ensures Grants(scope, "read", ref.uri)
  {
    AllowsIffGranted(scope, "read", ref.uri);
    hide ParseScope, ParseResourceUri, RegExpTest, Grants;
  }

  const NO_DATABASE := Database(map[], map[], [])

  lemma StartsEmpty(clock: int)
    ensures Referential(NO_DATABASE) && Conversational(NO_DATABASE)
    ensures var start := StartUp(NO_DATABASE, clock, map[]);
      && start == World(NO_DATABASE, EMPTY_STORE, clock, map[], map[], {}, map[], map[], {}, {})
      && Reachable(start, start)
  {
    var start := StartUp(NO_DATABASE, clock, map[]);
    assert Reached(start, []) == Some(start);
  }

  /** The start, with an agent just made that holds a fresh card for everything its owner has. */
  function Opening(c: Cast, clock: int): World {
    World(NO_DATABASE.(agents := map[c.agentId := AgentRow(c.ownerId, Ready)]), Apply(EMPTY_STORE, OpeningOp(c, clock)),
          clock, map[], map[], {}, map[], map[], {}, {})
  }

  function OpeningOp(c: Cast, clock: int): Op {
    IssueOp(IssueInput(c.agentId, c.ownerId, DefaultRunScope(c.ownerId), None, None), c.card, clock)
  }

  lemma IssueAdds(cards: StoreState, input: IssueInput, id: string, now: int)
    requires CapabilityOwner(input.scope) == Some(input.ownerId)
    ensures Apply(cards, IssueOp(input, id, now))
         == StoreState(cards.records[id := NewRecord(input, id, now)], cards.order + [id],
                       cards.suspended - {input.agentId})
  {
    hide CapabilityOwner, NewRecord;
  }

  lemma OpeningCardIsHeld(c: Cast, clock: int)
    requires CapabilityOwner(DefaultRunScope(c.ownerId)) == Some(c.ownerId)
    requires Grants(DefaultRunScope(c.ownerId), "read", c.ref.uri)
    ensures var cards := Apply(EMPTY_STORE, OpeningOp(c, clock));
      HasCard(cards, clock, c) && cards.records.Keys == {c.card}
  {
    hide CapabilityOwner, Grants, DefaultRunScope, Sound, Apply;
    EmptyIsSound();
    ApplyIsSound(EMPTY_STORE, OpeningOp(c, clock));
    IssueAdds(EMPTY_STORE, OpeningOp(c, clock).input, c.card, clock);
  }

  lemma EmptyIsSound()
    ensures Sound(EMPTY_STORE)
  {
  }

  lemma FirstSteps(c: Cast, clock: int)
    ensures var start := World(NO_DATABASE, EMPTY_STORE, clock, map[], map[], {}, map[], map[], {}, {});
      && Step(start, NewAgent(c.agentId, c.ownerId)).Some?
      && var made := Step(start, NewAgent(c.agentId, c.ownerId)).value;
         Step(made, Keycard(OpeningOp(c, clock))) == Some(Opening(c, clock))
  {
    hide Apply, DefaultRunScope;
  }

  lemma SetTheScene(c: Cast, clock: int)
    requires Possible(c)
    ensures Reachable(StartUp(NO_DATABASE, clock, map[]), Opening(c, clock)) && Scene(Opening(c, clock), c)
    ensures Opening(c, clock).cards.records.Keys == {c.card}
  {
    DefaultScopeOpens(c.ref);
    OpeningCardIsHeld(c, clock);
    FirstSteps(c, clock);
    StartsEmpty(clock);
    hide Possible, HasCard, Apply, DefaultRunScope, CapabilityOwner, Grants, Step, StartUp, Reachable,
         Conversational, Referential;
    var start := StartUp(NO_DATABASE, clock, map[]);
    Continue(start, start, NewAgent(c.agentId, c.ownerId));
    Continue(start, Step(start, NewAgent(c.agentId, c.ownerId)).value, Keycard(OpeningOp(c, clock)));
  }

  lemma OpeningIsIdle(c: Cast, clock: int)
    ensures var w := Opening(c, clock);
      && w.execs == map[] && w.db.runs == map[] && w.used == {} && w.disturbed == {} && c.agentId in w.db.agents
      && w.db.agents[c.agentId].status == Ready
  {
    hide Apply;
  }

  /** The race can be reached for every agent of every owner and every resource, from a service that has just
      started. */
  lemma RaceIsReachable(c: Cast, clock: int, r1: string, r2: string, id1: string, id2: string)
    returns (start: World, w: World)
    requires Possible(c) && r1 != r2 && id1 != id2 && id1 != c.card && id2 != c.card
    ensures start == StartUp(NO_DATABASE, clock, map[]) && Referential(NO_DATABASE) && Conversational(NO_DATABASE)
    ensures Reachable(start, w) && c.agentId !in w.disturbed
    ensures r2 in w.execs && w.execs[r2].agentId == c.agentId && w.execs[r2].phase == Launched
    ensures w.execs[r2].permitted == [c.ref.name] && w.execs[r2].quiet && FilesOf(w.inboxes, c.agentId) == map[]
  {
    hide *;
    start := StartUp(NO_DATABASE, clock, map[]);
    StartsEmpty(clock);
    SetTheScene(c, clock);
    OpeningIsIdle(c, clock);
    w := LaunchedWithNothing(start, Opening(c, clock), c, r1, r2, id1, id2);
  }
}
