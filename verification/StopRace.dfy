/** Reachable states in which a stop under a run has let a second run of the agent in beside the first. */
module StopRace {
  import opened Wrappers
  import opened KeycardHistory
  import opened AgentDatabase
  import opened RunProtocol
  import opened RunInvariants
  import opened RunSafety
  import opened WipeRace

  /**
   * What reaches the database behind a run's admission. A stop awaits only a run it finds registered, and a run is
   * registered when its admission has committed; so the stop's mutation can be queued behind the admission, with a
   * start and a second message behind it, before the first run's first step.
   */
  function Queue(c: Cast, r1: string, r2: string): seq<Event> {
    [Send(c.agentId, r1), StopAgent(c.agentId), StartAgent(c.agentId), Send(c.agentId, r2)]
  }

  /** Both runs admitted, neither has moved. */
  lemma BothAdmitted(start: World, w0: World, c: Cast, r1: string, r2: string, id: string) returns (two: World)
    requires Reachable(start, w0) && Scene(w0, c) && w0.db.agents[c.agentId].status == Ready && r1 != r2
    requires w0.execs == map[] && w0.db.runs == map[] && w0.used == {}
    ensures Reached(w0, Queue(c, r1, r2)) == Some(two) && Reachable(start, two) && two.cards == w0.cards
    ensures Underway(two, two, c, r1, id, NewExec(c.agentId, c.ownerId))
    ensures two.execs.Keys == {r1, r2} && two.execs[r2] == NewExec(c.agentId, c.ownerId) && r2 in two.db.runs
    ensures r2 in two.used
  {
    hide *;
    SendIsAdmitted(start, w0, c, r1, id);
    var admitted := Step(w0, Send(c.agentId, r1)).value;
    UnderwayShows(w0, admitted, c, r1, id, NewExec(c.agentId, c.ownerId));
    Restarts(start, admitted, c);
    var started := Step(Step(admitted, StopAgent(c.agentId)).value, StartAgent(c.agentId)).value;
    SendIsAdmitted(start, started, c, r2, id);
    two := Step(started, Send(c.agentId, r2)).value;
    UnderwayShows(started, two, c, r2, id, NewExec(c.agentId, c.ownerId));
    StillAdmitted(started, two, c, r2, id, NewExec(c.agentId, c.ownerId), r1, id);
    FourEvents(w0, Send(c.agentId, r1), StopAgent(c.agentId), StartAgent(c.agentId), Send(c.agentId, r2));
    QueueIs(c, r1, r2);
  }

  lemma QueueIs(c: Cast, r1: string, r2: string)
    ensures Queue(c, r1, r2) == [Send(c.agentId, r1), StopAgent(c.agentId), StartAgent(c.agentId), Send(c.agentId, r2)]
  {
  }

  /** Stopped under its run and started again, the agent is ready for another. */
  lemma Restarts(start: World, w: World, c: Cast)
    requires Reachable(start, w) && Scene(w, c)
    ensures Step(w, StopAgent(c.agentId)).Some?
    ensures var stopped := Step(w, StopAgent(c.agentId)).value;
      && Step(stopped, StartAgent(c.agentId)).Some?
      && var again := Step(stopped, StartAgent(c.agentId)).value;
         && Reachable(start, again) && Scene(again, c) && again.db.agents[c.agentId].status == Ready
         && again == w.(db := again.db, disturbed := again.disturbed) && again.db.runs == w.db.runs
  {
    hide Possible, HasCard, Reachable, HasActiveRun;
    Continue(start, w, StopAgent(c.agentId));
    Continue(start, Step(w, StopAgent(c.agentId)).value, StartAgent(c.agentId));
  }

  lemma FourEvents(w: World, a: Event, b: Event, c: Event, d: Event)
    requires Step(w, a).Some? && Step(Step(w, a).value, b).Some? && Step(Step(Step(w, a).value, b).value, c).Some?
    ensures Reached(w, [a, b, c, d]) == Step(Step(Step(Step(w, a).value, b).value, c).value, d)
  {
    hide Step;
    assert [a, b, c, d][..3] == [a, b, c] && [a, b, c][..2] == [a, b] && [a, b][..1] == [a] && [a][..0] == [];
    assert Reached(w, []) == Some(w);
    assert Reached(w, [a]) == Step(w, a);
    assert Reached(w, [a, b]) == Step(Step(w, a).value, b);
  }

  /** While one run moves, another that was admitted stays so. */
  lemma StillAdmitted(w0: World, w: World, c: Cast, r: string, id: string, e: Exec, q: string, other: string)
    requires Underway(w0, w, c, r, id, e) && q != r && q in w0.execs && w0.execs[q] == NewExec(c.agentId, c.ownerId)
    requires q in w0.db.runs && q in w0.used
    ensures Underway(w, w, c, q, other, NewExec(c.agentId, c.ownerId))
  {
    hide HasCard, Possible;
  }

  lemma ReachableIsGood(start: World, w: World)
    requires IsStart(start) && Reachable(start, w)
    ensures Good(w)
  {
    hide Good, IsStart, Reached;
    var events :| Reached(start, events) == Some(w);
    assert Serves(start, events, w);
    ServedIsGood(start, events, w);
  }

  lemma FreshStart(clock: int)
    ensures IsStart(StartUp(NO_DATABASE, clock, map[]))
  {
    StartsEmpty(clock);
    hide Referential, Conversational, StartUp;
  }

  lemma UnsettledIsActive(w: World, r: string)
    requires Good(w) && r in w.execs && r in w.db.runs && Unsettled(w.execs[r].phase)
    ensures Active(w.db.runs[r].status) && w.db.runs[r].agentId == w.execs[r].agentId
  {
    hide Referential, Conversational, Sound, ExecsOk, BusyOk, InboxOk, LatestOk;
  }

  /** Of two runs let in that way, the second clears the first's staged files away: the first launches with nothing,
      though no run of the agent has a wipe to do. The agent has two active runs. For every agent of every owner and
      every resource, from a fresh start, by steps of the first run and then of the second. */
  lemma ClearedBySecondRun(c: Cast, clock: int, r1: string, r2: string, id1: string, id2: string)
    returns (start: World, two: World, w1: World, w: World)
    requires Possible(c) && r1 != r2 && id1 != id2 && id1 != c.card && id2 != c.card
    ensures start == StartUp(NO_DATABASE, clock, map[]) && IsStart(start) && Reachable(start, Opening(c, clock))
    ensures Reached(Opening(c, clock), Queue(c, r1, r2)) == Some(two) && ByMoves(two, w1, r1) && ByMoves(w1, w, r2)
    ensures r1 in w.execs && w.execs[r1].agentId == c.agentId && w.execs[r1].phase == Launching
    ensures w.execs[r1].permitted == [c.ref.name] && w.execs[r1].quiet && FilesOf(w.inboxes, c.agentId) == map[]
    ensures forall q | q in w.execs :: !w.execs[q].phase.Wiping?
    ensures r1 in w.db.runs && r2 in w.db.runs && w.db.runs[r1].agentId == w.db.runs[r2].agentId == c.agentId
    ensures Active(w.db.runs[r1].status) && Active(w.db.runs[r2].status)
  {
    hide *;
    start := StartUp(NO_DATABASE, clock, map[]);
    FreshStart(clock);
    SetTheScene(c, clock);
    OpeningIsIdle(c, clock);
    two := BothAdmitted(start, Opening(c, clock), c, r1, r2, id1);
    var e1: Exec, e2: Exec;
    w1, e1 := Rehearses(two, two, c, r1, id1);
    UnderwayShows(two, w1, c, r1, id1, e1);
    StillAdmitted(two, w1, c, r1, id1, e1, r2, id2);
    w, e2 := Prepares(w1, w1, c, r2, id2);
    UnderwayShows(w1, w, c, r2, id2, e2);
    MovesReach(start, two, w1, r1);
    MovesReach(start, w1, w, r2);
    ReachableIsGood(start, w);
    AreUnsettled(e1, e2);
    UnsettledIsActive(w, r1);
    UnsettledIsActive(w, r2);
  }

  lemma AreUnsettled(e1: Exec, e2: Exec)
    requires e1.phase == Launching && e2.phase == Idle
    ensures Unsettled(e1.phase) && Unsettled(e2.phase)
  {
  }

  /** The second run can launch with a file in its inbox that was staged by the first. */
  lemma HoldsAnothersFile(c: Cast, clock: int, r1: string, r2: string, id1: string, id2: string)
    returns (start: World, two: World, w1: World, w2: World, w: World)
    requires Possible(c) && r1 != r2 && id1 != id2 && id1 != c.card && id2 != c.card
    ensures start == StartUp(NO_DATABASE, clock, map[]) && IsStart(start) && Reachable(start, Opening(c, clock))
    ensures Reached(Opening(c, clock), Queue(c, r1, r2)) == Some(two) && ByMoves(two, w1, r1) && ByMoves(w1, w2, r2)
    ensures Step(w2, Do(r1, Stage)) == Some(w)
    ensures r2 in w.execs && w.execs[r2].agentId == c.agentId && w.execs[r2].phase == Launching
    ensures var files := FilesOf(w.inboxes, c.agentId);
      c.ref.name in files && files[c.ref.name].Granted? && files[c.ref.name].grant.runId == r1
  {
    hide *;
    start := StartUp(NO_DATABASE, clock, map[]);
    FreshStart(clock);
    SetTheScene(c, clock);
    OpeningIsIdle(c, clock);
    two := BothAdmitted(start, Opening(c, clock), c, r1, r2, id1);
    var e1: Exec, e2: Exec;
    w1, e1 := Decides(two, two, c, r1, id1);
    UnderwayShows(two, w1, c, r1, id1, e1);
    StillAdmitted(two, w1, c, r1, id1, e1, r2, id2);
    w2, e2 := Rehearses(w1, w1, c, r2, id2);
    UnderwayShows(w1, w2, c, r2, id2, e2);
    MovesReach(start, two, w1, r1);
    MovesReach(start, w1, w2, r2);
    ReachableIsGood(start, w2);
    w := StagesLate(w2, r1, r2);
  }

  lemma StagesLate(w: World, q: string, r: string) returns (after: World)
    requires Good(w) && q in w.execs && r in w.execs && q != r && w.execs[q].phase.Staging?
    ensures Step(w, Do(q, Stage)) == Some(after) && r in after.execs && after.execs[r] == w.execs[r]
    ensures var name := w.execs[q].phase.grant.ref.name; var files := FilesOf(after.inboxes, w.execs[q].agentId);
      name in files && files[name].Granted? && files[name].grant.runId == q
  {
    hide Good, ExecOk, Advance, InboxesAfter, FilesOf, DbAfter, DenialsAfter;
    ExecIsOk(w, q);
    StagesAtOnce(w, q, w.execs[q]);
    StageMove(w, q, w.execs[q]);
    after := DoMove(w, q, Stage);
  }

  lemma StagesAtOnce(w: World, r: string, e: Exec)
    requires e.phase.Staging?
    ensures Advance(w, r, e, Stage).Some?
  {
  }
}
