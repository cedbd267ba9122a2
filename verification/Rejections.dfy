/** Reachable states in which a disk that fails outside the try block has left a run unsettled or an inbox unwiped. */
module Rejections {
  import opened Wrappers
  import opened AgentDatabase
  import opened RunProtocol
  import opened RunInvariants
  import opened RunSafety
  import opened WipeRace

  /** One idle agent, and one file a crash left in its inbox. */
  function Before(agentId: string, ownerId: string, name: string, clock: int): World {
    StartUp(OneAgent(agentId, ownerId), clock, map[agentId := {name}])
  }

  function OneAgent(agentId: string, ownerId: string): Database {
    Database(map[agentId := AgentRow(ownerId, Ready)], map[], [])
  }

  lemma BeforeIsStart(agentId: string, ownerId: string, name: string, clock: int)
    ensures var start := Before(agentId, ownerId, name, clock);
      && IsStart(start) && Reachable(start, start)
      && start.db == OneAgent(agentId, ownerId) && start.execs == map[] && start.used == {}
      && FilesOf(start.inboxes, agentId) == map[name := Leftover]
  {
    var start := Before(agentId, ownerId, name, clock);
    assert Reached(start, []) == Some(start);
    assert Referential(OneAgent(agentId, ownerId)) && Conversational(OneAgent(agentId, ownerId));
    assert start.db.agents == map[agentId := AgentRow(ownerId, Ready)];
  }

  lemma Sent(start: World, agentId: string, ownerId: string, name: string, clock: int, r: string) returns (w: World)
    requires start == Before(agentId, ownerId, name, clock)
    ensures Reachable(start, w) && w.execs == map[r := NewExec(agentId, ownerId)] && r in w.db.runs
    ensures w.db.runs[r].status == Queued
    ensures agentId in w.db.agents && w.db.agents[agentId].status == Busy
    ensures FilesOf(w.inboxes, agentId) == map[name := Leftover]
  {
    BeforeIsStart(agentId, ownerId, name, clock);
    hide Before, IsStart, Reachable, FilesOf;
    w := Step(start, Send(agentId, r)).value;
    Continue(start, start, Send(agentId, r));
  }

  /** Neither a message nor a start helps an agent that is busy. */
  lemma BusyIsStuck(w: World, agentId: string)
    requires agentId in w.db.agents && w.db.agents[agentId].status == Busy
    ensures Step(w, StartAgent(agentId)).None? && forall runId :: Step(w, Send(agentId, runId)).None?
  {
  }

  /** The first mutation is rejected: the run stays queued, its agent busy with nothing, and what was in the inbox
      stays. */
  lemma RejectedAtOnce(agentId: string, ownerId: string, name: string, clock: int, r: string)
    returns (start: World, w: World)
    ensures start == Before(agentId, ownerId, name, clock) && IsStart(start) && Reachable(start, w)
    ensures r in w.execs && w.execs[r].phase == Aborted && r in w.db.runs && w.db.runs[r].status == Queued
    ensures FilesOf(w.inboxes, agentId) == map[name := Leftover]
    ensures Step(w, StartAgent(agentId)).None? && forall runId :: Step(w, Send(agentId, runId)).None?
  {
    start := Before(agentId, ownerId, name, clock);
    BeforeIsStart(agentId, ownerId, name, clock);
    var sent := Sent(start, agentId, ownerId, name, clock, r);
    hide Before, IsStart, Reachable, FilesOf, Step;
    w := DoMove(sent, r, Reject);
    ContinueMove(start, sent, r, Reject);
    BusyIsStuck(w, agentId);
  }

  lemma Thrown(start: World, sent: World, r: string) returns (w: World)
    requires Reachable(start, sent) && r in sent.execs && sent.execs[r].phase == Admitted && r in sent.db.runs
    ensures Reachable(start, w) && r in w.execs && w.execs[r] == sent.execs[r].(phase := Ending(false))
    ensures r in w.db.runs && w.db.runs[r] == sent.db.runs[r].(status := Running)
    ensures w.db.agents == sent.db.agents && w.inboxes == sent.inboxes
  {
    hide Reachable, Step;
    ContinueMove(start, sent, r, Begin);
    var begun := DoMove(sent, r, Begin);
    ContinueMove(start, begun, r, Throw(false));
    w := DoMove(begun, r, Throw(false));
  }

  /** The catch's mutation is rejected: the run stays running and its agent busy. */
  lemma RejectedCatch(agentId: string, ownerId: string, name: string, clock: int, r: string)
    returns (start: World, w: World)
    ensures start == Before(agentId, ownerId, name, clock) && IsStart(start) && Reachable(start, w)
    ensures r in w.execs && w.execs[r].phase == Done(false, true) && r in w.db.runs && w.db.runs[r].status == Running
    ensures Step(w, StartAgent(agentId)).None? && forall runId :: Step(w, Send(agentId, runId)).None?
  {
    hide Before, IsStart, Reachable, FilesOf, Step;
    start := Before(agentId, ownerId, name, clock);
    BeforeIsStart(agentId, ownerId, name, clock);
    var sent := Sent(start, agentId, ownerId, name, clock, r);
    var thrown := Thrown(start, sent, r);
    ContinueMove(start, thrown, r, SettleFails);
    var unsettled := DoMove(thrown, r, SettleFails);
    ContinueMove(start, unsettled, r, Wipe);
    w := DoMove(unsettled, r, Wipe);
    BusyIsStuck(w, agentId);
  }

  lemma SettlesUnwiped(start: World, thrown: World, r: string, kept: set<string>) returns (w: World)
    requires Reachable(start, thrown) && r in thrown.execs && thrown.execs[r].phase == Ending(false)
    requires r in thrown.db.runs
    ensures Reachable(start, w) && r in w.execs && w.execs[r].phase == Done(true, false)
    ensures r in w.db.runs && w.db.runs[r].status == Failed
    ensures FilesOf(w.inboxes, thrown.execs[r].agentId) == Remaining(FilesOf(thrown.inboxes, thrown.execs[r].agentId),
                                                                     kept)
  {
    hide Reachable, Step, FilesOf, Remaining;
    ContinueMove(start, thrown, r, Settle);
    var settled := DoMove(thrown, r, Settle);
    ContinueMove(start, settled, r, WipeFails(kept));
    FailedRemoval(settled, r, settled.execs[r], WipeFails(kept));
    w := DoMove(settled, r, WipeFails(kept));
  }

  /** The final removal fails: the run is settled, and the file is still in the inbox. */
  lemma FailedWipe(agentId: string, ownerId: string, name: string, clock: int, r: string)
    returns (start: World, w: World)
    ensures start == Before(agentId, ownerId, name, clock) && IsStart(start) && Reachable(start, w)
    ensures r in w.execs && w.execs[r].phase == Done(true, false) && r in w.db.runs && w.db.runs[r].status == Failed
    ensures FilesOf(w.inboxes, agentId) == map[name := Leftover]
  {
    start := Before(agentId, ownerId, name, clock);
    BeforeIsStart(agentId, ownerId, name, clock);
    var sent := Sent(start, agentId, ownerId, name, clock, r);
    var thrown := Thrown(start, sent, r);
    hide Before, IsStart, Reachable, Step, FilesOf;
    w := SettlesUnwiped(start, thrown, r, {name});
  }
}
