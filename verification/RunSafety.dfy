/** What holds of the run protocol whatever the interleaving of owners, requests and runs. */
module RunSafety {
  import opened Wrappers
  import opened Policy
  import opened Keycards
  import opened KeycardHistory
  import opened AccessGate
  import opened AgentDatabase
  import opened RunProtocol
  import opened RunInvariants

  /** The service started on some stored database, with whatever files were left in the inboxes. */
  ghost predicate IsStart(w: World) {
    exists db, clock, inboxes :: Referential(db) && Conversational(db) && w == StartUp(db, clock, inboxes)
  }

  /** `w` is a state the service can come to. */
  ghost predicate Serves(start: World, events: seq<Event>, w: World) {
    IsStart(start) && Reached(start, events) == Some(w)
  }

  lemma ServedIsGood(start: World, events: seq<Event>, w: World)
    requires Serves(start, events, w)
    ensures Good(w)
  {
    hide Good, Reached, Referential, Conversational, StartUp;
    var db, clock, inboxes :| Referential(db) && Conversational(db) && start == StartUp(db, clock, inboxes);
    StartUpIsGood(db, clock, inboxes);
    ReachedIsGood(start, events);
  }

  // ----- Stopping or deleting an agent under its run

  ghost predicate RestedAt(start: World, events: seq<Event>, agentId: string, i: nat)
    requires i < |events|
  {
    && (events[i] == StopAgent(agentId) || events[i] == DeleteAgent(agentId))
    && Reached(start, events[..i]).Some? && HasActiveRun(Reached(start, events[..i]).value.db, agentId)
  }

  /** At some point a stop or a delete of the agent committed while one of its runs was active. */
  ghost predicate RestedUnderRun(start: World, events: seq<Event>, agentId: string) {
    exists i | 0 <= i < |events| :: RestedAt(start, events, agentId, i)
  }

  lemma DisturbingStep(w: World, event: Event, agentId: string)
    requires Step(w, event).Some?
    ensures agentId in Step(w, event).value.disturbed
       <==> || agentId in w.disturbed
            || ((event == StopAgent(agentId) || event == DeleteAgent(agentId)) && HasActiveRun(w.db, agentId))
  {
    hide HasActiveRun, Advance, Apply, FreshId, FreshAgent, DbAfter, InboxesAfter, DenialsAfter;
  }

  lemma RestedInLonger(start: World, events: seq<Event>, agentId: string)
    requires events != []
    ensures var init := events[..|events| - 1];
      RestedUnderRun(start, events, agentId) <==>
        RestedUnderRun(start, init, agentId) || RestedAt(start, events, agentId, |events| - 1)
  {
    hide Reached, HasActiveRun;
    var init := events[..|events| - 1];
    forall i | 0 <= i < |init|
      ensures init[..i] == events[..i] && init[i] == events[i]
    {
    }
    if RestedUnderRun(start, init, agentId) {
      var i :| 0 <= i < |init| && RestedAt(start, init, agentId, i);
      assert RestedAt(start, events, agentId, i);
    }
    if RestedUnderRun(start, events, agentId) {
      var i :| 0 <= i < |events| && RestedAt(start, events, agentId, i);
      assert i < |init| ==> RestedAt(start, init, agentId, i);
    }
  }

  /** `disturbed` is exactly the agents stopped or deleted under a run. */
  lemma {:induction false} DisturbedIff(start: World, events: seq<Event>, agentId: string)
    requires start.disturbed == {} && Reached(start, events).Some?
    ensures agentId in Reached(start, events).value.disturbed <==> RestedUnderRun(start, events, agentId)
  {
    hide Step, HasActiveRun, RestedUnderRun;
    if events == [] {
      assert !RestedUnderRun(start, events, agentId) by { NothingRested(start, agentId); }
    } else {
      DisturbedIff(start, events[..|events| - 1], agentId);
      DisturbingStep(Reached(start, events[..|events| - 1]).value, events[|events| - 1], agentId);
      RestedInLonger(start, events, agentId);
    }
  }

  lemma NothingRested(start: World, agentId: string)
    ensures !RestedUnderRun(start, [], agentId)
  {
  }

  /** All the agent's executions have ended, settled. */
  predicate AllOver(w: World, agentId: string) {
    forall r | r in w.execs && w.execs[r].agentId == agentId :: Ended(w.execs[r].phase) && !Unsettled(w.execs[r].phase)
  }

  /** At the `j`-th event the agent's executions were all over, and it was not stopped or deleted under a run since. */
  ghost predicate CalmSince(start: World, events: seq<Event>, agentId: string, j: nat)
    requires j <= |events|
  {
    && Reached(start, events[..j]).Some? && AllOver(Reached(start, events[..j]).value, agentId)
    && forall i | j <= i < |events| :: !RestedAt(start, events, agentId, i)
  }

  ghost predicate Calm(start: World, events: seq<Event>, agentId: string) {
    exists j | 0 <= j <= |events| :: CalmSince(start, events, agentId, j)
  }

  /** An agent never stopped or deleted under a run is calm. */
  lemma UndisturbedIsCalm(start: World, events: seq<Event>, agentId: string)
    requires IsStart(start) && !RestedUnderRun(start, events, agentId)
    ensures Calm(start, events, agentId)
  {
    StartIsUndisturbed(start);
    hide IsStart, RestedAt;
    assert Reached(start, events[..0]) == Some(start);
    assert CalmSince(start, events, agentId, 0);
  }

  /** Where nothing of an agent's is left to do, an old disturbance no longer matters. */
  lemma ForgivenIsGood(w: World, agentId: string)
    requires Good(w) && AllOver(w, agentId)
    ensures Good(w.(disturbed := w.disturbed - {agentId}))
  {
    hide Referential, Conversational, Sound, ExecsOk, RowsOk, InboxOk, Unsettled, Ended, Own, Whole, OthersHaveEnded;
  }

  /** No step looks at `disturbed`. */
  lemma AdvanceIgnores(w: World, d: set<string>, r: string, e: Exec, move: Move)
    ensures Advance(w.(disturbed := d), r, e, move) == Advance(w, r, e, move)
    ensures InboxesAfter(w.(disturbed := d), e, move) == InboxesAfter(w, e, move)
    ensures DenialsAfter(w.(disturbed := d), e, move) == DenialsAfter(w, e, move)
  {
    DecidingIgnores(w, d, r, e);
    hide MayExecute, HoldsDataCard, Decided, OthersHaveEnded, InNamespace, FilesOf, Remaining;
  }

  lemma DecidingIgnores(w: World, d: set<string>, r: string, e: Exec)
    ensures forall id :: MayExecute(w.(disturbed := d), r, e, id) == MayExecute(w, r, e, id)
    ensures HoldsDataCard(w.(disturbed := d), e) == HoldsDataCard(w, e)
    ensures forall next: nat | next < |e.listing| :: Decided(w.(disturbed := d), r, e, next) == Decided(w, r, e, next)
  {
    hide OutcomeOf, Apply, Decide, StagingVerdict, SameCards, LiveFor, CardFor;
  }

  lemma StepIgnores(w: World, d: set<string>, event: Event, agentId: string)
    requires Step(w, event).Some? && agentId !in d
    requires !((event == StopAgent(agentId) || event == DeleteAgent(agentId)) && HasActiveRun(w.db, agentId))
    ensures var other := Step(w.(disturbed := d), event);
      && other.Some? && agentId !in other.value.disturbed
      && other.value == Step(w, event).value.(disturbed := other.value.disturbed)
  {
    if event.Do? && event.runId in w.execs {
      AdvanceIgnores(w, d, event.runId, w.execs[event.runId], event.move);
    }
    hide Advance, Apply, FreshId, DbAfter, InboxesAfter, DenialsAfter, HasActiveRun;
  }

  lemma ServesBefore(start: World, events: seq<Event>, w: World) returns (previous: World)
    requires Serves(start, events, w) && events != []
    ensures Serves(start, events[..|events| - 1], previous) && Reached(start, events[..|events| - 1]) == Some(previous)
    ensures Step(previous, events[|events| - 1]) == Some(w)
  {
    hide Step, IsStart;
    previous := Reached(start, events[..|events| - 1]).value;
  }

  lemma CalmBefore(start: World, events: seq<Event>, agentId: string, j: nat)
    requires j < |events| && CalmSince(start, events, agentId, j)
    ensures var init, last := events[..|events| - 1], events[|events| - 1];
      && CalmSince(start, init, agentId, j)
      && (Reached(start, init).Some? ==>
            !(&& (last == StopAgent(agentId) || last == DeleteAgent(agentId))
              && HasActiveRun(Reached(start, init).value.db, agentId)))
  {
    hide Reached, HasActiveRun, AllOver;
    var init := events[..|events| - 1];
    assert init[..j] == events[..j];
    forall i | j <= i < |init|
      ensures !RestedAt(start, init, agentId, i)
    {
      assert init[..i] == events[..i] && !RestedAt(start, events, agentId, i);
    }
    assert !RestedAt(start, events, agentId, |init|);
  }

  lemma CalmIsOver(start: World, events: seq<Event>, agentId: string)
    requires CalmSince(start, events, agentId, |events|)
    ensures Reached(start, events).Some? && AllOver(Reached(start, events).value, agentId)
  {
    assert events[..|events|] == events;
    hide Reached, AllOver;
  }

  /** The state of a calm agent, without what was forgiven. */
  lemma {:induction false} CalmWorld(start: World, events: seq<Event>, agentId: string, j: nat, w: World)
    returns (calm: World)
    requires Serves(start, events, w) && j <= |events| && CalmSince(start, events, agentId, j)
    ensures Good(calm) && agentId !in calm.disturbed && calm == w.(disturbed := calm.disturbed)
    decreases |events|
  {
    hide *;
    ServedIsGood(start, events, w);
    ServesReaches(start, events, w);
    if j == |events| {
      CalmIsOver(start, events, agentId);
      calm := w.(disturbed := w.disturbed - {agentId});
      ForgivenIsGood(w, agentId);
    } else {
      var last := events[|events| - 1];
      var previous := ServesBefore(start, events, w);
      CalmBefore(start, events, agentId, j);
      var before := CalmWorld(start, events[..|events| - 1], agentId, j, previous);
      StepIgnores(previous, before.disturbed, last, agentId);
      calm := Step(before, last).value;
      StepIsGood(before, last);
    }
  }

  lemma ServesReaches(start: World, events: seq<Event>, w: World)
    requires Serves(start, events, w)
    ensures Reached(start, events) == Some(w)
  {
  }

  lemma SomeCalmWorld(start: World, events: seq<Event>, agentId: string, w: World) returns (calm: World)
    requires Serves(start, events, w) && Calm(start, events, agentId)
    ensures Good(calm) && agentId !in calm.disturbed && calm == w.(disturbed := calm.disturbed)
  {
    hide CalmSince, Serves, Good;
    var j :| 0 <= j <= |events| && CalmSince(start, events, agentId, j);
    calm := CalmWorld(start, events, agentId, j, w);
  }

  // ----- Runs in the database

  /** Whatever happens, every run and message has its agent, every run one user message and, once completed, one
      assistant message, and a busy agent's latest run is active. */
  lemma DatabaseStaysConsistent(start: World, events: seq<Event>, w: World)
    requires Serves(start, events, w)
    ensures Referential(w.db) && Conversational(w.db)
    ensures forall a | a in w.db.agents && w.db.agents[a].status == Busy ::
        && a in w.latest && w.latest[a] in w.db.runs
        && w.db.runs[w.latest[a]].agentId == a && Active(w.db.runs[w.latest[a]].status)
  {
    ServedIsGood(start, events, w);
    BusyIsActive(w);
    hide *;
  }

  lemma BusyIsActive(w: World)
    requires Good(w)
    ensures Referential(w.db) && Conversational(w.db)
    ensures forall a | a in w.db.agents && w.db.agents[a].status == Busy ::
        && a in w.latest && w.latest[a] in w.db.runs
        && w.db.runs[w.latest[a]].agentId == a && Active(w.db.runs[w.latest[a]].status)
  {
    hide Referential, Conversational, Sound, ExecsOk, InboxOk, LatestOk;
  }

  lemma ActiveRunIsLatest(w: World, r: string)
    requires Good(w) && r in w.db.runs && Active(w.db.runs[r].status) && w.db.runs[r].agentId !in w.disturbed
    ensures var a := w.db.runs[r].agentId;
      a in w.db.agents && w.db.agents[a].status == Busy && a in w.latest && w.latest[a] == r
  {
    hide Referential, Conversational, Sound, ExecsOk, InboxOk, LatestOk;
  }

  /** An agent not stopped or deleted under a run since its executions were last over has at most one active run, and
      has one exactly when it is busy. */
  lemma OneActiveRun(start: World, events: seq<Event>, w: World, agentId: string)
    requires Serves(start, events, w) && Calm(start, events, agentId)
    ensures forall r, s | r in w.db.runs && s in w.db.runs && w.db.runs[r].agentId == w.db.runs[s].agentId == agentId ::
        Active(w.db.runs[r].status) && Active(w.db.runs[s].status) ==> r == s
    ensures HasActiveRun(w.db, agentId) <==> agentId in w.db.agents && w.db.agents[agentId].status == Busy
  {
    hide *;
    var calm := SomeCalmWorld(start, events, agentId, w);
    forall r | r in w.db.runs && w.db.runs[r].agentId == agentId && Active(w.db.runs[r].status)
      ensures agentId in w.db.agents && w.db.agents[agentId].status == Busy && agentId in w.latest
      ensures w.latest[agentId] == r
    {
      ActiveRunIsLatest(calm, r);
    }
    BusyIsActive(calm);
    HasActiveRunIff(w.db, agentId);
  }

  lemma HasActiveRunIff(db: Database, agentId: string)
    ensures HasActiveRun(db, agentId)
       <==> exists r :: r in db.runs && db.runs[r].agentId == agentId && Active(db.runs[r].status)
  {
  }

  lemma StartIsUndisturbed(start: World)
    requires IsStart(start)
    ensures start.disturbed == {} && start.execs == map[]
  {
    hide Referential, Conversational;
  }

  // ----- What has ended stays

  /** A run there has been, whose execution in this life of the service, if it has one, is settled or has ended. */
  predicate AtRest(w: World, r: string) {
    && r in w.used
    && (r in w.execs ==> Ended(w.execs[r].phase) || !Unsettled(w.execs[r].phase))
  }

  /** No event changes the row of such a run, short of deleting it. */
  lemma RowAtRestStays(w: World, event: Event, r: string)
    requires Step(w, event).Some? && AtRest(w, r)
    ensures var after := Step(w, event).value;
      AtRest(after, r) && (r in after.db.runs ==> r in w.db.runs && after.db.runs[r] == w.db.runs[r])
  {
    hide Advance, Apply, DbAfter, InboxesAfter, DenialsAfter, FreshId, FreshAgent, Disturb, Unsettled, Others;
    if event.Do? && event.runId in w.execs {
      var q, move := event.runId, event.move;
      PhaseStep(w, q, w.execs[q], move);
      DbStep(w.db, q, w.execs[q], move);
      if q == r {
        WipeWritesNothing(w.db, r, w.execs[r], move);
      }
    }
  }

  lemma WipeWritesNothing(db: Database, r: string, e: Exec, move: Move)
    ensures move.Wipe? || move.WipeFails? ==> DbAfter(db, r, e, move) == db
  {
  }

  lemma {:induction false} RunsAreUsed(start: World, events: seq<Event>, w: World)
    requires Serves(start, events, w)
    ensures w.db.runs.Keys <= w.used && w.execs.Keys <= w.used
  {
    hide Step, IsStart;
    if events == [] {
      StartUsesItsRuns(start);
    } else {
      var previous := Reached(start, events[..|events| - 1]).value;
      RunsAreUsed(start, events[..|events| - 1], previous);
      UsedGrows(previous, events[|events| - 1]);
    }
  }

  lemma StartUsesItsRuns(start: World)
    requires IsStart(start)
    ensures start.db.runs.Keys <= start.used && start.execs == map[]
  {
    hide Referential, Conversational;
  }

  lemma UsedGrows(w: World, event: Event)
    requires Step(w, event).Some? && w.db.runs.Keys <= w.used && w.execs.Keys <= w.used
    ensures var after := Step(w, event).value; after.db.runs.Keys <= after.used && after.execs.Keys <= after.used
  {
    hide Advance, Apply, DbAfter, InboxesAfter, DenialsAfter, FreshId, FreshAgent, Disturb, Others;
    if event.Do? && event.runId in w.execs {
      DbStep(w.db, event.runId, w.execs[event.runId], event.move);
    }
  }

  /** A run once ended in the database, in this life of the service or before it, never changes again, through any
      continuation, for as long as it is kept; nor does one whose execution has ended without its terminal mutation. */
  lemma {:induction false} TerminalStays(start: World, events: seq<Event>, earlier: nat, w: World, r: string)
    requires Serves(start, events, w) && earlier <= |events| && Reached(start, events[..earlier]).Some?
    requires var before := Reached(start, events[..earlier]).value;
      (r in before.db.runs && !Active(before.db.runs[r].status)) || (r in before.execs && Ended(before.execs[r].phase))
    ensures var before := Reached(start, events[..earlier]).value;
      r in w.db.runs ==> r in before.db.runs && w.db.runs[r] == before.db.runs[r]
  {
    var before := Reached(start, events[..earlier]).value;
    RunsAreUsed(start, events[..earlier], before);
    ServedIsGood(start, events[..earlier], before);
    TerminalIsAtRest(before, r);
    StaysAtRest(start, events, earlier, w, r);
    hide *;
  }

  lemma TerminalIsAtRest(w: World, r: string)
    requires Good(w) && w.db.runs.Keys <= w.used && w.execs.Keys <= w.used
    requires (r in w.db.runs && !Active(w.db.runs[r].status)) || (r in w.execs && Ended(w.execs[r].phase))
    ensures AtRest(w, r)
  {
    hide Referential, Conversational, Sound, ExecsOk, BusyOk, InboxOk, LatestOk;
  }

  lemma {:induction false} StaysAtRest(start: World, events: seq<Event>, earlier: nat, w: World, r: string)
    requires Reached(start, events) == Some(w) && earlier <= |events| && Reached(start, events[..earlier]).Some?
    requires AtRest(Reached(start, events[..earlier]).value, r)
    ensures var before := Reached(start, events[..earlier]).value;
      AtRest(w, r) && (r in w.db.runs ==> r in before.db.runs && w.db.runs[r] == before.db.runs[r])
    decreases |events|
  {
    hide Step, AtRest;
    if earlier == |events| {
      assert events[..earlier] == events;
    } else {
      var init := events[..|events| - 1];
      assert init[..earlier] == events[..earlier];
      StaysAtRest(start, init, earlier, Reached(start, init).value, r);
      RowAtRestStays(Reached(start, init).value, events[|events| - 1], r);
    }
  }
}
