/** What an execution's remembered fields say about the events that led to it. */
module RunHistory {
  import opened Wrappers
  import opened Scopes
  import opened Policy
  import opened Keycards
  import opened KeycardHistory
  import opened ResourceFiles
  import opened AccessGate
  import opened AgentDatabase
  import opened RunProtocol
  import opened RunInvariants
  import opened RunSafety

  // ----- How an execution ends

  /** The three things that can go wrong outside the try block: the first mutation is rejected, the catch's mutation is
      rejected, the final removal fails. */
  datatype Failure = FirstMutation | CatchMutation | FinalRemoval

  predicate IsFailure(event: Event, r: string, failure: Failure) {
    event.Do? && event.runId == r &&
    match failure
    case FirstMutation => event.move.Reject?
    case CatchMutation => event.move.SettleFails?
    case FinalRemoval => event.move.WipeFails?
  }

  /** It has happened to this run. */
  predicate Suffered(events: seq<Event>, r: string, failure: Failure) {
    events != [] && (Suffered(events[..|events| - 1], r, failure) || IsFailure(events[|events| - 1], r, failure))
  }

  predicate Recorded(phase: Phase, first: bool, caught: bool, removal: bool) {
    match phase
    case Aborted => first && !caught && !removal
    case Wiping(settled) => !first && (settled <==> !caught) && !removal
    case Done(settled, wiped) => !first && (settled <==> !caught) && (wiped <==> !removal)
    case _ => !first && !caught && !removal
  }

  lemma MoveIsRecorded(w: World, r: string, e: Exec, move: Move, first: bool, caught: bool, removal: bool)
    requires Advance(w, r, e, move).Some? && Recorded(e.phase, first, caught, removal)
    ensures Recorded(Advance(w, r, e, move).value.phase,
                     first || move.Reject?, caught || move.SettleFails?, removal || move.WipeFails?)
  {
    hide MayExecute, HoldsDataCard, OthersHaveEnded, InNamespace, VerdictFor, SameCards, StagerOf, CardFor, Lookup;
  }

  lemma StepIsRecorded(w: World, event: Event, r: string, first: bool, caught: bool, removal: bool)
    requires Step(w, event).Some?
    requires if r in w.execs then Recorded(w.execs[r].phase, first, caught, removal) else !first && !caught && !removal
    ensures var after := Step(w, event).value;
      var f, c, l := first || IsFailure(event, r, FirstMutation), caught || IsFailure(event, r, CatchMutation),
                     removal || IsFailure(event, r, FinalRemoval);
      if r in after.execs then Recorded(after.execs[r].phase, f, c, l) else !f && !c && !l
  {
    if event.Do? && event.runId == r && r in w.execs && Advance(w, r, w.execs[r], event.move).Some? {
      MoveIsRecorded(w, r, w.execs[r], event.move, first, caught, removal);
    }
    hide Advance, Apply, DbAfter, InboxesAfter, DenialsAfter, FreshId, FreshAgent, Disturb, Others;
  }

  lemma {:induction false} PhaseIsRecorded(start: World, events: seq<Event>, w: World, r: string)
    requires Serves(start, events, w)
    ensures if r in w.execs
            then Recorded(w.execs[r].phase, Suffered(events, r, FirstMutation), Suffered(events, r, CatchMutation),
                          Suffered(events, r, FinalRemoval))
            else && !Suffered(events, r, FirstMutation) && !Suffered(events, r, CatchMutation)
                 && !Suffered(events, r, FinalRemoval)
  {
    hide Step, Recorded, IsFailure, Serves;
    if events == [] {
      NothingStarted(start, w);
    } else {
      var previous := ServesBefore(start, events, w);
      PhaseIsRecorded(start, events[..|events| - 1], previous, r);
      StepIsRecorded(previous, events[|events| - 1], r, Suffered(events[..|events| - 1], r, FirstMutation),
                     Suffered(events[..|events| - 1], r, CatchMutation),
                     Suffered(events[..|events| - 1], r, FinalRemoval));
    }
  }

  lemma NothingStarted(start: World, w: World)
    requires Serves(start, [], w)
    ensures w.execs == map[]
  {
    StartIsUndisturbed(start);
  }

  /** An execution that has ended left its run settled exactly when neither its first mutation nor its catch's was
      rejected, and wiped its inbox exactly when the first mutation was not rejected and the removal did not fail. */
  lemma EndsAsRecorded(start: World, events: seq<Event>, w: World, r: string)
    requires Serves(start, events, w) && r in w.execs && Ended(w.execs[r].phase)
    ensures r in w.db.runs ==>
        (!Active(w.db.runs[r].status) <==> !Suffered(events, r, FirstMutation) && !Suffered(events, r, CatchMutation))
    ensures Wiped(w.execs[r].phase) <==> !Suffered(events, r, FirstMutation) && !Suffered(events, r, FinalRemoval)
  {
    hide *;
    PhaseIsRecorded(start, events, w, r);
    RecordedEnd(w.execs[r].phase, Suffered(events, r, FirstMutation), Suffered(events, r, CatchMutation),
                Suffered(events, r, FinalRemoval));
    ServedIsGood(start, events, w);
    if r in w.db.runs {
      EndedRow(w, r);
    }
  }

  lemma RecordedEnd(phase: Phase, first: bool, caught: bool, removal: bool)
    requires Recorded(phase, first, caught, removal) && Ended(phase)
    ensures Unsettled(phase) <==> first || caught
    ensures Wiped(phase) <==> !first && !removal
  {
  }

  lemma EndedRow(w: World, r: string)
    requires Good(w) && r in w.execs && r in w.db.runs
    ensures Unsettled(w.execs[r].phase) <==> Active(w.db.runs[r].status)
  {
    hide Referential, Conversational, Sound, ExecsOk, BusyOk, InboxOk, LatestOk;
  }

  // ----- What a run's row says about its history

  /** The things that can happen to a run and show in its row: it begins, it is called off, it answers, its catch is
      written. */
  datatype Mark = Begun | CalledOff | Answered | Caught

  predicate IsMark(w: World, event: Event, r: string, mark: Mark) {
    event.Do? && event.runId == r &&
    match mark
    case Begun => event.move.Begin?
    case CalledOff =>
      event.move == Throw(true) || (event.move.ClearInbox? && r in w.execs && w.execs[r].agentId in w.cancelling)
    case Answered => event.move.Succeed?
    case Caught => event.move.Settle?
  }

  /** It has happened to this run. */
  ghost predicate Marked(start: World, events: seq<Event>, r: string, mark: Mark) {
    events != [] &&
    var init := events[..|events| - 1];
    || Marked(start, init, r, mark)
    || (Reached(start, init).Some? && IsMark(Reached(start, init).value, events[|events| - 1], r, mark))
  }

  datatype Marks = Marks(begun: bool, calledOff: bool, answered: bool, caught: bool)

  ghost function MarksOf(start: World, events: seq<Event>, r: string): Marks {
    Marks(Marked(start, events, r, Begun), Marked(start, events, r, CalledOff), Marked(start, events, r, Mark.Answered),
          Marked(start, events, r, Caught))
  }

  function StatusTold(m: Marks): RunStatus {
    if m.answered then Completed
    else if m.caught then (if m.calledOff then Cancelled else Failed)
    else if m.begun then Running
    else Queued
  }

  const UNMARKED := Marks(false, false, false, false)

  predicate PhaseTold(phase: Phase, m: Marks) {
    match phase
    case Admitted => m == UNMARKED
    case Aborted => m == UNMARKED
    case Ending(cancelled) => m == Marks(true, cancelled, false, false)
    case Wiping(settled) => m.begun && !(m.answered && m.caught) && (settled <==> m.answered || m.caught)
    case Done(settled, _) => m.begun && !(m.answered && m.caught) && (settled <==> m.answered || m.caught)
    case _ => m == Marks(true, false, false, false)
  }

  function MarkedBy(w: World, event: Event, r: string, m: Marks): Marks {
    Marks(m.begun || IsMark(w, event, r, Begun), m.calledOff || IsMark(w, event, r, CalledOff),
          m.answered || IsMark(w, event, r, Mark.Answered), m.caught || IsMark(w, event, r, Caught))
  }

  lemma MarksGrow(start: World, events: seq<Event>, w: World, event: Event, r: string)
    requires Reached(start, events) == Some(w)
    ensures MarksOf(start, events + [event], r) == MarkedBy(w, event, r, MarksOf(start, events, r))
  {
    hide Reached, IsMark;
    assert (events + [event])[..|events|] == events;
  }

  /** Whether the move calls its run off. */
  predicate CallsOff(w: World, e: Exec, move: Move) {
    move == Throw(true) || (move.ClearInbox? && e.agentId in w.cancelling)
  }

  lemma MarkedByMove(w: World, r: string, e: Exec, move: Move, m: Marks)
    requires r in w.execs && w.execs[r] == e
    ensures MarkedBy(w, Do(r, move), r, m)
         == Marks(m.begun || move.Begin?, m.calledOff || CallsOff(w, e, move), m.answered || move.Succeed?,
                  m.caught || move.Settle?)
  {
  }

  lemma EarlyMoveTells(w: World, r: string, e: Exec, move: Move, m: Marks)
    requires Advance(w, r, e, move).Some? && PhaseTold(e.phase, m) && IsEarly(move) && !IsLast(move)
    ensures PhaseTold(Advance(w, r, e, move).value.phase,
                      Marks(m.begun || move.Begin?, m.calledOff || CallsOff(w, e, move), m.answered, m.caught))
  {
    hide MayExecute, HoldsDataCard, OthersHaveEnded, InNamespace, Decided;
  }

  /** The moves that end a run, or lead to its end. */
  predicate IsLast(move: Move) {
    move.Succeed? || move.Throw? || move.Settle? || move.SettleFails? || move.Wipe? || move.WipeFails?
  }

  lemma LateMoveTells(w: World, r: string, e: Exec, move: Move, m: Marks)
    requires Advance(w, r, e, move).Some? && PhaseTold(e.phase, m) && !IsEarly(move) && !IsLast(move)
    requires !move.DecideNext? && !move.Stage?
    ensures PhaseTold(Advance(w, r, e, move).value.phase,
                      Marks(m.begun || move.Begin?, m.calledOff || CallsOff(w, e, move), m.answered, m.caught))
  {
    hide MayExecute, HoldsDataCard, OthersHaveEnded, InNamespace, Decided;
  }

  lemma LastMoveTells(w: World, r: string, e: Exec, move: Move, m: Marks)
    requires Advance(w, r, e, move).Some? && PhaseTold(e.phase, m) && IsLast(move)
    ensures PhaseTold(Advance(w, r, e, move).value.phase,
                      Marks(m.begun, m.calledOff || CallsOff(w, e, move), m.answered || move.Succeed?,
                            m.caught || move.Settle?))
  {
    hide MayExecute, HoldsDataCard, OthersHaveEnded, InNamespace, Decided;
  }

  lemma PassMoveTells(w: World, r: string, e: Exec, move: Move, m: Marks)
    requires Advance(w, r, e, move).Some? && PhaseTold(e.phase, m) && (move.DecideNext? || move.Stage?)
    ensures PhaseTold(Advance(w, r, e, move).value.phase, m)
  {
    hide VerdictFor, SameCards, StagerOf, CardFor, Lookup;
  }

  lemma MoveTells(w: World, r: string, e: Exec, move: Move, m: Marks)
    requires r in w.execs && w.execs[r] == e && Advance(w, r, e, move).Some? && PhaseTold(e.phase, m)
    ensures PhaseTold(Advance(w, r, e, move).value.phase, MarkedBy(w, Do(r, move), r, m))
  {
    hide Advance, PhaseTold, MarkedBy;
    MarkedByMove(w, r, e, move, m);
    if move.DecideNext? || move.Stage? {
      PassMoveTells(w, r, e, move, m);
    } else if IsLast(move) {
      LastMoveTells(w, r, e, move, m);
    } else if IsEarly(move) {
      EarlyMoveTells(w, r, e, move, m);
    } else {
      LateMoveTells(w, r, e, move, m);
    }
  }

  lemma MoveWritesStatus(w: World, r: string, e: Exec, move: Move, m: Marks)
    requires r in w.execs && w.execs[r] == e && Advance(w, r, e, move).Some? && PhaseTold(e.phase, m)
    requires r in w.db.runs && w.db.runs[r].status == StatusTold(m) && (move.Succeed? ==> e.agentId in w.db.agents)
    ensures r in DbAfter(w.db, r, e, move).runs
    ensures DbAfter(w.db, r, e, move).runs[r].status == StatusTold(MarkedBy(w, Do(r, move), r, m))
  {
    hide MayExecute, HoldsDataCard, OthersHaveEnded, InNamespace, VerdictFor, SameCards, StagerOf, CardFor, Lookup;
  }

  lemma NoRowIsMade(db: Database, r: string, e: Exec, move: Move)
    ensures DbAfter(db, r, e, move).runs.Keys == db.runs.Keys
  {
  }

  /** The row agrees with the marks. */
  predicate RowTold(w: World, r: string, m: Marks) {
    if r in w.execs then PhaseTold(w.execs[r].phase, m) && (r in w.db.runs ==> w.db.runs[r].status == StatusTold(m))
    else m == UNMARKED
  }

  lemma OwnStepTells(w: World, r: string, move: Move, m: Marks)
    requires Good(w) && RowTold(w, r, m) && Step(w, Do(r, move)).Some?
    ensures RowTold(Step(w, Do(r, move)).value, r, MarkedBy(w, Do(r, move), r, m))
  {
    hide *;
    StepNeedsExec(w, r, move);
    MoveStep(w, r, move);
    OwnMoveTells(w, r, move, m);
  }

  lemma StepNeedsExec(w: World, r: string, move: Move)
    requires Step(w, Do(r, move)).Some?
    ensures r in w.execs
  {
    hide Advance;
  }

  lemma OwnMoveTells(w: World, r: string, move: Move, m: Marks)
    requires Good(w) && RowTold(w, r, m) && r in w.execs && Advance(w, r, w.execs[r], move).Some?
    ensures RowTold(DoMove(w, r, move), r, MarkedBy(w, Do(r, move), r, m))
  {
    hide Good, Advance, PhaseTold, StatusTold, MarkedBy, DbAfter, InboxesAfter, DenialsAfter, Apply;
    var e := w.execs[r];
    MoveTells(w, r, e, move, m);
    NoRowIsMade(w.db, r, e, move);
    if r in w.db.runs {
      RowHasAgent(w, r);
      MoveWritesStatus(w, r, e, move, m);
    }
  }

  lemma RowHasAgent(w: World, r: string)
    requires Good(w) && r in w.execs && r in w.db.runs
    ensures w.execs[r].agentId in w.db.agents
  {
    hide Conversational, Sound, ExecsOk, BusyOk, InboxOk, LatestOk, Unsettled;
  }

  /** Nobody else changes a run's status; a deletion removes the row. */
  lemma OthersLeaveStatus(w: World, event: Event, r: string)
    requires r in w.execs && !(event.Do? && event.runId == r) && Step(w, event).Some?
    ensures var after := Step(w, event).value;
      r in after.db.runs ==> r in w.db.runs && after.db.runs[r].status == w.db.runs[r].status
  {
    if event.Do? {
      DbStep(w.db, event.runId, w.execs[event.runId], event.move);
    }
    hide Advance, Apply, FreshId, FreshAgent, Disturb, DbAfter, InboxesAfter, DenialsAfter, Others;
  }

  lemma OthersStepTells(w: World, event: Event, r: string, m: Marks)
    requires RowTold(w, r, m) && !(event.Do? && event.runId == r) && Step(w, event).Some?
    ensures RowTold(Step(w, event).value, r, m) && MarkedBy(w, event, r, m) == m
  {
    hide Step, PhaseTold, StatusTold;
    if r in w.execs {
      OthersLeaveItAlone(w, event, r);
      OthersLeaveStatus(w, event, r);
    } else if r in Step(w, event).value.execs {
      Newcomer(w, event, r);
    }
  }

  lemma Newcomer(w: World, event: Event, r: string)
    requires r !in w.execs && Step(w, event).Some? && r in Step(w, event).value.execs
    ensures var after := Step(w, event).value;
      after.execs[r].phase == Admitted && r in after.db.runs && after.db.runs[r].status == Queued
    ensures PhaseTold(Admitted, UNMARKED) && StatusTold(UNMARKED) == Queued
  {
    hide Advance, Apply, FreshId, FreshAgent, Disturb, DbAfter, InboxesAfter, DenialsAfter, Others;
  }

  /** A run's row tells its history, as long as it is kept: completed exactly if it answered; cancelled, or failed,
      exactly if its catch was written and it had, or had not, been called off; running exactly if it had only begun. */
  lemma {:induction false} RowTellsItsHistory(start: World, events: seq<Event>, w: World, r: string)
    requires Serves(start, events, w)
    ensures RowTold(w, r, MarksOf(start, events, r))
  {
    hide *;
    if events == [] {
      NothingStarted(start, w);
      NothingMarked(start, w, r);
    } else {
      var init, last := events[..|events| - 1], events[|events| - 1];
      var previous := ServesBefore(start, events, w);
      RowTellsItsHistory(start, init, previous, r);
      MarksGrow(start, init, previous, last, r);
      assert init + [last] == events;
      if last.Do? && last.runId == r {
        ServedIsGood(start, init, previous);
        OwnStepTells(previous, r, last.move, MarksOf(start, init, r));
      } else {
        OthersStepTells(previous, last, r, MarksOf(start, init, r));
      }
    }
  }

  lemma NothingMarked(start: World, w: World, r: string)
    requires w.execs == map[]
    ensures RowTold(w, r, MarksOf(start, [], r))
  {
  }

  // ----- What an agent's status says about its history

  /** What the last event makes of the status. A run that answers frees its agent; a run that is caught leaves a
      stopped one stopped. */
  ghost function ToldBy(start: World, init: seq<Event>, last: Event, a: string,
                        before: Option<AgentStatus>): Option<AgentStatus> {
    match last
    case NewAgent(id, _) => if id == a then Some(Ready) else before
    case StartAgent(id) => if id == a then Some(Ready) else before
    case StopAgent(id) => if id == a then Some(Stopped) else before
    case DeleteAgent(id) => if id == a then None else before
    case Send(id, _) => if id == a then Some(Busy) else before
    case Do(r, Succeed) => if RunsFor(start, init, r, a) && IsKept(start, init, r) then Some(Ready) else before
    case Do(r, Settle) =>
      if !RunsFor(start, init, r, a) || before == None || before == Some(Stopped) then before
      else if Marked(start, init, r, CalledOff) then Some(Ready)
      else Some(Errored)
    case _ => before
  }

  /** The status of an agent, by the events. */
  ghost function StatusToldOf(start: World, events: seq<Event>, a: string): Option<AgentStatus> {
    if events == [] then StatusIn(start.db, a)
    else
      var init := events[..|events| - 1];
      ToldBy(start, init, events[|events| - 1], a, StatusToldOf(start, init, a))
  }

  ghost predicate RunsFor(start: World, events: seq<Event>, r: string, a: string) {
    && Reached(start, events).Some?
    && var w := Reached(start, events).value;
       r in w.execs && w.execs[r].agentId == a
  }

  ghost predicate IsKept(start: World, events: seq<Event>, r: string) {
    Reached(start, events).Some? && r in Reached(start, events).value.db.runs
  }

  function StatusIn(db: Database, a: string): Option<AgentStatus> {
    if a in db.agents then Some(db.agents[a].status) else None
  }

  lemma OtherEventsOnAgent(w: World, event: Event, a: string)
    requires Step(w, event).Some? && !event.Do?
    ensures StatusIn(Step(w, event).value.db, a) == match event
      case NewAgent(id, _) => if id == a then Some(Ready) else StatusIn(w.db, a)
      case StartAgent(id) => if id == a then Some(Ready) else StatusIn(w.db, a)
      case StopAgent(id) => if id == a then Some(Stopped) else StatusIn(w.db, a)
      case DeleteAgent(id) => if id == a then None else StatusIn(w.db, a)
      case Send(id, _) => if id == a then Some(Busy) else StatusIn(w.db, a)
      case _ => StatusIn(w.db, a)
  {
    hide Advance, Apply, FreshId, FreshAgent, Disturb, Others;
  }

  lemma MovesOnAgent(w: World, r: string, e: Exec, move: Move, a: string)
    requires r in w.execs && w.execs[r] == e && (r in w.db.runs ==> e.agentId in w.db.agents)
    ensures StatusIn(DbAfter(w.db, r, e, move), a)
         == if e.agentId != a || !(move.Succeed? || move.Settle?) then StatusIn(w.db, a)
            else if move.Succeed? then (if r in w.db.runs then Some(Ready) else StatusIn(w.db, a))
            else if StatusIn(w.db, a) == None || StatusIn(w.db, a) == Some(Stopped) then StatusIn(w.db, a)
            else if e.phase == Ending(true) then Some(Ready)
            else Some(Errored)
  {
    if e.agentId == a && move.Settle? {
      FailOnAgent(w.db, a, r, e.phase == Ending(true));
    } else {
      DbStep(w.db, r, e, move);
    }
    hide Fail;
  }

  lemma FailOnAgent(db: Database, a: string, r: string, cancelled: bool)
    ensures StatusIn(Fail(db, a, r, cancelled).value, a)
         == if StatusIn(db, a) == None || StatusIn(db, a) == Some(Stopped) then StatusIn(db, a)
            else if cancelled then Some(Ready)
            else Some(Errored)
  {
  }

  lemma StepOnAgent(w: World, r: string, move: Move, a: string, m: Marks)
    requires Good(w) && RowTold(w, r, m) && Step(w, Do(r, move)).Some?
    ensures r in w.execs
    ensures StatusIn(Step(w, Do(r, move)).value.db, a)
         == if w.execs[r].agentId != a || !(move.Succeed? || move.Settle?) then StatusIn(w.db, a)
            else if move.Succeed? then (if r in w.db.runs then Some(Ready) else StatusIn(w.db, a))
            else if StatusIn(w.db, a) == None || StatusIn(w.db, a) == Some(Stopped) then StatusIn(w.db, a)
            else if m.calledOff then Some(Ready)
            else Some(Errored)
  {
    hide *;
    StepNeedsExec(w, r, move);
    MoveStep(w, r, move);
    if r in w.db.runs {
      RowHasAgent(w, r);
    }
    MovesOnAgent(w, r, w.execs[r], move, a);
    MoveDb(w, r, move);
    if move.Settle? {
      SettlingIsTold(w, r, move, m);
    }
  }

  lemma MoveDb(w: World, r: string, move: Move)
    requires r in w.execs && Advance(w, r, w.execs[r], move).Some?
    ensures DoMove(w, r, move).db == DbAfter(w.db, r, w.execs[r], move)
  {
    hide Advance, DbAfter, InboxesAfter, DenialsAfter, Apply;
  }

  lemma SettlingIsTold(w: World, r: string, move: Move, m: Marks)
    requires RowTold(w, r, m) && r in w.execs && Advance(w, r, w.execs[r], move).Some? && move.Settle?
    ensures w.execs[r].phase == Ending(true) <==> m.calledOff
  {
  }

  lemma StatusToldStep(start: World, init: seq<Event>, w: World, last: Event, a: string)
    requires Serves(start, init, w) && Step(w, last).Some? && StatusToldOf(start, init, a) == StatusIn(w.db, a)
    ensures StatusToldOf(start, init + [last], a) == StatusIn(Step(w, last).value.db, a)
  {
    hide *;
    AppendStatus(start, init, last, a);
    if last.Do? {
      ServedIsGood(start, init, w);
      RowTellsItsHistory(start, init, w, last.runId);
      StepOnAgent(w, last.runId, last.move, a, MarksOf(start, init, last.runId));
      ServedReaches(start, init, w);
      ToldByMove(start, init, w, last.runId, last.move, a);
    } else {
      OtherEventsOnAgent(w, last, a);
      ToldByOther(start, init, w, last, a);
    }
  }

  lemma ServedReaches(start: World, events: seq<Event>, w: World)
    requires Serves(start, events, w)
    ensures Reached(start, events) == Some(w)
  {
    hide IsStart, Reached;
  }

  lemma AppendStatus(start: World, init: seq<Event>, last: Event, a: string)
    ensures StatusToldOf(start, init + [last], a) == ToldBy(start, init, last, a, StatusToldOf(start, init, a))
  {
    hide ToldBy;
    assert (init + [last])[..|init|] == init;
  }

  lemma ToldByOther(start: World, init: seq<Event>, w: World, last: Event, a: string)
    requires !last.Do?
    ensures ToldBy(start, init, last, a, StatusIn(w.db, a)) == match last
      case NewAgent(id, _) => if id == a then Some(Ready) else StatusIn(w.db, a)
      case StartAgent(id) => if id == a then Some(Ready) else StatusIn(w.db, a)
      case StopAgent(id) => if id == a then Some(Stopped) else StatusIn(w.db, a)
      case DeleteAgent(id) => if id == a then None else StatusIn(w.db, a)
      case Send(id, _) => if id == a then Some(Busy) else StatusIn(w.db, a)
      case _ => StatusIn(w.db, a)
  {
    hide StatusIn;
  }

  lemma ToldByMove(start: World, init: seq<Event>, w: World, r: string, move: Move, a: string)
    requires Reached(start, init) == Some(w) && r in w.execs
    ensures ToldBy(start, init, Do(r, move), a, StatusIn(w.db, a))
         == if w.execs[r].agentId != a || !(move.Succeed? || move.Settle?) then StatusIn(w.db, a)
            else if move.Succeed? then (if r in w.db.runs then Some(Ready) else StatusIn(w.db, a))
            else if StatusIn(w.db, a) == None || StatusIn(w.db, a) == Some(Stopped) then StatusIn(w.db, a)
            else if MarksOf(start, init, r).calledOff then Some(Ready)
            else Some(Errored)
  {
    hide StatusIn, Reached, Marked;
  }

  /** An agent's status tells its history: ready, stopped or busy by the last start, stop or message, unless a run of
      its has ended since; then ready if the run answered or was called off, and in error if it failed, but stopped
      if it was. */
  lemma {:induction false} StatusTellsItsHistory(start: World, events: seq<Event>, w: World, a: string)
    requires Serves(start, events, w)
    ensures StatusIn(w.db, a) == StatusToldOf(start, events, a)
  {
    hide *;
    if events == [] {
      StatusAtStart(start, w, a);
    } else {
      var init, last := events[..|events| - 1], events[|events| - 1];
      var previous := ServesBefore(start, events, w);
      StatusTellsItsHistory(start, init, previous, a);
      StatusToldStep(start, init, previous, last, a);
      assert init + [last] == events;
    }
  }

  lemma StatusAtStart(start: World, w: World, a: string)
    requires Serves(start, [], w)
    ensures StatusIn(w.db, a) == StatusToldOf(start, [], a)
  {
    hide IsStart;
  }

  // ----- A quiet pass

  /** The event grants, revokes and lets expire no card of the agent. */
  predicate KeepsCards(w: World, event: Event, agentId: string) {
    match event
    case Tick(ms) =>
      forall id | id in w.cards.records && w.cards.records[id].agentId == agentId ::
        Live(w.cards.records[id], w.clock) <==> Live(w.cards.records[id], w.clock + ms)
    case Keycard(IssueOp(input, _, _)) => input.agentId != agentId
    case Keycard(RevokeOp(id, _, _)) => id !in w.cards.records || w.cards.records[id].agentId != agentId
    case Keycard(RevokeAllOp(revoked, _, _)) => revoked != agentId
    case Do(r, TakeCard(_)) => r !in w.execs || w.execs[r].agentId != agentId
    case _ => true
  }

  lemma {:induction false} RevokeEachSpares(s: StoreState, ids: seq<string>, revoked: string, revokedBy: string,
                                            now: int, id: string)
    ensures var r := RevokeEach(s, ids, revoked, revokedBy, now);
      && (id in r.records <==> id in s.records)
      && (id in s.records ==> r.records[id].agentId == s.records[id].agentId)
      && (id in s.records && s.records[id].agentId != revoked ==> r.records[id] == s.records[id])
  {
    if ids != [] {
      RevokeEachSpares(s, ids[..|ids| - 1], revoked, revokedBy, now, id);
    }
  }

  /** A store operation for someone else leaves the agent's cards as they are. */
  lemma OthersOperation(s: StoreState, op: Op, agentId: string, id: string, at: int)
    requires FreshId(s, op)
    requires match op
      case IssueOp(input, _, _) => input.agentId != agentId
      case RunOp(other, _, _, _, _) => other != agentId
      case RevokeOp(revoked, _, _) => revoked !in s.records || s.records[revoked].agentId != agentId
      case RevokeAllOp(other, _, _) => other != agentId
    ensures HeldCard(Apply(s, op).records, id, agentId, at) == HeldCard(s.records, id, agentId, at)
  {
    hide CapabilityOwner, RevokeEach;
    if op.RevokeAllOp? {
      RevokeEachSpares(s, s.order, op.agentId, op.revokedBy, op.now, id);
    }
  }

  lemma StepKeepsCards(w: World, event: Event, agentId: string, id: string)
    requires Step(w, event).Some? && KeepsCards(w, event, agentId)
    ensures var after := Step(w, event).value;
      HeldCard(after.cards.records, id, agentId, after.clock) == HeldCard(w.cards.records, id, agentId, w.clock)
  {
    if event.Keycard? {
      OthersOperation(w.cards, event.op, agentId, id, w.clock);
    } else if event.Do? && event.move.TakeCard? {
      CardIsFresh(w, event.runId, event.move.id);
      OthersOperation(w.cards, CardOp(w, event.runId, w.execs[event.runId], event.move.id), agentId, id, w.clock);
    }
    hide Advance, Apply, DbAfter, InboxesAfter, DenialsAfter, FreshAgent, Disturb, Others;
  }

  lemma CardIsFresh(w: World, r: string, id: string)
    requires Step(w, Do(r, TakeCard(id))).Some?
    ensures r in w.execs && id !in w.cards.records
  {
    hide MayExecute, Apply;
  }

  /** Since its last listing the execution has seen nothing change. */
  predicate Quiet(w: World, r: string, agentId: string) {
    r in w.execs &&
    var e := w.execs[r];
    e.agentId == agentId && e.quiet && SameCards(e.base.records, e.since, w.cards.records, w.clock, agentId)
  }

  lemma ListIsQuiet(w: World, r: string, listing: seq<ResourceRef>)
    requires Step(w, Do(r, List(listing))).Some?
    ensures var after := Step(w, Do(r, List(listing))).value;
      r in after.execs && Quiet(after, r, after.execs[r].agentId)
  {
    hide InNamespace, HeldCard;
  }

  lemma SameMoment(records: map<string, CapabilityRecord>, at: int, agentId: string)
    ensures SameCards(records, at, records, at, agentId)
  {
  }

  lemma OwnMoveIsQuiet(w: World, r: string, e: Exec, move: Move)
    requires Advance(w, r, e, move).Some? && e.quiet && !move.TakeCard?
    requires SameCards(e.base.records, e.since, w.cards.records, w.clock, e.agentId)
    ensures var after := Advance(w, r, e, move).value;
      after.agentId == e.agentId && after.quiet && SameCards(after.base.records, after.since, w.cards.records, w.clock,
                                                             e.agentId)
  {
    SameMoment(w.cards.records, w.clock, e.agentId);
    hide MayExecute, HoldsDataCard, OthersHaveEnded, InNamespace, VerdictFor, SameCards, StagerOf, CardFor, Lookup;
  }

  lemma SameCardsStill(before: map<string, CapabilityRecord>, since: int, middle: map<string, CapabilityRecord>,
                       at: int, after: map<string, CapabilityRecord>, later: int, agentId: string)
    requires SameCards(before, since, middle, at, agentId)
    requires forall id :: HeldCard(after, id, agentId, later) == HeldCard(middle, id, agentId, at)
    ensures SameCards(before, since, after, later, agentId)
  {
    forall id | id in before.Keys + after.Keys
      ensures HeldCard(before, id, agentId, since) == HeldCard(after, id, agentId, later)
    {
      assert HeldCard(after, id, agentId, later) == HeldCard(middle, id, agentId, at);
    }
  }

  lemma StepIsQuiet(w: World, event: Event, r: string, agentId: string)
    requires Step(w, event).Some? && KeepsCards(w, event, agentId) && Quiet(w, r, agentId)
    ensures Quiet(Step(w, event).value, r, agentId)
  {
    hide Step, Advance, SameCards, KeepsCards, HeldCard;
    var e, after := w.execs[r], Step(w, event).value;
    var next := e;
    if event.Do? && event.runId == r {
      MoveStep(w, r, event.move);
      assert !event.move.TakeCard? by { OwnCardDisturbs(w, event, r); }
      OwnMoveIsQuiet(w, r, e, event.move);
      next := after.execs[r];
    } else {
      OthersLeaveItAlone(w, event, r);
    }
    forall id
      ensures HeldCard(after.cards.records, id, agentId, after.clock) == HeldCard(w.cards.records, id, agentId, w.clock)
    {
      StepKeepsCards(w, event, agentId, id);
    }
    SameCardsStill(next.base.records, next.since, w.cards.records, w.clock, after.cards.records, after.clock, agentId);
  }

  lemma MoveStep(w: World, r: string, move: Move)
    requires r in w.execs && Step(w, Do(r, move)).Some?
    ensures Advance(w, r, w.execs[r], move).Some?
    ensures var after := Step(w, Do(r, move)).value;
      after == DoMove(w, r, move) && after.execs == w.execs[r := Advance(w, r, w.execs[r], move).value]
  {
    hide Advance, DbAfter, InboxesAfter, DenialsAfter, Apply;
  }

  lemma OwnCardDisturbs(w: World, event: Event, r: string)
    requires event.Do? && event.runId == r && r in w.execs && KeepsCards(w, event, w.execs[r].agentId)
    ensures !event.move.TakeCard?
  {
  }

  /** Nobody else touches an execution. */
  lemma OthersLeaveItAlone(w: World, event: Event, r: string)
    requires r in w.execs && !(event.Do? && event.runId == r) && Step(w, event).Some?
    ensures r in Step(w, event).value.execs && Step(w, event).value.execs[r] == w.execs[r]
  {
    hide Advance, Apply, FreshId, FreshAgent, Disturb, DbAfter, InboxesAfter, DenialsAfter;
  }

  /** From one event on, every event keeps the agent's cards. */
  ghost predicate CardsKeptFrom(start: World, events: seq<Event>, agentId: string, from: nat) {
    forall i | from <= i < |events| ::
        Reached(start, events[..i]).Some? && KeepsCards(Reached(start, events[..i]).value, events[i], agentId)
  }

  lemma CardsKeptBefore(start: World, events: seq<Event>, agentId: string, from: nat)
    requires from < |events| && CardsKeptFrom(start, events, agentId, from)
    ensures CardsKeptFrom(start, events[..|events| - 1], agentId, from)
    ensures Reached(start, events[..|events| - 1]).Some?
    ensures KeepsCards(Reached(start, events[..|events| - 1]).value, events[|events| - 1], agentId)
  {
    hide Reached, KeepsCards;
    var init := events[..|events| - 1];
    forall i | from <= i < |init|
      ensures Reached(start, init[..i]).Some? && KeepsCards(Reached(start, init[..i]).value, init[i], agentId)
    {
      assert init[..i] == events[..i];
    }
  }

  /** A pass since whose listing no card of the agent was granted, revoked or expired is quiet. */
  lemma UndisturbedPassIsQuiet(start: World, events: seq<Event>, w: World, r: string, from: nat,
                               listing: seq<ResourceRef>)
    requires Serves(start, events, w) && r in w.execs
    requires 0 < from <= |events| && events[from - 1] == Do(r, List(listing))
    requires CardsKeptFrom(start, events, w.execs[r].agentId, from)
    ensures w.execs[r].quiet
  {
    QuietSince(start, events, w, r, from, listing, w.execs[r].agentId);
    hide Serves, SameCards;
  }

  lemma {:induction false} QuietSince(start: World, events: seq<Event>, w: World, r: string, from: nat,
                                      listing: seq<ResourceRef>, agentId: string)
    requires Serves(start, events, w)
    requires 0 < from <= |events| && events[from - 1] == Do(r, List(listing))
    requires r in w.execs && w.execs[r].agentId == agentId && CardsKeptFrom(start, events, agentId, from)
    ensures Quiet(w, r, agentId)
    decreases |events|
  {
    hide *;
    var previous := ServesBefore(start, events, w);
    if from == |events| {
      ListIsQuiet(previous, r, listing);
    } else {
      CardsKeptBefore(start, events, agentId, from);
      assert events[..|events| - 1][from - 1] == events[from - 1];
      ExecWasThere(start, events[..|events| - 1], previous, r, from, listing);
      AgentStays(previous, events[|events| - 1], r);
      QuietSince(start, events[..|events| - 1], previous, r, from, listing, agentId);
      StepIsQuiet(previous, events[|events| - 1], r, agentId);
    }
  }

  lemma {:induction false} ExecWasThere(start: World, events: seq<Event>, w: World, r: string, from: nat,
                                        listing: seq<ResourceRef>)
    requires Serves(start, events, w) && 0 < from <= |events| && events[from - 1] == Do(r, List(listing))
    ensures r in w.execs
    decreases |events|
  {
    hide Step, Serves;
    var previous := ServesBefore(start, events, w);
    if from == |events| {
      ListIsQuiet(previous, r, listing);
    } else {
      ExecWasThere(start, events[..|events| - 1], previous, r, from, listing);
      AgentStays(previous, events[|events| - 1], r);
    }
  }

  lemma AgentStays(w: World, event: Event, r: string)
    requires r in w.execs && Step(w, event).Some?
    ensures r in Step(w, event).value.execs && Step(w, event).value.execs[r].agentId == w.execs[r].agentId
  {
    if event.Do? && event.runId == r {
      MoveStep(w, r, event.move);
      AgentIsKept(w, r, w.execs[r], event.move);
    } else {
      OthersLeaveItAlone(w, event, r);
    }
    hide Step, Advance;
  }

  // ----- A clean start

  lemma ClearingStep(w: World, r: string, e: Exec, move: Move)
    requires Advance(w, r, e, move).Some?
    ensures var after := Advance(w, r, e, move).value;
      && (e.cleared && !move.ClearInbox? ==> after.cleared && after.clean == e.clean)
      && (after.cleared && !e.cleared ==> move.ClearInbox? && after.clean == OthersHaveEnded(w.execs, r, e.agentId))
      && (move.ClearInbox? && e.cleared ==> after.cleared)
      && (move.ClearInbox? && after.cleared && after.clean != e.clean ==>
            after.clean == OthersHaveEnded(w.execs, r, e.agentId))
  {
    hide MayExecute, HoldsDataCard, OthersHaveEnded, InNamespace, VerdictFor, SameCards, StagerOf, CardFor, Lookup;
  }

  /** The clear at the `i`-th event decided what `clean` says. */
  ghost predicate ClearedAt(start: World, events: seq<Event>, w: World, r: string, i: nat) {
    && i < |events| && events[i] == Do(r, ClearInbox) && r in w.execs
    && Reached(start, events[..i]).Some?
    && (w.execs[r].clean <==> OthersHaveEnded(Reached(start, events[..i]).value.execs, r, w.execs[r].agentId))
  }

  /** An execution that has cleared its inbox is clean exactly when all the agent's other executions had ended at the
      clear. */
  lemma {:induction false} CleanIff(start: World, events: seq<Event>, w: World, r: string) returns (i: nat)
    requires Serves(start, events, w) && r in w.execs && w.execs[r].cleared
    ensures ClearedAt(start, events, w, r, i)
    decreases |events|
  {
    hide Step, OthersHaveEnded, Advance;
    if events == [] {
      NothingStarted(start, w);
    } else {
      var init, last := events[..|events| - 1], events[|events| - 1];
      var previous := ServesBefore(start, events, w);
      if r in previous.execs && previous.execs[r].cleared && SameClear(previous, w, r) {
        i := CleanIff(start, init, previous, r);
        assert init[..i] == events[..i];
      } else {
        ClearsNow(previous, last, r);
        i := |init|;
      }
    }
  }

  predicate SameClear(before: World, after: World, r: string) {
    r in before.execs && r in after.execs &&
    before.execs[r].cleared && before.execs[r].clean == after.execs[r].clean
      && before.execs[r].agentId == after.execs[r].agentId
  }

  lemma ClearsNow(w: World, event: Event, r: string)
    requires Step(w, event).Some? && r in Step(w, event).value.execs && Step(w, event).value.execs[r].cleared
    requires !SameClear(w, Step(w, event).value, r)
    ensures event == Do(r, ClearInbox) && r in w.execs
    ensures Step(w, event).value.execs[r].clean <==> OthersHaveEnded(w.execs, r, Step(w, event).value.execs[r].agentId)
  {
    hide Advance, OthersHaveEnded;
    if r !in w.execs {
      NewcomersAreUncleared(w, event, r);
    } else if event.Do? && event.runId == r {
      MoveStep(w, r, event.move);
      AgentIsKept(w, r, w.execs[r], event.move);
      ClearingStep(w, r, w.execs[r], event.move);
    } else {
      OthersLeaveItAlone(w, event, r);
    }
  }

  lemma NewcomersAreUncleared(w: World, event: Event, r: string)
    requires Step(w, event).Some? && r !in w.execs && r in Step(w, event).value.execs
    ensures !Step(w, event).value.execs[r].cleared
  {
    hide Advance, Apply, FreshId, FreshAgent, Disturb, DbAfter, InboxesAfter, DenialsAfter;
  }
}
