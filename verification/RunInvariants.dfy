/** What every step of the run protocol keeps. */
module RunInvariants {
  import opened ResourceUris
  import opened Scopes
  import opened ScopeLaws
  import opened Policy
  import opened Keycards
  import opened KeycardHistory
  import opened ResourceFiles
  import opened AccessGate
  import opened AgentDatabase
  import opened RunProtocol

  // ----- One execution

  /** The grant is this run's: for a resource of the owner, on a live card of the agent that allows reading it. */
  ghost predicate GrantOk(runId: string, agentId: string, ownerId: string, g: Grant) {
    && g.runId == runId && g.agentId == agentId
    && Accepted(g.ref) && g.ref.ownerId == ownerId
    && g.card.Some? && g.card.value.Record?
    && HoldsCardFor(agentId, "read", g.ref.uri, g.card, g.at)
  }

  /** The names, among the first `count` listed, of what some live card of the agent allows reading. */
  ghost function AllowedNames(records: map<string, CapabilityRecord>, agentId: string, since: int,
                              listing: seq<ResourceRef>, count: nat): seq<string>
    requires count <= |listing|
  {
    if count == 0 then []
    else
      AllowedNames(records, agentId, since, listing, count - 1)
      + (if LiveCardAllows(records, agentId, listing[count - 1].uri, since) then [listing[count - 1].name] else [])
  }

  ghost predicate Tally(e: Exec, count: nat) {
    && count <= |e.listing|
    && e.withheld + |e.permitted| == count
    && (e.quiet ==> e.permitted == AllowedNames(e.base.records, e.agentId, e.since, e.listing, count))
  }

  /** Phases in which the outcome of the latest pass stands. */
  predicate PassStands(phase: Phase) {
    phase.Idle? || phase.Empty? || phase.Waiting? || phase.Launching? || phase.Launched?
  }

  predicate BeforeClear(phase: Phase) {
    phase.Admitted? || phase.Started? || phase.Judged?
  }

  ghost predicate ExecOk(r: string, e: Exec) {
    && Sound(e.base)
    && InNamespace(e.ownerId, e.listing)
    && (e.clean ==> e.cleared)
    && (BeforeClear(e.phase) ==> !e.cleared && e.listing == [] && e.permitted == [] && e.withheld == 0)
    && (PassStands(e.phase) ==> e.cleared && Tally(e, |e.listing|))
    && (e.phase.Idle? || e.phase.Empty? || e.phase.Waiting? ==> e.permitted == [])
    && (e.phase.Waiting? ==> e.second) && (BeforeClear(e.phase) || e.phase.Empty? ==> !e.second)
    && (e.phase.Passing? ==> e.cleared && Tally(e, e.phase.next))
    && (e.phase.Staging? ==> StagingOk(r, e))
  }

  ghost predicate StagingOk(r: string, e: Exec)
    requires e.phase.Staging?
  {
    var n, g := e.phase.next, e.phase.grant;
    && e.cleared && n < |e.listing| && Tally(e, n)
    && g.ref == e.listing[n] && GrantOk(r, e.agentId, e.ownerId, g)
    && (e.quiet ==> LiveCardAllows(e.base.records, e.agentId, e.listing[n].uri, e.since))
  }

  lemma PermitNeedsCard(w: World, r: string, e: Exec, ref: ResourceRef)
    requires Accepted(ref) && ref.ownerId == e.ownerId && VerdictFor(w, e, ref) == Permit
    ensures var card := Lookup(w.cards.records, CardFor(StagerOf(e).granted, ref.uri));
      GrantOk(r, e.agentId, e.ownerId, Grant(r, e.agentId, ref, card, w.clock))
  {
    var card := Lookup(w.cards.records, CardFor(StagerOf(e).granted, ref.uri));
    AgentReadIsDataRead(e.agentId, e.ownerId, ref.uri, card, w.clock);
    hide Decide, ParseResourceUri, Grants, LiveFor, CardFor;
  }

  lemma DecisionIsExact(w: World, e: Exec, ref: ResourceRef)
    requires Sound(e.base) && Accepted(ref) && SameCards(e.base.records, e.since, w.cards.records, w.clock, e.agentId)
    ensures VerdictFor(w, e, ref) == Permit <==> LiveCardAllows(e.base.records, e.agentId, ref.uri, e.since)
  {
    PermittedIffSomeCard(e.base, StagerOf(e), ref, e.since, w.cards.records, w.clock);
    hide Sound, Accepted, SameCards, LiveCardAllows, StagingVerdict, LiveFor;
  }

  lemma NextIsListed(e: Exec, n: nat)
    requires InNamespace(e.ownerId, e.listing) && n < |e.listing|
    ensures Accepted(e.listing[n]) && e.listing[n].ownerId == e.ownerId
  {
    hide Accepted;
  }

  lemma DecidedIsOk(w: World, r: string, e: Exec)
    requires ExecOk(r, e) && e.phase.Passing? && e.phase.next < |e.listing|
    ensures ExecOk(r, Decided(w, r, e, e.phase.next))
  {
    hide Sound, InNamespace, GrantOk, LiveCardAllows, SameCards, VerdictFor, StagerOf, CardFor, Lookup, Accepted;
    var ref := e.listing[e.phase.next];
    NextIsListed(e, e.phase.next);
    if VerdictFor(w, e, ref) == Permit {
      PermitNeedsCard(w, r, e, ref);
    }
    if SameCards(e.base.records, e.since, w.cards.records, w.clock, e.agentId) {
      DecisionIsExact(w, e, ref);
    }
  }

  lemma StagedIsOk(r: string, e: Exec)
    requires ExecOk(r, e) && e.phase.Staging?
    ensures ExecOk(r, e.(phase := Passing(e.phase.next + 1), permitted := e.permitted + [e.phase.grant.ref.name]))
  {
    hide Sound, InNamespace, GrantOk, LiveCardAllows;
  }

  predicate IsEarly(move: Move) {
    move.Begin? || move.Reject? || move.TakeCard? || move.ClearInbox? || move.ClearFails? || move.List?
  }

  lemma EarlyMoveIsOk(w: World, r: string, e: Exec, move: Move)
    requires Sound(w.cards) && ExecOk(r, e) && IsEarly(move) && Advance(w, r, e, move).Some?
    ensures ExecOk(r, Advance(w, r, e, move).value)
  {
    hide Sound, InNamespace, StagingOk, MayExecute, OthersHaveEnded;
  }

  lemma LateMoveIsOk(w: World, r: string, e: Exec, move: Move)
    requires ExecOk(r, e) && !IsEarly(move) && !move.DecideNext? && !move.Stage? && Advance(w, r, e, move).Some?
    ensures ExecOk(r, Advance(w, r, e, move).value)
  {
    hide Sound, InNamespace, StagingOk, HoldsDataCard, AllowedNames;
  }

  lemma DecideNextIs(w: World, r: string, e: Exec)
    requires Advance(w, r, e, DecideNext).Some?
    ensures e.phase.Passing? && e.phase.next < |e.listing|
    ensures Advance(w, r, e, DecideNext).value == Decided(w, r, e, e.phase.next)
  {
    hide Decided;
  }

  lemma StageIs(w: World, r: string, e: Exec)
    requires Advance(w, r, e, Stage).Some?
    ensures e.phase.Staging?
    ensures Advance(w, r, e, Stage).value == e.(phase := Passing(e.phase.next + 1),
                                                permitted := e.permitted + [e.phase.grant.ref.name])
  {
  }

  lemma AdvanceIsOk(w: World, r: string, e: Exec, move: Move)
    requires Sound(w.cards) && ExecOk(r, e) && Advance(w, r, e, move).Some?
    ensures ExecOk(r, Advance(w, r, e, move).value)
  {
    hide *;
    if move.DecideNext? {
      DecideNextIs(w, r, e);
      DecidedIsOk(w, r, e);
    } else if move.Stage? {
      StageIs(w, r, e);
      StagedIsOk(r, e);
    } else if IsEarly(move) {
      EarlyMoveIsOk(w, r, e, move);
    } else {
      LateMoveIsOk(w, r, e, move);
    }
  }

  // ----- The database and the executions

  predicate RowOk(db: Database, r: string, e: Exec) {
    r in db.runs ==>
      var row := db.runs[r];
      && row.agentId == e.agentId
      && (e.phase.Admitted? || e.phase.Aborted? ==> row.status == Queued)
      && (Unsettled(e.phase) && !e.phase.Admitted? && !e.phase.Aborted? ==> row.status == Running)
      && (!Unsettled(e.phase) ==> !Active(row.status))
      && (BeforeClear(e.phase) || PassStands(e.phase) ==>
            row.stagedResources == e.permitted && row.withheldCount == e.withheld)
  }

  /** Every execution agrees with its run's row, and only executions are active. */
  predicate RowsOk(db: Database, execs: map<string, Exec>) {
    && (forall r | r in execs :: RowOk(db, r, execs[r]))
    && (forall r | r in db.runs && Active(db.runs[r].status) :: r in execs)
  }

  /** Nothing but this run's row and its agent's status changes, and the status only by the terminal mutations. */
  predicate TouchesOnly(db: Database, after: Database, r: string, agentId: string, terminal: bool) {
    && after.runs.Keys == db.runs.Keys && after.agents.Keys == db.agents.Keys
    && (forall other | other in db.runs && other != r :: after.runs[other] == db.runs[other])
    && (forall a | a in db.agents && a != agentId :: after.agents[a] == db.agents[a])
    && (agentId in db.agents ==>
          if !terminal then after.agents[agentId] == db.agents[agentId]
          else r in db.runs || db.agents[agentId].status != Busy ==> after.agents[agentId].status != Busy)
  }

  lemma DbStep(db: Database, r: string, e: Exec, move: Move)
    ensures TouchesOnly(db, DbAfter(db, r, e, move), r, e.agentId, move.Succeed? || move.Settle?)
  {
  }

  lemma MessageStep(w: World, r: string, e: Exec, move: Move)
    requires Referential(w.db) && Conversational(w.db) && RowOk(w.db, r, e) && Advance(w, r, e, move).Some?
    ensures Referential(DbAfter(w.db, r, e, move)) && Conversational(DbAfter(w.db, r, e, move))
  {
    hide Referential, Conversational, Decided, MayExecute, HoldsDataCard, OthersHaveEnded, InNamespace, LiveFor,
         UpdateRun, WithStatus;
    match move
    case Begin => if r in w.db.runs { UpdateKeepsMessages(w.db, r, w.db.runs[r].(status := Running)); }
    case FinishPass =>
      if r in w.db.runs {
        UpdateKeepsMessages(w.db, r, w.db.runs[r].(stagedResources := e.permitted, withheldCount := e.withheld));
      }
    case Succeed => CompleteKeepsMessages(w.db, e.agentId, r);
    case Settle => FailKeepsMessages(w.db, e.agentId, r, e.phase == Ending(true));
    case _ =>
  }

  lemma FailKeepsMessages(db: Database, agentId: string, r: string, cancelled: bool)
    requires Referential(db) && Conversational(db) && (r in db.runs ==> db.runs[r].status == Running)
    ensures Referential(Fail(db, agentId, r, cancelled).value) && Conversational(Fail(db, agentId, r, cancelled).value)
  {
    hide Referential, Conversational;
    var status := if cancelled then Cancelled else Failed;
    var marked := if r in db.runs then UpdateRun(db, r, db.runs[r].(status := status)) else db;
    if r in db.runs {
      UpdateKeepsMessages(db, r, marked.runs[r]);
    }
    if agentId in marked.agents {
      StatusKeepsMessages(marked, agentId, if cancelled then Ready else Errored);
    }
  }

  predicate WritesRow(move: Move) {
    move.Begin? || move.FinishPass? || move.Succeed? || move.Settle?
  }

  lemma WrittenRow(w: World, r: string, e: Exec, move: Move)
    requires Referential(w.db) && RowOk(w.db, r, e) && ExecOk(r, e) && WritesRow(move) && Advance(w, r, e, move).Some?
    ensures RowOk(DbAfter(w.db, r, e, move), r, Advance(w, r, e, move).value)
  {
    hide Tally, Sound;
  }

  lemma UnwrittenEarly(w: World, r: string, e: Exec, move: Move)
    requires RowOk(w.db, r, e) && ExecOk(r, e) && !WritesRow(move) && IsEarly(move) && Advance(w, r, e, move).Some?
    ensures RowOk(w.db, r, Advance(w, r, e, move).value)
  {
    hide MayExecute, OthersHaveEnded, InNamespace, StagingOk, Tally, Sound;
  }

  lemma UnwrittenLate(w: World, r: string, e: Exec, move: Move)
    requires RowOk(w.db, r, e) && ExecOk(r, e) && !WritesRow(move) && !IsEarly(move) && Advance(w, r, e, move).Some?
    ensures RowOk(w.db, r, Advance(w, r, e, move).value)
  {
    hide Decided, HoldsDataCard, InNamespace, StagingOk, Tally, Sound;
    if move.DecideNext? {
      DecidedShape(w, r, e);
    }
  }

  lemma UnwrittenRow(w: World, r: string, e: Exec, move: Move)
    requires RowOk(w.db, r, e) && ExecOk(r, e) && !WritesRow(move) && Advance(w, r, e, move).Some?
    ensures RowOk(w.db, r, Advance(w, r, e, move).value)
  {
    hide *;
    if IsEarly(move) {
      UnwrittenEarly(w, r, e, move);
    } else {
      UnwrittenLate(w, r, e, move);
    }
  }

  lemma RowStep(w: World, r: string, e: Exec, move: Move)
    requires Referential(w.db) && RowOk(w.db, r, e) && ExecOk(r, e) && Advance(w, r, e, move).Some?
    ensures RowOk(DbAfter(w.db, r, e, move), r, Advance(w, r, e, move).value)
  {
    hide Referential, RowOk, ExecOk, Advance;
    if WritesRow(move) {
      WrittenRow(w, r, e, move);
    } else {
      UnwrittenRow(w, r, e, move);
    }
  }

  lemma DecidedShape(w: World, r: string, e: Exec)
    requires e.phase.Passing? && e.phase.next < |e.listing|
    ensures var after := Decided(w, r, e, e.phase.next);
      && (after.phase.Passing? || after.phase.Staging?)
      && after == e.(phase := after.phase, quiet := after.quiet, withheld := after.withheld)
  {
    hide VerdictFor, SameCards, StagerOf, CardFor, Lookup;
  }

  lemma RowsStep(db: Database, after: Database, execs: map<string, Exec>, r: string, e: Exec, terminal: bool)
    requires RowsOk(db, execs) && r in execs && TouchesOnly(db, after, r, e.agentId, terminal) && RowOk(after, r, e)
    ensures RowsOk(after, execs[r := e])
  {
  }

  lemma DoKeepsRows(w: World, r: string, move: Move)
    requires Referential(w.db) && RowsOk(w.db, w.execs) && r in w.execs && ExecOk(r, w.execs[r])
    requires Advance(w, r, w.execs[r], move).Some?
    ensures RowsOk(DoMove(w, r, move).db, DoMove(w, r, move).execs)
  {
    var e := w.execs[r];
    DbStep(w.db, r, e, move);
    RowStep(w, r, e, move);
    AgentIsKept(w, r, e, move);
    RowsStep(w.db, DbAfter(w.db, r, e, move), w.execs, r, Advance(w, r, e, move).value, move.Succeed? || move.Settle?);
    hide Referential, ExecOk, Advance, DbAfter, Apply, InboxesAfter, DenialsAfter, TouchesOnly, RowOk;
  }

  /** An execution never changes whose it is. */
  lemma AgentIsKept(w: World, r: string, e: Exec, move: Move)
    requires Advance(w, r, e, move).Some?
    ensures Advance(w, r, e, move).value.agentId == e.agentId && Advance(w, r, e, move).value.ownerId == e.ownerId
  {
    hide MayExecute, HoldsDataCard, OthersHaveEnded, InNamespace, VerdictFor, SameCards, StagerOf, CardFor, Lookup;
  }

  // ----- Busy agents and their latest run

  /** A busy agent's latest run is on its way; and unless the agent was stopped or deleted under a run, it is the
      only one. */
  predicate BusyOk(db: Database, execs: map<string, Exec>, latest: map<string, string>, disturbed: set<string>) {
    && (forall r | r in execs :: execs[r].agentId in latest)
    && (forall a | a in latest :: latest[a] in execs && execs[latest[a]].agentId == a)
    && (forall a | a in db.agents && db.agents[a].status == Busy ::
          a in latest && Unsettled(execs[latest[a]].phase) && latest[a] in db.runs)
    && (forall r | r in execs && Unsettled(execs[r].phase) && execs[r].agentId !in disturbed ::
          var a := execs[r].agentId; a in db.agents && db.agents[a].status == Busy && latest[a] == r)
  }

  predicate Terminal(move: Move) {
    move.Succeed? || move.Settle?
  }

  predicate EndsIt(move: Move) {
    move.Reject? || move.Wipe? || move.WipeFails?
  }

  lemma PhaseStep(w: World, r: string, e: Exec, move: Move)
    requires Advance(w, r, e, move).Some?
    ensures var after := Advance(w, r, e, move).value;
      && (Terminal(move) ==> Unsettled(e.phase) && !Unsettled(after.phase))
      && (!Terminal(move) ==> (Unsettled(e.phase) <==> Unsettled(after.phase)))
      && !Ended(e.phase) && (Ended(after.phase) <==> EndsIt(move)) && (Wiped(after.phase) <==> move == Wipe)
      && (!Unsettled(e.phase) ==> move == Wipe || move.WipeFails?)
  {
    hide MayExecute, HoldsDataCard, OthersHaveEnded, InNamespace, VerdictFor, SameCards, StagerOf, CardFor, Lookup;
  }

  lemma BusyStep(db: Database, after: Database, execs: map<string, Exec>, r: string, e: Exec, terminal: bool,
                 latest: map<string, string>, disturbed: set<string>)
    requires BusyOk(db, execs, latest, disturbed) && r in execs && e.agentId == execs[r].agentId
    requires TouchesOnly(db, after, r, e.agentId, terminal)
    requires terminal ==> Unsettled(execs[r].phase) && !Unsettled(e.phase)
    requires !terminal ==> (Unsettled(execs[r].phase) <==> Unsettled(e.phase))
    ensures BusyOk(after, execs[r := e], latest, disturbed)
  {
    hide Unsettled;
  }

  // ----- Inboxes

  /** Every staged file was permitted to a run of the inbox's agent that has not wiped. */
  ghost predicate InboxOk(inboxes: map<string, Files>, execs: map<string, Exec>) {
    forall a, n | a in inboxes && n in inboxes[a] :: FileOk(a, n, inboxes[a][n], execs)
  }

  predicate NoneHasWiped(a: string, execs: map<string, Exec>) {
    forall r | r in execs && execs[r].agentId == a :: !Wiped(execs[r].phase)
  }

  ghost predicate FileOk(a: string, n: string, p: Provenance, execs: map<string, Exec>) {
    match p
    case Leftover => NoneHasWiped(a, execs)
    case Granted(g) =>
      && g.ref.name == n && g.runId in execs && execs[g.runId].agentId == a && !Wiped(execs[g.runId].phase)
      && GrantOk(g.runId, a, execs[g.runId].ownerId, g)
  }

  predicate Own(files: Files, r: string, permitted: seq<string>) {
    forall n | n in files :: files[n].Granted? && files[n].grant.runId == r && n in permitted
  }

  predicate Whole(files: Files, permitted: seq<string>) {
    forall i | 0 <= i < |permitted| :: permitted[i] in files
  }

  predicate OthersSettled(execs: map<string, Exec>, runId: string, agentId: string) {
    forall r | r in execs && r != runId && execs[r].agentId == agentId :: !Unsettled(execs[r].phase)
  }

  /** The agent's inbox belongs to its latest run `r`. */
  predicate AgentOk(a: string, r: string, execs: map<string, Exec>, files: Files, disturbed: bool) {
    r in execs &&
    var e := execs[r];
    && e.agentId == a
    && (e.clean ==> OthersHaveEnded(execs, r, a))
    && (!disturbed ==> OthersSettled(execs, r, a))
    && ((e.clean || !disturbed) && e.cleared && !Ended(e.phase) ==> Own(files, r, e.permitted))
    && (e.clean && !Ended(e.phase) ==> Whole(files, e.permitted))
  }

  predicate LatestOk(execs: map<string, Exec>, inboxes: map<string, Files>, latest: map<string, string>,
                     disturbed: set<string>) {
    forall a | a in latest :: AgentOk(a, latest[a], execs, FilesOf(inboxes, a), a in disturbed)
  }

  /** A move of another agent's execution. */
  lemma OtherAgentMoves(a: string, l: string, execs: map<string, Exec>, files: Files, disturbed: bool, r: string,
                        e: Exec)
    requires AgentOk(a, l, execs, files, disturbed) && r in execs && execs[r].agentId == e.agentId != a
    ensures AgentOk(a, l, execs[r := e], files, disturbed)
  {
    hide Own, Whole;
  }

  predicate Fewer(after: Files, before: Files) {
    forall n | n in after :: n in before && after[n] == before[n]
  }

  /** A move of an earlier run of the same agent: if anything is claimed of the inbox, it can only be the final wipe. */
  lemma EarlierRunMoves(a: string, l: string, execs: map<string, Exec>, files: Files, after: Files, disturbed: bool,
                        r: string, e: Exec)
    requires AgentOk(a, l, execs, files, disturbed) && r in execs && r != l && execs[r].agentId == e.agentId == a
    requires !Ended(execs[r].phase)
    requires Unsettled(execs[r].phase) || (!Unsettled(e.phase) && Fewer(after, files))
    ensures AgentOk(a, l, execs[r := e], after, disturbed)
  {
    hide Whole;
  }

  /** The moves that touch neither the inbox nor what the execution claims of it. */
  lemma InboxIsUntouched(w: World, r: string, e: Exec, move: Move)
    requires ExecOk(r, e) && Advance(w, r, e, move).Some?
    requires !move.ClearInbox? && !move.ClearFails? && !move.Stage? && !move.Wipe? && !move.WipeFails?
    ensures var after := Advance(w, r, e, move).value;
      && InboxesAfter(w, e, move) == w.inboxes
      && after.permitted == e.permitted && after.cleared == e.cleared && after.clean == e.clean
  {
    hide MayExecute, HoldsDataCard, OthersHaveEnded, InNamespace, StagingOk, Tally, Sound, Decided;
    if move.DecideNext? {
      DecidedShape(w, r, e);
    }
  }

  lemma OthersStay(execs: map<string, Exec>, r: string, a: string, e: Exec)
    ensures OthersHaveEnded(execs[r := e], r, a) == OthersHaveEnded(execs, r, a)
    ensures OthersSettled(execs[r := e], r, a) == OthersSettled(execs, r, a)
  {
    hide Unsettled;
    var after := execs[r := e];
    assert forall q | q in execs && q != r :: after[q] == execs[q];
    assert forall q | q in after && q != r :: q in execs && after[q] == execs[q];
  }

  // A move of the latest run itself, as `after`.

  lemma LatestPasses(a: string, r: string, execs: map<string, Exec>, files: Files, disturbed: bool, after: Exec)
    requires AgentOk(a, r, execs, files, disturbed) && !Ended(execs[r].phase)
    requires var e := execs[r];
      after.agentId == e.agentId && after.permitted == e.permitted && after.cleared == e.cleared
        && after.clean == e.clean
    ensures AgentOk(a, r, execs[r := after], files, disturbed)
  {
    OthersStay(execs, r, a, after);
    hide OthersHaveEnded, OthersSettled, Own, Whole;
  }

  lemma LatestStages(a: string, r: string, execs: map<string, Exec>, files: Files, disturbed: bool, after: Exec)
    requires AgentOk(a, r, execs, files, disturbed) && execs[r].phase.Staging?
    requires var e := execs[r];
      e.phase.grant.runId == r && e.cleared &&
      after == e.(phase := Passing(e.phase.next + 1), permitted := e.permitted + [e.phase.grant.ref.name])
    ensures AgentOk(a, r, execs[r := after], files[execs[r].phase.grant.ref.name := Granted(execs[r].phase.grant)],
                    disturbed)
  {
    OthersStay(execs, r, a, after);
    hide OthersHaveEnded, OthersSettled;
  }

  lemma LatestClears(a: string, r: string, execs: map<string, Exec>, files: Files, disturbed: bool, after: Exec)
    requires AgentOk(a, r, execs, files, disturbed)
    requires after == execs[r].(phase := Idle, cleared := true, clean := OthersHaveEnded(execs, r, a))
    requires after.permitted == []
    ensures AgentOk(a, r, execs[r := after], map[], disturbed)
  {
    OthersStay(execs, r, a, after);
    hide OthersHaveEnded, OthersSettled;
  }

  lemma LatestEnds(a: string, r: string, execs: map<string, Exec>, files: Files, left: Files, disturbed: bool,
                   after: Exec)
    requires AgentOk(a, r, execs, files, disturbed) && Ended(after.phase) && after == execs[r].(phase := after.phase)
    ensures AgentOk(a, r, execs[r := after], left, disturbed)
  {
    OthersStay(execs, r, a, after);
    hide OthersHaveEnded, OthersSettled, Own, Whole;
  }

  /** Before the clear nothing is claimed of the inbox. */
  lemma LatestFailsToClear(a: string, r: string, execs: map<string, Exec>, files: Files, left: Files, disturbed: bool,
                           after: Exec)
    requires AgentOk(a, r, execs, files, disturbed) && !execs[r].cleared && !execs[r].clean
    requires after == execs[r].(phase := after.phase)
    ensures AgentOk(a, r, execs[r := after], left, disturbed)
  {
    OthersStay(execs, r, a, after);
    hide OthersHaveEnded, OthersSettled, Own, Whole;
  }

  lemma StageMove(w: World, r: string, e: Exec)
    requires ExecOk(r, e) && Advance(w, r, e, Stage).Some?
    ensures e.phase.Staging? && e.cleared && e.phase.grant.runId == r
    ensures Advance(w, r, e, Stage).value == e.(phase := Passing(e.phase.next + 1),
                                                permitted := e.permitted + [e.phase.grant.ref.name])
    ensures FilesOf(InboxesAfter(w, e, Stage), e.agentId)
         == FilesOf(w.inboxes, e.agentId)[e.phase.grant.ref.name := Granted(e.phase.grant)]
  {
    hide InNamespace, Tally, Sound, Accepted, HoldsCardFor;
  }

  lemma ClearMove(w: World, r: string, e: Exec)
    requires ExecOk(r, e) && Advance(w, r, e, ClearInbox).Some?
    ensures var after := Advance(w, r, e, ClearInbox).value;
      if e.agentId in w.cancelling
      then after == e.(phase := Ending(true)) && InboxesAfter(w, e, ClearInbox) == w.inboxes
      else && after == e.(phase := Idle, cleared := true, clean := OthersHaveEnded(w.execs, r, e.agentId))
           && e.permitted == []
           && FilesOf(InboxesAfter(w, e, ClearInbox), e.agentId) == map[]
    ensures e.phase == Judged
  {
    hide InNamespace, Tally, Sound, StagingOk, OthersHaveEnded;
  }

  lemma WipeMove(w: World, r: string, e: Exec)
    requires Advance(w, r, e, Wipe).Some?
    ensures e.phase.Wiping? && Advance(w, r, e, Wipe).value == e.(phase := Done(e.phase.settled, true))
    ensures Ended(Done(e.phase.settled, true))
    ensures InboxesAfter(w, e, Wipe) == w.inboxes - {e.agentId}
    ensures FilesOf(InboxesAfter(w, e, Wipe), e.agentId) == map[]
  {
  }

  /** A removal that fails takes away at most some files. */
  lemma FailedRemoval(w: World, r: string, e: Exec, move: Move)
    requires Advance(w, r, e, move).Some? && (move.WipeFails? || move.ClearFails?)
    ensures var after := Advance(w, r, e, move).value;
      && after == e.(phase := after.phase)
      && FilesOf(InboxesAfter(w, e, move), e.agentId) == Remaining(FilesOf(w.inboxes, e.agentId), move.kept)
      && (move.WipeFails? ==> e.phase.Wiping? && after.phase == Done(e.phase.settled, false) && Ended(after.phase))
      && (move.ClearFails? ==> e.phase == Judged && after.phase == Ending(false))
    ensures Fewer(Remaining(FilesOf(w.inboxes, e.agentId), move.kept), FilesOf(w.inboxes, e.agentId))
  {
  }

  lemma JudgedIsBeforeClear(r: string, e: Exec)
    requires ExecOk(r, e) && e.phase == Judged
    ensures !e.cleared && !e.clean
  {
  }

  lemma LatestRunMoves(w: World, r: string, move: Move, disturbed: bool)
    requires r in w.execs && ExecOk(r, w.execs[r]) && Advance(w, r, w.execs[r], move).Some?
    requires AgentOk(w.execs[r].agentId, r, w.execs, FilesOf(w.inboxes, w.execs[r].agentId), disturbed)
    ensures var e := Advance(w, r, w.execs[r], move).value;
      AgentOk(e.agentId, r, w.execs[r := e], FilesOf(InboxesAfter(w, w.execs[r], move), e.agentId), disturbed)
  {
    hide *;
    var e, after := w.execs[r], Advance(w, r, w.execs[r], move).value;
    var files := FilesOf(w.inboxes, e.agentId);
    AgentIsKept(w, r, e, move);
    PhaseStep(w, r, e, move);
    if move.Stage? {
      StageMove(w, r, e);
      LatestStages(e.agentId, r, w.execs, files, disturbed, after);
    } else if move.ClearInbox? && e.agentId !in w.cancelling {
      ClearMove(w, r, e);
      LatestClears(e.agentId, r, w.execs, files, disturbed, after);
    } else if move.Wipe? {
      WipeMove(w, r, e);
      LatestEnds(e.agentId, r, w.execs, files, map[], disturbed, after);
    } else if move.WipeFails? {
      FailedRemoval(w, r, e, move);
      LatestEnds(e.agentId, r, w.execs, files, Remaining(files, move.kept), disturbed, after);
    } else if move.ClearFails? {
      FailedRemoval(w, r, e, move);
      JudgedIsBeforeClear(r, e);
      LatestFailsToClear(e.agentId, r, w.execs, files, Remaining(files, move.kept), disturbed, after);
    } else {
      if move.ClearInbox? { ClearMove(w, r, e); } else { InboxIsUntouched(w, r, e, move); }
      LatestPasses(e.agentId, r, w.execs, files, disturbed, after);
    }
  }

  /** A step of an execution leaves every other agent's inbox alone. */
  lemma OtherInboxesStay(w: World, e: Exec, move: Move, a: string)
    requires a != e.agentId
    ensures FilesOf(InboxesAfter(w, e, move), a) == FilesOf(w.inboxes, a)
  {
  }

  /** All a settled execution still does is wipe. */
  lemma SettledMoves(w: World, r: string, e: Exec, move: Move)
    requires Advance(w, r, e, move).Some? && !Unsettled(e.phase)
    ensures Fewer(FilesOf(InboxesAfter(w, e, move), e.agentId), FilesOf(w.inboxes, e.agentId))
    ensures !Unsettled(Advance(w, r, e, move).value.phase)
  {
    PhaseStep(w, r, e, move);
    hide Advance;
  }

  lemma DoKeepsLatest(w: World, r: string, move: Move)
    requires r in w.execs && ExecOk(r, w.execs[r]) && Advance(w, r, w.execs[r], move).Some?
    requires LatestOk(w.execs, w.inboxes, w.latest, w.disturbed)
    ensures LatestOk(DoMove(w, r, move).execs, DoMove(w, r, move).inboxes, w.latest, w.disturbed)
  {
    var e, after := w.execs[r], Advance(w, r, w.execs[r], move).value;
    var inboxes: map<string, Files> := InboxesAfter(w, e, move);
    AgentIsKept(w, r, e, move);
    PhaseStep(w, r, e, move);
    hide ExecOk, Advance, AgentOk, FilesOf, InboxesAfter, DbAfter, DenialsAfter, Apply;
    forall a | a in w.latest
      ensures AgentOk(a, w.latest[a], w.execs[r := after], FilesOf(inboxes, a), a in w.disturbed)
    {
      if a != e.agentId {
        OtherInboxesStay(w, e, move, a);
        OtherAgentMoves(a, w.latest[a], w.execs, FilesOf(w.inboxes, a), a in w.disturbed, r, after);
      } else if w.latest[a] == r {
        LatestRunMoves(w, r, move, a in w.disturbed);
      } else {
        if !Unsettled(e.phase) { SettledMoves(w, r, e, move); }
        EarlierRunMoves(a, w.latest[a], w.execs, FilesOf(w.inboxes, a), FilesOf(inboxes, a), a in w.disturbed, r,
                        after);
      }
    }
  }

  lemma StagedFileIsOk(inboxes: map<string, Files>, execs: map<string, Exec>, r: string, after: Exec, g: Grant)
    requires InboxOk(inboxes, execs) && r in execs && after.agentId == execs[r].agentId
    requires after.ownerId == execs[r].ownerId
    requires GrantOk(r, after.agentId, after.ownerId, g) && !Wiped(after.phase)
    ensures InboxOk(inboxes[after.agentId := FilesOf(inboxes, after.agentId)[g.ref.name := Granted(g)]],
                    execs[r := after])
  {
    hide Accepted, HoldsCardFor;
  }

  lemma FewerFilesAreOk(inboxes: map<string, Files>, execs: map<string, Exec>, r: string, after: Exec)
    requires InboxOk(inboxes, execs) && r in execs && after.agentId == execs[r].agentId
    requires after.ownerId == execs[r].ownerId
    ensures !Wiped(after.phase) ==> InboxOk(inboxes, execs[r := after])
    ensures InboxOk(inboxes - {after.agentId}, execs[r := after])
  {
    hide GrantOk;
  }

  lemma RemainingFilesAreOk(inboxes: map<string, Files>, execs: map<string, Exec>, a: string, kept: set<string>)
    requires InboxOk(inboxes, execs)
    ensures InboxOk(inboxes[a := Remaining(FilesOf(inboxes, a), kept)], execs)
  {
    hide GrantOk;
  }

  lemma StagingGrant(w: World, r: string, e: Exec)
    requires ExecOk(r, e) && Advance(w, r, e, Stage).Some?
    ensures e.phase.Staging? && GrantOk(r, e.agentId, e.ownerId, e.phase.grant)
    ensures InboxesAfter(w, e, Stage)
         == w.inboxes[e.agentId := FilesOf(w.inboxes, e.agentId)[e.phase.grant.ref.name := Granted(e.phase.grant)]]
  {
    hide InNamespace, Tally, Sound, GrantOk;
  }

  lemma InboxMoves(w: World, e: Exec, move: Move)
    requires !move.Stage?
    ensures InboxesAfter(w, e, move) ==
        if move.WipeFails? || move.ClearFails?
        then w.inboxes[e.agentId := Remaining(FilesOf(w.inboxes, e.agentId), move.kept)]
        else if move.Wipe? || (move.ClearInbox? && e.agentId !in w.cancelling) then w.inboxes - {e.agentId}
        else w.inboxes
  {
  }

  lemma DoKeepsInboxes(w: World, r: string, move: Move)
    requires r in w.execs && ExecOk(r, w.execs[r]) && Advance(w, r, w.execs[r], move).Some?
    requires InboxOk(w.inboxes, w.execs)
    ensures InboxOk(DoMove(w, r, move).inboxes, DoMove(w, r, move).execs)
  {
    var e, after := w.execs[r], Advance(w, r, w.execs[r], move).value;
    AgentIsKept(w, r, e, move);
    PhaseStep(w, r, e, move);
    hide ExecOk, Advance, InboxesAfter, DbAfter, DenialsAfter, Apply, InboxOk, FilesOf, GrantOk, Remaining;
    if move.Stage? {
      StagingGrant(w, r, e);
      StagedFileIsOk(w.inboxes, w.execs, r, after, e.phase.grant);
    } else {
      InboxMoves(w, e, move);
      FewerFilesAreOk(w.inboxes, w.execs, r, after);
      if move.WipeFails? || move.ClearFails? {
        RemainingFilesAreOk(w.inboxes, w.execs[r := after], e.agentId, move.kept);
      }
    }
  }

  // ----- The invariant

  ghost predicate ExecsOk(execs: map<string, Exec>) {
    forall r | r in execs :: ExecOk(r, execs[r])
  }

  ghost predicate Good(w: World) {
    && Referential(w.db) && Conversational(w.db)
    && Sound(w.cards)
    && ExecsOk(w.execs)
    && RowsOk(w.db, w.execs)
    && BusyOk(w.db, w.execs, w.latest, w.disturbed)
    && InboxOk(w.inboxes, w.execs)
    && LatestOk(w.execs, w.inboxes, w.latest, w.disturbed)
  }

  lemma GoodParts(w: World)
    requires Good(w)
    ensures Referential(w.db) && Conversational(w.db) && Sound(w.cards) && ExecsOk(w.execs) && RowsOk(w.db, w.execs)
    ensures BusyOk(w.db, w.execs, w.latest, w.disturbed) && InboxOk(w.inboxes, w.execs)
    ensures LatestOk(w.execs, w.inboxes, w.latest, w.disturbed)
  {
  }

  lemma GoodWhole(w: World)
    requires Referential(w.db) && Conversational(w.db) && Sound(w.cards) && ExecsOk(w.execs) && RowsOk(w.db, w.execs)
    requires BusyOk(w.db, w.execs, w.latest, w.disturbed) && InboxOk(w.inboxes, w.execs)
    requires LatestOk(w.execs, w.inboxes, w.latest, w.disturbed)
    ensures Good(w)
  {
  }

  lemma ExecIsOk(w: World, r: string)
    requires Good(w) && r in w.execs
    ensures ExecOk(r, w.execs[r])
  {
    hide Referential, Conversational, Sound, RowsOk, BusyOk, InboxOk, LatestOk, ExecOk;
  }

  lemma DoKeepsBusy(w: World, r: string, move: Move)
    requires r in w.execs && Advance(w, r, w.execs[r], move).Some? && BusyOk(w.db, w.execs, w.latest, w.disturbed)
    ensures BusyOk(DoMove(w, r, move).db, DoMove(w, r, move).execs, w.latest, w.disturbed)
  {
    var e, after := w.execs[r], Advance(w, r, w.execs[r], move).value;
    AgentIsKept(w, r, e, move);
    PhaseStep(w, r, e, move);
    DbStep(w.db, r, e, move);
    hide Advance, DbAfter, BusyOk, TouchesOnly, InboxesAfter, DenialsAfter, Apply;
    BusyStep(w.db, DbAfter(w.db, r, e, move), w.execs, r, after, Terminal(move), w.latest, w.disturbed);
  }

  lemma DoIsGood(w: World, r: string, move: Move)
    requires Good(w) && r in w.execs && Advance(w, r, w.execs[r], move).Some?
    ensures Good(DoMove(w, r, move))
  {
    hide Referential, Conversational, Sound, ExecOk, BusyOk, InboxOk, LatestOk, Advance, DbAfter, InboxesAfter,
         DenialsAfter, Apply, RowOk;
    assert RowOk(w.db, r, w.execs[r]);
    hide RowsOk;
    AdvanceIsOk(w, r, w.execs[r], move);
    MessageStep(w, r, w.execs[r], move);
    if move.TakeCard? {
      ApplyIsSound(w.cards, CardOp(w, r, w.execs[r], move.id));
    }
    DoKeepsRows(w, r, move);
    DoKeepsBusy(w, r, move);
    DoKeepsInboxes(w, r, move);
    DoKeepsLatest(w, r, move);
  }

  lemma NewAgentIsGood(w: World, id: string, ownerId: string)
    requires Good(w) && FreshAgent(w, id)
    ensures Good(w.(db := CreateAgent(w.db, id, ownerId).value))
  {
    hide Count, Sound, ExecsOk, InboxOk, LatestOk, Unsettled;
  }

  /** What becomes of the other agents when `id` is set to rest or removed. */
  predicate OnlyRests(db: Database, after: Database, execs: map<string, Exec>, id: string) {
    && (id in after.agents ==> after.agents[id].status != Busy)
    && (forall a | a in db.agents.Keys + after.agents.Keys - {id} :: a in db.agents && a in after.agents)
    && (forall a | a != id && a in db.agents :: after.agents[a] == db.agents[a])
    && (forall r | r in execs && r in db.runs && execs[r].agentId != id :: r in after.runs)
  }

  lemma RestingIsOk(db: Database, after: Database, execs: map<string, Exec>, latest: map<string, string>,
                    disturbed: set<string>, more: set<string>, id: string)
    requires BusyOk(db, execs, latest, disturbed) && OnlyRests(db, after, execs, id) && disturbed <= more
    requires id !in more ==> forall r | r in execs && execs[r].agentId == id :: !Unsettled(execs[r].phase)
    ensures BusyOk(after, execs, latest, more)
  {
    hide Unsettled;
  }

  lemma StartIs(w: World, id: string)
    requires Start(w.db, id).Some? && BusyOk(w.db, w.execs, w.latest, w.disturbed)
    ensures id in w.db.agents && Start(w.db, id).value == WithStatus(w.db, id, Ready)
    ensures id !in w.disturbed ==> forall r | r in w.execs && w.execs[r].agentId == id :: !Unsettled(w.execs[r].phase)
  {
    hide Unsettled;
  }

  lemma StartIsGood(w: World, id: string)
    requires Good(w) && Start(w.db, id).Some?
    ensures Good(w.(db := Start(w.db, id).value))
  {
    hide *;
    GoodParts(w);
    StartIs(w, id);
    StatusKeepsMessages(w.db, id, Ready);
    StatusRows(w.db, w.execs, id, Ready);
    RestingIsOk(w.db, Start(w.db, id).value, w.execs, w.latest, w.disturbed, w.disturbed, id);
    GoodWhole(w.(db := Start(w.db, id).value));
  }

  lemma CalmAgentHasNoExec(w: World, id: string)
    requires Good(w) && id !in Disturb(w, id)
    ensures forall r | r in w.execs && w.execs[r].agentId == id :: !Unsettled(w.execs[r].phase)
  {
    hide Count, Sound, ExecsOk, InboxOk, LatestOk;
  }

  lemma DisturbingIsOk(w: World, id: string)
    requires LatestOk(w.execs, w.inboxes, w.latest, w.disturbed)
    ensures LatestOk(w.execs, w.inboxes, w.latest, Disturb(w, id)) && w.disturbed <= Disturb(w, id)
  {
    hide Own, Whole, OthersHaveEnded, OthersSettled, HasActiveRun;
  }

  lemma StatusRows(db: Database, execs: map<string, Exec>, id: string, status: AgentStatus)
    requires RowsOk(db, execs) && id in db.agents && status != Busy
    ensures RowsOk(WithStatus(db, id, status), execs) && OnlyRests(db, WithStatus(db, id, status), execs, id)
  {
    hide Unsettled;
  }

  lemma StopIs(db: Database, id: string)
    requires Stop(db, id).Some?
    ensures id in db.agents && Stop(db, id).value == WithStatus(db, id, Stopped)
  {
  }

  lemma StopIsGood(w: World, id: string)
    requires Good(w) && Stop(w.db, id).Some?
    ensures Good(w.(disturbed := Disturb(w, id), db := Stop(w.db, id).value))
  {
    hide *;
    GoodParts(w);
    StopIs(w.db, id);
    StatusKeepsMessages(w.db, id, Stopped);
    DisturbingIsOk(w, id);
    if id !in Disturb(w, id) {
      CalmAgentHasNoExec(w, id);
    }
    StatusRows(w.db, w.execs, id, Stopped);
    RestingIsOk(w.db, Stop(w.db, id).value, w.execs, w.latest, w.disturbed, Disturb(w, id), id);
    GoodWhole(w.(disturbed := Disturb(w, id), db := Stop(w.db, id).value));
  }

  lemma DeletedRows(db: Database, execs: map<string, Exec>, id: string)
    requires RowsOk(db, execs)
    ensures Delete(db, id).Some? && RowsOk(Delete(db, id).value, execs)
    ensures OnlyRests(db, Delete(db, id).value, execs, id)
  {
    hide Others, Unsettled;
  }

  lemma DeleteIsGood(w: World, id: string)
    requires Good(w)
    ensures Good(w.(disturbed := Disturb(w, id), db := Delete(w.db, id).value))
  {
    hide *;
    GoodParts(w);
    DeleteKeepsMessages(w.db, id);
    DisturbingIsOk(w, id);
    if id !in Disturb(w, id) {
      CalmAgentHasNoExec(w, id);
    }
    DeletedRows(w.db, w.execs, id);
    RestingIsOk(w.db, Delete(w.db, id).value, w.execs, w.latest, w.disturbed, Disturb(w, id), id);
    GoodWhole(w.(disturbed := Disturb(w, id), db := Delete(w.db, id).value));
  }

  // ----- An admission

  lemma NewExecIsOk(r: string, agentId: string, ownerId: string)
    ensures ExecOk(r, NewExec(agentId, ownerId))
  {
  }

  lemma SendKeepsBusy(db: Database, execs: map<string, Exec>, latest: map<string, string>, disturbed: set<string>,
                      a: string, r: string, e: Exec)
    requires BusyOk(db, execs, latest, disturbed) && r !in execs && r !in db.runs && Admit(db, a, r).Some?
    requires e.agentId == a && Unsettled(e.phase)
    ensures BusyOk(Admit(db, a, r).value, execs[r := e], latest[a := r], disturbed)
  {
    hide Unsettled;
  }

  lemma SendKeepsOthers(a: string, l: string, execs: map<string, Exec>, files: Files, disturbed: bool, r: string,
                        e: Exec)
    requires AgentOk(a, l, execs, files, disturbed) && r !in execs && e.agentId != a
    ensures AgentOk(a, l, execs[r := e], files, disturbed)
  {
    hide Own, Whole, Unsettled;
  }

  lemma SendKeepsLatest(w: World, a: string, r: string, e: Exec)
    requires LatestOk(w.execs, w.inboxes, w.latest, w.disturbed) && r !in w.execs
    requires e.agentId == a && !e.cleared && !e.clean && e.phase == Admitted
    requires a !in w.disturbed ==> OthersSettled(w.execs, r, a)
    ensures LatestOk(w.execs[r := e], w.inboxes, w.latest[a := r], w.disturbed)
  {
    var execs := w.execs[r := e];
    forall b | b in w.latest[a := r]
      ensures AgentOk(b, w.latest[a := r][b], execs, FilesOf(w.inboxes, b), b in w.disturbed)
    {
      if b != a {
        SendKeepsOthers(b, w.latest[b], w.execs, FilesOf(w.inboxes, b), b in w.disturbed, r, e);
      } else {
        OthersStay(w.execs, r, a, e);
        hide OthersSettled, OthersHaveEnded, Own, Whole, LatestOk, FilesOf;
      }
    }
  }

  lemma SendKeepsRows(db: Database, execs: map<string, Exec>, a: string, r: string)
    requires RowsOk(db, execs) && r !in execs && r !in db.runs && Admit(db, a, r).Some?
    ensures RowsOk(Admit(db, a, r).value, execs[r := NewExec(a, db.agents[a].ownerId)])
  {
  }

  lemma SendKeepsInboxes(inboxes: map<string, Files>, execs: map<string, Exec>, r: string, e: Exec)
    requires InboxOk(inboxes, execs) && r !in execs && !Wiped(e.phase)
    ensures InboxOk(inboxes, execs[r := e])
  {
    hide GrantOk;
  }

  lemma IdleAgentHasNoExec(w: World, a: string, r: string)
    requires BusyOk(w.db, w.execs, w.latest, w.disturbed) && a in w.db.agents && w.db.agents[a].status != Busy
    requires a !in w.disturbed
    ensures OthersSettled(w.execs, r, a)
  {
    hide Unsettled;
  }

  lemma SendIs(w: World, a: string, r: string)
    requires Step(w, Send(a, r)).Some?
    ensures a in w.db.agents && w.db.agents[a].status != Busy && r !in w.execs && r !in w.db.runs && r !in w.used
    ensures Admit(w.db, a, r).Some?
    ensures Step(w, Send(a, r)).value
         == w.(db := Admit(w.db, a, r).value, execs := w.execs[r := NewExec(a, w.db.agents[a].ownerId)],
               latest := w.latest[a := r],
               used := w.used + {r})
  {
    hide NewExec;
  }

  lemma NewExecIs(a: string, ownerId: string)
    ensures var e := NewExec(a, ownerId);
      e.agentId == a && !e.cleared && !e.clean && e.phase == Admitted && !Wiped(e.phase) && Unsettled(e.phase)
  {
  }

  lemma MoreExecsAreOk(execs: map<string, Exec>, r: string, e: Exec)
    requires ExecsOk(execs) && ExecOk(r, e)
    ensures ExecsOk(execs[r := e])
  {
    hide ExecOk;
  }

  lemma SendIsGood(w: World, a: string, r: string)
    requires Good(w) && Step(w, Send(a, r)).Some?
    ensures Good(Step(w, Send(a, r)).value)
  {
    hide *;
    GoodParts(w);
    SendIs(w, a, r);
    var e := NewExec(a, w.db.agents[a].ownerId);
    NewExecIs(a, w.db.agents[a].ownerId);
    NewExecIsOk(r, a, w.db.agents[a].ownerId);
    MoreExecsAreOk(w.execs, r, e);
    AdmitKeepsMessages(w.db, a, r);
    SendKeepsBusy(w.db, w.execs, w.latest, w.disturbed, a, r, e);
    if a !in w.disturbed {
      IdleAgentHasNoExec(w, a, r);
    }
    SendKeepsLatest(w, a, r, e);
    SendKeepsRows(w.db, w.execs, a, r);
    SendKeepsInboxes(w.inboxes, w.execs, r, e);
    GoodWhole(Step(w, Send(a, r)).value);
  }

  // ----- Every event, and every run of the service

  lemma StepIsGood(w: World, event: Event)
    requires Good(w) && Step(w, event).Some?
    ensures Good(Step(w, event).value)
  {
    hide Referential, Conversational, Sound, ExecsOk, RowsOk, BusyOk, InboxOk, LatestOk, Admit, Start, Stop, Delete,
         CreateAgent, DoMove, Advance, Apply, Disturb,
         FreshAgent, FreshId;
    match event
    case Tick(_) =>
    case Keycard(op) => ApplyIsSound(w.cards, op);
    case Cancelling(_, _) =>
    case Refuse(_, _) =>
    case NewAgent(id, ownerId) => NewAgentIsGood(w, id, ownerId);
    case StartAgent(id) => StartIsGood(w, id);
    case StopAgent(id) => StopIsGood(w, id);
    case DeleteAgent(id) => DeleteIsGood(w, id);
    case Send(a, r) => SendIsGood(w, a, r);
    case Do(r, move) => DoIsGood(w, r, move);
  }

  lemma StartUpIsGood(db: Database, clock: int, inboxes: map<string, set<string>>)
    requires Referential(db) && Conversational(db)
    ensures Good(StartUp(db, clock, inboxes))
  {
    hide Count;
  }

  lemma {:induction false} ReachedIsGood(w: World, events: seq<Event>)
    requires Good(w) && Reached(w, events).Some?
    ensures Good(Reached(w, events).value)
  {
    hide Good, Step;
    if events != [] {
      ReachedIsGood(w, events[..|events| - 1]);
      StepIsGood(Reached(w, events[..|events| - 1]).value, events[|events| - 1]);
    }
  }
}
