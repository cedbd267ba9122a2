/** What a run finds in its inbox when the model starts, and what it leaves there. */
module LeastPrivilege {
  import opened Wrappers
  import opened ResourceUris
  import opened Scopes
  import opened ScopeLaws
  import opened Policy
  import opened Keycards
  import opened KeycardHistory
  import opened ResourceFiles
  import opened AccessGate
  import opened AgentDatabase
  import opened RunProtocol
  import opened RunInvariants
  import opened RunSafety
  import opened RunHistory

  // ----- Isolation, whatever happens

  /** Everything a staged file's permit stood on: a resource in the agent owner's own namespace, a card of the
      agent's that was live when the decision was made, cut for that owner, and allowing to read exactly this. */
  ghost predicate Entitled(agentId: string, ownerId: string, name: string, g: Grant) {
    && g.agentId == agentId && g.ref.name == name && g.ref.ownerId == ownerId && Accepted(g.ref)
    && g.card.Some? && g.card.value.Record?
    && g.card.value.agentId == agentId && Live(g.card.value, g.at)
    && Grants(g.card.value.scope, "read", g.ref.uri)
    && CapabilityOwner(g.card.value.scope) == Some(ownerId)
  }

  lemma GrantIsEntitled(r: string, agentId: string, ownerId: string, g: Grant)
    requires GrantOk(r, agentId, ownerId, g)
    ensures Entitled(agentId, ownerId, g.ref.name, g)
  {
    AllowedIsOwned(g.card.value.scope, "read", g.ref.uri);
    hide Grants, CapabilityOwner, ParseResourceUri;
  }

  /** In every reachable state, a file in an agent's inbox was either left by a crash, and then no run of the agent has
      wiped since, or permitted to a run of the agent that has not wiped. */
  lemma InboxesAreIsolated(start: World, events: seq<Event>, w: World, agentId: string, name: string)
    requires Serves(start, events, w) && name in FilesOf(w.inboxes, agentId)
    ensures match FilesOf(w.inboxes, agentId)[name]
      case Leftover => forall r | r in w.execs && w.execs[r].agentId == agentId :: !Wiped(w.execs[r].phase)
      case Granted(g) =>
        && g.runId in w.execs && w.execs[g.runId].agentId == agentId && !Wiped(w.execs[g.runId].phase)
        && Entitled(agentId, w.execs[g.runId].ownerId, name, g)
  {
    ServedIsGood(start, events, w);
    assert FileOk(agentId, name, w.inboxes[agentId][name], w.execs);
    if w.inboxes[agentId][name].Granted? {
      var g := w.inboxes[agentId][name].grant;
      GrantIsEntitled(g.runId, agentId, w.execs[g.runId].ownerId, g);
    }
    hide GrantOk, Entitled, Serves, Referential, Conversational, Sound, ExecsOk, RowsOk, BusyOk, LatestOk, InboxOk;
  }

  /** Once an agent's runs have all wiped, its inbox is empty. */
  lemma NothingIsLeft(start: World, events: seq<Event>, w: World, agentId: string, r: string)
    requires Serves(start, events, w) && r in w.execs && w.execs[r].agentId == agentId
    requires forall q | q in w.execs && w.execs[q].agentId == agentId :: Wiped(w.execs[q].phase)
    ensures FilesOf(w.inboxes, agentId) == map[]
  {
    hide Serves, Entitled, Wiped;
    assert Wiped(w.execs[r].phase);
    if name :| name in FilesOf(w.inboxes, agentId) {
      InboxesAreIsolated(start, events, w, agentId, name);
    }
  }

  // ----- At launch

  /** The agent's latest run, and all its other executions had ended when this one cleared the inbox. */
  predicate CleanLatest(w: World, r: string)
    requires r in w.execs
  {
    var e := w.execs[r];
    e.clean && e.agentId in w.latest && w.latest[e.agentId] == r
  }

  /** When the model is started for a calm agent's run, or for the latest run after a clean start, every file in the
      inbox was permitted to this run, after its clear, on a live card; the run's record lists the permitted names,
      and with what was withheld they add up to what was listed. */
  lemma LaunchIsEntitled(start: World, events: seq<Event>, w: World, r: string)
    requires Serves(start, events, w) && r in w.execs && w.execs[r].phase == Launching
    requires CleanLatest(w, r) || Calm(start, events, w.execs[r].agentId)
    ensures var e := w.execs[r]; var files := FilesOf(w.inboxes, e.agentId);
      && e.cleared
      && (forall name | name in files :: files[name].Granted? && files[name].grant.runId == r
            && name in e.permitted && Entitled(e.agentId, e.ownerId, name, files[name].grant))
      && e.withheld + |e.permitted| == |e.listing| && InNamespace(e.ownerId, e.listing)
      && (r in w.db.runs ==> w.db.runs[r].stagedResources == e.permitted && w.db.runs[r].withheldCount == e.withheld)
    ensures Calm(start, events, w.execs[r].agentId) ==> r in w.db.runs
  {
    hide *;
    var e := w.execs[r];
    ServedIsGood(start, events, w);
    LaunchTally(w, r);
    if CleanLatest(w, r) {
      CleanIsLatest(w, r);
      LaunchOwns(w, r);
    }
    if Calm(start, events, e.agentId) {
      var calm := SomeCalmWorld(start, events, e.agentId, w);
      CalmRunIsLatest(calm, r);
      LaunchOwns(calm, r);
    }
    OwnIs(FilesOf(w.inboxes, e.agentId), r, e.permitted);
    forall name | name in FilesOf(w.inboxes, e.agentId)
      ensures FilesOf(w.inboxes, e.agentId)[name].Granted? ==>
          Entitled(e.agentId, e.ownerId, name, FilesOf(w.inboxes, e.agentId)[name].grant)
    {
      StagedIsEntitled(start, events, w, r, name);
    }
  }

  lemma StagedIsEntitled(start: World, events: seq<Event>, w: World, r: string, name: string)
    requires Serves(start, events, w) && r in w.execs && name in FilesOf(w.inboxes, w.execs[r].agentId)
    requires FilesOf(w.inboxes, w.execs[r].agentId)[name].Granted?
    requires FilesOf(w.inboxes, w.execs[r].agentId)[name].grant.runId == r
    ensures Entitled(w.execs[r].agentId, w.execs[r].ownerId, name, FilesOf(w.inboxes, w.execs[r].agentId)[name].grant)
  {
    InboxesAreIsolated(start, events, w, w.execs[r].agentId, name);
    hide *;
  }

  lemma OwnIs(files: Files, r: string, permitted: seq<string>)
    requires Own(files, r, permitted)
    ensures forall n | n in files :: files[n].Granted? && files[n].grant.runId == r && n in permitted
  {
  }

  lemma CalmRunIsLatest(w: World, r: string)
    requires Good(w) && r in w.execs && w.execs[r].phase == Launching && w.execs[r].agentId !in w.disturbed
    ensures var a := w.execs[r].agentId; a in w.latest && w.latest[a] == r && r in w.db.runs
  {
    hide Referential, Conversational, Sound, ExecsOk, RowsOk, InboxOk, LatestOk;
  }

  lemma LaunchTally(w: World, r: string)
    requires Good(w) && r in w.execs && w.execs[r].phase == Launching
    ensures var e := w.execs[r];
      && e.cleared && e.withheld + |e.permitted| == |e.listing| && InNamespace(e.ownerId, e.listing)
      && (r in w.db.runs ==> w.db.runs[r].stagedResources == e.permitted && w.db.runs[r].withheldCount == e.withheld)
      && (e.quiet ==> e.permitted == AllowedNames(e.base.records, e.agentId, e.since, e.listing, |e.listing|))
  {
    assert ExecOk(r, w.execs[r]) && RowOk(w.db, r, w.execs[r]);
    hide Referential, Conversational, Sound, InboxOk, LatestOk, BusyOk, RowsOk, InNamespace, ExecsOk, AllowedNames;
  }

  lemma LaunchOwns(w: World, r: string)
    requires Good(w) && r in w.execs && w.execs[r].phase == Launching && w.execs[r].cleared
    requires var a := w.execs[r].agentId; a in w.latest && w.latest[a] == r && (w.execs[r].clean || a !in w.disturbed)
    ensures Own(FilesOf(w.inboxes, w.execs[r].agentId), r, w.execs[r].permitted)
    ensures w.execs[r].clean ==> Whole(FilesOf(w.inboxes, w.execs[r].agentId), w.execs[r].permitted)
  {
    var a := w.execs[r].agentId;
    assert AgentOk(a, r, w.execs, FilesOf(w.inboxes, a), a in w.disturbed);
    hide Referential, Conversational, Sound, InboxOk, LatestOk, BusyOk, RowsOk, Own, Whole, OthersHaveEnded,
         OthersSettled, ExecsOk, FilesOf;
  }

  /** For the latest run after a clean start the inbox is exactly the permitted names; and if no card of the agent was
      granted, revoked or expired during the pass, it is exactly the listed resources that some live card of the agent
      allows reading. */
  lemma LaunchIsExact(start: World, events: seq<Event>, w: World, r: string)
    requires Serves(start, events, w) && r in w.execs && w.execs[r].phase == Launching && CleanLatest(w, r)
    ensures var e := w.execs[r]; var files := FilesOf(w.inboxes, e.agentId);
      && (forall name :: name in files <==> name in e.permitted)
      && (e.quiet ==> forall name :: name in files <==>
            exists i | 0 <= i < |e.listing| ::
                e.listing[i].name == name && LiveCardAllows(e.base.records, e.agentId, e.listing[i].uri, e.since))
  {
    hide *;
    var e := w.execs[r];
    ServedIsGood(start, events, w);
    LaunchTally(w, r);
    CleanIsLatest(w, r);
    LaunchOwns(w, r);
    OwnAndWhole(FilesOf(w.inboxes, e.agentId), r, e.permitted);
    if e.quiet {
      forall name
        ensures name in e.permitted <==>
          exists i | 0 <= i < |e.listing| ::
              e.listing[i].name == name && LiveCardAllows(e.base.records, e.agentId, e.listing[i].uri, e.since)
      {
        AllowedNamesMembers(e.base.records, e.agentId, e.since, e.listing, |e.listing|, name);
      }
    }
  }

  lemma CleanIsLatest(w: World, r: string)
    requires r in w.execs && CleanLatest(w, r)
    ensures w.execs[r].clean && w.execs[r].agentId in w.latest && w.latest[w.execs[r].agentId] == r
  {
  }

  lemma OwnAndWhole(files: Files, r: string, permitted: seq<string>)
    requires Own(files, r, permitted) && Whole(files, permitted)
    ensures forall name :: name in files <==> name in permitted
  {
  }

  lemma {:induction false} AllowedNamesMembers(records: map<string, CapabilityRecord>, agentId: string, since: int,
                                               listing: seq<ResourceRef>, count: nat, name: string)
    requires count <= |listing|
    ensures name in AllowedNames(records, agentId, since, listing, count)
       <==> exists i | 0 <= i < count ::
           listing[i].name == name && LiveCardAllows(records, agentId, listing[i].uri, since)
  {
    hide LiveCardAllows;
    if count > 0 {
      AllowedNamesMembers(records, agentId, since, listing, count - 1, name);
    }
  }

  // ----- What another run can do to a launching one

  /** Some step of another run can take files away before this run's model starts. */
  ghost predicate CanLoseFiles(w: World, r: string)
    requires r in w.execs
  {
    exists q, move :: q != r && Step(w, Do(q, move)).Some? && LosesFiles(w, r, q, move)
  }

  ghost predicate LosesFiles(w: World, r: string, q: string, move: Move)
    requires r in w.execs && Step(w, Do(q, move)).Some?
  {
    !Whole(FilesOf(Step(w, Do(q, move)).value.inboxes, w.execs[r].agentId), w.execs[r].permitted)
  }

  /** About to empty the agent's inbox: with its final wipe to do, or at its own clear and not cancelled. */
  predicate AboutToEmpty(w: World, q: string, agentId: string) {
    && q in w.execs && w.execs[q].agentId == agentId
    && (w.execs[q].phase.Wiping? || (w.execs[q].phase == Judged && agentId !in w.cancelling))
  }

  /** A run whose staged files are all there is safe from every other run exactly when none of the agent's is about
      to empty the inbox. */
  lemma LateWipeIff(w: World, r: string)
    requires r in w.execs && w.execs[r].permitted != []
    requires Whole(FilesOf(w.inboxes, w.execs[r].agentId), w.execs[r].permitted)
    ensures CanLoseFiles(w, r) <==> exists q :: q != r && AboutToEmpty(w, q, w.execs[r].agentId)
  {
    hide *;
    var a := w.execs[r].agentId;
    if q :| q != r && AboutToEmpty(w, q, a) {
      var move := EmptyingLoses(w, r, q);
      LosingIsPossible(w, r, q, move);
    }
    if CanLoseFiles(w, r) {
      var q, move := SomeLoss(w, r);
      OnlyEmptyingLoses(w, r, q, move);
    }
  }

  lemma LosingIsPossible(w: World, r: string, q: string, move: Move)
    requires r in w.execs && q != r && Step(w, Do(q, move)).Some? && LosesFiles(w, r, q, move)
    ensures CanLoseFiles(w, r)
  {
    hide Step, LosesFiles;
  }

  lemma SomeLoss(w: World, r: string) returns (q: string, move: Move)
    requires r in w.execs && CanLoseFiles(w, r)
    ensures q != r && Step(w, Do(q, move)).Some? && LosesFiles(w, r, q, move)
  {
    hide Step, LosesFiles;
    q, move :| q != r && Step(w, Do(q, move)).Some? && LosesFiles(w, r, q, move);
  }

  lemma EmptyingLoses(w: World, r: string, q: string) returns (move: Move)
    requires r in w.execs && w.execs[r].permitted != [] && AboutToEmpty(w, q, w.execs[r].agentId)
    ensures Step(w, Do(q, move)).Some? && LosesFiles(w, r, q, move)
  {
    move := if w.execs[q].phase.Wiping? then Wipe else ClearInbox;
    EmptyingMove(w, q, move);
    hide Step, AboutToEmpty, FilesOf;
    assert w.execs[r].permitted[0] !in FilesOf(Step(w, Do(q, move)).value.inboxes, w.execs[r].agentId);
  }

  lemma EmptyingMove(w: World, q: string, move: Move)
    requires q in w.execs && AboutToEmpty(w, q, w.execs[q].agentId)
    requires move == if w.execs[q].phase.Wiping? then Wipe else ClearInbox
    ensures Step(w, Do(q, move)).Some? && FilesOf(Step(w, Do(q, move)).value.inboxes, w.execs[q].agentId) == map[]
  {
    hide OthersHaveEnded, DbAfter, DenialsAfter;
  }

  lemma OnlyEmptyingLoses(w: World, r: string, q: string, move: Move)
    requires r in w.execs && q != r && Whole(FilesOf(w.inboxes, w.execs[r].agentId), w.execs[r].permitted)
    requires Step(w, Do(q, move)).Some? && LosesFiles(w, r, q, move)
    ensures AboutToEmpty(w, q, w.execs[r].agentId)
  {
    MoveStep(w, q, move);
    hide Step, Advance, DbAfter, DenialsAfter, Apply, FilesOf, Whole, InboxesAfter;
    var e := w.execs[q];
    if e.agentId != w.execs[r].agentId {
      OtherInboxesStay(w, e, move, w.execs[r].agentId);
    } else {
      OtherMovesAreSafe(w, q, e, move, w.execs[r].permitted);
    }
  }

  lemma OtherMovesAreSafe(w: World, q: string, e: Exec, move: Move, permitted: seq<string>)
    requires q in w.execs && w.execs[q] == e && Advance(w, q, e, move).Some?
    ensures AboutToEmpty(w, q, e.agentId) ||
        (Whole(FilesOf(w.inboxes, e.agentId), permitted) ==> Whole(FilesOf(InboxesAfter(w, e, move), e.agentId),
                                                                   permitted))
  {
    RemovingMoves(w, q, e, move);
    hide Advance, InboxesAfter, FilesOf, AboutToEmpty;
  }

  /** A step that is not about to empty the inbox takes nothing out of it. */
  lemma RemovingMoves(w: World, q: string, e: Exec, move: Move)
    requires q in w.execs && w.execs[q] == e && Advance(w, q, e, move).Some?
    ensures AboutToEmpty(w, q, e.agentId)
         || FilesOf(w.inboxes, e.agentId).Keys <= FilesOf(InboxesAfter(w, e, move), e.agentId).Keys
  {
    hide MayExecute, HoldsDataCard, OthersHaveEnded, InNamespace, Decided;
  }

  /** Some step of another run can put a file of its own into the inbox before this run's model starts. */
  ghost predicate CanGainFiles(w: World, r: string)
    requires r in w.execs
  {
    exists q, move :: q != r && Step(w, Do(q, move)).Some? && GainsFiles(w, r, q, move)
  }

  ghost predicate GainsFiles(w: World, r: string, q: string, move: Move)
    requires r in w.execs && Step(w, Do(q, move)).Some?
  {
    !Own(FilesOf(Step(w, Do(q, move)).value.inboxes, w.execs[r].agentId), r, w.execs[r].permitted)
  }

  /** A run whose inbox is its own can be given another run's file exactly when another run of the agent has a
      permitted file still to stage. */
  lemma ForeignFileIff(start: World, events: seq<Event>, w: World, r: string)
    requires Serves(start, events, w) && r in w.execs
    requires Own(FilesOf(w.inboxes, w.execs[r].agentId), r, w.execs[r].permitted)
    ensures CanGainFiles(w, r)
       <==> exists q :: q in w.execs && q != r && w.execs[q].agentId == w.execs[r].agentId && w.execs[q].phase.Staging?
  {
    hide *;
    ServedIsGood(start, events, w);
    if q :| q in w.execs && q != r && w.execs[q].agentId == w.execs[r].agentId && w.execs[q].phase.Staging? {
      StagingGains(w, r, q);
      GainingIsPossible(w, r, q, Stage);
    }
    if CanGainFiles(w, r) {
      var q, move := SomeGain(w, r);
      OnlyStagingGains(w, r, q, move);
    }
  }

  lemma GainingIsPossible(w: World, r: string, q: string, move: Move)
    requires r in w.execs && q != r && Step(w, Do(q, move)).Some? && GainsFiles(w, r, q, move)
    ensures CanGainFiles(w, r)
  {
    hide Step, GainsFiles;
  }

  lemma SomeGain(w: World, r: string) returns (q: string, move: Move)
    requires r in w.execs && CanGainFiles(w, r)
    ensures q != r && Step(w, Do(q, move)).Some? && GainsFiles(w, r, q, move)
  {
    hide Step, GainsFiles;
    q, move :| q != r && Step(w, Do(q, move)).Some? && GainsFiles(w, r, q, move);
  }

  lemma StagingGains(w: World, r: string, q: string)
    requires Good(w) && r in w.execs && q in w.execs && q != r && w.execs[q].agentId == w.execs[r].agentId
    requires w.execs[q].phase.Staging?
    ensures Step(w, Do(q, Stage)).Some? && GainsFiles(w, r, q, Stage)
  {
    hide *;
    ExecIsOk(w, q);
    StagingMove(w, q, w.execs[q]);
    StageMove(w, q, w.execs[q]);
    MovedInboxes(w, q, Stage);
    AnothersFile(FilesOf(w.inboxes, w.execs[q].agentId), w.execs[q].phase.grant, r, w.execs[r].permitted);
    GainsIf(w, r, q, Stage);
  }

  lemma MovedInboxes(w: World, r: string, move: Move)
    requires r in w.execs && Advance(w, r, w.execs[r], move).Some?
    ensures Step(w, Do(r, move)).Some? && Step(w, Do(r, move)).value.inboxes == InboxesAfter(w, w.execs[r], move)
  {
    hide Advance, InboxesAfter, DbAfter, DenialsAfter, Apply;
  }

  lemma AnothersFile(files: Files, g: Grant, r: string, permitted: seq<string>)
    requires g.runId != r
    ensures !Own(files[g.ref.name := Granted(g)], r, permitted)
  {
    var after := files[g.ref.name := Granted(g)];
    assert g.ref.name in after && after[g.ref.name] == Granted(g);
  }

  lemma GainsIf(w: World, r: string, q: string, move: Move)
    requires r in w.execs && Step(w, Do(q, move)).Some?
    requires !Own(FilesOf(Step(w, Do(q, move)).value.inboxes, w.execs[r].agentId), r, w.execs[r].permitted)
    ensures GainsFiles(w, r, q, move)
  {
    hide Step, Own, FilesOf;
  }

  lemma StagingMove(w: World, q: string, e: Exec)
    requires e.phase.Staging?
    ensures Advance(w, q, e, Stage).Some?
  {
  }

  lemma OnlyStagingGains(w: World, r: string, q: string, move: Move)
    requires r in w.execs && q != r && Own(FilesOf(w.inboxes, w.execs[r].agentId), r, w.execs[r].permitted)
    requires Step(w, Do(q, move)).Some? && GainsFiles(w, r, q, move)
    ensures q in w.execs && w.execs[q].agentId == w.execs[r].agentId && w.execs[q].phase.Staging?
  {
    MoveStep(w, q, move);
    hide Step, Advance, DbAfter, DenialsAfter, Apply, FilesOf, Own, InboxesAfter;
    var e := w.execs[q];
    if e.agentId != w.execs[r].agentId {
      OtherInboxesStay(w, e, move, w.execs[r].agentId);
    } else if move.Stage? {
      StageIs(w, q, e);
    } else {
      InboxMoves(w, e, move);
      FewerIsOwn(w, e, move, r, w.execs[r].permitted);
    }
  }

  lemma FewerIsOwn(w: World, e: Exec, move: Move, r: string, permitted: seq<string>)
    requires !move.Stage? && Own(FilesOf(w.inboxes, e.agentId), r, permitted)
    ensures Own(FilesOf(InboxesAfter(w, e, move), e.agentId), r, permitted)
  {
  }

  // ----- Standing revocation and refusals

  /** A run that takes its card while its agent is suspended goes no further: nothing is staged, and the suspension
      stands. */
  lemma SuspendedRunStops(w: World, r: string, id: string)
    requires r in w.execs && w.execs[r].agentId in w.cards.suspended && Step(w, Do(r, TakeCard(id))).Some?
    ensures var after := Step(w, Do(r, TakeCard(id))).value;
      && after.execs[r].phase == Ending(false) && after.inboxes == w.inboxes
      && after.cards.suspended == w.cards.suspended
  {
    hide *;
    var e := w.execs[r];
    SuspendedCardIsDead(w.cards, e.agentId, e.ownerId, r, id, w.clock);
    TakeCardIs(w, r, id);
    DeadCardExecutesNothing(w, r, e, id);
  }

  lemma TakeCardIs(w: World, r: string, id: string)
    requires r in w.execs && Step(w, Do(r, TakeCard(id))).Some?
    ensures var after := Step(w, Do(r, TakeCard(id))).value; var e := w.execs[r];
      && after == w.(execs := w.execs[r := e.(phase := if MayExecute(w, r, e, id) then Judged else Ending(false))],
                     cards := Apply(w.cards, CardOp(w, r, e, id)))
      && CardOp(w, r, e, id) == RunOp(e.agentId, e.ownerId, Some(r), id, w.clock)
  {
    hide MayExecute, Apply;
  }

  lemma SuspendedCardIsDead(cards: StoreState, agentId: string, ownerId: string, runId: string, id: string, now: int)
    requires agentId in cards.suspended
    ensures var op := RunOp(agentId, ownerId, Some(runId), id, now);
      && Apply(cards, op).suspended == cards.suspended
      && (OutcomeOf(cards, op).Stored? ==>
            id in Apply(cards, op).records && Apply(cards, op).records[id].revokedAt.Some?)
  {
    hide CapabilityOwner, ExpectedScopeForOwner, NewRecord;
  }

  lemma DeadCardExecutesNothing(w: World, r: string, e: Exec, id: string)
    requires var op := CardOp(w, r, e, id);
      OutcomeOf(w.cards, op).Stored? ==>
        id in Apply(w.cards, op).records && Apply(w.cards, op).records[id].revokedAt.Some?
    ensures !MayExecute(w, r, e, id)
  {
    hide Decide, OutcomeOf, Apply, BuildAgentResource;
    if MayExecute(w, r, e, id) {
      RevokedIsDenied(Request(Agent(e.agentId, e.ownerId), EXECUTE, BuildAgentResource(e.ownerId, e.agentId),
                              Some(Apply(w.cards, CardOp(w, r, e, id)).records[id])), w.clock);
    }
  }

  lemma RevokedIsDenied(request: Policy.Request, at: int)
    requires request.principal.Agent? && request.capability.Some? && request.capability.value.revokedAt.Some?
    ensures Decide(request, at) != Permit
  {
    PermitsTheEntitled(request, at);
    hide Decide, ParseResourceUri, ParseAgentResource, Grants, CapabilityOwner;
  }

  /** A refusal given before the wait begins is dropped by it: only a refusal given during the wait can end the run. */
  lemma EarlyRefusalIsForgotten(w: World, r: string, reason: string, waits: bool)
    requires r in w.execs && w.execs[r].phase == Empty && !HoldsDataCard(w, w.execs[r])
    ensures Step(w, Refuse(w.execs[r].agentId, reason)).Some?
    ensures var refused := Step(w, Refuse(w.execs[r].agentId, reason)).value;
      && Step(refused, Do(r, BeginWait(waits))).Some?
      && var waiting := Step(refused, Do(r, BeginWait(waits))).value;
         Step(waiting, Do(r, SeeRefusal)).None?
  {
    hide LiveFor, ScopeAllowsAction;
  }

  /** What a wait is for: a live card of the agent's that grants reading something. */
  lemma HoldsCardToRead(w: World, e: Exec)
    requires Good(w)
    ensures HoldsDataCard(w, e) <==> exists id ::
        && id in w.cards.records && w.cards.records[id].agentId == e.agentId && Live(w.cards.records[id], w.clock)
        && GrantsAction(w.cards.records[id].scope, "read")
  {
    hide LiveFor, ScopeAllowsAction, GrantsAction, CapabilityOwner, Referential, Conversational, ExecsOk, RowsOk,
         BusyOk, InboxOk, LatestOk;
    var live := LiveFor(w.cards, e.agentId, w.clock);
    if HoldsDataCard(w, e) {
      var i :| 0 <= i < |live| && ScopeAllowsAction(live[i].scope, "read");
      LiveForMembers(w.cards, e.agentId, w.clock, live[i]);
      AllowsActionIffGranted(live[i].scope, "read");
    }
    if id :|
      && id in w.cards.records && w.cards.records[id].agentId == e.agentId && Live(w.cards.records[id], w.clock)
      && GrantsAction(w.cards.records[id].scope, "read")
    {
      LiveForMembers(w.cards, e.agentId, w.clock, w.cards.records[id]);
      AllowsActionIffGranted(w.cards.records[id].scope, "read");
    }
  }

  /** A removal that fails half-way, at the clear or at the end, leaves what it has not got to, and nothing else. */
  lemma FailedRemovalLeaves(w: World, r: string, move: Move)
    requires r in w.execs && (move.ClearFails? || move.WipeFails?) && Step(w, Do(r, move)).Some?
    ensures var a := w.execs[r].agentId;
      var before, left := FilesOf(w.inboxes, a), FilesOf(Step(w, Do(r, move)).value.inboxes, a);
      forall n :: if n in before && n in move.kept then n in left && left[n] == before[n] else n !in left
  {
    MoveStep(w, r, move);
    hide Step, Advance, DbAfter, DenialsAfter, Apply;
  }

  /** In the part of staging that a wait opens: waiting, or in the second pass. */
  predicate InWait(e: Exec) {
    e.second && (e.phase.Idle? || e.phase.Passing? || e.phase.Staging? || e.phase.Waiting?)
  }

  /** A run's step drops the agent's refusal exactly when it begins a wait without a card or leaves what a wait
      opened, however it leaves it; so no refusal is left for the next run that was given in time for this one. No
      other's is ever touched. */
  lemma RefusalsOutliveNoWait(w: World, r: string, move: Move)
    requires Good(w) && r in w.execs && Step(w, Do(r, move)).Some?
    ensures var e, after := w.execs[r], Step(w, Do(r, move)).value;
      && r in after.execs
      && after.denials == if (move.BeginWait? && !HoldsDataCard(w, e)) || (InWait(e) && !InWait(after.execs[r]))
                          then w.denials - {e.agentId} else w.denials
  {
    MoveStep(w, r, move);
    ExecIsOk(w, r);
    LeavesWait(w, r, w.execs[r], move);
    hide Good, ExecOk, Step, Advance, DbAfter, InboxesAfter, DenialsAfter, Apply, InWait, HoldsDataCard;
  }

  lemma LeavesWait(w: World, r: string, e: Exec, move: Move)
    requires ExecOk(r, e) && Advance(w, r, e, move).Some?
    ensures DenialsAfter(w, e, move)
         == if (move.BeginWait? && !HoldsDataCard(w, e)) || (InWait(e) && !InWait(Advance(w, r, e, move).value))
            then w.denials - {e.agentId} else w.denials
  {
    hide MayExecute, HoldsDataCard, OthersHaveEnded, InNamespace, VerdictFor, SameCards, StagerOf, CardFor, Lookup,
         Tally,
         Sound, StagingOk;
  }

  /** The card a run takes is made out to it: its agent, its owner's execution scope, its own id, for five minutes. */
  lemma RunTakesItsOwnCard(w: World, r: string, id: string)
    requires r in w.execs && Step(w, Do(r, TakeCard(id))).Some? && IsOwner(w.execs[r].ownerId)
    ensures var e, after := w.execs[r], Step(w, Do(r, TakeCard(id))).value;
      && id in after.cards.records
      && MintedBy(RunOp(e.agentId, e.ownerId, Some(r), id, w.clock), id, after.cards.records[id])
  {
    hide *;
    var e := w.execs[r];
    OwnerOfExpectedScope(e.ownerId);
    CardIsFresh(w, r, id);
    CardIsFiled(w, r, id);
    RunCardIsStored(w.cards, e.agentId, e.ownerId, r, id, w.clock);
    MintedRecord(w.cards, RunOp(e.agentId, e.ownerId, Some(r), id, w.clock), id);
  }

  lemma CardIsFiled(w: World, r: string, id: string)
    requires r in w.execs && Step(w, Do(r, TakeCard(id))).Some?
    ensures Step(w, Do(r, TakeCard(id))).value.cards
         == Apply(w.cards, RunOp(w.execs[r].agentId, w.execs[r].ownerId, Some(r), id, w.clock))
  {
    hide Advance, Apply, DbAfter, InboxesAfter, DenialsAfter;
  }

  lemma RunCardIsStored(s: StoreState, agentId: string, ownerId: string, r: string, id: string, now: int)
    requires CapabilityOwner(ExpectedScopeForOwner(ownerId)) == Some(ownerId)
    ensures id in Apply(s, RunOp(agentId, ownerId, Some(r), id, now)).records
  {
    hide CapabilityOwner, ExpectedScopeForOwner, NewRecord, DeadOnArrival;
  }

  // ----- Every path ends

  /** How far an execution still has to go: its stage, and within a pass what is left of the listing. */
  function Stages(e: Exec): nat {
    match e.phase
    case Admitted => 13
    case Started => 12
    case Judged => 11
    case Idle => if e.second then 6 else 10
    case Passing(_) => if e.second then 5 else 9
    case Staging(_, _) => if e.second then 5 else 9
    case Empty => 8
    case Waiting => 7
    case Launching => 4
    case Launched => 3
    case Ending(_) => 2
    case Wiping(_) => 1
    case Done(_, _) => 0
    case Aborted => 0
  }

  function Left(e: Exec): int {
    match e.phase
    case Passing(next) => 2 * (|e.listing| - next)
    case Staging(next, _) => 2 * (|e.listing| - next) - 1
    case _ => 0
  }

  ghost predicate Nearer(after: Exec, before: Exec) {
    Stages(after) < Stages(before) || (Stages(after) == Stages(before) && 0 <= Left(after) < Left(before))
  }

  /** Every move brings an execution nearer its end, so an execution makes finitely many. */
  lemma EveryMoveIsProgress(w: World, r: string, e: Exec, move: Move)
    requires ExecOk(r, e) && Advance(w, r, e, move).Some?
    ensures Nearer(Advance(w, r, e, move).value, e)
  {
    hide MayExecute, HoldsDataCard, OthersHaveEnded, InNamespace, VerdictFor, SameCards, StagerOf, CardFor, Lookup,
         Sound, GrantOk, AllowedNames,
         LiveCardAllows;
  }

  /** Until it has ended an execution can move. The moves that end it are its first mutation rejected, which touches
      nothing; its wipe, which empties the inbox; and a removal that fails, which leaves what it did not get to. */
  lemma OnlyTheWipeEnds(w: World, r: string)
    requires r in w.execs && !Ended(w.execs[r].phase)
    ensures exists move :: Step(w, Do(r, move)).Some?
    ensures forall move ::
        Step(w, Do(r, move)).Some? && Ended(Step(w, Do(r, move)).value.execs[r].phase) ==> EndsWith(w, r, move)
  {
    forall move | Step(w, Do(r, move)).Some? && Ended(Step(w, Do(r, move)).value.execs[r].phase)
      ensures EndsWith(w, r, move)
    {
      MoveStep(w, r, move);
      EndingMove(w, r, move);
    }
    NextMove(w, r, w.execs[r]);
    hide Advance, EndsWith;
    assert Step(w, Do(r, SomeMove(w.execs[r].phase))).Some?;
  }

  predicate EndsWith(w: World, r: string, move: Move)
    requires r in w.execs && Step(w, Do(r, move)).Some?
  {
    var after, a := Step(w, Do(r, move)).value, w.execs[r].agentId;
    match move
    case Reject => after.inboxes == w.inboxes && after.db == w.db
    case Wipe => FilesOf(after.inboxes, a) == map[]
    case WipeFails(kept) => FilesOf(after.inboxes, a) == Remaining(FilesOf(w.inboxes, a), kept)
    case _ => false
  }

  lemma EndingMove(w: World, r: string, move: Move)
    requires r in w.execs && Step(w, Do(r, move)).Some? && Advance(w, r, w.execs[r], move).Some?
    requires Step(w, Do(r, move)).value == DoMove(w, r, move) && Ended(Step(w, Do(r, move)).value.execs[r].phase)
    ensures EndsWith(w, r, move)
  {
    PhaseStep(w, r, w.execs[r], move);
    if move.WipeFails? {
      FailedRemoval(w, r, w.execs[r], move);
    }
    hide Advance, Step;
  }

  function SomeMove(phase: Phase): Move {
    if phase == Admitted then Begin else if phase.Wiping? then Wipe else if phase.Ending? then Settle else Throw(false)
  }

  lemma NextMove(w: World, r: string, e: Exec)
    requires !Ended(e.phase)
    ensures Advance(w, r, e, SomeMove(e.phase)).Some?
  {
  }
}
