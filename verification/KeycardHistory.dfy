/** What holds after any history of store operations. */
module KeycardHistory {
  import opened Wrappers
  import opened ResourceUris
  import opened Scopes
  import opened ScopeLaws
  import opened Policy
  import opened Keycards

  datatype Op =
    | IssueOp(input: IssueInput, id: string, now: int)
    | RunOp(agentId: string, ownerId: string, runId: Option<string>, id: string, now: int)
    | RevokeOp(id: string, revokedBy: string, now: int)
    | RevokeAllOp(agentId: string, revokedBy: string, now: int)

  function OutcomeOf(s: StoreState, op: Op): Outcome {
    match op
    case IssueOp(input, id, now) => Issue(s, input, id, now)
    case RunOp(agentId, ownerId, runId, id, now) => IssueForRun(s, agentId, ownerId, runId, id, now)
    case RevokeOp(id, revokedBy, now) => Stored(Revoke(s, id, revokedBy, now))
    case RevokeAllOp(agentId, revokedBy, now) => Stored(RevokeEach(s, s.order, agentId, revokedBy, now))
  }

  /** A call that throws leaves the store as it was. */
  function Apply(s: StoreState, op: Op): StoreState {
    var outcome := OutcomeOf(s, op);
    if outcome.Stored? then outcome.state else s
  }

  function After(ops: seq<Op>): StoreState {
    if ops == [] then EMPTY_STORE else Apply(After(ops[..|ops| - 1]), ops[|ops| - 1])
  }

  predicate FreshId(s: StoreState, op: Op) {
    (op.IssueOp? || op.RunOp?) ==> op.id !in s.records
  }

  /** Every minted id is new. */
  predicate FreshHistory(ops: seq<Op>) {
    ops == [] || (FreshHistory(ops[..|ops| - 1]) && FreshId(After(ops[..|ops| - 1]), ops[|ops| - 1]))
  }

  // ----- The store's invariant

  /** Every record is filed under its id, listed, and scoped to its own owner. */
  predicate Sound(s: StoreState) {
    && (forall id | id in s.records :: id in s.order && s.records[id].id == id)
    && (forall id | id in s.records :: CapabilityOwner(s.records[id].scope) == Some(s.records[id].ownerId))
  }

  lemma MintIsSound(s: StoreState, input: IssueInput, id: string, now: int)
    requires Sound(s) && Mint(s, input, id, now).Stored?
    ensures Sound(Mint(s, input, id, now).state)
  {
    hide CapabilityOwner;
  }

  lemma IssuedIsSound(s: StoreState, input: IssueInput, id: string, now: int)
    requires Sound(s)
    ensures Issue(s, input, id, now).Stored? ==> Sound(Issue(s, input, id, now).state)
    ensures IssueSuspended(s, input, id, now).Stored? ==> Sound(IssueSuspended(s, input, id, now).state)
  {
    hide CapabilityOwner;
    if Mint(s, input, id, now).Stored? {
      MintIsSound(s, input, id, now);
      hide Mint;
    }
  }

  lemma RevokeIsSound(s: StoreState, id: string, revokedBy: string, now: int)
    requires Sound(s)
    ensures Sound(Revoke(s, id, revokedBy, now))
  {
    hide CapabilityOwner;
  }

  lemma {:induction false} RevokeEachIsSound(s: StoreState, ids: seq<string>, agentId: string, revokedBy: string,
                                             now: int)
    requires Sound(s)
    ensures Sound(RevokeEach(s, ids, agentId, revokedBy, now))
  {
    hide Sound, Revoke;
    if ids != [] {
      RevokeEachIsSound(s, ids[..|ids| - 1], agentId, revokedBy, now);
      RevokeIsSound(RevokeEach(s, ids[..|ids| - 1], agentId, revokedBy, now), ids[|ids| - 1], revokedBy, now);
    }
  }

  lemma ApplyIsSound(s: StoreState, op: Op)
    requires Sound(s)
    ensures Sound(Apply(s, op))
  {
    hide Sound, Issue, IssueSuspended, Revoke, RevokeEach;
    match op
    case IssueOp(input, id, now) => IssuedIsSound(s, input, id, now);
    case RunOp(agentId, ownerId, runId, id, now) => IssuedIsSound(s, RunInput(agentId, ownerId, runId), id, now);
    case RevokeOp(id, revokedBy, now) => RevokeIsSound(s, id, revokedBy, now);
    case RevokeAllOp(agentId, revokedBy, now) => RevokeEachIsSound(s, s.order, agentId, revokedBy, now);
  }

  /** Ownership isolation over any history: every record's scope belongs to the record's owner. */
  lemma {:induction false} HistoryIsSound(ops: seq<Op>)
    ensures Sound(After(ops))
  {
    hide Apply;
    if ops != [] {
      HistoryIsSound(ops[..|ops| - 1]);
      ApplyIsSound(After(ops[..|ops| - 1]), ops[|ops| - 1]);
    }
  }

  // ----- Standing revocation

  datatype Standing = NoChange | Lifted | Revoked

  /** Whether the operation, in this state, is a successful issue or a successful revoke for the agent. */
  function StandingEvent(s: StoreState, op: Op, agent: string): Standing {
    match op
    case IssueOp(input, id, now) => if input.agentId == agent && OutcomeOf(s, op).Stored? then Lifted else NoChange
    case RunOp(agentId, _, _, id, now) =>
      if agentId == agent && agent !in s.suspended && OutcomeOf(s, op).Stored? then Lifted else NoChange
    case RevokeOp(id, _, now) => if id in s.records && s.records[id].agentId == agent then Revoked else NoChange
    case RevokeAllOp(agentId, _, now) =>
      if agentId == agent && HasLiveRecord(s, s.order, agent) then Revoked else NoChange
  }

  /** The agent's most recent standing event. */
  function LastStanding(ops: seq<Op>, agent: string): Standing {
    if ops == [] then NoChange
    else
      var event := StandingEvent(After(ops[..|ops| - 1]), ops[|ops| - 1], agent);
      if event != NoChange then event else LastStanding(ops[..|ops| - 1], agent)
  }

  lemma {:induction false} RevokeEachSuspends(s: StoreState, ids: seq<string>, agentId: string, revokedBy: string,
                                              now: int)
    ensures var r := RevokeEach(s, ids, agentId, revokedBy, now);
      && r.suspended == (if HasLiveRecord(s, ids, agentId) then s.suspended + {agentId} else s.suspended)
      && (!HasLiveRecord(s, ids, agentId) ==> r == s)
      && (forall id | id in r.records && r.records[id].revokedAt.None? ::
            id in s.records && s.records[id] == r.records[id])
  {
    if ids == [] {
    } else {
      var init, id := ids[..|ids| - 1], ids[|ids| - 1];
      RevokeEachSuspends(s, init, agentId, revokedBy, now);
      assert ids == init + [id];
      assert HasLiveRecord(s, ids, agentId)
        <==> || HasLiveRecord(s, init, agentId)
             || (id in s.records && s.records[id].agentId == agentId && s.records[id].revokedAt.None?) by {
        LiveInLonger(s, init, id, agentId);
      }
      hide HasLiveRecord;
      var earlier := RevokeEach(s, init, agentId, revokedBy, now);
      if id in earlier.records && earlier.records[id].agentId == agentId && earlier.records[id].revokedAt.None? {
        assert id in s.records && s.records[id].revokedAt.None?;
      }
    }
  }

  lemma LiveInLonger(s: StoreState, init: seq<string>, id: string, agentId: string)
    ensures HasLiveRecord(s, init + [id], agentId)
       <==> HasLiveRecord(s, init, agentId)
            || (id in s.records && s.records[id].agentId == agentId && s.records[id].revokedAt.None?)
  {
    var ids := init + [id];
    if HasLiveRecord(s, init, agentId) {
      var i :| 0 <= i < |init| && init[i] in s.records && s.records[init[i]].agentId == agentId
        && s.records[init[i]].revokedAt.None?;
      assert ids[i] == init[i];
    }
    if id in s.records && s.records[id].agentId == agentId && s.records[id].revokedAt.None? {
      assert ids[|init|] == id;
    }
  }

  lemma StandingStep(s: StoreState, op: Op, agent: string)
    ensures agent in Apply(s, op).suspended
       <==> match StandingEvent(s, op, agent)
            case NoChange => agent in s.suspended
            case Lifted => false
            case Revoked => true
  {
    hide CapabilityOwner, RevokeEach, HasLiveRecord, NewRecord, DeadOnArrival;
    if op.RevokeAllOp? {
      RevokeEachSuspends(s, s.order, op.agentId, op.revokedBy, op.now);
    }
  }

  /** An agent is suspended exactly when its last successful issue-or-revoke event is a revoke. */
  lemma {:induction false} SuspendedIffLastRevoked(ops: seq<Op>, agent: string)
    ensures agent in After(ops).suspended <==> LastStanding(ops, agent) == Revoked
  {
    hide Apply, StandingEvent;
    if ops != [] {
      SuspendedIffLastRevoked(ops[..|ops| - 1], agent);
      StandingStep(After(ops[..|ops| - 1]), ops[|ops| - 1], agent);
    }
  }

  // ----- Revocation is for ever

  /** What can never change about a record, and that a revocation, once made, stands with its time and author. */
  predicate Kept(before: CapabilityRecord, after: CapabilityRecord) {
    && after == before.(revokedAt := after.revokedAt, revokedBy := after.revokedBy)
    && (before.revokedAt.Some? ==> after == before)
  }

  lemma RevokeKeeps(s: StoreState, revoked: string, revokedBy: string, now: int, id: string)
    requires id in s.records
    ensures id in Revoke(s, revoked, revokedBy, now).records
    ensures Kept(s.records[id], Revoke(s, revoked, revokedBy, now).records[id])
  {
  }

  lemma {:induction false} RevokeEachKeeps(s: StoreState, ids: seq<string>, agentId: string, revokedBy: string,
                                           now: int, id: string)
    requires id in s.records
    ensures var r := RevokeEach(s, ids, agentId, revokedBy, now); id in r.records && Kept(s.records[id], r.records[id])
  {
    hide Revoke;
    if ids != [] {
      var earlier := RevokeEach(s, ids[..|ids| - 1], agentId, revokedBy, now);
      RevokeEachKeeps(s, ids[..|ids| - 1], agentId, revokedBy, now, id);
      RevokeKeeps(earlier, ids[|ids| - 1], revokedBy, now, id);
    }
  }

  lemma ApplyKeeps(s: StoreState, op: Op, id: string)
    requires FreshId(s, op) && id in s.records
    ensures id in Apply(s, op).records && Kept(s.records[id], Apply(s, op).records[id])
  {
    hide CapabilityOwner, RevokeEach, Revoke, NewRecord, DeadOnArrival;
    match op
    case IssueOp(input, newId, now) =>
    case RunOp(agentId, ownerId, runId, newId, now) =>
    case RevokeOp(revoked, revokedBy, now) => RevokeKeeps(s, revoked, revokedBy, now, id);
    case RevokeAllOp(agentId, revokedBy, now) => RevokeEachKeeps(s, s.order, agentId, revokedBy, now, id);
  }

  /** Through any continuation of a history, a record's identity, scope and expiry never change, and a revoked record
      stays revoked with its first revocation time. */
  lemma {:induction false} RecordsAreKept(ops: seq<Op>, earlier: nat, id: string)
    requires FreshHistory(ops) && earlier <= |ops|
    requires id in After(ops[..earlier]).records
    ensures id in After(ops).records && Kept(After(ops[..earlier]).records[id], After(ops).records[id])
    decreases |ops|
  {
    if earlier == |ops| {
      assert ops[..earlier] == ops;
    } else {
      hide Apply, FreshId, Kept;
      var init := ops[..|ops| - 1];
      assert init[..earlier] == ops[..earlier];
      RecordsAreKept(init, earlier, id);
      ApplyKeeps(After(init), ops[|ops| - 1], id);
      KeptIsTransitive(After(ops[..earlier]).records[id], After(init).records[id], After(ops).records[id]);
    }
  }

  lemma KeptIsTransitive(a: CapabilityRecord, b: CapabilityRecord, c: CapabilityRecord)
    requires Kept(a, b) && Kept(b, c)
    ensures Kept(a, c)
  {
  }

  /** Once revoked, never accepted again: whatever happened since, at any time, for any request. */
  lemma RevokedIsNeverPermitted(ops: seq<Op>, earlier: nat, id: string, request: Request, at: int)
    requires FreshHistory(ops) && earlier <= |ops|
    requires id in After(ops[..earlier]).records && After(ops[..earlier]).records[id].revokedAt.Some?
    requires request.principal.Agent? && id in After(ops).records && request.capability == Some(After(ops).records[id])
    ensures Decide(request, at) != Permit
  {
    RecordsAreKept(ops, earlier, id);
    PermitsTheEntitled(request, at);
    hide ParseResourceUri, ParseAgentResource, Grants, CapabilityOwner, Decide, After, FreshHistory;
  }

  // ----- What a record says about its history

  /** The record is the one the operation asks for, valid for as long as it asks, or for five minutes. */
  predicate MintedBy(op: Op, id: string, c: CapabilityRecord) {
    match op
    case IssueOp(input, minted, now) =>
      && minted == id == c.id && c.agentId == input.agentId && c.ownerId == input.ownerId && c.scope == input.scope
      && c.runId == input.runId && c.issuedAt == now
      && c.expiresAt == Some(now + if input.ttlMs.Some? then input.ttlMs.value else 300_000)
    case RunOp(agentId, ownerId, runId, minted, now) =>
      && minted == id == c.id && c.agentId == agentId && c.ownerId == ownerId
      && c.scope == ExpectedScopeForOwner(ownerId)
      && c.runId == runId && c.issuedAt == now && c.expiresAt == Some(now + 300_000)
    case _ => false
  }

  datatype Revocation = Revocation(at: int, author: string)

  /** Whether the operation revokes a card of this id and agent. */
  function RevocationBy(op: Op, id: string, agentId: string): Option<Revocation> {
    match op
    case RevokeOp(revoked, author, now) => if revoked == id then Some(Revocation(now, author)) else None
    case RevokeAllOp(agent, author, now) => if agent == agentId then Some(Revocation(now, author)) else None
    case _ => None
  }

  /** The first revocation of a card minted by the `i`-th operation: at once for a run of an agent that is suspended
      then, and otherwise by the first later operation that revokes it. */
  function FirstRevocation(ops: seq<Op>, i: nat, id: string, agentId: string): Option<Revocation>
    requires i < |ops|
    decreases |ops|
  {
    if |ops| == i + 1 then
      if ops[i].RunOp? && agentId in After(ops[..i]).suspended then Some(Revocation(ops[i].now, "standing-revocation"))
      else None
    else
      var earlier := FirstRevocation(ops[..|ops| - 1], i, id, agentId);
      if earlier.Some? then earlier else RevocationBy(ops[|ops| - 1], id, agentId)
  }

  /** A card's record bears the revocation, and none if there was none. */
  predicate Bears(c: CapabilityRecord, revocation: Option<Revocation>) {
    match revocation
    case None => c.revokedAt == None && c.revokedBy == None
    case Some(r) => c.revokedAt == Some(r.at) && c.revokedBy == Some(r.author)
  }

  /** An operation changes an earlier record only by being its first revocation. */
  lemma OperationOnRecord(s: StoreState, op: Op, id: string, borne: Option<Revocation>)
    requires Sound(s) && FreshId(s, op) && id in s.records && Bears(s.records[id], borne)
    ensures id in Apply(s, op).records
    ensures Bears(Apply(s, op).records[id],
                  if borne.Some? then borne else RevocationBy(op, id, s.records[id].agentId))
  {
    hide Apply, RevokeEach;
    ApplyKeeps(s, op, id);
    match op
    case IssueOp(_, _, _) =>
      OthersAreUntouched(s, op, id);
    case RunOp(_, _, _, _, _) =>
      OthersAreUntouched(s, op, id);
    case RevokeOp(revoked, author, now) =>
      RevokesOne(s, revoked, author, now, id);
    case RevokeAllOp(agentId, author, now) =>
      InOrder(s, id);
      RevokesEach(s, s.order, agentId, author, now, id);
      AllAreRevoked(s, agentId, author, now);
  }

  lemma RevokesOne(s: StoreState, revoked: string, author: string, now: int, id: string)
    requires id in s.records
    ensures var after := Apply(s, RevokeOp(revoked, author, now)).records;
      id in after && after[id] == if revoked == id then RevokedRecord(s.records[id], author, now) else s.records[id]
  {
  }

  lemma AllAreRevoked(s: StoreState, agentId: string, author: string, now: int)
    ensures Apply(s, RevokeAllOp(agentId, author, now)) == RevokeEach(s, s.order, agentId, author, now)
  {
  }

  lemma InOrder(s: StoreState, id: string)
    requires Sound(s) && id in s.records
    ensures id in s.order
  {
    hide CapabilityOwner;
  }

  lemma OthersAreUntouched(s: StoreState, op: Op, id: string)
    requires (op.IssueOp? || op.RunOp?) && FreshId(s, op) && id in s.records
    ensures id in Apply(s, op).records && Apply(s, op).records[id] == s.records[id]
  {
    hide CapabilityOwner, NewRecord, DeadOnArrival;
  }

  /** Of an agent's records exactly the listed ones that are not revoked are, each at that time. */
  lemma {:induction false} RevokesEach(s: StoreState, ids: seq<string>, agentId: string, author: string, now: int,
                                       id: string)
    requires id in s.records
    ensures id in RevokeEach(s, ids, agentId, author, now).records
    ensures RevokeEach(s, ids, agentId, author, now).records[id]
         == if id in ids && s.records[id].agentId == agentId then RevokedRecord(s.records[id], author, now)
            else s.records[id]
  {
    if ids != [] {
      var init, last := ids[..|ids| - 1], ids[|ids| - 1];
      assert ids == init + [last];
      RevokesEach(s, init, agentId, author, now, id);
    }
  }

  /** The record both ways of minting file. */
  lemma IssuedRecord(s: StoreState, input: IssueInput, id: string, now: int)
    ensures Issue(s, input, id, now).Stored? <==> CapabilityOwner(input.scope) == Some(input.ownerId)
    ensures Issue(s, input, id, now).Stored? ==>
        Issue(s, input, id, now).state
          == StoreState(s.records[id := NewRecord(input, id, now)], s.order + [id], s.suspended - {input.agentId})
    ensures IssueSuspended(s, input, id, now).Stored? ==>
        IssueSuspended(s, input, id, now).state.records == s.records[id := DeadOnArrival(NewRecord(input, id, now))]
  {
    hide CapabilityOwner, NewRecord, DeadOnArrival;
  }

  lemma FreshRecord(input: IssueInput, id: string, now: int)
    ensures MintedBy(IssueOp(input, id, now), id, NewRecord(input, id, now))
    ensures Bears(NewRecord(input, id, now), None)
    ensures MintedBy(IssueOp(input, id, now), id, DeadOnArrival(NewRecord(input, id, now)))
    ensures Bears(DeadOnArrival(NewRecord(input, id, now)), Some(Revocation(now, "standing-revocation")))
  {
  }

  lemma RunsAreIssues(agentId: string, ownerId: string, runId: Option<string>, id: string, now: int,
                      c: CapabilityRecord)
    ensures MintedBy(RunOp(agentId, ownerId, runId, id, now), id, c)
       <==> MintedBy(IssueOp(RunInput(agentId, ownerId, runId), id, now), id, c)
  {
    hide ExpectedScopeForOwner;
  }

  lemma MintedRecord(s: StoreState, op: Op, id: string)
    requires id !in s.records && id in Apply(s, op).records
    ensures (op.IssueOp? || op.RunOp?) && MintedBy(op, id, Apply(s, op).records[id])
    ensures Bears(Apply(s, op).records[id],
                  if op.RunOp? && op.agentId in s.suspended then Some(Revocation(op.now, "standing-revocation"))
                  else None)
  {
    hide Issue, IssueSuspended, MintedBy, Bears, RevokeEach, NewRecord, DeadOnArrival, RunInput;
    match op
    case IssueOp(input, minted, now) =>
      IssuedRecord(s, input, minted, now);
      FreshRecord(input, minted, now);
    case RunOp(agentId, ownerId, runId, minted, now) =>
      IssuedRecord(s, RunInput(agentId, ownerId, runId), minted, now);
      FreshRecord(RunInput(agentId, ownerId, runId), minted, now);
      RunsAreIssues(agentId, ownerId, runId, minted, now, Apply(s, op).records[id]);
    case RevokeOp(_, _, _) =>
    case RevokeAllOp(agentId, author, now) =>
      NothingMinted(s, s.order, agentId, author, now);
  }

  lemma {:induction false} NothingMinted(s: StoreState, ids: seq<string>, agentId: string, author: string, now: int)
    ensures RevokeEach(s, ids, agentId, author, now).records.Keys == s.records.Keys
  {
    if ids != [] {
      NothingMinted(s, ids[..|ids| - 1], agentId, author, now);
    }
  }

  /** After any history every card is exactly what the one operation that minted it asked for, and bears exactly the
      first revocation since. */
  lemma {:induction false} RecordIsItsHistory(ops: seq<Op>, id: string) returns (i: nat)
    requires FreshHistory(ops) && id in After(ops).records
    ensures i < |ops| && MintedBy(ops[i], id, After(ops).records[id])
    ensures Bears(After(ops).records[id], FirstRevocation(ops, i, id, After(ops).records[id].agentId))
    decreases |ops|
  {
    hide Apply, MintedBy, Bears, FreshId, Sound, RevocationBy;
    if ops != [] {
      var init, last := ops[..|ops| - 1], ops[|ops| - 1];
      if id in After(init).records {
        i := RecordIsItsHistory(init, id);
        HistoryIsSound(init);
        var c := After(init).records[id];
        OperationOnRecord(After(init), last, id, FirstRevocation(init, i, id, c.agentId));
        ApplyKeeps(After(init), last, id);
        KeptIsMinted(ops[i], id, c, After(ops).records[id]);
        assert init[..i] == ops[..i];
      } else {
        MintedRecord(After(init), last, id);
        i := |init|;
        AgentOfMinted(last, id, After(ops).records[id]);
      }
    }
  }

  lemma KeptIsMinted(op: Op, id: string, c: CapabilityRecord, d: CapabilityRecord)
    requires MintedBy(op, id, c) && Kept(c, d)
    ensures MintedBy(op, id, d) && d.agentId == c.agentId
  {
    hide ExpectedScopeForOwner;
  }

  lemma AgentOfMinted(op: Op, id: string, c: CapabilityRecord)
    requires MintedBy(op, id, c)
    ensures op.RunOp? ==> c.agentId == op.agentId
  {
  }

  /** So a card is live exactly while the lifetime it was asked for lasts and nothing has revoked it. */
  lemma LiveIffUnrevokedInItsTime(ops: seq<Op>, id: string, at: int) returns (i: nat)
    requires FreshHistory(ops) && id in After(ops).records
    ensures i < |ops| && MintedBy(ops[i], id, After(ops).records[id])
    ensures Live(After(ops).records[id], at) <==>
      && FirstRevocation(ops, i, id, After(ops).records[id].agentId) == None
      && at < match ops[i]
              case IssueOp(input, _, now) => now + (if input.ttlMs.Some? then input.ttlMs.value else 300_000)
              case RunOp(_, _, _, _, now) => now + 300_000
              case _ => at
  {
    i := RecordIsItsHistory(ops, id);
    hide After, FreshHistory, FirstRevocation, ExpectedScopeForOwner;
  }

  /** Issuing succeeds exactly for a scope of the owner's own. The card it gives decides a request of its agent's by
      its own scope and lifetime: denied as expired exactly from its end on, permitted before that exactly what the
      scope grants. */
  lemma IssuedCardDecides(s: StoreState, input: IssueInput, id: string, now: int, action: string, uri: string, at: int)
    requires ParseResourceUri(uri).Some? && action != ""
    ensures Issue(s, input, id, now).Stored? <==> CapabilityOwner(input.scope) == Some(input.ownerId)
    ensures Issue(s, input, id, now).Stored? ==>
        var t := Issue(s, input, id, now).state;
        && id in t.records
        && t == StoreState(s.records[id := t.records[id]], s.order + [id], s.suspended - {input.agentId})
        && var card := t.records[id];
           var verdict := Decide(Request(Agent(input.agentId, input.ownerId), action, uri, Some(card)), at);
           var end := now + if input.ttlMs.Some? then input.ttlMs.value else 300_000;
           && MintedBy(IssueOp(input, id, now), id, card) && (Live(card, at) <==> at < end)
           && (verdict == Deny(CapabilityExpired) <==> at >= end)
           && (verdict == Permit <==> at < end && Grants(input.scope, action, uri))
  {
    hide Issue, NewRecord, CapabilityOwner, Decide, Grants, ParseResourceUri;
    IssuedRecord(s, input, id, now);
    FreshRecord(input, id, now);
    if Issue(s, input, id, now).Stored? {
      MintedCardDecides(input, id, now, NewRecord(input, id, now), action, uri, at);
    }
  }

  lemma MintedCardDecides(input: IssueInput, id: string, now: int, card: CapabilityRecord, action: string, uri: string,
                          at: int)
    requires MintedBy(IssueOp(input, id, now), id, card) && Bears(card, None) && ParseResourceUri(uri).Some?
    requires action != ""
    ensures var verdict := Decide(Request(Agent(input.agentId, input.ownerId), action, uri, Some(card)), at);
      var end := now + if input.ttlMs.Some? then input.ttlMs.value else 300_000;
      && (Live(card, at) <==> at < end)
      && (verdict == Deny(CapabilityExpired) <==> at >= end)
      && (verdict == Permit <==> at < end && Grants(input.scope, action, uri))
  {
    FamiliesAreDisjoint(uri);
    CanonicalUri(uri);
    DeniedFor(input.agentId, action, uri, Some(card), at);
    hide AuthorizeAgent, Grants, GrantsAction, ParseResourceUri, ParseAgentResource;
  }

  // ----- Suspended agents

  /** While suspended, a run's card is minted dead, the decision is a denial for revocation, and the suspension
      stands. */
  lemma SuspendedRunIsDenied(s: StoreState, agentId: string, ownerId: string, runId: Option<string>, id: string,
                             now: int, at: int, action: string)
    requires agentId in s.suspended && IsOwner(ownerId) && action != ""
    requires agentId != "" && ':' !in agentId
    ensures IssueForRun(s, agentId, ownerId, runId, id, now).Stored?
    ensures var t := IssueForRun(s, agentId, ownerId, runId, id, now).state;
      && t.suspended == s.suspended
      && id in t.records && t.records[id].revokedAt == Some(now)
      && Decide(Request(Agent(agentId, ownerId), action, BuildAgentResource(ownerId, agentId), Some(t.records[id])),
                at) == Deny(CapabilityRevoked)
  {
    OwnerOfExpectedScope(ownerId);
    OwnerCharacters(ownerId);
    assert ownerId != "";
    AgentResourceRoundTrip(ownerId, agentId);
    hide ParseAgentResource, BuildAgentResource, CapabilityOwner, IsOwner, ParseResourceUri, AuthorizeCapability;
  }

  /** An agent that is not suspended gets a card for its run, and the decision is a permit for five minutes. */
  lemma UnsuspendedRunIsPermitted(s: StoreState, agentId: string, ownerId: string, runId: Option<string>, id: string,
                                  now: int, at: int, action: string)
    requires agentId !in s.suspended && IsOwner(ownerId) && action != ""
    requires agentId != "" && ':' !in agentId
    ensures IssueForRun(s, agentId, ownerId, runId, id, now).Stored?
    ensures var t := IssueForRun(s, agentId, ownerId, runId, id, now).state;
      && t.suspended == s.suspended && id in t.records
      && Decide(Request(Agent(agentId, ownerId), action, BuildAgentResource(ownerId, agentId), Some(t.records[id])), at)
         == if at < now + 300_000 then Permit else Deny(CapabilityExpired)
  {
    OwnerOfExpectedScope(ownerId);
    OwnerCharacters(ownerId);
    assert ownerId != "";
    AgentResourceRoundTrip(ownerId, agentId);
    hide ParseAgentResource, BuildAgentResource, CapabilityOwner, IsOwner, ParseResourceUri, AuthorizeCapability;
  }

  // ----- Isolation

  function AgentPrincipalFor(record: CapabilityRecord): Principal {
    Agent(record.agentId, record.ownerId)
  }

  /** After any history, whatever a record's own principal is permitted lies in the record owner's namespace, within the
      scope's actions, under a card unrevoked and unexpired at the time of the decision. */
  lemma PermitsStayAtHome(ops: seq<Op>, id: string, action: string, resource: string, at: int)
    requires id in After(ops).records
    requires Decide(Request(AgentPrincipalFor(After(ops).records[id]), action, resource, Some(After(ops).records[id])),
                    at) == Permit
    ensures Live(After(ops).records[id], at)
    ensures ParseResourceUri(resource).Some? ==>
        && ParseResourceUri(resource).value.ownerId == After(ops).records[id].ownerId
        && Grants(After(ops).records[id].scope, action, resource)
    ensures ParseResourceUri(resource).None? ==>
        ParseAgentResource(resource).Some? && ParseAgentResource(resource).value.0 == After(ops).records[id].ownerId
  {
    var record := After(ops).records[id];
    var request := Request(AgentPrincipalFor(record), action, resource, Some(record));
    HistoryIsSound(ops);
    FamiliesAreDisjoint(resource);
    PermitsTheEntitled(request, at);
    if ParseResourceUri(resource).Some? {
      AgentNeedsAgent(request, at);
      if Grants(record.scope, action, resource) {
        AllowedIsOwned(record.scope, action, resource);
      }
    }
    hide ParseResourceUri, ParseAgentResource, Grants, CapabilityOwner, Decide, After;
  }
}
