/** The capability store: issuing, revoking and standing revocation. */
module Keycards {
  import opened Wrappers
  import opened Scopes
  import opened Policy

  type CapabilityRecord = c: Capability | c.Record? witness Record("", "", None, None, "", "", None, 0, None)

  const DEFAULT_CAPABILITY_TTL_MS := 5 * 60 * 1000

  datatype IssueInput = IssueInput(agentId: string, ownerId: string, scope: string, runId: Option<string>,
                                   ttlMs: Option<int>)

  /** Either the new state of the store, or the reason minting throws. */
  datatype Outcome = Stored(state: StoreState) | MalformedScope | ForeignScope(owner: string)

  /** The store's records in insertion order, and the agents under a standing revocation. */
  datatype StoreState = StoreState(records: map<string, CapabilityRecord>, order: seq<string>, suspended: set<string>)

  const EMPTY_STORE := StoreState(map[], [], {})

  // ----- What each operation makes of the store

  function NewRecord(input: IssueInput, id: string, now: int): CapabilityRecord {
    var ttl := if input.ttlMs.Some? then input.ttlMs.value else DEFAULT_CAPABILITY_TTL_MS;
    Record(id, input.scope, Some(now + ttl), None, input.agentId, input.ownerId, input.runId, now, None)
  }

  function Mint(s: StoreState, input: IssueInput, id: string, now: int): Outcome {
    var owner := CapabilityOwner(input.scope);
    if owner.None? then MalformedScope
    else if owner.value != input.ownerId then ForeignScope(owner.value)
    else Stored(s.(records := s.records[id := NewRecord(input, id, now)], order := s.order + [id]))
  }

  /** An explicit issue lifts the agent's suspension. */
  function Issue(s: StoreState, input: IssueInput, id: string, now: int): Outcome {
    var minted := Mint(s, input, id, now);
    if minted.Stored? then Stored(minted.state.(suspended := minted.state.suspended - {input.agentId})) else minted
  }

  function DeadOnArrival(record: CapabilityRecord): CapabilityRecord {
    record.(revokedAt := Some(record.issuedAt), revokedBy := Some("standing-revocation"))
  }

  function IssueSuspended(s: StoreState, input: IssueInput, id: string, now: int): Outcome {
    var minted := Mint(s, input, id, now);
    if minted.Stored?
    then Stored(minted.state.(records := minted.state.records[id := DeadOnArrival(minted.state.records[id])]))
    else minted
  }

  function RunInput(agentId: string, ownerId: string, runId: Option<string>): IssueInput {
    IssueInput(agentId, ownerId, ExpectedScopeForOwner(ownerId), runId, None)
  }

  function IssueForRun(s: StoreState, agentId: string, ownerId: string, runId: Option<string>, id: string,
                       now: int): Outcome {
    var input := RunInput(agentId, ownerId, runId);
    if agentId in s.suspended then IssueSuspended(s, input, id, now) else Issue(s, input, id, now)
  }

  /** The first revocation sticks; every revocation suspends the agent. */
  function RevokedRecord(record: CapabilityRecord, revokedBy: string, now: int): CapabilityRecord {
    if record.revokedAt.None? then record.(revokedAt := Some(now), revokedBy := Some(revokedBy)) else record
  }

  function Revoke(s: StoreState, id: string, revokedBy: string, now: int): StoreState {
    if id !in s.records then s
    else StoreState(s.records[id := RevokedRecord(s.records[id], revokedBy, now)], s.order,
                    s.suspended + {s.records[id].agentId})
  }

  function HasLiveRecord(s: StoreState, ids: seq<string>, agentId: string): bool {
    exists i | 0 <= i < |ids| ::
        ids[i] in s.records && s.records[ids[i]].agentId == agentId && s.records[ids[i]].revokedAt.None?
  }

  /** Revokes, in insertion order, every unrevoked record of the agent among `ids`. */
  function RevokeEach(s: StoreState, ids: seq<string>, agentId: string, revokedBy: string, now: int): StoreState {
    if ids == [] then s
    else
      var earlier, id := RevokeEach(s, ids[..|ids| - 1], agentId, revokedBy, now), ids[|ids| - 1];
      if id in earlier.records && earlier.records[id].agentId == agentId && earlier.records[id].revokedAt.None?
      then Revoke(earlier, id, revokedBy, now) else earlier
  }

  // ----- Listing

  /** Newest first; records issued at the same time keep their order. */
  function InsertByAge(record: CapabilityRecord, sorted: seq<CapabilityRecord>): seq<CapabilityRecord> {
    if sorted == [] then [record]
    else if record.issuedAt >= sorted[0].issuedAt then [record] + sorted
    else [sorted[0]] + InsertByAge(record, sorted[1..])
  }

  function SortNewestFirst(records: seq<CapabilityRecord>): seq<CapabilityRecord> {
    if records == [] then [] else InsertByAge(records[0], SortNewestFirst(records[1..]))
  }

  /** The records of one agent, in insertion order. */
  function RecordsOf(s: StoreState, ids: seq<string>, agentId: string): seq<CapabilityRecord> {
    if ids == [] then []
    else if ids[0] in s.records && s.records[ids[0]].agentId == agentId
    then [s.records[ids[0]]] + RecordsOf(s, ids[1..], agentId)
    else RecordsOf(s, ids[1..], agentId)
  }

  function OnlyLive(records: seq<CapabilityRecord>, at: int): seq<CapabilityRecord> {
    if records == [] then [] else (if Live(records[0], at) then [records[0]] else []) + OnlyLive(records[1..], at)
  }

  function LiveFor(s: StoreState, agentId: string, at: int): seq<CapabilityRecord> {
    OnlyLive(SortNewestFirst(RecordsOf(s, s.order, agentId)), at)
  }

  lemma {:induction false} InsertKeeps(record: CapabilityRecord, sorted: seq<CapabilityRecord>, c: CapabilityRecord)
    ensures c in InsertByAge(record, sorted) <==> c == record || c in sorted
  {
    if sorted != [] && record.issuedAt < sorted[0].issuedAt {
      InsertKeeps(record, sorted[1..], c);
      assert sorted == [sorted[0]] + sorted[1..];
    }
  }

  lemma {:induction false} SortKeeps(records: seq<CapabilityRecord>, c: CapabilityRecord)
    ensures c in SortNewestFirst(records) <==> c in records
  {
    if records != [] {
      SortKeeps(records[1..], c);
      InsertKeeps(records[0], SortNewestFirst(records[1..]), c);
      assert records == [records[0]] + records[1..];
    }
  }

  predicate NewestFirst(records: seq<CapabilityRecord>) {
    forall i, j | 0 <= i < j < |records| :: records[i].issuedAt >= records[j].issuedAt
  }

  lemma {:induction false} InsertSorts(record: CapabilityRecord, sorted: seq<CapabilityRecord>)
    requires NewestFirst(sorted)
    ensures NewestFirst(InsertByAge(record, sorted))
    ensures |InsertByAge(record, sorted)| == |sorted| + 1
    ensures forall i | 0 <= i < |sorted| + 1 ::
        InsertByAge(record, sorted)[i] == record || InsertByAge(record, sorted)[i] in sorted
  {
    if sorted != [] && record.issuedAt < sorted[0].issuedAt {
      InsertSorts(record, sorted[1..]);
    }
  }

  lemma {:induction false} ListIsSorted(records: seq<CapabilityRecord>)
    ensures NewestFirst(SortNewestFirst(records)) && multiset(SortNewestFirst(records)) == multiset(records)
  {
    if records != [] {
      ListIsSorted(records[1..]);
      InsertSorts(records[0], SortNewestFirst(records[1..]));
      InsertKeepsAll(records[0], SortNewestFirst(records[1..]));
      assert records == [records[0]] + records[1..];
    }
  }

  function IssuedAt(records: seq<CapabilityRecord>, time: int): seq<CapabilityRecord> {
    if records == [] then []
    else (if records[0].issuedAt == time then [records[0]] else []) + IssuedAt(records[1..], time)
  }

  lemma {:induction false} InsertBeforeEquals(record: CapabilityRecord, sorted: seq<CapabilityRecord>, time: int)
    ensures IssuedAt(InsertByAge(record, sorted), time)
         == (if record.issuedAt == time then [record] else []) + IssuedAt(sorted, time)
  {
    if sorted == [] {
      IssuedInFront(record, [], time);
    } else if record.issuedAt >= sorted[0].issuedAt {
      IssuedInFront(record, sorted, time);
    } else {
      InsertBeforeEquals(record, sorted[1..], time);
      IssuedInFront(sorted[0], InsertByAge(record, sorted[1..]), time);
    }
  }

  lemma IssuedInFront(record: CapabilityRecord, records: seq<CapabilityRecord>, time: int)
    ensures IssuedAt([record] + records, time)
         == (if record.issuedAt == time then [record] else []) + IssuedAt(records, time)
  {
    assert ([record] + records)[1..] == records;
  }

  /** The sort is stable: records issued at one time stay in the order they were filed in. */
  lemma {:induction false} TiesKeepOrder(records: seq<CapabilityRecord>, time: int)
    ensures IssuedAt(SortNewestFirst(records), time) == IssuedAt(records, time)
  {
    hide InsertByAge;
    if records != [] {
      TiesKeepOrder(records[1..], time);
      InsertBeforeEquals(records[0], SortNewestFirst(records[1..]), time);
    }
  }

  lemma {:induction false} InsertKeepsAll(record: CapabilityRecord, sorted: seq<CapabilityRecord>)
    ensures multiset(InsertByAge(record, sorted)) == multiset(sorted) + multiset{record}
  {
    if sorted != [] && record.issuedAt < sorted[0].issuedAt {
      InsertKeepsAll(record, sorted[1..]);
      assert sorted == [sorted[0]] + sorted[1..];
    }
  }

  lemma {:induction false} RecordsOfMembers(s: StoreState, ids: seq<string>, agentId: string, c: CapabilityRecord)
    ensures c in RecordsOf(s, ids, agentId)
       <==> exists id :: id in ids && id in s.records && s.records[id] == c && c.agentId == agentId
  {
    if ids != [] {
      RecordsOfMembers(s, ids[1..], agentId, c);
      assert ids == [ids[0]] + ids[1..];
    }
  }

  lemma {:induction false} OnlyLiveMembers(records: seq<CapabilityRecord>, at: int, c: CapabilityRecord)
    ensures c in OnlyLive(records, at) <==> c in records && Live(c, at)
  {
    if records != [] {
      OnlyLiveMembers(records[1..], at, c);
      assert records == [records[0]] + records[1..];
    }
  }

  /** `liveFor` lists exactly the agent's live records. */
  lemma LiveForMembers(s: StoreState, agentId: string, at: int, c: CapabilityRecord)
    requires forall id | id in s.records :: id in s.order
    ensures c in LiveFor(s, agentId, at)
       <==> (exists id :: id in s.records && s.records[id] == c) && c.agentId == agentId && Live(c, at)
  {
    hide *;
    RecordsOfMembers(s, s.order, agentId, c);
    SortKeeps(RecordsOf(s, s.order, agentId), c);
    OnlyLiveMembers(SortNewestFirst(RecordsOf(s, s.order, agentId)), at, c);
    LiveForUnfolds(s, agentId, at);
  }

  lemma LiveForUnfolds(s: StoreState, agentId: string, at: int)
    ensures LiveFor(s, agentId, at) == OnlyLive(SortNewestFirst(RecordsOf(s, s.order, agentId)), at)
  {
  }

  // ----- The object

  class CapabilityStore {
    var records: map<string, CapabilityRecord>
    var order: seq<string>
    var suspended: set<string>

    ghost function State(): StoreState
      reads this
    {
      StoreState(records, order, suspended)
    }

    constructor ()
      ensures State() == EMPTY_STORE
    {
      records, order, suspended := map[], [], {};
    }

    method MintRecord(input: IssueInput, id: string, now: int) returns (thrown: Option<Outcome>)
      modifies this
      ensures thrown.None? ==> Mint(old(State()), input, id, now) == Stored(State())
      ensures thrown.Some? ==> Mint(old(State()), input, id, now) == thrown.value && !thrown.value.Stored?
      ensures thrown.Some? ==> State() == old(State())
    {
      var owner := CapabilityOwner(input.scope);
      if owner.None? {
        return Some(MalformedScope);
      }
      if owner.value != input.ownerId {
        return Some(ForeignScope(owner.value));
      }
      records := records[id := NewRecord(input, id, now)];
      order := order + [id];
      return None;
    }

    method IssueCard(input: IssueInput, id: string, now: int) returns (thrown: Option<Outcome>)
      modifies this
      ensures thrown.None? ==> Issue(old(State()), input, id, now) == Stored(State())
      ensures thrown.Some? ==> Issue(old(State()), input, id, now) == thrown.value && State() == old(State())
    {
      hide CapabilityOwner;
      thrown := MintRecord(input, id, now);
      if thrown.None? {
        suspended := suspended - {input.agentId};
      }
    }

    method IssueSuspendedCard(input: IssueInput, id: string, now: int) returns (thrown: Option<Outcome>)
      modifies this
      ensures thrown.None? ==> IssueSuspended(old(State()), input, id, now) == Stored(State())
      ensures thrown.Some? ==> IssueSuspended(old(State()), input, id, now) == thrown.value && State() == old(State())
    {
      hide CapabilityOwner;
      thrown := MintRecord(input, id, now);
      if thrown.None? {
        records := records[id := DeadOnArrival(records[id])];
      }
    }

    method IssueCardForRun(agentId: string, ownerId: string, runId: Option<string>, id: string, now: int)
      returns (thrown: Option<Outcome>)
      modifies this
      ensures thrown.None? ==> IssueForRun(old(State()), agentId, ownerId, runId, id, now) == Stored(State())
      ensures thrown.Some? ==> IssueForRun(old(State()), agentId, ownerId, runId, id, now) == thrown.value
      ensures thrown.Some? ==> State() == old(State())
    {
      hide Issue, IssueSuspended;
      var input := RunInput(agentId, ownerId, runId);
      if agentId in suspended {
        thrown := IssueSuspendedCard(input, id, now);
      } else {
        thrown := IssueCard(input, id, now);
      }
    }

    method RevokeCard(id: string, revokedBy: string, now: int) returns (result: Option<CapabilityRecord>)
      modifies this
      ensures State() == Revoke(old(State()), id, revokedBy, now)
      ensures result == if id in old(records) then Some(records[id]) else None
    {
      if id !in records {
        return None;
      }
      var record := records[id];
      if record.revokedAt.None? {
        records := records[id := record.(revokedAt := Some(now), revokedBy := Some(revokedBy))];
      }
      assert records == old(records)[id := records[id]];
      suspended := suspended + {record.agentId};
      return Some(records[id]);
    }

    method RevokeAllForAgent(agentId: string, revokedBy: string, now: int)
      modifies this
      ensures State() == RevokeEach(old(State()), old(order), agentId, revokedBy, now)
    {
      var ids := order;
      for i := 0 to |ids|
        invariant State() == RevokeEach(old(State()), ids[..i], agentId, revokedBy, now)
      {
        assert ids[..i + 1][..i] == ids[..i];
        if ids[i] in records && records[ids[i]].agentId == agentId && records[ids[i]].revokedAt.None? {
          var _ := RevokeCard(ids[i], revokedBy, now);
        }
      }
      assert ids[..|ids|] == ids;
    }
  }
}
