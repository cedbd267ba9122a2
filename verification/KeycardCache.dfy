/** The browser's cache of live keycards, keyed by agent and room. */
module KeycardCache {
  import opened Wrappers
  import opened Rooms
  import opened ResourceUris
  import opened Scopes
  import opened ScopeLaws
  import opened Policy
  import opened Keycards
  import opened KeycardHistory
  import opened ResourceFiles
  import opened AccessGate

  function CapabilityKey(agentId: string, roomId: string): string {
    agentId + ":" + roomId
  }

  /** The browser's liveness: an expiry at this very instant still counts as live. */
  predicate IsLive(capability: CapabilityRecord, now: int) {
    capability.revokedAt.None? && capability.expiresAt.Some? && capability.expiresAt.value >= now
  }

  predicate Opens(capability: CapabilityRecord, now: int, rooms: seq<FileRoom>, agentId: string, room: FileRoom) {
    IsLive(capability, now) && capability.agentId == agentId && room in RoomsFor(capability.scope, rooms)
  }

  predicate ColonFreeIds(rooms: seq<FileRoom>) {
    && (forall i | 0 <= i < |rooms| :: ':' !in rooms[i].id)
    && DistinctIds(rooms)
  }

  predicate DistinctIds(rooms: seq<FileRoom>) {
    forall i, j | 0 <= i < j < |rooms| :: rooms[i].id != rooms[j].id
  }

  /** Room ids carry no colon, so a key names one agent and one room. */
  lemma KeysAreUnique(a: string, r: string, b: string, q: string)
    requires ':' !in r && ':' !in q && CapabilityKey(a, r) == CapabilityKey(b, q)
    ensures a == b && r == q
  {
    var key := a + ":" + r;
    NoLaterColon(a, r);
    NoLaterColon(b, q);
    assert key[|a|] == ':' && key[|b|] == ':';
    assert key[..|a|] == a && (b + ":" + q)[..|b|] == b;
    assert key[|a| + 1..] == r && (b + ":" + q)[|b| + 1..] == q;
  }

  lemma NoLaterColon(a: string, r: string)
    requires ':' !in r
    ensures forall k | |a| < k < |CapabilityKey(a, r)| :: CapabilityKey(a, r)[k] != ':'
  {
  }

  /** The last listed card that opens the room to the agent. */
  function LastOpener(capabilities: seq<CapabilityRecord>, now: int, rooms: seq<FileRoom>, agentId: string,
                      room: FileRoom): Option<CapabilityRecord> {
    if capabilities == [] then None
    else
      var last := capabilities[|capabilities| - 1];
      if Opens(last, now, rooms, agentId, room) then Some(last)
      else LastOpener(capabilities[..|capabilities| - 1], now, rooms, agentId, room)
  }

  predicate IsLastOpener(capabilities: seq<CapabilityRecord>, now: int, rooms: seq<FileRoom>, agentId: string,
                         room: FileRoom, i: int) {
    && 0 <= i < |capabilities| && Opens(capabilities[i], now, rooms, agentId, room)
    && forall j | i < j < |capabilities| :: !Opens(capabilities[j], now, rooms, agentId, room)
  }

  lemma {:induction false} LastOpenerIsLast(capabilities: seq<CapabilityRecord>, now: int, rooms: seq<FileRoom>,
                                            agentId: string, room: FileRoom)
    ensures match LastOpener(capabilities, now, rooms, agentId, room)
      case None => forall i | 0 <= i < |capabilities| :: !Opens(capabilities[i], now, rooms, agentId, room)
      case Some(c) => exists i :: IsLastOpener(capabilities, now, rooms, agentId, room, i) && capabilities[i] == c
  {
    hide Opens;
    if capabilities != [] {
      var init, last := capabilities[..|capabilities| - 1], capabilities[|capabilities| - 1];
      LastOpenerIsLast(init, now, rooms, agentId, room);
      if Opens(last, now, rooms, agentId, room) {
        assert IsLastOpener(capabilities, now, rooms, agentId, room, |init|);
      } else if LastOpener(init, now, rooms, agentId, room).Some? {
        var i :| IsLastOpener(init, now, rooms, agentId, room, i)
          && init[i] == LastOpener(init, now, rooms, agentId, room).value;
        assert IsLastOpener(capabilities, now, rooms, agentId, room, i);
      }
    }
  }

  function Entry(held: map<string, CapabilityRecord>, key: string): Option<CapabilityRecord> {
    if key in held then Some(held[key]) else None
  }

  /** The entry for an agent and a room is the last listed card that opens it, and there is none if none does. */
  ghost predicate Mirrors(held: map<string, CapabilityRecord>, capabilities: seq<CapabilityRecord>, now: int,
                          rooms: seq<FileRoom>) {
    forall agentId, room {:trigger CapabilityKey(agentId, room.id)} | room in rooms ::
        Entry(held, CapabilityKey(agentId, room.id)) == LastOpener(capabilities, now, rooms, agentId, room)
  }

  /** The same while the rooms of one more card are being entered. */
  ghost predicate Entering(held: map<string, CapabilityRecord>, earlier: seq<CapabilityRecord>, card: CapabilityRecord,
                           doors: seq<FileRoom>, now: int, rooms: seq<FileRoom>) {
    forall agentId, room {:trigger CapabilityKey(agentId, room.id)} | room in rooms ::
        Entry(held, CapabilityKey(agentId, room.id))
          == if card.agentId == agentId && room in doors then Some(card)
             else LastOpener(earlier, now, rooms, agentId, room)
  }

  lemma StartEntering(held: map<string, CapabilityRecord>, earlier: seq<CapabilityRecord>, card: CapabilityRecord,
                      now: int, rooms: seq<FileRoom>)
    requires Mirrors(held, earlier, now, rooms)
    ensures Entering(held, earlier, card, [], now, rooms)
  {
    hide LastOpener, CapabilityKey;
  }

  lemma EnterRoom(held: map<string, CapabilityRecord>, earlier: seq<CapabilityRecord>, card: CapabilityRecord,
                  doors: seq<FileRoom>, entered: FileRoom, now: int, rooms: seq<FileRoom>)
    requires ColonFreeIds(rooms) && Entering(held, earlier, card, doors, now, rooms) && entered in rooms
    ensures Entering(held[CapabilityKey(card.agentId, entered.id) := card], earlier, card, doors + [entered], now,
                     rooms)
  {
    var key := CapabilityKey(card.agentId, entered.id);
    hide LastOpener;
    forall agentId, room | room in rooms
      ensures CapabilityKey(agentId, room.id) == key ==> agentId == card.agentId && room == entered
    {
      if CapabilityKey(agentId, room.id) == key {
        KeysAreUnique(agentId, room.id, card.agentId, entered.id);
      }
    }
    hide CapabilityKey;
  }

  lemma OneMoreCard(earlier: seq<CapabilityRecord>, card: CapabilityRecord, now: int, rooms: seq<FileRoom>,
                    agentId: string, room: FileRoom)
    ensures LastOpener(earlier + [card], now, rooms, agentId, room)
         == if Opens(card, now, rooms, agentId, room) then Some(card)
            else LastOpener(earlier, now, rooms, agentId, room)
  {
    hide Opens;
    assert (earlier + [card])[..|earlier|] == earlier;
  }

  lemma FinishEntering(held: map<string, CapabilityRecord>, earlier: seq<CapabilityRecord>, card: CapabilityRecord,
                       now: int, rooms: seq<FileRoom>)
    requires IsLive(card, now) && Entering(held, earlier, card, RoomsFor(card.scope, rooms), now, rooms)
    ensures Mirrors(held, earlier + [card], now, rooms)
  {
    hide RoomsFor, CapabilityKey, IsLive, LastOpener, Entry;
    forall agentId, room | room in rooms
      ensures Entry(held, CapabilityKey(agentId, room.id)) == LastOpener(earlier + [card], now, rooms, agentId, room)
    {
      OneMoreCard(earlier, card, now, rooms, agentId, room);
    }
  }

  lemma SkipDeadCard(held: map<string, CapabilityRecord>, earlier: seq<CapabilityRecord>, card: CapabilityRecord,
                     now: int, rooms: seq<FileRoom>)
    requires !IsLive(card, now) && Mirrors(held, earlier, now, rooms)
    ensures Mirrors(held, earlier + [card], now, rooms)
  {
    hide RoomsFor, CapabilityKey, IsLive, LastOpener, Entry;
    forall agentId, room | room in rooms
      ensures Entry(held, CapabilityKey(agentId, room.id)) == LastOpener(earlier + [card], now, rooms, agentId, room)
    {
      OneMoreCard(earlier, card, now, rooms, agentId, room);
    }
  }

  lemma EmptyMirrors(now: int, rooms: seq<FileRoom>)
    ensures Mirrors(map[], [], now, rooms)
  {
  }

  class Cache {
    var held: map<string, CapabilityRecord>

    constructor ()
      ensures held == map[]
    {
      held := map[];
    }

    /** Reloads every listed card and re-derives which rooms they open. */
    method RefreshCapabilities(capabilities: seq<CapabilityRecord>, now: int, rooms: seq<FileRoom>)
      requires ColonFreeIds(rooms)
      modifies this
      ensures Mirrors(held, capabilities, now, rooms)
    {
      held := map[];
      EmptyMirrors(now, rooms);
      hide Mirrors, Entering, ColonFreeIds, IsLive, CapabilityKey, RoomsFor;
      for i := 0 to |capabilities|
        invariant Mirrors(held, capabilities[..i], now, rooms)
      {
        var card := capabilities[i];
        ghost var earlier := capabilities[..i];
        assert capabilities[..i + 1] == earlier + [card];
        if !IsLive(card, now) {
          SkipDeadCard(held, earlier, card, now, rooms);
          continue;
        }
        var doors := RoomsFor(card.scope, rooms);
        StartEntering(held, earlier, card, now, rooms);
        for j := 0 to |doors|
          invariant Entering(held, earlier, card, doors[..j], now, rooms)
        {
          OpenedRoomsAreRooms(card.scope, rooms, doors[j]);
          EnterRoom(held, earlier, card, doors[..j], doors[j], now, rooms);
          assert doors[..j + 1] == doors[..j] + [doors[j]];
          held := held[CapabilityKey(card.agentId, doors[j].id) := card];
        }
        assert doors[..|doors|] == doors;
        FinishEntering(held, earlier, card, now, rooms);
      }
      assert capabilities[..|capabilities|] == capabilities;
    }
  }

  // ----- The server honours the cache

  /** How a card is presented for a resource: by its id, as the agent it was made out to. */
  function ReadWith(card: CapabilityRecord, uri: string): AccessRequest {
    AccessRequest(Agent(card.agentId, card.ownerId), Read, uri, Some(card.id), None, "")
  }

  /** A cached card, presented for its room with its record unchanged on the server and the room's owner known there, is
      refused exactly from its expiry on. */
  lemma CachedCardIsHonoured(held: map<string, CapabilityRecord>, capabilities: seq<CapabilityRecord>, now: int,
                             rooms: seq<FileRoom>, agentId: string, room: FileRoom, env: Env, s: StoreState, at: int,
                             g: GateState)
    requires Mirrors(held, capabilities, now, rooms) && room in rooms && CapabilityKey(agentId, room.id) in held
    requires var card := held[CapabilityKey(agentId, room.id)]; card.id in s.records && s.records[card.id] == card
    requires Sound(s) && env.pdp == REAL_PDP
    requires room.resourceUri.Some? && ParseRef(env.owners, room.resourceUri.value).Some?
    ensures var card := held[CapabilityKey(agentId, room.id)];
      && card in capabilities && card.agentId == agentId && card.expiresAt.Some?
      && (AccessEffect(env, s.records, ReadWith(card, room.resourceUri.value), at, g).1.Refused? <==>
            at >= card.expiresAt.value)
  {
    hide *;
    var card, uri := held[CapabilityKey(agentId, room.id)], room.resourceUri.value;
    HeldOpens(held, capabilities, now, rooms, agentId, room);
    SoundScope(s, card.id);
    KnownUriParses(env.owners, uri);
    CachedCardPermits(card, now, rooms, room, at);
    PresentedCardIsJudged(env, s.records, card, uri, at, g);
  }

  lemma SoundScope(s: StoreState, id: string)
    requires Sound(s) && id in s.records
    ensures CapabilityOwner(s.records[id].scope).Some?
  {
    hide CapabilityOwner;
  }

  lemma KnownUriParses(owners: set<string>, uri: string)
    requires ParseRef(owners, uri).Some?
    ensures ParseResourceUri(uri).Some? && ParseRef(owners, uri).value.uri == uri
  {
    AcceptedIsCanonical(uri);
    hide ParseResourceUri;
  }

  lemma PresentedCardIsJudged(env: Env, records: map<string, CapabilityRecord>, card: CapabilityRecord, uri: string,
                              at: int, g: GateState)
    requires card.id in records && records[card.id] == card && env.pdp == REAL_PDP
    requires ParseRef(env.owners, uri).Some? && ParseRef(env.owners, uri).value.uri == uri
    ensures AccessEffect(env, records, ReadWith(card, uri), at, g).1.Refused?
       <==> Decide(Request(Agent(card.agentId, card.ownerId), "read", uri, Some(card)), at) != Permit
  {
    hide ParseRef, Decide, ReadFile;
  }

  lemma CachedCardPermits(card: CapabilityRecord, now: int, rooms: seq<FileRoom>, room: FileRoom, at: int)
    requires IsLive(card, now) && card.expiresAt.Some? && room in RoomsFor(card.scope, rooms)
    requires CapabilityOwner(card.scope).Some?
    requires room.resourceUri.Some? && ParseResourceUri(room.resourceUri.value).Some?
    ensures Decide(Request(Agent(card.agentId, card.ownerId), "read", room.resourceUri.value, Some(card)), at) == Permit
       <==> at < card.expiresAt.value
  {
    var uri := room.resourceUri.value;
    var request := Request(Agent(card.agentId, card.ownerId), "read", uri, Some(card));
    hide *;
    OpenedRoomsAreRooms(card.scope, rooms, room);
    MatchersAgree(card.scope, uri);
    FamiliesAreDisjoint(uri);
    PermitsTheEntitled(request, at);
    AgentNeedsAgent(request, at);
    OwnCardEntitles(card, uri, at, now);
  }

  lemma HeldOpens(held: map<string, CapabilityRecord>, capabilities: seq<CapabilityRecord>, now: int,
                  rooms: seq<FileRoom>, agentId: string, room: FileRoom)
    requires Mirrors(held, capabilities, now, rooms) && room in rooms && CapabilityKey(agentId, room.id) in held
    ensures var card := held[CapabilityKey(agentId, room.id)];
      card in capabilities && IsLive(card, now) && card.expiresAt.Some? && card.agentId == agentId
        && room in RoomsFor(card.scope, rooms)
  {
    LastOpenerIsLast(capabilities, now, rooms, agentId, room);
    hide RoomsFor, CapabilityKey, LastOpener;
  }

  lemma OwnCardEntitles(card: CapabilityRecord, uri: string, at: int, now: int)
    requires IsLive(card, now) && card.expiresAt.Some? && ParseResourceUri(uri).Some?
    requires ScopeAllows(card.scope, "read", uri)
    ensures var request := Request(Agent(card.agentId, card.ownerId), "read", uri, Some(card));
      request.action != "" && (EntitledToData(request, at) <==> at < card.expiresAt.value)
  {
    AllowsIffGranted(card.scope, "read", uri);
    hide ParseResourceUri, ScopeAllows, Grants;
  }

  /** The two sides differ at the instant of expiry: the browser still offers the card, the server refuses it as
      expired. */
  lemma InstantOfExpiry(card: CapabilityRecord, uri: string)
    requires card.revokedAt.None? && card.expiresAt.Some? && ParseResourceUri(uri).Some?
    ensures IsLive(card, card.expiresAt.value)
    ensures Decide(Request(Agent(card.agentId, card.ownerId), "read", uri, Some(card)),
                   card.expiresAt.value) == Deny(CapabilityExpired)
  {
    FamiliesAreDisjoint(uri);
    hide ParseResourceUri, ParseAgentResource, ScopeAllows, ScopeAllowsAction;
  }

  /** The rooms of the map meet the cache's requirement. */
  lemma FileRoomsAreColonFree()
    ensures ColonFreeIds(FILE_ROOMS)
  {
    FileRoomsAreDistinct();
    hide DistinctIds;
    assert ':' !in "auth-module";
    assert ':' !in "billing";
    assert ':' !in "database";
    assert ':' !in "deploy-config";
    assert ':' !in "analytics";
    assert ':' !in "living-room";
  }

  lemma FileRoomsAreDistinct()
    ensures DistinctIds(FILE_ROOMS)
  {
    assert |"auth-module"| == 11 && |"billing"| == 7 && |"database"| == 8 && |"deploy-config"| == 13
      && |"analytics"| == 9;
    assert "auth-module"[0] != "living-room"[0];
  }
}
