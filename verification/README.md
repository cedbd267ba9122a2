# Verified model of the agent launchpad

The repository is a launchpad for coding agents: a server that runs an agent's model inside a workspace holding only the
resource files its owner gave it keycards for, and a browser world in which the agents walk between rooms. This project
models its hard core and proves what it promises. The 33 modules fall into four groups.

**Walking (browser).** `Grid` is the queue-based breadth-first search, `ExitSearch` the layered search for the nearest open
tile, `TileMap` and `MapLoader` the loaded map, `Rooms` the fixed rooms, `AgentSim` one frame of an agent. `Movement` proves
confinement over every sequence of frames and every random choice; `Journeys` proves that paths are walked in order and
finished. Pixels are real numbers. The length of a leg (`Math.hypot`) is a parameter constrained to be the square root it
should be, randomness an arbitrary function into [0, 1), and the clock a parameter.

**Scopes, policy and keycards.** `Text` holds splitting, joining and trimming; `ResourceUris` and `Scopes` the two parsers and
the glob matcher; `ScopeLaws` their round trips and the browser's second matcher. `Policy` is the decision point, `Keycards`
the capability store as an object with its operations specified as functions on its state, `KeycardHistory` what holds after
any history of operations, `KeycardCache` the browser's cache of cards.

**Resources and runs (server).** `ResourceFiles` maps resources to paths, `Listing` is the truncated directory walk,
`AccessGate` the enforcement point and one staging pass, `JsonStore` the mutation queue and its file, `AgentDatabase` the
mutations the service submits. `RunProtocol` is the service as a state machine: one step is one database mutation, one
decision, one store operation or one change of an inbox, and owners, requests, clock, failing disks and any number of runs
interleave freely. A few fields of its state only remember the past; `RunHistory` and `RunSafety.DisturbedIff` say what each of
them means in terms of the events. `RunInvariants` proves what every step keeps, `RunSafety` and `LeastPrivilege` what follows
for every reachable state. `AgentService` is the service as an object: `executeRun` with its loops, early exits, catch and final
wipe, anything happening wherever it awaits; each of its steps is a step of `RunProtocol`, so the theorems hold of it.
`WipeRace`, `StopRace` and `Rejections` reach the states in which a promise of the service fails.

**Loops.** `Redaction` is the replacement of secrets in output, `Streaming` the chunked line parser under a byte budget.

Where the source updates an object or runs a loop, the model is a class or a loop whose `ensures` ties it to a function of its
inputs; the lemmas are about those functions. An exception is a `None` or an error value.

## What turned out to need a condition

* A jailed agent is off the bars' row exactly when the cell is at least one tile wide and three high
  (`Movement.JailedIsConfined`). An agent called back in the middle of a leg stays on open tiles exactly when that leg ends on
  one (`Journeys.UnfinishedLegIsConfined`), because `endWorking` keeps the leg.
* An agent sent to a desk it cannot walk to starts "working" where it stands (`Journeys.WorksAtItsDesk`).
* The browser's matcher agrees with the server's exactly for scopes that spell `read` without surrounding spaces
  (`ScopeLaws.MatchersAgree`, `ScopeLaws.OpenedRoomsAreAllowed`).
* A cached card is honoured exactly before its expiry; at the instant of expiry the browser still offers it and the server
  refuses it (`KeycardCache.InstantOfExpiry`).
* A secret without stars survives redaction for some text exactly when it is the word `REDACTED`
  (`Redaction.CleanIffWordNotKept`). Any secret, alone or among others that it does not overlap, does exactly when it overlaps
  the placeholder (`Redaction.SurvivesIffCollides`, `Redaction.SurvivesIffCollidesAmongOthers`); one that does not overlap the
  placeholder never does, nor one that contains such a secret kept beside it (`Redaction.CoveredOutputIsClean`).
* Longest first is what masks a secret whole when a shorter one is part of it (`Redaction.KeptSecretBecomesPlaceholder`,
  `Redaction.KeptSecretIsMaskedWhole`).
* Writing a resource removes a sibling named like it with `.tmp` appended (`ResourceFiles.WriteTouchesOnly`).
* One active run per agent holds for agents not stopped or deleted under a run since their executions were last all over
  (`RunSafety.OneActiveRun`). A stop is not guarded against a busy agent. It awaits only a run it finds registered, and a run is
  registered after its admission has committed (apps/server/src/agent-service.ts:308-337, 637-648), so a stop, a start and a
  second message can commit right behind an admission; `StopRace.ClearedBySecondRun` reaches two active runs in that order.
* Comments on staging promise that the workspace holds exactly what the agent's keycards open when the model starts
  (apps/server/src/agent-service.ts:382-386). Another run of the agent can break this in three ways, each reached from a fresh
  start for every agent and resource:
  its final wipe, which comes after the mutation that frees the agent, can empty the next run's inbox
  (`WipeRace.RaceIsReachable`); let in by such a stop and start, its opening clear can empty the inbox of a run about to launch
  (`StopRace.ClearedBySecondRun`); and a file it still had to stage can turn up in another run's inbox
  (`StopRace.HoldsAnothersFile`). `LeastPrivilege.LateWipeIff` and `LeastPrivilege.ForeignFileIff` say exactly when a run can
  lose or gain files, and `LeastPrivilege.LaunchIsExact` proves the promise for an agent's latest run whose other executions
  had ended when it cleared the inbox. What is gained was permitted to the same agent all the same
  (`LeastPrivilege.InboxesAreIsolated`).
* Comments promise that the inbox is always wiped (apps/server/src/agent-service.ts:448-452). The first mutation of a run is
  outside the `try`, and the catch's mutation and the wipe can themselves fail. A run ends settled exactly when neither of the
  two mutations was rejected, and wiped exactly when the first was not rejected and the removal did not fail
  (`RunHistory.EndsAsRecorded`, `AgentService.AgentService.ExecuteRun`); `Rejections` reaches each failure. A run whose first
  mutation was rejected leaves its agent busy until it is stopped or the service restarts (`Rejections.RejectedAtOnce`).

## Where comments and code differ

The model follows the code.

* `issueCapabilityForRun` is described as issuing a read card for the owner's namespace; it issues `owner:<id>`, which carries
  no data scope (apps/server/src/capability/store.ts:304-319).
* `awaitDataKeycard` says a refusal given before the wait still counts; it deletes it
  (apps/server/src/agent-service.ts:598-599). `LeastPrivilege.EarlyRefusalIsForgotten` states what happens.

## Model

| member | source | states |
|---|---|---|
| Grid.FindPath | apps/web/src/world/engine/pathfinding.ts:23-54 | terminates on every finite grid; returns a path exactly when a walkable 4-connected route exists, and then a shortest one that excludes the start, ends at the goal and repeats no tile |
| Grid.ReconstructPath | apps/web/src/world/engine/pathfinding.ts:56-67 | following parents back from the goal terminates, because depth drops along parents, and gives a repeat-free route as long as the goal's depth |
| Grid.GoalIsNearest | apps/web/src/world/engine/pathfinding.ts:37-51 | at the moment the goal is discovered no other route can be shorter |
| Grid.EmptyQueue | apps/web/src/world/engine/pathfinding.ts:33-53 | an empty queue with the goal unseen means there is no route at all |
| TileMap.FloorIsTile | apps/web/src/world/engine/TiledMapRenderer.ts:96-98 | a pixel falls in a tile exactly when it lies between the tile's edges |
| MapLoader.TiledMapRenderer.ParseCollisionLayer | apps/web/src/world/engine/TiledMapRenderer.ts:139-149 | the nested loops leave walkable exactly the tiles without a collision id, flip bits ignored and missing data counting as none |
| MapLoader.TiledMapRenderer.ParseSpawnPoints | apps/web/src/world/engine/TiledMapRenderer.ts:151-160 | the loop gives the map of spawn points specified by the layer's objects |
| MapLoader.SpawnPointsEnclose | apps/web/src/world/engine/TiledMapRenderer.ts:151-160 | a name has a spawn point exactly when some object has that name, and it is the tile whose edges enclose the last such object's pixel |
| MapLoader.TiledMapRenderer.ParseZones | apps/web/src/world/engine/TiledMapRenderer.ts:171-182 | the loop gives the map of zones specified by the layer's objects |
| MapLoader.ZonesLieWithin | apps/web/src/world/engine/TiledMapRenderer.ts:171-182 | for a last object beginning at a tile's corner, the tiles of its zone are exactly the whole tiles within its pixels |
| MapLoader.TiledMapRenderer.MarkWalkableSpawnPoints | apps/web/src/world/engine/TiledMapRenderer.ts:162-169 | opens exactly the on-map tiles of spawn points with the listed prefixes and closes none |
| MapLoader.Load | apps/web/src/world/engine/TiledMapRenderer.ts:69-90 | on a loaded map a tile is walkable exactly when on the map and unmarked or the place of one of the map's own spawn points with such a prefix |
| ExitSearch.NearestOpenTile | apps/web/src/world/agentSim.ts:95-128 | a qualifying tile other than the start at minimal walking distance, or none exactly when none lies within 40 steps |
| ExitSearch.QualifiesToRoam | apps/web/src/world/agentSim.ts:86-94 | the tiles it looks for are exactly the open ones from which a roaming agent can get somewhere else |
| ExitSearch.SearchesAgree | apps/web/src/world/agentSim.ts:95-128 | the path search and the layered search measure the same distance |
| ExitSearch.RouteReaches | apps/web/src/world/agentSim.ts:105-127 | layered reachability covers every route of the length |
| AgentSim.PathWaypoints | apps/web/src/world/agentSim.ts:130-139 | the waypoints are the agent's position followed by the tiles of a shortest route, or the position alone when there is none |
| AgentSim.AdvanceBehavior | apps/web/src/world/agentSim.ts:163-211 | the whole behaviour step as the draws decide it: idle modes and paths under way are left alone, a gated room is walked out of, a pause is sat out, and otherwise the agent rests exactly on a first draw below a quarter, for the kind and time of the next two, and else picks where to go |
| AgentSim.PickRoamTarget | apps/web/src/world/agentSim.ts:198-210 | of the twenty tiles that the draws name, at most four away on each axis, a shortest path leads to the first that is walkable for the mode, reachable and not where the agent stands; nothing changes exactly when none is |
| AgentSim.BeginHeadingToDesk | apps/web/src/world/agentSim.ts:213-232 | succeeds exactly when the first free desk of the room has a place on the map, takes that desk and sets off to it |
| AgentSim.NextFrame | apps/web/src/world/WorldCanvas.tsx:74-76 | one frame is tick, then settle, then advance with the same draws |
| Movement.LegStaysInTiles | apps/web/src/world/agentSim.ts:296-307 | a straight walk from anywhere in a tile to the corner of the same or an adjacent tile never leaves the two |
| Movement.TickStaysOnLeg | apps/web/src/world/agentSim.ts:296-307 | a tick moves forward along the leg inside its two tiles and lands exactly on the target |
| Movement.Confined | apps/web/src/world/agentSim.ts:163-211 | over every run of frames and every random choice an agent on course stays in its mode and on that mode's tiles |
| Movement.RoamingIsConfined | apps/web/src/world/agentSim.ts:60-66 | a roaming agent at rest on an open tile stands on walkable ungated tiles in every later frame |
| Movement.CellCentre | apps/web/src/world/agentSim.ts:248-272 | a jailed agent is put inside the cell off its last row exactly when the zone is at least one wide and three high |
| Movement.JailedIsConfined | apps/web/src/world/agentSim.ts:68-84 | a jailed agent stays in the cell off its last row through every run of frames, exactly under the same condition |
| Movement.JailedPacesAtOnce | apps/web/src/world/agentSim.ts:248-272 | a jailed agent is at rest with no desk and no pause, so that a first draw of a quarter or more sends it to the first candidate it can walk to in the cell |
| Movement.ReleasedIsConfined | apps/web/src/world/agentSim.ts:276-294 | a released agent stands at rest on the common spawn tile, or the map's corner without one, holds no desk, and stays on open tiles if that is one |
| Movement.TickCoversGround | apps/web/src/world/agentSim.ts:296-307 | a tick covers 0.12 px for each millisecond, and no more than what is left of the leg |
| Movement.WalkersFaceTheirWay | apps/web/src/world/agentSim.ts:309-324 | in every frame of every run a walking agent faces along its leg |
| Movement.FacesTheNeighbour | apps/web/src/world/agentSim.ts:47-50 | on a leg to a neighbouring tile that is the neighbour's side |
| Journeys.OneFrameOnPath | apps/web/src/world/agentSim.ts:309-341 | waypoints are taken in order and none is skipped, however long the frame |
| Journeys.LegCompletes | apps/web/src/world/agentSim.ts:296-341 | in any mode, what remains of a leg is walked within the frames that its own length takes, and then the next leg begins or the path is finished |
| Journeys.PathCompletes | apps/web/src/world/agentSim.ts:296-341 | in any mode a path is walked to its end, each leg within ceil(its own length / (0.12 times the shortest frame)) frames, the path and the mode kept until then |
| Journeys.ReachesItsDesk | apps/web/src/world/agentSim.ts:213-232 | an agent sent to a desk by a non-empty path is exactly on the desk's corner, working, within the frames of its first leg plus those of one tile for every later hop, and not working before |
| Journeys.WorksAtItsDesk | apps/web/src/world/agentSim.ts:130-139 | an agent that starts working is on the desk's tile exactly when the desk could be walked to |
| Journeys.DesksAreHeldInTurn | apps/web/src/world/agentSim.ts:213-294 | through every mix of frames, dispatches, call-backs, jailings and releases, a desk is held exactly while heading to it or working at it |
| Journeys.SetsOut | apps/web/src/world/agentSim.ts:176-181 | a roaming agent in a gated room with an open tile in reach always starts on a path to a nearest one, exactly as long as its walking distance |
| Journeys.GetsOut | apps/web/src/world/agentSim.ts:176-181 | within the frames its way takes, such an agent stands on a nearest qualifying tile, and from then on only on open tiles |
| Journeys.LeavesAndStaysOut | apps/web/src/world/agentSim.ts:163-211 | until it is out it keeps to that path, and once on open tiles it never enters a gated one |
| Journeys.UnfinishedLegIsConfined | apps/web/src/world/agentSim.ts:234-242 | a roaming agent with an unfinished leg and no path stays on open tiles exactly when the leg's target is one |
| Journeys.WalksOnLegs | apps/web/src/world/agentSim.ts:309-341 | in every frame from the sending to the desk until it works there, the agent is on a leg between neighbouring tiles of its path |
| Journeys.CalledBackIsConfined | apps/web/src/world/agentSim.ts:234-242 | an agent called back in any frame on its way to a desk stays on open tiles exactly when the leg it was on ends on one |
| Journeys.CalledBackFromWork | apps/web/src/world/agentSim.ts:234-242 | called back from a desk on an open tile, it stays on open tiles |
| Journeys.WaitsInPlace | apps/web/src/world/agentSim.ts:130-139 | sent to a desk that cannot be walked to, it stands where it was until it is called back |
| Journeys.CalledBackInPlace | apps/web/src/world/agentSim.ts:234-242 | and called back from there it stays on open tiles if it stands on one |
| ResourceUris.ParseInvertsPrint | apps/server/src/resources/uri.ts:34-63 | every well-formed owner and name within 512 characters prints to a URI that parses back to them |
| ResourceUris.AcceptedIsCanonical | apps/server/src/resources/uri.ts:34-63 | an accepted URI is the print of what it parses to |
| ResourceUris.AcceptedLanguage | apps/server/src/resources/uri.ts:25-63 | the accepted inputs are exactly the prints of well-formed pairs up to 512 characters |
| ResourceUris.OwnerPrefixIsUnique | apps/server/src/resources/uri.ts:48-55 | no URI can be read as belonging to two owners |
| Scopes.ParseActions | apps/server/src/capability/scope.ts:64-72 | the token loop keeps known actions once each, in order, and fails on any unknown token |
| Scopes.RegExpIsGlob | apps/server/src/capability/scope.ts:92-97 | the escaped regular expression accepts exactly what the documented glob means |
| ScopeLaws.CanonicalScope | apps/server/src/capability/scope.ts:39-62 | the canonical print of a parsed scope is no longer than the scope and parses to the same value |
| ScopeLaws.ScopeReparses | apps/server/src/capability/scope.ts:39-62 | a scope put together from an action list, an owner and a glob parses to its parts |
| ScopeLaws.GrammarsAreDisjoint | apps/server/src/capability/scope.ts:145-160 | no string is both an execution scope and a data scope |
| ScopeLaws.OwnerOfExpectedScope | apps/server/src/policy/resource.ts:14-16 | `capabilityOwner` inverts the execution scope for exactly the valid owner ids |
| ScopeLaws.OwnerOfDefaultScope | apps/server/src/capability/scope.ts:136-138 | `capabilityOwner` inverts the namespace-wide read scope for exactly the valid owner ids |
| ScopeLaws.AllowsIffGranted | apps/server/src/capability/scope.ts:106-125 | for every string as scope, action and resource: it is allowed exactly when the scope can be spelled out as words, an owner and a glob such that one word, trimmed, is the action and the resource is that owner's and of a name the glob describes |
| ScopeLaws.AllowsActionIffGranted | apps/server/src/capability/scope.ts:128-133 | the same for the action alone: exactly when one word, trimmed, is the action |
| ScopeLaws.AssembledScopeAllows | apps/server/src/capability/scope.ts:106-133 | a scope put together from actions, an owner and a glob allows exactly those actions, on exactly that owner's names the glob describes |
| ScopeLaws.OwnerIsSpelled | apps/server/src/capability/scope.ts:145-160 | a scope's owner is the one it is spelled with, in either grammar |
| Text.TrimIsBetween | apps/server/src/capability/scope.ts:67-67 | trimming cuts white space at both ends and nothing else, and leaves the only string that is left so |
| ScopeLaws.WholePatternMatch | apps/server/src/capability/scope.ts:106-125 | matching the whole URI against the whole pattern is matching owner and name separately |
| ScopeLaws.MatchersAgree | apps/web/src/world/resources.ts:93-108 | for every scope the store can hold and every well-formed URI the browser opens the room exactly when the server allows the read and `read` is spelled without spaces |
| ScopeLaws.OpenedRoomsAreAllowed | apps/web/src/world/resources.ts:93-108 | the rooms drawn as opened are exactly the map's rooms whose file the server allows to be read, if `read` is spelled without spaces, and none otherwise |
| ScopeLaws.SpacedScopeDiffers | apps/web/src/world/resources.ts:93-108 | for every owner and name, a scope with a space before `read` that the server honours and the browser does not |
| Policy.PermitsTheEntitled | apps/server/src/policy/pdp.ts:92-105 | a request is permitted exactly when it is entitled: the owner, or an agent with a live card of its own whose scope, spelled out, grants that action on that resource |
| Policy.CardPermits | apps/server/src/capability/authorize.ts:67-89 | the agent rule permits exactly the holders of a live card of their own whose scope, spelled out, grants the action on the resource |
| Policy.DeniedFor | apps/server/src/capability/authorize.ts:67-89 | each reason the agent rule denies for has its own condition, in the order unknown, revoked, expired, another agent's, wrong verb, wrong house |
| Policy.DeniedObjectFor | apps/server/src/policy/pdp.ts:41-77 | likewise for an agent object: not the owner, no card, revoked, without a date, expired, another owner's scope |
| Policy.DeniedRequestFor | apps/server/src/policy/pdp.ts:92-105 | a request without an action and a resource of neither family are malformed, and nothing else is; a human is out of scope exactly in another's namespace |
| Policy.AllowedIsOwned | apps/server/src/capability/scope.ts:106-125 | a scope that grants anything on a resource belongs to the resource's owner |
| Policy.FamiliesAreDisjoint | apps/server/src/policy/pdp.ts:92-105 | no string names both an agent and a data resource |
| Policy.AgentResourceRoundTrip | apps/server/src/policy/resource.ts:3-12 | printing and parsing an agent resource is the identity exactly for non-empty colon-free ids |
| Keycards.CapabilityStore.MintRecord | apps/server/src/capability/store.ts:122-155 | throws for a malformed scope or another owner's, changing nothing; otherwise files exactly the new record |
| Keycards.CapabilityStore.IssueCard | apps/server/src/capability/store.ts:109-115 | an issue that succeeds also lifts the suspension |
| Keycards.CapabilityStore.IssueSuspendedCard | apps/server/src/capability/store.ts:271-279 | mints a card already revoked, and leaves the suspension |
| Keycards.CapabilityStore.IssueCardForRun | apps/server/src/capability/store.ts:320-347 | a run of a suspended agent gets the dead card, any other a live one |
| Keycards.CapabilityStore.RevokeCard | apps/server/src/capability/store.ts:234-246 | the first revocation sticks, every one suspends, an unknown id changes nothing |
| Keycards.CapabilityStore.RevokeAllForAgent | apps/server/src/capability/store.ts:249-258 | the loop revokes each unrevoked record of the agent, in insertion order |
| Keycards.LiveForMembers | apps/server/src/capability/store.ts:202-207 | `liveFor` lists exactly the agent's unrevoked unexpired records |
| Keycards.ListIsSorted | apps/server/src/capability/store.ts:215-228 | a listing is newest first and holds exactly the same records |
| Keycards.TiesKeepOrder | apps/server/src/capability/store.ts:215-228 | records issued at one time stay in the order they were filed in |
| KeycardHistory.HistoryIsSound | apps/server/src/capability/store.ts:122-155 | after any history every record's scope belongs to the record's owner |
| KeycardHistory.SuspendedIffLastRevoked | apps/server/src/capability/store.ts:109-115 | after any history an agent is suspended exactly when its last successful issue or revoke was a revoke |
| KeycardHistory.RecordsAreKept | apps/server/src/capability/store.ts:234-246 | through any continuation a record keeps its identity, scope and expiry, and its first revocation time for ever |
| KeycardHistory.RevokedIsNeverPermitted | apps/server/src/capability/store.ts:55-70 | once revoked a card is never accepted again, at any time, for any request |
| KeycardHistory.RecordIsItsHistory | apps/server/src/capability/store.ts:122-155 | after any history every card is what the operation that minted it asked for -- agent, owner, scope, run, and a lifetime of what was asked or five minutes -- and bears the time and author of exactly the first revocation since |
| KeycardHistory.LiveIffUnrevokedInItsTime | apps/server/src/capability/store.ts:202-207 | so a card is live exactly while the lifetime asked for lasts and nothing has revoked it |
| KeycardHistory.IssuedCardDecides | apps/server/src/capability/store.ts:109-155 | issuing succeeds exactly for the owner's own scope and files exactly the card asked for; a request with it is denied as expired exactly from the end of its lifetime and permitted before that exactly what its scope grants |
| KeycardHistory.SuspendedRunIsDenied | apps/server/src/capability/store.ts:334-344 | while suspended every run's card is dead, denied as revoked, and the suspension stands |
| KeycardHistory.UnsuspendedRunIsPermitted | apps/server/src/capability/store.ts:346-347 | otherwise the run's card is live and its execution permitted for five minutes, and denied as expired from then on |
| KeycardHistory.PermitsStayAtHome | apps/server/src/policy/pdp.ts:92-105 | after any history what a record's principal is permitted lies in the record owner's namespace and scope, under a live card |
| ResourceFiles.FilePathIsContained | apps/server/src/resources/store.ts:209-216 | for every accepted resource the escape check never throws, and the path is root, owner and segments as written |
| ResourceFiles.StagedPathIsContained | apps/server/src/resources/staging.ts:33-46 | staging never refuses an accepted resource and stays under the inbox |
| ResourceFiles.DistinctFiles | apps/server/src/resources/store.ts:209-216 | two accepted resources share a file exactly when they are the same |
| ResourceFiles.DistinctStagedFiles | apps/server/src/resources/staging.ts:33-46 | two staged resources share a path exactly when they have the same name |
| ResourceFiles.TemporaryOf | apps/server/src/resources/store.ts:189-196 | a write's temporary file is another resource's file exactly when that is its `.tmp` sibling |
| ResourceFiles.WriteTouchesOnly | apps/server/src/resources/store.ts:189-196 | a write changes its resource, removes the `.tmp` sibling, and touches nothing else |
| AccessGate.ResourceAccessGate.Access | apps/server/src/resources/access.ts:93-158 | parse, decide, record, act, in that order, with every failure path |
| AccessGate.ResourceAccessGate.Clear | apps/server/src/resources/staging.ts:52-54 | empties one workspace's inbox and changes nothing else |
| AccessGate.RefusalChangesNothing | apps/server/src/resources/access.ts:132-139 | a refusal changes no resource and no inbox, and every parsed access leaves exactly one audit entry: who, what, which resource, and the verdict the answer gives |
| AccessGate.WriteTakesEffect | apps/server/src/resources/access.ts:141-150 | a permitted write is what a reader of the resource then gets, its temporary sibling is gone, every other resource and every inbox is as before; a refused one changes nothing |
| AccessGate.ReadReturnsWhatIsStored | apps/server/src/resources/access.ts:152-157 | a permitted read returns what is on disk and stages exactly that under its name, in that workspace alone, or throws if nothing is there |
| AccessGate.GatePermitsStayAtHome | apps/server/src/resources/access.ts:93-158 | a permit to an agent needs a card minted for that agent by the resource's owner, live and allowing this |
| AccessGate.StagingPass | apps/server/src/agent-service.ts:531-572 | the loop over the listing does what the pass is specified to do, one access a resource, and a read that throws ends it |
| AccessGate.PassOutcome | apps/server/src/agent-service.ts:537-571 | the pass throws exactly when a permitted file is gone; otherwise the permitted names are added to the inbox and nothing else, and permitted and withheld add up to what was listed |
| AccessGate.PermittedIffSomeCard | apps/server/src/agent-service.ts:541-556 | with the agent's live cards unchanged since the pass began, a resource is permitted exactly when one of them allows reading it |
| AccessGate.InboxIsExact | apps/server/src/agent-service.ts:468-478 | such a pass into a clean inbox throws exactly when the file of a listed resource that some live card opens is gone, and otherwise stages exactly the listed resources that some live card opens |
| JsonStore.StoreIsLinearizable | apps/server/src/store.ts:39-59 | over any submissions, throwing mutations, disk errors and crashes, memory is the fold of the successful mutations in submission order and the file equals it or is ahead by the one in flight |
| JsonStore.CrashKeepsAPrefix | apps/server/src/store.ts:52-59 | a crash at any step leaves the state after a prefix of the successful mutations |
| JsonStore.FailureLeavesNoTrace | apps/server/src/store.ts:39-50 | a throwing mutation or a disk error changes neither memory nor file and frees the queue |
| JsonStore.JsonStore.Begin | apps/server/src/store.ts:40-44 | the mutation runs on a copy; if it throws nothing is published |
| JsonStore.JsonStore.Persist | apps/server/src/store.ts:52-59 | temporary file, then rename; a failure of either leaves the database file alone |
| JsonStore.JsonStore.DrainQueue | apps/server/src/store.ts:39-50 | left undisturbed the queue settles every mutation in order, and one that throws does not block the next |
| JsonStore.JsonStore.Mutate | apps/server/src/store.ts:39-50 | left undisturbed a mutation runs on what everything queued before it left, and memory and file end as that if it throws and as its result if not |
| AgentDatabase.AdmitKeepsMessages | apps/server/src/agent-service.ts:308-326 | an admission keeps every reference and gives its run exactly one user message |
| AgentDatabase.CompleteKeepsMessages | apps/server/src/agent-service.ts:404-424 | completing an active run gives it exactly one assistant message |
| AgentDatabase.DeleteKeepsMessages | apps/server/src/agent-service.ts:198-209 | deleting an agent leaves runs and messages consistent |
| AgentDatabase.DeleteRemovesOnly | apps/server/src/agent-service.ts:203-207 | it removes the agent, its runs and its messages, and nothing else |
| AgentDatabase.RecoverySettlesEverything | apps/server/src/agent-service.ts:119-137 | after a restart what was queued or running is cancelled, a busy agent ready, and everything else as it was |
| AgentDatabase.StopRaceGivesTwoRuns | apps/server/src/agent-service.ts:621-635 | admit, stop, start, admit leaves an agent with two active runs |
| StopRace.ClearedBySecondRun | apps/server/src/agent-service.ts:308-337 | from a fresh start, for every agent and resource: a stop and a start committed right behind the admission of a run let a second in, whose clear empties the inbox of the first as it is about to launch; from there only the two runs move; the agent has two active runs |
| StopRace.HoldsAnothersFile | apps/server/src/agent-service.ts:541-560 | after the same four events, and by steps of the two runs alone, a run about to launch holds a file staged by the other |
| AgentService.AgentService.ExecuteRun | apps/server/src/agent-service.ts:358-455 | whatever others do, an admitted run ends; its first mutation, its catch's and its removal fail exactly when the call that makes them throws, no other call than the one that led to the catch threw in between, and the run was led there by a denial, a cancellation seen, the owner's refusal or that call; it ends settled exactly when neither mutation was rejected, and its wipe empties the inbox exactly when the first was not rejected and the removal did not fail |
| AgentService.AgentService.StagePermittedResources | apps/server/src/agent-service.ts:468-510 | it leads to the launch, unless its last call threw and no other did, or none threw and the owner refused; after a first pass that staged something there was no wait; after one that staged nothing there was one, and a second pass exactly if it brought a card |
| AgentService.AgentService.StagingPass | apps/server/src/agent-service.ts:531-572 | either its last call threw, no other did and the run ends as that says, or none threw, every listed resource is staged or withheld, the outcome is in the run's record, and the pass leads to the launch or, a first pass that staged nothing, to the wait |
| AgentService.AgentService.AwaitDataKeycard | apps/server/src/agent-service.ts:586-619 | the history shows its turns: at each but the last it saw, in the world as it was then, time left and no cancellation and, after a sleep, neither card nor refusal, and slept; at the last it answers: a card, else a refusal, both only after a sleep, else that the time is over or the run cancelled; no sleep begins after its time, and it changes nothing of the run but where it stands |
| AgentService.AgentService.SendMessage | apps/server/src/agent-service.ts:308-326 | refused exactly for an agent that is gone, stopped or busy, changing nothing; otherwise exactly the queued run, its message and the busy agent |
| AgentService.AgentService.SetStatus | apps/server/src/agent-service.ts:621-635 | starting is refused exactly for a missing or busy agent, stopping exactly for a missing one |
| RunInvariants.ReachedIsGood | apps/server/src/agent-service.ts:358-455 | the invariant of database, executions, cards and inboxes holds after every sequence of events |
| RunInvariants.AdvanceIsOk | apps/server/src/agent-service.ts:386-401 | every step of an execution keeps its tally: permitted and withheld add up, and in a quiet pass the permitted are exactly what the live cards open |
| RunInvariants.RowStep | apps/server/src/agent-service.ts:358-446 | every step keeps the stored run in agreement with the execution: its status, staged names and withheld count |
| RunInvariants.LatestRunMoves | apps/server/src/agent-service.ts:468-478 | every step of an agent's latest run keeps the inbox its own |
| RunSafety.DatabaseStaysConsistent | apps/server/src/agent-service.ts:308-446 | over every interleaving each run and message has its agent, each run one user message and, once completed, one assistant message, and a busy agent's latest run is active |
| RunSafety.OneActiveRun | apps/server/src/agent-service.ts:621-635 | an agent not stopped or deleted under a run since its executions were last over has at most one active run, and has one exactly when busy |
| RunSafety.UndisturbedIsCalm | apps/server/src/agent-service.ts:621-635 | an agent never stopped or deleted under a run satisfies that condition |
| RunSafety.TerminalStays | apps/server/src/agent-service.ts:404-446 | a run once ended in the database, before this start or since, never changes again for as long as it is kept; nor does one whose execution ended without its terminal mutation |
| RunSafety.DisturbedIff | apps/server/src/agent-service.ts:621-635 | the state remembers exactly the agents for which a stop or delete committed while a run was active |
| RunHistory.EndsAsRecorded | apps/server/src/agent-service.ts:358-453 | an ended execution left its run settled exactly when neither its first nor its catch's mutation was rejected, and wiped its inbox exactly when the first was not rejected and the removal did not fail |
| RunHistory.RowTellsItsHistory | apps/server/src/agent-service.ts:404-446 | over any history a run's row is completed exactly if it answered, cancelled or failed exactly if its catch was written and it had or had not been called off, running exactly if it had only begun |
| RunHistory.StatusTellsItsHistory | apps/server/src/agent-service.ts:420-446 | over any history an agent's status is that of the last start, stop or message, or of the run of its that ended since: ready if it answered or was called off, in error if it failed, and still stopped if it was stopped and the run did not answer |
| RunHistory.UndisturbedPassIsQuiet | apps/server/src/agent-service.ts:537-545 | a pass since whose listing no card of the agent was granted, revoked or expired is quiet |
| RunHistory.CleanIff | apps/server/src/agent-service.ts:475-478 | an execution is clean exactly when all the agent's other executions had ended at its clear |
| LeastPrivilege.InboxesAreIsolated | apps/server/src/agent-service.ts:531-572 | in every reachable state each staged file was permitted to a run of that agent that has not wiped, on a then live card of the agent, for its owner's own resource; or a crash left it and no run has wiped since |
| LeastPrivilege.NothingIsLeft | apps/server/src/agent-service.ts:447-453 | once an agent's runs have all wiped, its inbox is empty |
| LeastPrivilege.LaunchIsEntitled | apps/server/src/agent-service.ts:386-401 | when the model starts, for the agent's latest run after a clean start or for an agent not stopped under a run since its executions were last over, the inbox holds only files permitted to this run after its clear, the record lists the permitted names, and withheld plus permitted is what was listed |
| LeastPrivilege.LaunchIsExact | apps/server/src/agent-service.ts:456-478 | for the agent's latest run after a clean start the inbox is exactly the permitted names, and in a quiet pass exactly the listed resources some live card opens |
| LeastPrivilege.LateWipeIff | apps/server/src/agent-service.ts:447-453 | in any state whatever, a run whose staged files are all there can lose one to another run exactly when another of the agent's has its wipe to do, or is at its clear and not cancelled |
| LeastPrivilege.ForeignFileIff | apps/server/src/agent-service.ts:541-560 | a run whose inbox is its own can be given another run's file exactly when another of the agent's has a permitted file still to stage |
| LeastPrivilege.SuspendedRunStops | apps/server/src/agent-service.ts:367-378 | a run of a suspended agent fails at its card, nothing is staged and the suspension stands |
| LeastPrivilege.EarlyRefusalIsForgotten | apps/server/src/agent-service.ts:598-613 | a refusal given before the wait does not end it |
| LeastPrivilege.RefusalsOutliveNoWait | apps/server/src/agent-service.ts:496-509 | a run's step drops the agent's refusal exactly when it begins a wait without a card or leaves what a wait opened, however it leaves it, and never another agent's |
| LeastPrivilege.RunTakesItsOwnCard | apps/server/src/agent-service.ts:366-374 | the card a run takes is made out to its agent, owner and run, for five minutes |
| LeastPrivilege.HoldsCardToRead | apps/server/src/agent-service.ts:589-597 | what a wait is for is a live card of the agent's whose scope, spelled out, grants reading something |
| LeastPrivilege.FailedRemovalLeaves | apps/server/src/resources/staging.ts:52-54 | a removal that fails half-way leaves exactly what it has not got to |
| LeastPrivilege.EveryMoveIsProgress | apps/server/src/agent-service.ts:358-455 | every step brings an execution nearer its end, so it takes finitely many |
| LeastPrivilege.OnlyTheWipeEnds | apps/server/src/agent-service.ts:358-453 | an unfinished execution can always move; it ends by its first mutation rejected, which touches nothing, by its wipe, which empties the inbox, or by a removal that fails, which leaves what it did not get to |
| WipeRace.RaceIsReachable | apps/server/src/agent-service.ts:424-453 | from a fresh start, for every agent and resource: a run whose one file was permitted, with no card changed and no stop, launches with an empty inbox |
| Rejections.RejectedAtOnce | apps/server/src/agent-service.ts:359-365 | the first mutation rejected: the run stays queued, its agent busy with every message and start refused, and the inbox as it was |
| Rejections.RejectedCatch | apps/server/src/agent-service.ts:431-446 | the catch's mutation rejected: the run stays running and its agent busy |
| Rejections.FailedWipe | apps/server/src/agent-service.ts:447-453 | the removal failed: the run is settled and the file still in the inbox |
| Redaction.Redact | apps/server/src/secrets/redact.ts:42-55 | the loop is replacement of the kept secrets, longest first; null passes through |
| Redaction.RedactableSecrets | apps/server/src/secrets/redact.ts:32-39 | the set-filling loop gives the kept values, longest first |
| Redaction.KeptSecrets | apps/server/src/secrets/redact.ts:32-39 | a value is kept exactly when some candidate trims to it and it has at least eight characters |
| Redaction.LongestComeFirst | apps/server/src/secrets/redact.ts:38-38 | the kept values are ordered by falling length |
| Redaction.TiesKeepOrder | apps/server/src/secrets/redact.ts:38-38 | values of one length stay in the order they came in |
| Redaction.MentionedFirst | apps/server/src/secrets/redact.ts:33-37 | which is that of first mention |
| Redaction.RedactedTextIsCut | apps/server/src/secrets/redact.ts:46-53 | for star-free secrets other than the word, the result is the text with some occurrences of kept secrets masked and all the rest unchanged; an occurrence is left unmasked only where one at least as long that overlaps it is masked |
| Redaction.KeptSecretIsMaskedWhole | apps/server/src/secrets/redact.ts:46-53 | so a kept secret that no other kept one as long overlaps is masked from end to end, whatever shorter ones are part of it |
| Redaction.KeptSecretBecomesPlaceholder | apps/server/src/secrets/redact.ts:46-53 | and alone it becomes exactly the placeholder |
| Redaction.RedactedOutputIsClean | apps/server/src/secrets/redact.ts:42-55 | for star-free secrets other than the word REDACTED no kept secret occurs in the result, for any text, and redacting again changes nothing |
| Redaction.CleanIffWordNotKept | apps/server/src/secrets/redact.ts:18-25 | star-free secrets are gone from every text exactly when REDACTED is not one of them |
| Redaction.SurvivesIffCollides | apps/server/src/secrets/redact.ts:46-53 | a single secret survives in some text exactly when it overlaps the placeholder |
| Redaction.StarFreeSecretsAreApart | apps/server/src/secrets/redact.ts:18-25 | eight characters without a star overlap the placeholder only as its interior |
| Redaction.NoSecretSurvives | apps/server/src/secrets/redact.ts:46-53 | a secret that does not overlap the mask is gone from every text, whatever the others are and whatever their order |
| Redaction.CoveredOutputIsClean | apps/server/src/secrets/redact.ts:42-55 | when every kept secret is one that does not overlap the placeholder, or contains one, no kept secret occurs in the result, for any text, and redacting again changes nothing |
| Redaction.StarredTokenIsCovered | apps/server/src/secrets/redact.ts:42-55 | a token with a star before it overlaps the placeholder, and is gone from every text all the same when the token itself is kept too |
| Redaction.SurvivesIffCollidesAmongOthers | apps/server/src/secrets/redact.ts:46-53 | among any others that it does not overlap, a secret survives in some text exactly when it overlaps the placeholder |
| Streaming.CutAnywhere | apps/server/src/codex-runner.ts:170-176 | splitting into lines chunk by chunk is splitting the whole, wherever the cut falls, between CR and LF included |
| Streaming.StreamConsumer.OnData | apps/server/src/codex-runner.ts:163-182 | one chunk: budget, unfinished line, complete lines, stderr window |
| Streaming.StreamingIsBatch | apps/server/src/codex-runner.ts:158-185 | for every chunking and interleaving the state is what the whole text within the budget determines, and the flag is up exactly when the total went over |
| Streaming.FlushIsBatch | apps/server/src/codex-runner.ts:198-200 | within the budget the events are those of the whole stdout and stderr is its last 16384 characters |
| Streaming.LinesAreBetweenBreaks | apps/server/src/codex-runner.ts:171-171 | the lines are what lies between the line feeds, less one carriage return before each |
| Streaming.BatchIsSaid | apps/server/src/codex-runner.ts:44-87 | messages and errors are those of the lines that decode to them, in order and no others; the thread and the usage are those of the last line that tells them, or what there was before |
| Streaming.AnswersAreWholeOutput | apps/server/src/codex-runner.ts:198-222 | an undisturbed process within budget answers, if it succeeded, the trimmed text of the last line of its whole output that is a message, unless there is none or it is blank; if it failed, with its last error or the end of its stderr; the other endings have each its own condition |
| Listing.Walk | apps/server/src/resources/store.ts:137-170 | the recursive walk sorts each directory and visits exactly the specified files in order, stopping where the listing is full |
| Listing.SortingSorts | apps/server/src/resources/store.ts:156-156 | a directory's entries end up in the order of their names, whatever the collation, and are the same entries |
| Listing.ListDetailed | apps/server/src/resources/store.ts:112-135 | the loop over owners shares one listing and one limit |
| Listing.ListingIsPrefix | apps/server/src/resources/store.ts:112-170 | the result is the first 500 accepted files of the full order across all owners, and every refused file before the cutoff is reported |
| Listing.DiskIsListed | apps/server/src/resources/store.ts:137-170 | an owner's full listing is exactly the regular files on disk below at most eight nested directories |
| Listing.ListingIsComplete | apps/server/src/resources/store.ts:137-170 | every regular file below at most eight nested directories is in the full order |
| Listing.ListingIsSound | apps/server/src/resources/store.ts:137-170 | and nothing else is |
| Listing.NothingIsListedTwice | apps/server/src/resources/store.ts:112-170 | for distinct owners, no resource occurs twice in the result |
| KeycardCache.Cache.RefreshCapabilities | apps/web/src/world/decision.ts:53-66 | after a refresh the entry for an agent and a room is the card that the listing specifies for it |
| KeycardCache.LastOpenerIsLast | apps/web/src/world/decision.ts:53-66 | which is the last listed live card of the agent that opens the room, and none exactly if none does |
| KeycardCache.KeysAreUnique | apps/web/src/world/decision.ts:43-45 | a key names one agent and one room |
| KeycardCache.CachedCardIsHonoured | apps/server/src/resources/routes.ts:127-133 | presented by its id as the agent it was made out to, with its record unchanged and the room's owner known to the server, a cached card is refused for its room exactly from its expiry on |
| KeycardCache.InstantOfExpiry | apps/web/src/world/decision.ts:47-50 | at the instant of expiry the browser offers the card and the server refuses it as expired |

## Left out

- HTTP routes, sessions, login, validation and configuration; React, drawing, sprites and labels; polling timers.
- Child processes, containers and signals: the model behind a run is a step that answers, fails or is cancelled.
  `container-codex-runner.ts` repeats the loop of `Streaming`.
- JSON text, UTF-8 across chunk boundaries (a character is a byte), the regular-expression engine beyond `^p0.*p1...$`.
- Symlinks, permissions and file-system errors other than a failed write or rename; the archive of a deleted agent's workspace.
- The audit file's format; the collation by which a directory's entries are
  sorted is a parameter.
- `hashString`, `roomForTask`, `requests.ts`, agent appearance, `updateAgent`, `anyCapabilityFor` and the optional existence
  check of `authorizeCapability`: they would only add easy members.
- The flag that tells a human a run is waiting, and its timer; the model thread id and the redacted text stored with a run.
- A service without resource access configured, whose runs stage nothing; the rejection of mutations other than a run's own (an
  admission or a stop that is rejected changes nothing, by `JsonStore.FailureLeavesNoTrace`).
- A file half written when staging fails: a staged file is there whole or not at all.
- A restart in the middle of a run: `RunProtocol` starts from the recovered database with whatever files were left behind, and
  `AgentDatabase.RecoverySettlesEverything` covers the recovery itself.
- Cancellation and the awaiting of the cancelled run by a stop: a stop may commit at any time in `RunProtocol`, which allows
  every order the source does and more. The states that `StopRace` reaches need only the stop described above.
- Aliasing between a run's copy of its agent, taken at admission, and the stored agent: only the fields that never change, the
  agent's id and owner, are read from the copy.
- Redaction.CoveredOutputIsClean: the condition is sufficient. An exact one is proved for a single secret, for secrets without
  stars and for a secret that overlaps none of the others; for starred secrets that overlap each other none is given.
- Listing.Walk: the two arrays the recursion shares are passed along and returned rather than updated in place.
