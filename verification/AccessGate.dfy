/** The enforcement point for resource reads and writes, and one staging pass through it. */
module AccessGate {
  import opened Wrappers
  import opened ResourceUris
  import opened Scopes
  import opened ScopeLaws
  import opened Policy
  import opened Keycards
  import opened KeycardHistory
  import opened ResourceFiles

  /** What asking the injected decision point may come to. */
  datatype PdpOutcome = Answered(verdict: Verdict) | NotADecision | Threw

  datatype AccessRequest = AccessRequest(
    principal: Principal, action: Action, resourceUri: string, capabilityId: Option<string>,
    workspace: Option<string>, content: string)

  datatype AuditEntry = AuditEntry(principal: Principal, action: Action, resource: string, verdict: Verdict)

  /** A permitted read of a file that is gone throws: Vanished. */
  datatype AccessResult = Permitted(content: string) | Refused(reason: Reason) | Vanished

  type Pdp = (Request, int) -> PdpOutcome

  function Lookup(records: map<string, CapabilityRecord>, id: Option<string>): Option<Capability> {
    if id.Some? && id.value in records then Some(records[id.value]) else None
  }

  /** Default-deny: anything but an answer is a refusal. */
  function Judge(pdp: Pdp, request: Request, at: int): Verdict {
    var outcome := pdp(request, at);
    if outcome.Answered? then outcome.verdict else Deny(PolicyError)
  }

  function RequestFor(records: map<string, CapabilityRecord>, request: AccessRequest, uri: string): Request {
    Request(request.principal, ActionName(request.action), uri, Lookup(records, request.capabilityId))
  }

  /** What the gate is built from, and what it may change: resource files, staged files per workspace, the audit
      trail. */
  datatype Env = Env(owners: set<string>, root: seq<string>, pdp: Pdp)
  datatype GateState = GateState(files: map<string, string>, inboxes: map<string, map<string, string>>,
                                 audit: seq<AuditEntry>)

  function Inbox(g: GateState, workspace: string): map<string, string> {
    if workspace in g.inboxes then g.inboxes[workspace] else map[]
  }

  function VerdictOn(env: Env, records: map<string, CapabilityRecord>, request: AccessRequest, uri: string,
                     at: int): Verdict {
    Judge(env.pdp, RequestFor(records, request, uri), at)
  }

  /** What a permitted access does. */
  function Act(env: Env, request: AccessRequest, ref: ResourceRef, g: GateState): (GateState, AccessResult) {
    match request.action
    case Write =>
      var path := FilePath(env.root, ref);
      if path.None? then (g, Vanished)
      else (g.(files := WriteFile(g.files, path.value, request.content)), Permitted(request.content))
    case Read =>
      var content := ReadFile(g.files, env.root, ref);
      if content.None? then (g, Vanished)
      else if request.workspace.None? then (g, Permitted(content.value))
      else
        var workspace := request.workspace.value;
        (g.(inboxes := g.inboxes[workspace := Inbox(g, workspace)[ref.name := content.value]]),
         Permitted(content.value))
  }

  /** Decide, record, then act. */
  function AccessEffect(env: Env, records: map<string, CapabilityRecord>, request: AccessRequest, at: int,
                        g: GateState): (GateState, AccessResult) {
    var resource := ParseRef(env.owners, request.resourceUri);
    if resource.None? then (g, Refused(ResourceUnknown))
    else
      var ref := resource.value;
      var verdict := VerdictOn(env, records, request, ref.uri, at);
      var recorded := g.(audit := g.audit + [AuditEntry(request.principal, request.action, ref.uri, verdict)]);
      if verdict.Deny? then (recorded, Refused(verdict.reason)) else Act(env, request, ref, recorded)
  }

  class ResourceAccessGate {
    const env: Env
    const capabilities: CapabilityStore
    var files: map<string, string>
    var inboxes: map<string, map<string, string>>
    var audit: seq<AuditEntry>

    function State(): GateState
      reads this
    {
      GateState(files, inboxes, audit)
    }

    constructor (env: Env, capabilities: CapabilityStore, files: map<string, string>)
      ensures this.env == env && this.capabilities == capabilities && State() == GateState(files, map[], [])
    {
      this.env, this.capabilities := env, capabilities;
      this.files, inboxes, audit := files, map[], [];
    }

    method Access(request: AccessRequest, at: int) returns (result: AccessResult)
      modifies this
      ensures (State(), result) == old(AccessEffect(env, capabilities.records, request, at, State()))
    {
      hide ParseRef, FilePath, ReadFile, WriteFile, Judge;
      var resource := ParseRef(env.owners, request.resourceUri);
      if resource.None? {
        return Refused(ResourceUnknown);
      }
      var ref := resource.value;
      var verdict := VerdictOn(env, capabilities.records, request, ref.uri, at);
      audit := audit + [AuditEntry(request.principal, request.action, ref.uri, verdict)];
      if verdict.Deny? {
        return Refused(verdict.reason);
      }
      if request.action == Write {
        var path := FilePath(env.root, ref);
        if path.None? {
          return Vanished;
        }
        files := WriteFile(files, path.value, request.content);
        return Permitted(request.content);
      }
      var content := ReadFile(files, env.root, ref);
      if content.None? {
        return Vanished;
      }
      if request.workspace.Some? {
        var staged := if request.workspace.value in inboxes then inboxes[request.workspace.value] else map[];
        inboxes := inboxes[request.workspace.value := staged[ref.name := content.value]];
      }
      return Permitted(content.value);
    }

    /** Wipes everything staged for a workspace. */
    method Clear(workspace: string)
      modifies this
      ensures State() == old(State()).(inboxes := old(inboxes) - {workspace}) && Inbox(State(), workspace) == map[]
    {
      inboxes := inboxes - {workspace};
    }
  }

  /** A refused access changes no resource and no inbox; and every parsed access, refused or not, leaves exactly one
      entry at the end of the trail: who asked to do what with which resource, and the verdict, which is what the
      answer says. */
  lemma RefusalChangesNothing(env: Env, records: map<string, CapabilityRecord>, request: AccessRequest, at: int,
                              g: GateState)
    ensures var (after, result) := AccessEffect(env, records, request, at, g);
      && (result.Refused? ==> after.files == g.files && after.inboxes == g.inboxes)
      && (if ParseRef(env.owners, request.resourceUri).None? then after == g && result == Refused(ResourceUnknown)
          else
            && |after.audit| == |g.audit| + 1 && after.audit[..|g.audit|] == g.audit
            && var entry := after.audit[|g.audit|];
               && entry.principal == request.principal && entry.action == request.action
               && entry.resource == request.resourceUri
               && entry.verdict == if result.Refused? then Deny(result.reason) else Permit)
  {
    hide ParseRef, FilePath, ReadFile, WriteFile, VerdictOn, Accepted;
    if ParseRef(env.owners, request.resourceUri).Some? {
      ParsedIsAccepted(env.owners, request.resourceUri);
    }
  }

  /** A gate whose decision point falls over, or answers nonsense, refuses everything, for that reason. */
  lemma BrokenGuardRefuses(env: Env, records: map<string, CapabilityRecord>, request: AccessRequest, at: int,
                           g: GateState)
    requires forall asked, t :: !env.pdp(asked, t).Answered?
    ensures AccessEffect(env, records, request, at, g).1
         == Refused(if ParseRef(env.owners, request.resourceUri).Some? then PolicyError else ResourceUnknown)
  {
    hide ParseRef, FilePath, ReadFile, WriteFile;
  }

  /** An access touches no workspace but the one it stages into, and a read no resource at all. */
  lemma AccessIsLocal(env: Env, records: map<string, CapabilityRecord>, request: AccessRequest, at: int, g: GateState,
                      workspace: string)
    ensures var after := AccessEffect(env, records, request, at, g).0;
      && (request.workspace != Some(workspace) ==> Inbox(after, workspace) == Inbox(g, workspace))
      && (request.action == Read ==> after.files == g.files)
      && (request.action == Write ==> after.inboxes == g.inboxes)
  {
    hide ParseRef, FilePath, ReadFile, WriteFile, Judge;
  }

  /** A write is permitted exactly by its verdict, and then on disk: whoever reads the resource after it gets the
      content, and the sibling that was its temporary file is gone. Every other resource reads as before, and no
      inbox changes. */
  lemma WriteTakesEffect(env: Env, records: map<string, CapabilityRecord>, request: AccessRequest, at: int,
                         g: GateState, other: ResourceRef)
    requires Clean(env.root) && request.action == Write && ParseRef(env.owners, request.resourceUri).Some?
    requires Accepted(other)
    ensures var ref := ParseRef(env.owners, request.resourceUri).value;
      var verdict := VerdictOn(env, records, request, ref.uri, at);
      var (after, result) := AccessEffect(env, records, request, at, g);
      && after.inboxes == g.inboxes
      && (verdict == Permit ==>
            && result == Permitted(request.content)
            && ReadFile(after.files, env.root, other)
               == if other == ref then Some(request.content)
                  else if other.ownerId == ref.ownerId && other.name == ref.name + ".tmp" then None
                  else ReadFile(g.files, env.root, other))
      && (verdict != Permit ==> result == Refused(verdict.reason) && after.files == g.files)
  {
    var ref := ParseRef(env.owners, request.resourceUri).value;
    ParsedIsAccepted(env.owners, request.resourceUri);
    FilePathIsContained(env.root, ref);
    WriteTouchesOnly(g.files, env.root, ref, FilePath(env.root, ref).value, request.content, other);
    hide ParseRef, FilePath, ReadFile, WriteFile, Judge, Accepted, Clean, ToPath;
  }

  /** A read is answered exactly by its verdict: with what is on disk, which is then staged under its name if there is a
      workspace, or by throwing if nothing is. No file changes. */
  lemma ReadReturnsWhatIsStored(env: Env, records: map<string, CapabilityRecord>, request: AccessRequest, at: int,
                                g: GateState)
    requires request.action == Read && ParseRef(env.owners, request.resourceUri).Some?
    ensures var ref := ParseRef(env.owners, request.resourceUri).value;
      var verdict := VerdictOn(env, records, request, ref.uri, at);
      var content := ReadFile(g.files, env.root, ref);
      var (after, result) := AccessEffect(env, records, request, at, g);
      && after.files == g.files
      && result == (if verdict.Deny? then Refused(verdict.reason)
                    else if content.None? then Vanished
                    else Permitted(content.value))
      && forall workspace ::
           Inbox(after, workspace)
             == if result.Permitted? && request.workspace == Some(workspace)
                then Inbox(g, workspace)[ref.name := content.value] else Inbox(g, workspace)
  {
    hide ParseRef, FilePath, ReadFile, WriteFile, Judge;
  }

  // ----- The staging pass

  /** The keycard presented for a resource: the first the agent holds that allows reading it. */
  function CardFor(granted: seq<CapabilityRecord>, uri: string): Option<string> {
    if granted == [] then None
    else if ScopeAllows(granted[0].scope, "read", uri) then Some(granted[0].id)
    else CardFor(granted[1..], uri)
  }

  /** Whose run it is, and what it was holding when the pass began. */
  datatype Stager = Stager(agentId: string, ownerId: string, workspace: string, granted: seq<CapabilityRecord>)

  function StagingRequest(run: Stager, uri: string): AccessRequest {
    AccessRequest(Agent(run.agentId, run.ownerId), Read, uri, CardFor(run.granted, uri), Some(run.workspace), "")
  }

  /** The decision about one listed resource, made at time `at` with the records as they are then. */
  function StagingVerdict(pdp: Pdp, records: map<string, CapabilityRecord>, run: Stager, uri: string,
                          at: int): Verdict {
    Judge(pdp, Request(Agent(run.agentId, run.ownerId), "read", uri, Lookup(records, CardFor(run.granted, uri))), at)
  }

  /** A read of a listed file that is gone throws out of the pass. */
  datatype PassState = PassState(gate: GateState, permitted: seq<string>, withheld: nat, threw: bool)

  /** The state of a pass after its first `count` resources; `times(i)` is when resource `i` is decided. */
  function Pass(env: Env, records: map<string, CapabilityRecord>, run: Stager, listing: seq<ResourceRef>,
                times: nat -> int, count: nat, g: GateState): PassState
    requires count <= |listing|
  {
    if count == 0 then PassState(g, [], 0, false)
    else
      var p, ref := Pass(env, records, run, listing, times, count - 1, g), listing[count - 1];
      if p.threw then p
      else
        var (after, result) := AccessEffect(env, records, StagingRequest(run, ref.uri), times(count - 1), p.gate);
        PassStep(p, ref.name, after, result)
  }

  /** What one access makes of a pass that has not thrown. */
  function PassStep(p: PassState, name: string, after: GateState, result: AccessResult): PassState {
    match result
    case Permitted(_) => p.(gate := after, permitted := p.permitted + [name])
    case Refused(_) => p.(gate := after, withheld := p.withheld + 1)
    case Vanished => p.(gate := after, threw := true)
  }

  predicate Listed(owners: set<string>, listing: seq<ResourceRef>) {
    forall i | 0 <= i < |listing| :: ParseRef(owners, listing[i].uri) == Some(listing[i])
  }

  /** The loop of one trip through the listing. */
  method StagingPass(gate: ResourceAccessGate, run: Stager, listing: seq<ResourceRef>, times: nat -> int)
    returns (permitted: seq<string>, withheld: nat, threw: bool)
    modifies gate
    ensures PassState(gate.State(), permitted, withheld, threw)
         == Pass(gate.env, gate.capabilities.records, run, listing, times, |listing|, old(gate.State()))
  {
    permitted, withheld, threw := [], 0, false;
    ghost var env, records, g := gate.env, gate.capabilities.records, gate.State();
    hide AccessEffect, StagingRequest;
    assert Pass(env, records, run, listing, times, 0, g) == PassState(g, [], 0, false);
    hide Pass;
    var i := 0;
    while i < |listing| && !threw
      invariant i <= |listing| && gate.capabilities.records == records
      invariant PassState(gate.State(), permitted, withheld, threw) == Pass(env, records, run, listing, times, i, g)
    {
      NextPass(env, records, run, listing, times, i, g);
      var result := gate.Access(StagingRequest(run, listing[i].uri), times(i));
      if result.Permitted? {
        permitted := permitted + [listing[i].name];
      } else if result.Refused? {
        withheld := withheld + 1;
      }
      threw := result.Vanished?;
      i := i + 1;
    }
    if threw {
      ThrownPassStays(env, records, run, listing, times, i, |listing|, g);
    }
  }

  lemma NextPass(env: Env, records: map<string, CapabilityRecord>, run: Stager, listing: seq<ResourceRef>,
                 times: nat -> int, i: nat, g: GateState)
    requires i < |listing| && !Pass(env, records, run, listing, times, i, g).threw
    ensures var p := Pass(env, records, run, listing, times, i, g);
      var (after, result) := AccessEffect(env, records, StagingRequest(run, listing[i].uri), times(i), p.gate);
      Pass(env, records, run, listing, times, i + 1, g) == PassStep(p, listing[i].name, after, result)
  {
    hide AccessEffect, StagingRequest, PassStep;
  }

  lemma {:induction false} ThrownPassStays(env: Env, records: map<string, CapabilityRecord>, run: Stager,
                                           listing: seq<ResourceRef>, times: nat -> int, count: nat, later: nat,
                                           g: GateState)
    requires count <= later <= |listing| && Pass(env, records, run, listing, times, count, g).threw
    ensures Pass(env, records, run, listing, times, later, g) == Pass(env, records, run, listing, times, count, g)
    decreases later
  {
    hide AccessEffect;
    if count < later {
      ThrownPassStays(env, records, run, listing, times, count, later - 1, g);
    }
  }

  /** The names permitted among the first `count`, in listing order. */
  function PermittedNames(pdp: Pdp, records: map<string, CapabilityRecord>, run: Stager, listing: seq<ResourceRef>,
                          times: nat -> int, count: nat): seq<string>
    requires count <= |listing|
  {
    if count == 0 then []
    else
      PermittedNames(pdp, records, run, listing, times, count - 1)
      + (if StagingVerdict(pdp, records, run, listing[count - 1].uri, times(count - 1)) == Permit
         then [listing[count - 1].name] else [])
  }

  /** One staging access: a permit puts exactly this file in the inbox, or throws if it is gone; a refusal does
      nothing. */
  lemma StagingAccess(env: Env, records: map<string, CapabilityRecord>, run: Stager, ref: ResourceRef, at: int,
                      g: GateState)
    requires ParseRef(env.owners, ref.uri) == Some(ref)
    ensures var (after, result) := AccessEffect(env, records, StagingRequest(run, ref.uri), at, g);
      var content := ReadFile(g.files, env.root, ref);
      && after.files == g.files
      && (result.Refused? <==> StagingVerdict(env.pdp, records, run, ref.uri, at) != Permit)
      && (result.Permitted? ==>
            && content.Some?
            && Inbox(after, run.workspace) == Inbox(g, run.workspace)[ref.name := content.value])
      && (result.Vanished? ==> content.None?)
      && (!result.Permitted? ==> Inbox(after, run.workspace) == Inbox(g, run.workspace))
  {
    hide ParseRef, FilePath, ReadFile, WriteFile, Judge, CardFor;
  }

  predicate Gone(env: Env, ref: ResourceRef, g: GateState) {
    ReadFile(g.files, env.root, ref).None?
  }

  /** The resource is permitted, but its file is gone. */
  predicate Vanishes(env: Env, records: map<string, CapabilityRecord>, run: Stager, ref: ResourceRef, at: int,
                     g: GateState) {
    StagingVerdict(env.pdp, records, run, ref.uri, at) == Permit && Gone(env, ref, g)
  }

  /** The outcome of a pass. It throws exactly if a permitted file is gone; otherwise the permitted names are staged and
      nothing else, and permitted and withheld add up. */
  lemma {:induction false} PassOutcome(env: Env, records: map<string, CapabilityRecord>, run: Stager,
                                       listing: seq<ResourceRef>, times: nat -> int, count: nat, g: GateState)
    requires count <= |listing| && Listed(env.owners, listing)
    ensures var p := Pass(env, records, run, listing, times, count, g);
      && p.gate.files == g.files
      && (p.threw <==> exists i | 0 <= i < count :: Vanishes(env, records, run, listing[i], times(i), g))
      && (!p.threw ==>
            && p.permitted == PermittedNames(env.pdp, records, run, listing, times, count)
            && p.withheld + |p.permitted| == count
            && Inbox(p.gate, run.workspace).Keys == Inbox(g, run.workspace).Keys + (set n | n in p.permitted))
  {
    hide AccessEffect, StagingVerdict, Inbox, ReadFile, ParseRef, StagingRequest;
    if count > 0 {
      PassOutcome(env, records, run, listing, times, count - 1, g);
      var p, ref := Pass(env, records, run, listing, times, count - 1, g), listing[count - 1];
      StagingAccess(env, records, run, ref, times(count - 1), p.gate);
      SetOfSnoc(p.permitted, ref.name);
      var (after, result) := AccessEffect(env, records, StagingRequest(run, ref.uri), times(count - 1), p.gate);
      assert result.Vanished? <==> Vanishes(env, records, run, ref, times(count - 1), g);
    }
  }

  lemma SetOfSnoc(names: seq<string>, name: string)
    ensures (set n | n in names + [name]) == (set n | n in names) + {name}
  {
  }

  // ----- Exactly what the live cards allow

  const REAL_PDP: Pdp := (request, at) => Answered(Decide(request, at))

  /** Some live card of the agent allows reading the resource. */
  ghost predicate LiveCardAllows(records: map<string, CapabilityRecord>, agentId: string, uri: string, at: int) {
    exists id ::
        && id in records && records[id].agentId == agentId && Live(records[id], at)
        && Grants(records[id].scope, "read", uri)
  }

  lemma {:induction false} CardForFinds(granted: seq<CapabilityRecord>, uri: string)
    ensures match CardFor(granted, uri)
      case None => forall c | c in granted :: !Grants(c.scope, "read", uri)
      case Some(id) => exists i :: IsFirstCard(granted, uri, i) && granted[i].id == id
  {
    hide ScopeAllows, Grants;
    if granted != [] {
      AllowsIffGranted(granted[0].scope, "read", uri);
      CardForFinds(granted[1..], uri);
      assert granted == [granted[0]] + granted[1..];
      if ScopeAllows(granted[0].scope, "read", uri) {
        assert IsFirstCard(granted, uri, 0);
      } else if CardFor(granted, uri).Some? {
        var i :| IsFirstCard(granted[1..], uri, i) && granted[1..][i].id == CardFor(granted, uri).value;
        assert IsFirstCard(granted, uri, i + 1);
      }
    }
  }

  ghost predicate IsFirstCard(granted: seq<CapabilityRecord>, uri: string, i: int) {
    && 0 <= i < |granted| && Grants(granted[i].scope, "read", uri)
    && forall j | 0 <= j < i :: !Grants(granted[j].scope, "read", uri)
  }

  /** The card filed under the id, if the agent holds it alive. */
  function HeldCard(records: map<string, CapabilityRecord>, id: string, agentId: string,
                    at: int): Option<CapabilityRecord> {
    if id in records && records[id].agentId == agentId && Live(records[id], at) then Some(records[id]) else None
  }

  /** No grant, revoke or expiry of the agent's cards between the two moments: it holds the same live cards at both. */
  predicate SameCards(before: map<string, CapabilityRecord>, since: int, after: map<string, CapabilityRecord>, at: int,
                      agentId: string) {
    forall id | id in before.Keys + after.Keys ::
        HeldCard(before, id, agentId, since) == HeldCard(after, id, agentId, at)
  }

  lemma AgentReadIsDataRead(agentId: string, ownerId: string, uri: string, card: Option<Capability>, at: int)
    requires ParseResourceUri(uri).Some?
    ensures Decide(Request(Agent(agentId, ownerId), "read", uri, card), at) == Permit
       <==> HoldsCardFor(agentId, "read", uri, card, at)
  {
    var request := Request(Agent(agentId, ownerId), "read", uri, card);
    FamiliesAreDisjoint(uri);
    PermitsTheEntitled(request, at);
    AgentNeedsAgent(request, at);
    hide ParseResourceUri, ParseAgentResource, HoldsCardFor, EntitledToAgent, Decide;
  }

  /** With no grant, revoke or expiry since the pass began, a listed resource is permitted exactly when some live
      card of the agent allows reading it. */
  lemma PermittedIffSomeCard(s: StoreState, run: Stager, ref: ResourceRef, startedAt: int,
                             records: map<string, CapabilityRecord>, at: int)
    requires Sound(s) && Accepted(ref) && SameCards(s.records, startedAt, records, at, run.agentId)
    requires run.granted == LiveFor(s, run.agentId, startedAt)
    ensures StagingVerdict(REAL_PDP, records, run, ref.uri, at) == Permit
       <==> LiveCardAllows(s.records, run.agentId, ref.uri, startedAt)
  {
    var card := Lookup(records, CardFor(run.granted, ref.uri));
    AgentReadIsDataRead(run.agentId, run.ownerId, ref.uri, card, at);
    CardForFinds(run.granted, ref.uri);
    hide LiveFor, Grants, Decide, ParseResourceUri, CapabilityOwner, CardFor;
    if CardFor(run.granted, ref.uri).Some? {
      var i :| IsFirstCard(run.granted, ref.uri, i) && run.granted[i].id == CardFor(run.granted, ref.uri).value;
      var c := run.granted[i];
      LiveForMembers(s, run.agentId, startedAt, c);
      assert HeldCard(s.records, c.id, run.agentId, startedAt) == HeldCard(records, c.id, run.agentId, at);
    } else if LiveCardAllows(s.records, run.agentId, ref.uri, startedAt) {
      var id :| id in s.records && s.records[id].agentId == run.agentId && Live(s.records[id], startedAt)
             && Grants(s.records[id].scope, "read", ref.uri);
      LiveForMembers(s, run.agentId, startedAt, s.records[id]);
    }
  }

  lemma {:induction false} PermittedNamesMembers(pdp: Pdp, records: map<string, CapabilityRecord>, run: Stager,
                                                 listing: seq<ResourceRef>, times: nat -> int, count: nat, name: string)
    requires count <= |listing|
    ensures name in PermittedNames(pdp, records, run, listing, times, count)
       <==> exists i | 0 <= i < count ::
           StagingVerdict(pdp, records, run, listing[i].uri, times(i)) == Permit && listing[i].name == name
  {
    hide StagingVerdict;
    if count > 0 {
      PermittedNamesMembers(pdp, records, run, listing, times, count - 1, name);
    }
  }

  /** Exact least privilege: with no grant, revoke or expiry during a pass into an empty inbox, the inbox ends up
      holding exactly the listed resources that some live card of the agent allows reading, unless the file of one of
      those is gone: exactly then the pass throws. */
  lemma InboxIsExact(env: Env, s: StoreState, run: Stager, listing: seq<ResourceRef>, startedAt: int, times: nat -> int,
                     g: GateState)
    requires env.pdp == REAL_PDP && Sound(s) && run.granted == LiveFor(s, run.agentId, startedAt)
    requires Listed(env.owners, listing) && Inbox(g, run.workspace) == map[]
    requires forall i | 0 <= i < |listing| :: SameCards(s.records, startedAt, s.records, times(i), run.agentId)
    ensures var p := Pass(env, s.records, run, listing, times, |listing|, g);
      && (p.threw <==> exists i | 0 <= i < |listing| ::
              LiveCardAllows(s.records, run.agentId, listing[i].uri, startedAt) && Gone(env, listing[i], g))
      && (!p.threw ==>
            && (forall name :: name in Inbox(p.gate, run.workspace)
                  <==> exists i | 0 <= i < |listing| ::
                      listing[i].name == name && LiveCardAllows(s.records, run.agentId, listing[i].uri, startedAt))
            && (forall name :: name in Inbox(p.gate, run.workspace) <==> name in p.permitted)
            && p.withheld + |p.permitted| == |listing|)
  {
    hide *;
    PassOutcome(env, s.records, run, listing, times, |listing|, g);
    VerdictsAreExact(env.owners, s, run, listing, startedAt, times);
    forall i | 0 <= i < |listing|
      ensures Vanishes(env, s.records, run, listing[i], times(i), g)
         <==> LiveCardAllows(s.records, run.agentId, listing[i].uri, startedAt) && Gone(env, listing[i], g)
    {
      VanishesIf(env, s.records, run, listing[i], times(i), g);
    }
    var p := Pass(env, s.records, run, listing, times, |listing|, g);
    if !p.threw {
      forall name
        ensures name in p.permitted
           <==> exists i | 0 <= i < |listing| ::
               listing[i].name == name && LiveCardAllows(s.records, run.agentId, listing[i].uri, startedAt)
      {
        PermittedNamesMembers(REAL_PDP, s.records, run, listing, times, |listing|, name);
      }
      assert Inbox(p.gate, run.workspace).Keys == (set n | n in p.permitted);
    }
  }

  lemma VanishesIf(env: Env, records: map<string, CapabilityRecord>, run: Stager, ref: ResourceRef, at: int,
                   g: GateState)
    ensures Vanishes(env, records, run, ref, at, g)
       <==> StagingVerdict(env.pdp, records, run, ref.uri, at) == Permit && Gone(env, ref, g)
  {
  }

  lemma VerdictsAreExact(owners: set<string>, s: StoreState, run: Stager, listing: seq<ResourceRef>, startedAt: int,
                         times: nat -> int)
    requires Sound(s) && run.granted == LiveFor(s, run.agentId, startedAt) && Listed(owners, listing)
    requires forall i | 0 <= i < |listing| :: SameCards(s.records, startedAt, s.records, times(i), run.agentId)
    ensures forall i | 0 <= i < |listing| ::
        StagingVerdict(REAL_PDP, s.records, run, listing[i].uri, times(i)) == Permit
        <==> LiveCardAllows(s.records, run.agentId, listing[i].uri, startedAt)
  {
    hide LiveFor, StagingVerdict, LiveCardAllows, Sound, ParseRef, SameCards, Accepted;
    forall i | 0 <= i < |listing|
      ensures StagingVerdict(REAL_PDP, s.records, run, listing[i].uri, times(i)) == Permit
         <==> LiveCardAllows(s.records, run.agentId, listing[i].uri, startedAt)
    {
      ParsedIsAccepted(owners, listing[i].uri);
      PermittedIffSomeCard(s, run, listing[i], startedAt, s.records, times(i));
    }
  }

  /** A permit by the real decision point, for a card out of any history, is for the card owner's own namespace: whoever
      presents it must be the agent it was minted for. */
  lemma GatePermitsStayAtHome(ops: seq<Op>, request: AccessRequest, uri: string, at: int)
    requires request.principal.Agent? && ParseResourceUri(uri).Some?
    requires Judge(REAL_PDP, RequestFor(After(ops).records, request, uri), at) == Permit
    ensures request.capabilityId.Some? && request.capabilityId.value in After(ops).records
    ensures var card := After(ops).records[request.capabilityId.value];
      && card.agentId == request.principal.agentId
      && Live(card, at)
      && Grants(card.scope, ActionName(request.action), uri)
      && card.ownerId == ParseResourceUri(uri).value.ownerId
  {
    var asked := RequestFor(After(ops).records, request, uri);
    HistoryIsSound(ops);
    FamiliesAreDisjoint(uri);
    PermitsTheEntitled(asked, at);
    AgentNeedsAgent(asked, at);
    AllowedByCardIsOwned(asked, at);
    hide ParseResourceUri, ParseAgentResource, Grants, CapabilityOwner, Decide, After, ActionName;
  }

  lemma AllowedByCardIsOwned(request: Request, at: int)
    requires request.capability.Some?
    ensures Grants(request.capability.value.scope, request.action, request.resource) ==>
        ParseResourceUri(request.resource).Some? &&
        CapabilityOwner(request.capability.value.scope) == Some(ParseResourceUri(request.resource).value.ownerId)
  {
    hide ParseResourceUri, CapabilityOwner, Grants;
    if Grants(request.capability.value.scope, request.action, request.resource) {
      AllowedIsOwned(request.capability.value.scope, request.action, request.resource);
    }
  }
}
