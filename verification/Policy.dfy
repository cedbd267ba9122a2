/** Capabilities and the one decision function that judges every protected access. */
module Policy {
  import opened Wrappers
  import opened Text
  import opened ResourceUris
  import opened Scopes
  import opened ScopeLaws

  /** Times are milliseconds; an expiry that is no date is None. A record is a capability with the store's
      provenance. */
  datatype Capability =
    | Bare(id: string, scope: string, expiresAt: Option<int>, revokedAt: Option<int>)
    | Record(id: string, scope: string, expiresAt: Option<int>, revokedAt: Option<int>,
             agentId: string, ownerId: string, runId: Option<string>, issuedAt: int, revokedBy: Option<string>)

  datatype Principal = Human(id: string) | Agent(agentId: string, ownerId: string)

  datatype Reason =
    | CapabilityUnknown | CapabilityRevoked | CapabilityExpired | PrincipalMismatch | OutOfScope | ActionNotInScope
    | ResourceUnknown | PolicyError | MalformedRequest | MalformedResource | MalformedCapability | MissingCapability
    | ScopeMismatch | NotOwner

  datatype Verdict = Permit | Deny(reason: Reason)

  datatype Request = Request(principal: Principal, action: string, resource: string, capability: Option<Capability>)

  // ----- Data resources

  function ValidateCapability(capability: Option<Capability>, at: int): Verdict {
    if capability.None? then Deny(CapabilityUnknown)
    else if capability.value.revokedAt.Some? then Deny(CapabilityRevoked)
    else if capability.value.expiresAt.None? || capability.value.expiresAt.value <= at then Deny(CapabilityExpired)
    else Permit
  }

  /** An agent acts only under a capability: valid, its own, and wide enough. */
  function AuthorizeAgent(agentId: string, action: string, uri: string, presented: Option<Capability>,
                          at: int): Verdict {
    var validation := ValidateCapability(presented, at);
    if validation.Deny? then validation
    else
      var capability := presented.value;
      if capability.Record? && capability.agentId != agentId then Deny(PrincipalMismatch)
      else if !ScopeAllowsAction(capability.scope, action) then Deny(ActionNotInScope)
      else if !ScopeAllows(capability.scope, action, uri) then Deny(OutOfScope)
      else Permit
  }

  function AuthorizeCapability(request: Request, at: int): Verdict {
    var target := ParseResourceUri(request.resource);
    if target.None? then Deny(ResourceUnknown)
    else
      match request.principal
      case Human(id) => if id == target.value.ownerId then Permit else Deny(OutOfScope)
      case Agent(agentId, _) => AuthorizeAgent(agentId, request.action, target.value.uri, request.capability, at)
  }

  // ----- Agent objects

  function BuildAgentResource(ownerId: string, agentId: string): string {
    "agent:" + ownerId + ":" + agentId
  }

  function ParseAgentResource(resource: string): Option<(string, string)> {
    if !("agent:" <= resource) then None
    else
      var parts := Split(resource[|"agent:"|..], ':');
      if |parts| == 2 && parts[0] != "" && parts[1] != "" then Some((parts[0], parts[1])) else None
  }

  function CallerOwner(principal: Principal): string {
    match principal
    case Human(id) => id
    case Agent(_, ownerId) => ownerId
  }

  function CapabilityProblem(capability: Capability, ownerId: string, at: int): Option<Reason> {
    if capability.revokedAt.Some? then Some(CapabilityRevoked)
    else if capability.expiresAt.None? then Some(MalformedCapability)
    else if capability.expiresAt.value <= at then Some(CapabilityExpired)
    else if CapabilityOwner(capability.scope) != Some(ownerId) then Some(ScopeMismatch)
    else None
  }

  function DecideAgentResource(request: Request, ownerId: string, at: int): Verdict {
    if CallerOwner(request.principal) != ownerId then Deny(NotOwner)
    else if request.principal.Human? then Permit
    else if request.capability.None? then Deny(MissingCapability)
    else
      var problem := CapabilityProblem(request.capability.value, ownerId, at);
      if problem.Some? then Deny(problem.value) else Permit
  }

  /** The policy decision point. */
  function Decide(request: Request, at: int): Verdict {
    if request.action == "" then Deny(MalformedRequest)
    else
      var agent := ParseAgentResource(request.resource);
      if agent.Some? then DecideAgentResource(request, agent.value.0, at)
      else if ParseResourceUri(request.resource).Some? then AuthorizeCapability(request, at)
      else Deny(MalformedResource)
  }

  // ----- What a decision means

  predicate Live(capability: Capability, at: int) {
    capability.revokedAt.None? && capability.expiresAt.Some? && at < capability.expiresAt.value
  }

  /** Printing an agent resource and parsing it gives the parts back exactly when they are non-empty and colon-free. */
  lemma AgentResourceRoundTrip(ownerId: string, agentId: string)
    ensures ParseAgentResource(BuildAgentResource(ownerId, agentId)) == Some((ownerId, agentId))
       <==> ownerId != "" && agentId != "" && ':' !in ownerId && ':' !in agentId
  {
    hide Split;
    var rest := ownerId + ":" + agentId;
    assert BuildAgentResource(ownerId, agentId)[|"agent:"|..] == rest;
    if ':' in ownerId {
      return;
    }
    SplitPrefixed(ownerId, ':', agentId);
    var parts := Split(agentId, ':');
    assert Split(rest, ':')[1] == parts[0];
    if ':' !in agentId {
      NothingToSplit(agentId, ':');
    } else {
      assert parts[0] in parts && ':' !in parts[0];
    }
  }

  lemma NothingToSplit(s: string, c: char)
    requires c !in s
    ensures Split(s, c) == [s]
  {
    hide IndexOf;
    SplitAtFirst(s, c);
  }

  /** No string names both an agent object and a data resource. */
  lemma FamiliesAreDisjoint(resource: string)
    ensures ParseAgentResource(resource).Some? ==> ParseResourceUri(resource).None?
  {
    hide Split, IndexOf, HasForbiddenCharacter, ValidName, IsOwner;
    if "agent:" <= resource {
      assert resource[0] == "agent:"[0] != RESOURCE_SCHEME[0];
    }
  }

  /** A live capability of the agent's own whose scope, spelled out, grants the action on the resource. */
  ghost predicate HoldsCardFor(agentId: string, action: string, uri: string, presented: Option<Capability>, at: int) {
    && presented.Some?
    && Live(presented.value, at)
    && (presented.value.Record? ==> presented.value.agentId == agentId)
    && Grants(presented.value.scope, action, uri)
  }

  /** Everything a permit on a data resource rests on. */
  ghost predicate EntitledToData(request: Request, at: int) {
    var target := ParseResourceUri(request.resource);
    && target.Some?
    && match request.principal
       case Human(id) => id == target.value.ownerId
       case Agent(agentId, _) => HoldsCardFor(agentId, request.action, request.resource, request.capability, at)
  }

  /** Everything a permit on an agent object rests on. */
  predicate EntitledToAgent(request: Request, at: int) {
    var agent := ParseAgentResource(request.resource);
    && agent.Some?
    && CallerOwner(request.principal) == agent.value.0
    && (request.principal.Agent? ==>
          && request.capability.Some?
          && Live(request.capability.value, at)
          && CapabilityOwner(request.capability.value.scope) == Some(agent.value.0))
  }

  /** A decision permits exactly the entitled. */
  lemma PermitsTheEntitled(request: Request, at: int)
    ensures Decide(request, at) == Permit
       <==> request.action != "" && (EntitledToAgent(request, at) || EntitledToData(request, at))
  {
    FamiliesAreDisjoint(request.resource);
    hide ParseAgentResource, ParseResourceUri, DecideAgentResource, AuthorizeCapability, EntitledToAgent,
         EntitledToData;
    if ParseAgentResource(request.resource).Some? {
      AgentPermits(request, at);
      NotBothFamilies(request, at);
    } else {
      AgentNeedsAgent(request, at);
      NotBothFamilies(request, at);
      DataPermits(request, at);
    }
  }

  lemma AgentPermits(request: Request, at: int)
    requires ParseAgentResource(request.resource).Some?
    ensures DecideAgentResource(request, ParseAgentResource(request.resource).value.0, at) == Permit
       <==> EntitledToAgent(request, at)
  {
    hide ParseAgentResource, CapabilityOwner;
  }

  lemma NotBothFamilies(request: Request, at: int)
    ensures EntitledToData(request, at) ==> ParseResourceUri(request.resource).Some?
  {
    hide ParseResourceUri, Grants;
  }

  lemma AgentNeedsAgent(request: Request, at: int)
    ensures EntitledToAgent(request, at) ==> ParseAgentResource(request.resource).Some?
  {
    hide ParseAgentResource, CapabilityOwner;
  }

  lemma DataPermits(request: Request, at: int)
    ensures AuthorizeCapability(request, at) == Permit <==> EntitledToData(request, at)
  {
    if ParseResourceUri(request.resource).Some? {
      CanonicalUri(request.resource);
      if request.principal.Agent? {
        CardPermits(request.principal.agentId, request.action, request.resource, request.capability, at);
      }
    }
    hide ParseResourceUri, AuthorizeAgent, HoldsCardFor;
  }

  lemma CanonicalUri(resource: string)
    requires ParseResourceUri(resource).Some?
    ensures ParseResourceUri(resource).value.uri == resource
  {
    hide *;
    AcceptedIsCanonical(resource);
  }

  /** The agent rule permits exactly the holders of a fitting card. */
  lemma CardPermits(agentId: string, action: string, uri: string, presented: Option<Capability>, at: int)
    ensures AuthorizeAgent(agentId, action, uri, presented, at) == Permit
       <==> HoldsCardFor(agentId, action, uri, presented, at)
  {
    hide ScopeAllows, ScopeAllowsAction, Grants;
    if presented.Some? {
      AllowsImpliesAction(presented.value.scope, action, uri);
      AllowsIffGranted(presented.value.scope, action, uri);
    }
  }

  /** Each denial of the agent rule has its own condition; together with the permit's they cover every case once. */
  lemma DeniedFor(agentId: string, action: string, uri: string, presented: Option<Capability>, at: int)
    ensures var verdict := AuthorizeAgent(agentId, action, uri, presented, at);
      && (verdict == Deny(CapabilityUnknown) <==> presented.None?)
      && (verdict == Deny(CapabilityRevoked) <==> presented.Some? && presented.value.revokedAt.Some?)
      && (verdict == Deny(CapabilityExpired) <==>
            presented.Some? && presented.value.revokedAt.None? && !Live(presented.value, at))
      && (verdict == Deny(PrincipalMismatch) <==>
            presented.Some? && Live(presented.value, at) && presented.value.Record?
              && presented.value.agentId != agentId)
      && (verdict == Deny(ActionNotInScope) <==>
            HoldsOwn(agentId, presented, at) && !GrantsAction(presented.value.scope, action))
      && (verdict == Deny(OutOfScope) <==>
            && HoldsOwn(agentId, presented, at) && GrantsAction(presented.value.scope, action)
            && !Grants(presented.value.scope, action, uri))
      && (verdict == Permit <==> HoldsOwn(agentId, presented, at) && Grants(presented.value.scope, action, uri))
  {
    hide ScopeAllows, ScopeAllowsAction, Grants, GrantsAction;
    if presented.Some? {
      AllowsImpliesAction(presented.value.scope, action, uri);
      AllowsIffGranted(presented.value.scope, action, uri);
      AllowsActionIffGranted(presented.value.scope, action);
    }
  }

  /** Each denial on an agent object has its own condition too. */
  lemma DeniedObjectFor(request: Request, ownerId: string, at: int)
    ensures var verdict := DecideAgentResource(request, ownerId, at);
      var owner := match request.principal case Human(id) => id case Agent(_, agentOwner) => agentOwner;
      var asks := owner == ownerId && request.principal.Agent?;
      var holds := asks && request.capability.Some? && request.capability.value.revokedAt.None?;
      && (verdict == Deny(NotOwner) <==> owner != ownerId)
      && (verdict == Deny(MissingCapability) <==> asks && request.capability.None?)
      && (verdict == Deny(CapabilityRevoked) <==>
            asks && request.capability.Some? && request.capability.value.revokedAt.Some?)
      && (verdict == Deny(MalformedCapability) <==> holds && request.capability.value.expiresAt.None?)
      && (verdict == Deny(CapabilityExpired) <==>
            holds && request.capability.value.expiresAt.Some? && request.capability.value.expiresAt.value <= at)
      && (verdict == Deny(ScopeMismatch) <==>
            holds && Live(request.capability.value, at)
              && CapabilityOwner(request.capability.value.scope) != Some(ownerId))
  {
    hide CapabilityOwner;
  }

  /** A request is malformed exactly without an action, its resource exactly when it is in neither family; a human is
      out of scope exactly in another's namespace. */
  lemma DeniedRequestFor(request: Request, at: int)
    ensures var verdict := Decide(request, at);
      && (verdict == Deny(MalformedRequest) <==> request.action == "")
      && (verdict == Deny(MalformedResource) <==>
            request.action != "" && ParseAgentResource(request.resource).None?
              && ParseResourceUri(request.resource).None?)
      && (request.principal.Human? && request.action != "" && ParseResourceUri(request.resource).Some? ==>
            verdict == if request.principal.id == ParseResourceUri(request.resource).value.ownerId then Permit
                       else Deny(OutOfScope))
  {
    FamiliesAreDisjoint(request.resource);
    hide ParseAgentResource, ParseResourceUri, ScopeAllows, ScopeAllowsAction, CapabilityOwner;
  }

  /** A live capability, not made out to another agent. */
  predicate HoldsOwn(agentId: string, presented: Option<Capability>, at: int) {
    presented.Some? && Live(presented.value, at) && (presented.value.Record? ==> presented.value.agentId == agentId)
  }

  lemma AllowsImpliesAction(scope: string, action: string, resource: string)
    ensures ScopeAllows(scope, action, resource) ==> ScopeAllowsAction(scope, action)
  {
    hide ParseScope, ParseResourceUri, RegExpTest, KnownAction;
  }

  /** A scope that allows anything on a resource belongs to the resource's owner. */
  lemma AllowedIsOwned(scope: string, action: string, resource: string)
    requires Grants(scope, action, resource)
    ensures ParseResourceUri(resource).Some? && CapabilityOwner(scope) == Some(ParseResourceUri(resource).value.ownerId)
  {
    AllowsIffGranted(scope, action, resource);
    hide ParseScope, ParseResourceUri, RegExpTest, KnownAction, Grants;
  }
}
