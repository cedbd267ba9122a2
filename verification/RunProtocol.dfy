/** Runs as the service interleaves them: one step is one database mutation, one decision or one change of an inbox. */
module RunProtocol {
  import opened Wrappers
  import opened Scopes
  import opened Policy
  import opened Keycards
  import opened KeycardHistory
  import opened ResourceFiles
  import opened AccessGate
  import opened AgentDatabase

  /** The permit a file was staged by: which run asked, for what, with which card, when. */
  datatype Grant = Grant(runId: string, agentId: string, ref: ResourceRef, card: Option<Capability>, at: int)

  /** Where a file in an inbox comes from; Leftover is what a crash left behind. */
  datatype Provenance = Leftover | Granted(grant: Grant)

  type Files = map<string, Provenance>

  datatype Phase =
    | Admitted
    | Started
    | Judged
    | Idle
    | Passing(next: nat)
    | Staging(next: nat, grant: Grant)
    | Empty
    | Waiting
    | Launching
    | Launched
    | Ending(cancelled: bool)
    | Wiping(settled: bool)
    | Done(settled: bool, wiped: bool)
    | Aborted

  /**
   * One `executeRun`. It is settled once its terminal mutation has committed; it ends by its wipe, successful or not,
   * or, where its very first mutation is rejected, at once. The fields up to `withheld` are its local variables;
   * `clean` remembers whether every other execution of the agent had ended when this one cleared the inbox, `base` and
   * `since` the store and time at the start of its latest pass, and `quiet` whether the agent held the same live cards
   * at every decision of that pass.
   */
  datatype Exec = Exec(
    agentId: string, ownerId: string, phase: Phase, second: bool, listing: seq<ResourceRef>,
    permitted: seq<string>, withheld: nat,
    cleared: bool, clean: bool, base: StoreState, since: int, quiet: bool)

  /** `latest` remembers each agent's latest admitted run, `disturbed` the agents stopped or deleted while a run of
      theirs was active, `used` every run id there has been. */
  datatype World = World(
    db: Database, cards: StoreState, clock: int, inboxes: map<string, Files>, execs: map<string, Exec>,
    cancelling: set<string>, denials: map<string, string>, latest: map<string, string>, disturbed: set<string>,
    used: set<string>)

  /** A step of one execution. Reject and SettleFails are its first and its catch's mutation rejected; a removal that
      fails may have removed some files, and leaves those `kept`. */
  datatype Move =
    | Begin
    | Reject
    | TakeCard(id: string)
    | ClearInbox
    | ClearFails(kept: set<string>)
    | List(listing: seq<ResourceRef>)
    | DecideNext
    | Stage
    | FinishPass
    | BeginWait(waits: bool)
    | SeeGrant
    | SeeRefusal
    | GiveUp
    | Launch
    | Succeed
    | Throw(cancelled: bool)
    | Settle
    | SettleFails
    | Wipe
    | WipeFails(kept: set<string>)

  datatype Event =
    | Tick(ms: nat)
    | Keycard(op: Op)
    | Cancelling(agentId: string, on: bool)
    | Refuse(agentId: string, reason: string)
    | NewAgent(agentId: string, ownerId: string)
    | StartAgent(agentId: string)
    | StopAgent(agentId: string)
    | DeleteAgent(agentId: string)
    | Send(agentId: string, runId: string)
    | Do(runId: string, move: Move)

  const EXECUTE := "agent:execute"

  function FilesOf(inboxes: map<string, Files>, agentId: string): Files {
    if agentId in inboxes then inboxes[agentId] else map[]
  }

  function StagerOf(e: Exec): Stager {
    Stager(e.agentId, e.ownerId, e.agentId, LiveFor(e.base, e.agentId, e.since))
  }

  /** Without its terminal mutation: not there yet, or rejected. */
  predicate Unsettled(phase: Phase) {
    match phase
    case Wiping(settled) => !settled
    case Done(settled, _) => !settled
    case _ => true
  }

  predicate Ended(phase: Phase) {
    phase.Done? || phase.Aborted?
  }

  predicate Wiped(phase: Phase) {
    phase.Done? && phase.wiped
  }

  predicate OthersHaveEnded(execs: map<string, Exec>, runId: string, agentId: string) {
    forall r | r in execs && r != runId && execs[r].agentId == agentId :: Ended(execs[r].phase)
  }

  // ----- One step of an execution

  function CardOp(w: World, runId: string, e: Exec, id: string): Op {
    RunOp(e.agentId, e.ownerId, Some(runId), id, w.clock)
  }

  /** The run's execution card, and the decision about executing the agent with it. */
  function MayExecute(w: World, runId: string, e: Exec, id: string): bool {
    var op := CardOp(w, runId, e, id);
    && OutcomeOf(w.cards, op).Stored?
    && id in Apply(w.cards, op).records
    && Decide(Request(Agent(e.agentId, e.ownerId), EXECUTE, BuildAgentResource(e.ownerId, e.agentId),
                      Some(Apply(w.cards, op).records[id])), w.clock)
       == Permit
  }

  predicate InNamespace(ownerId: string, listing: seq<ResourceRef>) {
    forall i | 0 <= i < |listing| :: Accepted(listing[i]) && listing[i].ownerId == ownerId
  }

  function VerdictFor(w: World, e: Exec, ref: ResourceRef): Verdict {
    StagingVerdict(REAL_PDP, w.cards.records, StagerOf(e), ref.uri, w.clock)
  }

  function Decided(w: World, runId: string, e: Exec, next: nat): Exec
    requires next < |e.listing|
  {
    var ref := e.listing[next];
    var observed := e.(quiet := e.quiet && SameCards(e.base.records, e.since, w.cards.records, w.clock, e.agentId));
    if VerdictFor(w, e, ref) == Permit
    then observed.(phase := Staging(next, Grant(runId, e.agentId, ref,
                                                Lookup(w.cards.records, CardFor(StagerOf(e).granted, ref.uri)),
                                                w.clock)))
    else observed.(phase := Passing(next + 1), withheld := e.withheld + 1)
  }

  /** `awaitDataKeycard` looks for any live card that allows reading something. */
  predicate HoldsDataCard(w: World, e: Exec) {
    var live := LiveFor(w.cards, e.agentId, w.clock);
    exists i | 0 <= i < |live| :: ScopeAllowsAction(live[i].scope, "read")
  }

  predicate InTry(phase: Phase) {
    !phase.Admitted? && !phase.Ending? && !phase.Wiping? && !Ended(phase)
  }

  /** The control flow of `executeRun`: the execution after the step, or None where the step is not its next. */
  function Advance(w: World, r: string, e: Exec, move: Move): Option<Exec> {
    match move
    case Begin => if e.phase == Admitted then Some(e.(phase := Started)) else None
    case Reject => if e.phase == Admitted then Some(e.(phase := Aborted)) else None
    case TakeCard(id) =>
      if e.phase == Started && id !in w.cards.records
      then Some(e.(phase := if MayExecute(w, r, e, id) then Judged else Ending(false))) else None
    case ClearInbox =>
      if e.phase != Judged then None
      else if e.agentId in w.cancelling then Some(e.(phase := Ending(true)))
      else Some(e.(phase := Idle, cleared := true, clean := OthersHaveEnded(w.execs, r, e.agentId)))
    case ClearFails(_) =>
      if e.phase == Judged && e.agentId !in w.cancelling then Some(e.(phase := Ending(false))) else None
    case List(listing) =>
      if e.phase == Idle && InNamespace(e.ownerId, listing)
      then Some(e.(phase := Passing(0), listing := listing, permitted := [], withheld := 0, base := w.cards,
                   since := w.clock, quiet := true))
      else None
    case DecideNext =>
      if e.phase.Passing? && e.phase.next < |e.listing| then Some(Decided(w, r, e, e.phase.next)) else None
    case Stage =>
      if e.phase.Staging?
      then Some(e.(phase := Passing(e.phase.next + 1), permitted := e.permitted + [e.phase.grant.ref.name])) else None
    case FinishPass =>
      if e.phase == Passing(|e.listing|)
      then Some(e.(phase := if e.second || e.permitted != [] then Launching else Empty)) else None
    case BeginWait(waits) =>
      if e.phase == Empty
      then Some(e.(second := true, phase := if HoldsDataCard(w, e) then Idle else if waits then Waiting else Launching))
      else None
    case SeeGrant => if e.phase == Waiting && HoldsDataCard(w, e) then Some(e.(phase := Idle)) else None
    case SeeRefusal =>
      if e.phase == Waiting && !HoldsDataCard(w, e) && e.agentId in w.denials then Some(e.(phase := Ending(false)))
      else None
    case GiveUp => if e.phase == Waiting then Some(e.(phase := Launching)) else None
    case Launch => if e.phase == Launching then Some(e.(phase := Launched)) else None
    case Succeed => if e.phase == Launched then Some(e.(phase := Wiping(true))) else None
    case Throw(cancelled) => if InTry(e.phase) then Some(e.(phase := Ending(cancelled))) else None
    case Settle => if e.phase.Ending? then Some(e.(phase := Wiping(true))) else None
    case SettleFails => if e.phase.Ending? then Some(e.(phase := Wiping(false))) else None
    case Wipe => if e.phase.Wiping? then Some(e.(phase := Done(e.phase.settled, true))) else None
    case WipeFails(_) => if e.phase.Wiping? then Some(e.(phase := Done(e.phase.settled, false))) else None
  }

  function DbAfter(db: Database, r: string, e: Exec, move: Move): Database {
    match move
    case Begin => MarkRunning(db, r).value
    case FinishPass => RecordPass(db, r, e.permitted, e.withheld).value
    case Succeed => Complete(db, e.agentId, r).value
    case Settle => Fail(db, e.agentId, r, e.phase == Ending(true)).value
    case _ => db
  }

  function Remaining(files: Files, kept: set<string>): Files {
    map n | n in files && n in kept :: files[n]
  }

  function InboxesAfter(w: World, e: Exec, move: Move): map<string, Files> {
    match move
    case ClearInbox => if e.agentId in w.cancelling then w.inboxes else w.inboxes - {e.agentId}
    case Stage =>
      if e.phase.Staging?
      then w.inboxes[e.agentId := FilesOf(w.inboxes, e.agentId)[e.phase.grant.ref.name := Granted(e.phase.grant)]]
      else w.inboxes
    case ClearFails(kept) => w.inboxes[e.agentId := Remaining(FilesOf(w.inboxes, e.agentId), kept)]
    case Wipe => w.inboxes - {e.agentId}
    case WipeFails(kept) => w.inboxes[e.agentId := Remaining(FilesOf(w.inboxes, e.agentId), kept)]
    case _ => w.inboxes
  }

  /** A refusal is forgotten when a wait begins and when one ends. */
  function DenialsAfter(w: World, e: Exec, move: Move): map<string, string> {
    match move
    case BeginWait(_) => if HoldsDataCard(w, e) then w.denials else w.denials - {e.agentId}
    case SeeRefusal => w.denials - {e.agentId}
    case GiveUp => w.denials - {e.agentId}
    case FinishPass => if e.second then w.denials - {e.agentId} else w.denials
    case Throw(_) =>
      if e.second && !e.phase.Launching? && !e.phase.Launched? then w.denials - {e.agentId} else w.denials
    case _ => w.denials
  }

  // ----- One step of the service

  predicate HasActiveRun(db: Database, agentId: string) {
    exists r | r in db.runs :: db.runs[r].agentId == agentId && Active(db.runs[r].status)
  }

  function Disturb(w: World, agentId: string): set<string> {
    if HasActiveRun(w.db, agentId) then w.disturbed + {agentId} else w.disturbed
  }

  predicate FreshAgent(w: World, agentId: string) {
    agentId !in w.db.agents && forall r | r in w.execs :: w.execs[r].agentId != agentId
  }

  predicate FreshRun(w: World, runId: string) {
    runId !in w.execs && runId !in w.db.runs && runId !in w.used
  }

  function WithDb(w: World, db: Option<Database>): Option<World> {
    if db.Some? then Some(w.(db := db.value)) else None
  }

  function NewExec(agentId: string, ownerId: string): Exec {
    Exec(agentId, ownerId, Admitted, false, [], [], 0, false, false, EMPTY_STORE, 0, true)
  }

  function DoMove(w: World, r: string, move: Move): World
    requires r in w.execs && Advance(w, r, w.execs[r], move).Some?
  {
    var e := w.execs[r];
    w.(execs := w.execs[r := Advance(w, r, e, move).value],
       db := DbAfter(w.db, r, e, move),
       inboxes := InboxesAfter(w, e, move),
       denials := DenialsAfter(w, e, move),
       cards := if move.TakeCard? then Apply(w.cards, CardOp(w, r, e, move.id)) else w.cards)
  }

  /** The state after one event, or None where it is not possible or throws before changing anything. */
  function Step(w: World, event: Event): Option<World> {
    match event
    case Tick(ms) => Some(w.(clock := w.clock + ms))
    case Keycard(op) => if op.RunOp? || !FreshId(w.cards, op) then None else Some(w.(cards := Apply(w.cards, op)))
    case Cancelling(agentId, on) =>
      Some(w.(cancelling := if on then w.cancelling + {agentId} else w.cancelling - {agentId}))
    case Refuse(agentId, reason) => Some(w.(denials := w.denials[agentId := reason]))
    case NewAgent(agentId, ownerId) =>
      if FreshAgent(w, agentId) then WithDb(w, CreateAgent(w.db, agentId, ownerId)) else None
    case StartAgent(agentId) => WithDb(w, Start(w.db, agentId))
    case StopAgent(agentId) => WithDb(w.(disturbed := Disturb(w, agentId)), Stop(w.db, agentId))
    case DeleteAgent(agentId) => WithDb(w.(disturbed := Disturb(w, agentId)), Delete(w.db, agentId))
    case Send(agentId, runId) =>
      if !FreshRun(w, runId) || Admit(w.db, agentId, runId).None? then None
      else
        Some(w.(db := Admit(w.db, agentId, runId).value,
                execs := w.execs[runId := NewExec(agentId, w.db.agents[agentId].ownerId)],
                latest := w.latest[agentId := runId], used := w.used + {runId}))
    case Do(runId, move) =>
      if runId in w.execs && Advance(w, runId, w.execs[runId], move).Some? then Some(DoMove(w, runId, move)) else None
  }

  /** The service as it starts: the recovered database, no cards, no executions, and whatever files a crash left
      behind. */
  function StartUp(db: Database, clock: int, inboxes: map<string, set<string>>): World {
    World(Recover(db).value, EMPTY_STORE, clock,
          map a | a in inboxes :: map n | n in inboxes[a] :: Leftover, map[], {}, map[], map[], {},
          db.runs.Keys)
  }

  function Reached(w: World, events: seq<Event>): Option<World> {
    if events == [] then Some(w)
    else
      var before := Reached(w, events[..|events| - 1]);
      if before.None? then None else Step(before.value, events[|events| - 1])
  }
}
