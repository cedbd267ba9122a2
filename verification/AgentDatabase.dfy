/** The agents, runs and messages of the database, and the mutations the service submits. */
module AgentDatabase {
  import opened Wrappers

  datatype AgentStatus = Ready | Busy | Stopped | Errored
  datatype RunStatus = Queued | Running | Completed | Failed | Cancelled
  datatype Role = User | Assistant

  datatype AgentRow = AgentRow(ownerId: string, status: AgentStatus)
  datatype RunRow = RunRow(agentId: string, status: RunStatus, withheldCount: nat, stagedResources: seq<string>)
  datatype Message = Message(agentId: string, runId: string, role: Role)

  datatype Database = Database(agents: map<string, AgentRow>, runs: map<string, RunRow>, messages: seq<Message>)

  predicate Active(status: RunStatus) {
    status == Queued || status == Running
  }

  // ----- The mutations; None where the source throws

  function CreateAgent(db: Database, id: string, ownerId: string): Option<Database> {
    Some(db.(agents := db.agents[id := AgentRow(ownerId, Ready)]))
  }

  function WithStatus(db: Database, id: string, status: AgentStatus): Database
    requires id in db.agents
  {
    db.(agents := db.agents[id := db.agents[id].(status := status)])
  }

  /** `sendMessage`: a queued run and its user message, and the agent busy. */
  function Admit(db: Database, agentId: string, runId: string): Option<Database> {
    if agentId !in db.agents || db.agents[agentId].status == Stopped || db.agents[agentId].status == Busy then None
    else
      Some(WithStatus(db, agentId, Busy)
           .(runs := db.runs[runId := RunRow(agentId, Queued, 0, [])],
             messages := db.messages + [Message(agentId, runId, User)]))
  }

  function UpdateRun(db: Database, runId: string, row: RunRow): Database {
    if runId in db.runs then db.(runs := db.runs[runId := row]) else db
  }

  function MarkRunning(db: Database, runId: string): Option<Database> {
    if runId in db.runs then Some(UpdateRun(db, runId, db.runs[runId].(status := Running))) else Some(db)
  }

  function RecordPass(db: Database, runId: string, permitted: seq<string>, withheld: nat): Option<Database> {
    if runId in db.runs
    then Some(UpdateRun(db, runId, db.runs[runId].(stagedResources := permitted, withheldCount := withheld)))
    else Some(db)
  }

  /** Success: nothing at all if the run or its agent is gone; otherwise the assistant's message, and the agent
      ready. */
  function Complete(db: Database, agentId: string, runId: string): Option<Database> {
    if runId !in db.runs || agentId !in db.agents then Some(db)
    else
      Some(WithStatus(UpdateRun(db, runId, db.runs[runId].(status := Completed)), agentId, Ready)
           .(messages := db.messages + [Message(agentId, runId, Assistant)]))
  }

  /** Failure or cancellation: a stopped agent stays stopped. */
  function Fail(db: Database, agentId: string, runId: string, cancelled: bool): Option<Database> {
    var status := if cancelled then Cancelled else Failed;
    var marked := if runId in db.runs then UpdateRun(db, runId, db.runs[runId].(status := status)) else db;
    if agentId in marked.agents && marked.agents[agentId].status != Stopped
    then Some(WithStatus(marked, agentId, if cancelled then Ready else Errored))
    else Some(marked)
  }

  function Start(db: Database, id: string): Option<Database> {
    if id !in db.agents || db.agents[id].status == Busy then None else Some(WithStatus(db, id, Ready))
  }

  function Stop(db: Database, id: string): Option<Database> {
    if id !in db.agents then None else Some(WithStatus(db, id, Stopped))
  }

  function Others(messages: seq<Message>, agentId: string): seq<Message> {
    if messages == [] then []
    else
      var last := messages[|messages| - 1];
      Others(messages[..|messages| - 1], agentId) + (if last.agentId == agentId then [] else [last])
  }

  function Delete(db: Database, id: string): Option<Database> {
    Some(Database(db.agents - {id}, map r | r in db.runs && db.runs[r].agentId != id :: db.runs[r],
                  Others(db.messages, id)))
  }

  function Recover(db: Database): Option<Database> {
    Some(db.(runs := map r | r in db.runs ::
                 if Active(db.runs[r].status) then db.runs[r].(status := Cancelled) else db.runs[r],
             agents := map a | a in db.agents ::
                 if db.agents[a].status == Busy then db.agents[a].(status := Ready) else db.agents[a]))
  }

  // ----- References and messages

  function Count(messages: seq<Message>, runId: string, role: Role): nat {
    if messages == [] then 0
    else
      var last := messages[|messages| - 1];
      Count(messages[..|messages| - 1], runId, role) + (if last.runId == runId && last.role == role then 1 else 0)
  }

  /** Every run and message belongs to an agent that exists, and a message to a run of its agent. */
  predicate Referential(db: Database) {
    && (forall r | r in db.runs :: db.runs[r].agentId in db.agents)
    && (forall i | 0 <= i < |db.messages| ::
          && db.messages[i].agentId in db.agents
          && db.messages[i].runId in db.runs && db.runs[db.messages[i].runId].agentId == db.messages[i].agentId)
  }

  /** One user message a run, and one assistant message exactly for the completed ones. */
  predicate Conversational(db: Database) {
    forall r | r in db.runs ::
      && Count(db.messages, r, User) == 1
      && Count(db.messages, r, Assistant) == if db.runs[r].status == Completed then 1 else 0
  }

  lemma CountSnoc(messages: seq<Message>, m: Message, runId: string, role: Role)
    ensures Count(messages + [m], runId, role)
         == Count(messages, runId, role) + (if m.runId == runId && m.role == role then 1 else 0)
  {
    assert (messages + [m])[..|messages|] == messages;
  }

  lemma {:induction false} NoMessages(messages: seq<Message>, runId: string, role: Role)
    requires forall i | 0 <= i < |messages| :: messages[i].runId != runId
    ensures Count(messages, runId, role) == 0
  {
    if messages != [] {
      NoMessages(messages[..|messages| - 1], runId, role);
    }
  }

  lemma {:induction false} OthersKeep(messages: seq<Message>, agentId: string, runId: string, role: Role)
    requires forall i | 0 <= i < |messages| :: messages[i].runId == runId ==> messages[i].agentId != agentId
    ensures Count(Others(messages, agentId), runId, role) == Count(messages, runId, role)
  {
    if messages != [] {
      var init, last := messages[..|messages| - 1], messages[|messages| - 1];
      OthersKeep(init, agentId, runId, role);
      if last.agentId != agentId {
        CountSnoc(Others(init, agentId), last, runId, role);
      } else {
        assert Others(messages, agentId) == Others(init, agentId);
      }
    }
  }

  /** What is kept stays in order. */
  lemma {:induction false} OthersInTwo(front: seq<Message>, back: seq<Message>, agentId: string)
    ensures Others(front + back, agentId) == Others(front, agentId) + Others(back, agentId)
  {
    if back == [] {
      assert front + back == front && Others(front, agentId) + [] == Others(front, agentId);
    } else {
      var init, last := back[..|back| - 1], back[|back| - 1];
      assert (front + back)[..|front + back| - 1] == front + init;
      OthersInTwo(front, init, agentId);
      var kept := if last.agentId == agentId then [] else [last];
      assert Others(front, agentId) + (Others(init, agentId) + kept)
           == Others(front, agentId) + Others(init, agentId) + kept;
    }
  }

  lemma {:induction false} OthersAreMessages(messages: seq<Message>, agentId: string)
    ensures forall i | 0 <= i < |Others(messages, agentId)| ::
        Others(messages, agentId)[i] in messages && Others(messages, agentId)[i].agentId != agentId
  {
    if messages != [] {
      OthersAreMessages(messages[..|messages| - 1], agentId);
    }
  }

  lemma AdmitKeepsMessages(db: Database, agentId: string, runId: string)
    requires Referential(db) && Conversational(db) && runId !in db.runs && Admit(db, agentId, runId).Some?
    ensures Referential(Admit(db, agentId, runId).value) && Conversational(Admit(db, agentId, runId).value)
  {
    var db', m := Admit(db, agentId, runId).value, Message(agentId, runId, User);
    forall r, role | r in db'.runs
      ensures Count(db'.messages, r, role)
           == (if r == runId then (if role == User then 1 else 0) else Count(db.messages, r, role))
    {
      CountSnoc(db.messages, m, r, role);
      if r == runId {
        NoMessages(db.messages, r, role);
      }
    }
    hide Count;
    assert Conversational(db');
  }

  lemma CompleteKeepsMessages(db: Database, agentId: string, runId: string)
    requires Referential(db) && Conversational(db)
    requires runId in db.runs ==> db.runs[runId].agentId == agentId && Active(db.runs[runId].status)
    ensures Referential(Complete(db, agentId, runId).value) && Conversational(Complete(db, agentId, runId).value)
  {
    if runId in db.runs && agentId in db.agents {
      var db', m := Complete(db, agentId, runId).value, Message(agentId, runId, Assistant);
      forall r, role | r in db'.runs
        ensures Count(db'.messages, r, role)
             == Count(db.messages, r, role) + (if r == runId && role == Assistant then 1 else 0)
      {
        CountSnoc(db.messages, m, r, role);
      }
      hide Count;
      assert Conversational(db');
    }
  }

  /** A new message comes after all there are. */
  lemma MessagesAreAppended(db: Database, agentId: string, runId: string)
    ensures Admit(db, agentId, runId).Some? ==> db.messages <= Admit(db, agentId, runId).value.messages
    ensures db.messages <= Complete(db, agentId, runId).value.messages
  {
  }

  lemma DeleteKeepsMessages(db: Database, id: string)
    requires Referential(db) && Conversational(db)
    ensures Referential(Delete(db, id).value) && Conversational(Delete(db, id).value)
  {
    var db' := Delete(db, id).value;
    OthersAreMessages(db.messages, id);
    forall r, role | r in db'.runs
      ensures Count(db'.messages, r, role) == Count(db.messages, r, role)
    {
      OthersKeep(db.messages, id, r, role);
    }
    hide Count, Others;
    forall i | 0 <= i < |db'.messages|
      ensures db'.messages[i].agentId in db'.agents
      ensures db'.messages[i].runId in db'.runs && db'.runs[db'.messages[i].runId].agentId == db'.messages[i].agentId
    {
      var j :| 0 <= j < |db.messages| && db.messages[j] == db'.messages[i];
    }
  }

  lemma {:induction false} OthersAreCounted(messages: seq<Message>, agentId: string, m: Message)
    ensures multiset(Others(messages, agentId))[m] == if m.agentId == agentId then 0 else multiset(messages)[m]
  {
    if messages != [] {
      var init, last := messages[..|messages| - 1], messages[|messages| - 1];
      OthersAreCounted(init, agentId, m);
      assert messages == init + [last];
    }
  }

  /** A deletion removes the agent, its runs and its messages, and nothing else; what is left is in its old order
      (`OthersInTwo`). */
  lemma DeleteRemovesOnly(db: Database, id: string, m: Message)
    ensures var after := Delete(db, id).value;
      && after.agents == db.agents - {id}
      && (forall r :: r in after.runs <==> r in db.runs && db.runs[r].agentId != id)
      && (forall r | r in after.runs :: after.runs[r] == db.runs[r])
      && multiset(after.messages)[m] == if m.agentId == id then 0 else multiset(db.messages)[m]
  {
    OthersAreCounted(db.messages, id, m);
    hide Others;
  }

  /** Any change of one run's row that keeps its agent and does not complete it. */
  lemma UpdateKeepsMessages(db: Database, runId: string, row: RunRow)
    requires Referential(db) && Conversational(db)
    requires runId in db.runs ==> row.agentId == db.runs[runId].agentId
    requires runId in db.runs ==> (row.status == Completed <==> db.runs[runId].status == Completed)
    ensures Referential(UpdateRun(db, runId, row)) && Conversational(UpdateRun(db, runId, row))
  {
    hide Count;
  }

  lemma StatusKeepsMessages(db: Database, id: string, status: AgentStatus)
    requires Referential(db) && Conversational(db) && id in db.agents
    ensures Referential(WithStatus(db, id, status)) && Conversational(WithStatus(db, id, status))
  {
    hide Count;
  }

  // ----- Restart

  /** After `initialize`, no run is active and no agent busy: what was running or queued is cancelled, its agent
      ready, and all else is as it was. */
  lemma RecoverySettlesEverything(db: Database)
    ensures var after := Recover(db).value;
      && after.runs.Keys == db.runs.Keys && after.agents.Keys == db.agents.Keys && after.messages == db.messages
      && (forall r | r in db.runs ::
            after.runs[r] == if Active(db.runs[r].status) then db.runs[r].(status := Cancelled) else db.runs[r])
      && (forall a | a in db.agents ::
            after.agents[a]
              == if db.agents[a].status == Busy then AgentRow(db.agents[a].ownerId, Ready) else db.agents[a])
  {
  }

  // ----- A stop that is not guarded against a running agent

  /** The sequence admit, stop, start, admit leaves one agent with two active runs: a stop may commit after an
      admission. */
  lemma StopRaceGivesTwoRuns(agentId: string, ownerId: string, first: string, second: string)
    requires first != second
    ensures var d0 := CreateAgent(Database(map[], map[], []), agentId, ownerId).value;
      && Admit(d0, agentId, first).Some?
      && var d1 := Admit(d0, agentId, first).value;
      && Admit(d1, agentId, second).None? && Start(d1, agentId).None? && Stop(d1, agentId).Some?
      && var d2 := Stop(d1, agentId).value;
      && Start(d2, agentId).Some?
      && var d3 := Start(d2, agentId).value;
      && Admit(d3, agentId, second).Some?
      && var d4 := Admit(d3, agentId, second).value;
         Active(d4.runs[first].status) && Active(d4.runs[second].status)
  {
  }
}
