/** The multi-agent coordination hub (coordination/mod.rs): an agent
    registry with per-agent status, capability and semantic routing, tracked
    execution, and the records each coordinated task leaves in storage. */
module Coordination {
  import opened Common
  import Behavioral
  import opened Storage

  // ---------------------------------------------------------------------
  // Data
  // ---------------------------------------------------------------------

  /** The hub's view of an agent; `Busy` only while it executes. */
  datatype AgentStatus = Available | Busy | Offline | Error

  datatype TaskStatus = Pending | InProgress | Completed | Failed | Delegated

  datatype TaskPriority = Critical | High | Medium | Low

  datatype CoordinationTask = CoordinationTask(
    taskId: Uuid,
    intent: Behavioral.Intent,
    requiredCapabilities: seq<string>,
    priority: TaskPriority,
    timeoutMs: Option<nat>,
    context: map<string, Value>)

  datatype CoordinationResult = CoordinationResult(
    taskId: Uuid,
    agentId: Uuid,
    status: TaskStatus,
    results: Value,
    executionTimeMs: nat,
    evidence: seq<string>)

  datatype CloudDelegationTask = CloudDelegationTask(
    taskType: string, prompt: string, parameters: map<string, Value>, modelPreference: Option<string>)

  /** CoordinationMetrics without the floating-point average completion time
      and utilisation map. */
  datatype CoordinationMetrics = CoordinationMetrics(
    totalSessions: nat, successfulCompletions: nat, failedOperations: nat)

  datatype CoordinationStatus = CoordinationStatus(
    activeSessions: nat, registeredAgents: nat, averageLoad: real, performanceMetrics: CoordinationMetrics)

  datatype CoordinationError =
    | AgentNotFound(id: Uuid)
    | NoCapableAgent(message: string)
    | AgentExecutionError(cause: Behavioral.AgentError)
    | SemanticRoutingError(storageCause: StorageError)
    | StorageFailure(storageCause: StorageError)
    | SerializationError(message: string)
    | CloudDelegationDisabled
    | Timeout
    | ConfigurationError(message: string)

  /** What a coordinated task gets from outside the hub: the iteration order
      of the intent's parameter map, the outcome of the vector search and of
      the storage calls, the agents' behaviour, fresh ids, the clock. */
  datatype TaskEnvironment = TaskEnvironment(
    parameterOrder: seq<string>,
    searchFaults: set<Step>,
    unreadable: set<string>,
    nearest: (map<string, Point>, seq<real>, nat) -> seq<string>,
    execute: (Uuid, Behavioral.AgentContext) -> Result<Behavioral.AgentAction, Behavioral.AgentError>,
    sessionId: Uuid,
    knowledgeId: Uuid,
    coordinationId: Uuid,
    knowledgeOperationId: Uuid,
    coordinationOperationId: Uuid,
    knowledgeFaults: set<Step>,
    coordinationFaults: set<Step>,
    now: Timestamp,
    elapsedMs: nat)

  // ---------------------------------------------------------------------
  // Pure parts
  // ---------------------------------------------------------------------

  /** The routing-knowledge write of a coordinated task reaches both the
      database and the vector index, so the coordination write follows. */
  predicate KnowledgeRecorded(env: TaskEnvironment) {
    NoWriteFault(env.knowledgeFaults) && Upsert !in env.knowledgeFaults
  }

  /** The pending-operation log after the writes that record a task: the
      knowledge write, then the coordination write if the first succeeded. */
  function RecordedPending(pending: map<Uuid, PendingOperation>, env: TaskEnvironment): map<Uuid, PendingOperation> {
    var afterKnowledge := PendingAfter(pending, env.knowledgeOperationId, env.now, env.knowledgeFaults);
    if KnowledgeRecorded(env) then PendingAfter(afterKnowledge, env.coordinationOperationId, env.now, env.coordinationFaults)
    else afterKnowledge
  }

  /** `operations_success` after recording a task: one per committed write. */
  function RecordedSuccesses(n: nat, env: TaskEnvironment): nat {
    n + (if NoWriteFault(env.knowledgeFaults) then 1 else 0)
      + (if KnowledgeRecorded(env) && NoWriteFault(env.coordinationFaults) then 1 else 0)
  }

  /** `error_count` after recording a task: one per rolled-back write. */
  function RecordedErrors(n: nat, env: TaskEnvironment): nat {
    n + (if RollsBack(env.knowledgeFaults) then 1 else 0)
      + (if KnowledgeRecorded(env) && RollsBack(env.coordinationFaults) then 1 else 0)
  }

  /** `state.capabilities.iter().any(|cap| cap.contains(action_type))` */
  predicate HasCapability(state: Behavioral.AgentState, actionType: string) {
    exists i :: 0 <= i < |state.capabilities| && Contains(state.capabilities[i], actionType)
  }

  /** `order` lists every key of the parameter map exactly once. */
  ghost predicate IsEnumeration(order: seq<string>, keys: set<string>) {
    (forall i, j :: 0 <= i < j < |order| ==> order[i] != order[j]) &&
    (forall k :: k in keys <==> k in order)
  }

  /** `parameters.values().filter_map(|v| v.as_str())`, in the order `order`. */
  function StringValues(parameters: map<string, Value>, order: seq<string>): seq<string> {
    if order == [] then []
    else
      var k := order[|order| - 1];
      StringValues(parameters, order[..|order| - 1]) +
        (if k in parameters && parameters[k].Str? then [parameters[k].s] else [])
  }

  /** The string values collected are exactly those of the listed keys' values
      that are strings. */
  lemma {:induction false} StringValuesSpec(parameters: map<string, Value>, order: seq<string>)
    ensures forall s :: s in StringValues(parameters, order) <==>
      exists i :: 0 <= i < |order| && order[i] in parameters && parameters[order[i]] == Str(s)
    ensures |StringValues(parameters, order)| <= |order|
    decreases |order|
  {
    if order != [] {
      var order' := order[..|order| - 1];
      StringValuesSpec(parameters, order');
      forall s | s in StringValues(parameters, order)
        ensures exists i :: 0 <= i < |order| && order[i] in parameters && parameters[order[i]] == Str(s)
      {
        if s in StringValues(parameters, order') {
          var i :| 0 <= i < |order'| && order'[i] in parameters && parameters[order'[i]] == Str(s);
          assert order[i] == order'[i];
        }
      }
      forall s | exists i :: 0 <= i < |order| && order[i] in parameters && parameters[order[i]] == Str(s)
        ensures s in StringValues(parameters, order)
      {
        var i :| 0 <= i < |order| && order[i] in parameters && parameters[order[i]] == Str(s);
        if i < |order'| {
          assert order'[i] == order[i];
        }
      }
    }
  }

  /** The query `route_task_by_similarity` searches with. */
  function SemanticQuery(intent: Behavioral.Intent, order: seq<string>): string
    requires IsEnumeration(order, intent.parameters.Keys)
  {
    intent.actionType + " " + Join(StringValues(intent.parameters, order), " ")
  }

  /** The query starts with the action type and a space; with no string
      parameter it is just that. */
  lemma SemanticQueryShape(intent: Behavioral.Intent, order: seq<string>)
    requires IsEnumeration(order, intent.parameters.Keys)
    ensures intent.actionType + " " <= SemanticQuery(intent, order)
    ensures (forall k :: k in intent.parameters ==> !intent.parameters[k].Str?) ==>
      SemanticQuery(intent, order) == intent.actionType + " "
  {
    if forall k :: k in intent.parameters ==> !intent.parameters[k].Str? {
      NoStringValues(intent.parameters, order);
    }
  }

  lemma {:induction false} NoStringValues(parameters: map<string, Value>, order: seq<string>)
    requires forall k :: k in parameters ==> !parameters[k].Str?
    ensures StringValues(parameters, order) == []
    decreases |order|
  {
    if order != [] {
      NoStringValues(parameters, order[..|order| - 1]);
    }
  }

  /** The agent id the best hit names: its "agent_id" metadata, when that is
      a string that parses as a UUID. */
  function TopHitAgent(hits: seq<KnowledgeEntity>): Option<Uuid> {
    if hits == [] then None
    else match GetStr(hits[0].metadata, "agent_id")
      case None => None
      case Some(text) => ParseUuid(text)
  }

  /** The `{:?}` text of a task status; serde writes the same string. */
  function TaskStatusName(s: TaskStatus): string {
    match s
    case Pending => "Pending"
    case InProgress => "InProgress"
    case Completed => "Completed"
    case Failed => "Failed"
    case Delegated => "Delegated"
  }

  /** The action status to task status table of `execute_coordinated_task`. */
  function TaskStatusOf(s: Behavioral.ActionStatus): TaskStatus {
    match s
    case Completed => Completed
    case InProgress => InProgress
    case Failed => Failed
    case RequiresInput => Pending
    case Blocked => Failed
  }

  /** A task is never reported Delegated; it is Failed exactly when the
      action failed or was blocked, and Pending exactly when it needs input. */
  lemma TaskStatusOfSpec(s: Behavioral.ActionStatus)
    ensures TaskStatusOf(s) != Delegated
    ensures TaskStatusOf(s) == Failed <==> s == Behavioral.ActionStatus.Failed || s == Behavioral.Blocked
    ensures TaskStatusOf(s) == Pending <==> s == Behavioral.RequiresInput
    ensures TaskStatusOf(s) == Completed <==> s == Behavioral.ActionStatus.Completed
    ensures TaskStatusOf(s) == InProgress <==> s == Behavioral.ActionStatus.InProgress
  {
  }

  /** `e.source_id` of every evidence item, in order. */
  function SourceIds(evidence: seq<Behavioral.Evidence>): (ids: seq<string>)
    ensures |ids| == |evidence|
    ensures forall i :: 0 <= i < |evidence| ==> ids[i] == evidence[i].sourceId
  {
    seq(|evidence|, i requires 0 <= i < |evidence| => evidence[i].sourceId)
  }

  /** The context an agent runs a coordinated task in. */
  function TaskContext(task: CoordinationTask, env: TaskEnvironment): Behavioral.AgentContext {
    Behavioral.AgentContext(env.sessionId, task.intent, task.context, [], env.now)
  }

  /** The result of a coordinated task whose agent returned `action`. */
  function TaskResult(task: CoordinationTask, agentId: Uuid, action: Behavioral.AgentAction, elapsedMs: nat): CoordinationResult {
    CoordinationResult(task.taskId, agentId, TaskStatusOf(action.status), action.results, elapsedMs, SourceIds(action.evidence))
  }

  /** The routing-knowledge record `store_task_knowledge` writes. */
  function TaskKnowledge(
    task: CoordinationTask, agentId: Uuid, result: CoordinationResult, id: Uuid, now: Timestamp): (k: KnowledgeEntity)
    ensures k.id == id && k.embeddings == None
    ensures k.source == "coordination_hub" && k.credibilityRating == "A1"
    ensures k.metadata.Keys == {"task_id", "agent_id", "action_type", "status", "execution_time_ms"}
    ensures k.metadata["agent_id"] == Str(agentId) && k.metadata["task_id"] == Str(task.taskId)
    ensures k.metadata["action_type"] == Str(task.intent.actionType)
    ensures k.metadata["status"] == Str(TaskStatusName(result.status))
    ensures k.metadata["execution_time_ms"] == Number(result.executionTimeMs)
  {
    KnowledgeEntity(
      id,
      "Task: " + task.taskId + " executed by agent " + agentId + " with status " + TaskStatusName(result.status) +
        ". Intent: " + task.intent.actionType + " " + task.intent.context,
      map[
        "task_id" := Str(task.taskId),
        "agent_id" := Str(agentId),
        "action_type" := Str(task.intent.actionType),
        "status" := Str(TaskStatusName(result.status)),
        "execution_time_ms" := Number(result.executionTimeMs)],
      None,
      "coordination_hub",
      "A1",
      now)
  }

  /** Semantic routing reads back what task knowledge records: when the best
      hit is the record written for a task run by `agentId`, routing picks
      `agentId`. */
  lemma TaskKnowledgeRoutesBack(
    task: CoordinationTask, agentId: Uuid, result: CoordinationResult, id: Uuid, now: Timestamp,
    hits: seq<KnowledgeEntity>)
    requires hits != [] && hits[0] == TaskKnowledge(task, agentId, result, id, now)
    ensures TopHitAgent(hits) == Some(agentId)
  {
    ParseUuidRoundTrip(agentId);
  }

  /** `serde_json::to_value(&result)` */
  function ResultValue(r: CoordinationResult): Value {
    Object(map[
      "task_id" := Str(r.taskId),
      "agent_id" := Str(r.agentId),
      "status" := Str(TaskStatusName(r.status)),
      "results" := r.results,
      "execution_time_ms" := Number(r.executionTimeMs),
      "evidence" := Array(seq(|r.evidence|, i requires 0 <= i < |r.evidence| => Str(r.evidence[i])))])
  }

  /** The coordination record of a finished task. */
  function TaskCoordinationRecord(result: CoordinationResult, env: TaskEnvironment): CoordinationEntity {
    CoordinationEntity(env.coordinationId, env.sessionId, "task_execution", TaskStatusName(result.status),
      ResultValue(result), env.now)
  }

  function AgentStatusName(s: Behavioral.AgentStatus): string {
    match s
    case Idle => "Idle"
    case Processing => "Processing"
    case WaitingForInput => "WaitingForInput"
    case Error => "Error"
  }

  /** `serde_json::to_value(&agent_state)`, without the performance metrics. */
  function AgentStateValue(s: Behavioral.AgentState): Value {
    Object(map[
      "agent_id" := Str(s.agentId),
      "status" := Str(AgentStatusName(s.status)),
      "capabilities" := Array(seq(|s.capabilities|, i requires 0 <= i < |s.capabilities| => Str(s.capabilities[i]))),
      "current_task" := if s.currentTask.Some? then Str(s.currentTask.value) else Null])
  }

  /** The entity `register_agent` stores: its type is the first capability,
      or "unknown" when there is none. */
  function RegisteredEntity(agentId: Uuid, state: Behavioral.AgentState, now: Timestamp): (e: AgentEntity)
    ensures e.id == agentId && e.capabilities == state.capabilities
    ensures |state.capabilities| > 0 ==> e.agentType == state.capabilities[0]
    ensures state.capabilities == [] ==> e.agentType == "unknown"
  {
    AgentEntity(
      agentId,
      if |state.capabilities| > 0 then state.capabilities[0] else "unknown",
      AgentStateValue(state),
      state.capabilities,
      now,
      now)
  }

  // ---------------------------------------------------------------------
  // The hub
  // ---------------------------------------------------------------------

  /** AgentCoordinationHub. Each registered agent is represented by the state
      it reported when registered; its `execute` is supplied per task. */
  class AgentCoordinationHub {
    const storage: HybridStorageCoordinator
    /** The registry, by the id the hub assigned. */
    var agents: map<Uuid, Behavioral.AgentState>
    var agentStatus: map<Uuid, AgentStatus>
    /** `active_sessions`: no operation opens a session. */
    var activeSessions: set<Uuid>
    var totalSessions: nat
    var successfulCompletions: nat
    var failedOperations: nat

    const enableSemanticRouting: bool
    const enableCloudDelegation: bool

    /** The hub's invariant: statuses are kept only for registered agents and
        no agent is left Busy between calls; every execution is either a
        success or a failure; and the storage is consistent. */
    predicate Valid()
      reads this, storage
    {
      && agentStatus.Keys <= agents.Keys
      && (forall id :: id in agentStatus ==> agentStatus[id] == Available)
      && successfulCompletions + failedOperations == totalSessions
      && activeSessions == {}
      && storage.Valid()
    }

    /** `new`, with `enable_semantic_routing` and `enable_cloud_delegation`
        from the configuration. */
    constructor(coordinator: HybridStorageCoordinator, semanticRouting: bool, cloudDelegation: bool)
      requires coordinator.Valid()
      ensures Valid()
      ensures storage == coordinator && agents == map[] && agentStatus == map[]
      ensures totalSessions == 0 && successfulCompletions == 0 && failedOperations == 0
      ensures enableSemanticRouting == semanticRouting && enableCloudDelegation == cloudDelegation
    {
      storage := coordinator;
      agents := map[];
      agentStatus := map[];
      activeSessions := {};
      totalSessions := 0;
      successfulCompletions := 0;
      failedOperations := 0;
      enableSemanticRouting := semanticRouting;
      enableCloudDelegation := cloudDelegation;
    }

    /** What capability routing may answer: some registered agent with a
        matching capability, or NoCapableAgent exactly when there is none. */
    predicate RoutedByCapability(r: Result<Uuid, CoordinationError>, actionType: string)
      reads this
    {
      && (r.Ok? ==> r.value in agents && HasCapability(agents[r.value], actionType))
      && (r.Err? <==> forall id :: id in agents ==> !HasCapability(agents[id], actionType))
      && (r.Err? ==> r.error == NoCapableAgent("No agent found with capability for action: " + actionType))
    }

    /** `route_by_capabilities`: the registry is a HashMap, so the agent it
        answers is any matching one. */
    method RouteByCapabilities(actionType: string) returns (r: Result<Uuid, CoordinationError>)
      ensures r.Ok? ==> r.value in agents && HasCapability(agents[r.value], actionType)
      ensures r.Err? <==> forall id :: id in agents ==> !HasCapability(agents[id], actionType)
      ensures r.Err? ==> r.error == NoCapableAgent("No agent found with capability for action: " + actionType)
    {
      var remaining := agents.Keys;
      while remaining != {}
        invariant remaining <= agents.Keys
        invariant forall id :: id in agents && id !in remaining ==> !HasCapability(agents[id], actionType)
        decreases |remaining|
      {
        var id :| id in remaining;
        if HasCapability(agents[id], actionType) {
          return Ok(id);
        }
        remaining := remaining - {id};
      }
      r := Err(NoCapableAgent("No agent found with capability for action: " + actionType));
    }

    /** `route_task_by_similarity` (and `route_task_semantically`): the five
        nearest task records are fetched; when the best names an agent that
        id is answered, registered or not; otherwise capability routing
        decides. A failed search is a SemanticRoutingError. */
    method RouteTaskBySimilarity(
      intent: Behavioral.Intent, order: seq<string>, faults: set<Step>, unreadable: set<string>,
      nearest: (map<string, Point>, seq<real>, nat) -> seq<string>)
      returns (r: Result<Uuid, CoordinationError>)
      requires IsEnumeration(order, intent.parameters.Keys)
      requires forall c, v, n :: |nearest(c, v, n)| <= n
      ensures storage.SearchFails(faults) ==> r.Err? && r.error.SemanticRoutingError?
      ensures !storage.SearchFails(faults) ==>
        var best := TopHitAgent(storage.SearchHits(SemanticQuery(intent, order), 5, unreadable, nearest));
        (best.Some? ==> r == Ok(best.value)) && (best.None? ==> RoutedByCapability(r, intent.actionType))
    {
      var query := SemanticQuery(intent, order);
      var similar := storage.SearchKnowledge(query, 5, faults, unreadable, nearest);
      if similar.Err? {
        return Err(SemanticRoutingError(similar.error));
      }
      var best := TopHitAgent(similar.value);
      if best.Some? {
        return Ok(best.value);
      }
      r := RouteByCapabilities(intent.actionType);
    }

    /** `execute_agent_task`: an unregistered id changes nothing; otherwise
        the agent is Busy while it runs and Available afterwards whatever the
        outcome, and the execution counts once as a success or a failure. */
    method ExecuteAgentTask(
      agentId: Uuid, context: Behavioral.AgentContext,
      outcome: Result<Behavioral.AgentAction, Behavioral.AgentError>)
      returns (r: Result<Behavioral.AgentAction, CoordinationError>)
      requires Valid()
      modifies this
      ensures Valid()
      ensures agentId !in agents ==>
        r == Err(AgentNotFound(agentId)) && agentStatus == old(agentStatus) &&
        totalSessions == old(totalSessions) && successfulCompletions == old(successfulCompletions) &&
        failedOperations == old(failedOperations)
      ensures agentId in agents ==>
        agentStatus == old(agentStatus)[agentId := Available] && totalSessions == old(totalSessions) + 1
      ensures agentId in agents && outcome.Ok? ==>
        r == Ok(outcome.value) &&
        successfulCompletions == old(successfulCompletions) + 1 && failedOperations == old(failedOperations)
      ensures agentId in agents && outcome.Err? ==>
        r == Err(AgentExecutionError(outcome.error)) &&
        failedOperations == old(failedOperations) + 1 && successfulCompletions == old(successfulCompletions)
      ensures agents == old(agents) && activeSessions == old(activeSessions)
    {
      if agentId !in agents {
        return Err(AgentNotFound(agentId));
      }
      agentStatus := agentStatus[agentId := Busy];
      var result := outcome;
      agentStatus := agentStatus[agentId := Available];
      totalSessions := totalSessions + 1;
      if result.Ok? {
        successfulCompletions := successfulCompletions + 1;
        r := Ok(result.value);
      } else {
        failedOperations := failedOperations + 1;
        r := Err(AgentExecutionError(result.error));
      }
    }

    /** The vector point `store_task_knowledge` upserts for a routing record:
        the embedding of the record's content, under the record's id. */
    function TaskPoint(task: CoordinationTask, agentId: Uuid, result: CoordinationResult, knowledgeId: Uuid, now: Timestamp): Point
      reads storage
    {
      var k := TaskKnowledge(task, agentId, result, knowledgeId, now);
      Point(knowledgeId, Embedding(storage.textHash(k.content), storage.embeddingDimension), KnowledgePayload(k))
    }

    /** `store_task_knowledge` */
    method StoreTaskKnowledge(
      task: CoordinationTask, agentId: Uuid, result: CoordinationResult,
      knowledgeId: Uuid, operationId: Uuid, now: Timestamp, faults: set<Step>)
      returns (r: Result<(), CoordinationError>)
      requires Valid()
      modifies storage
      ensures Valid()
      ensures r.Ok? <==> NoWriteFault(faults) && Upsert !in faults
      ensures r.Ok? ==>
        storage.redb == Put(old(storage.redb), Knowledge, knowledgeId, KnowledgeRecord(TaskKnowledge(task, agentId, result, knowledgeId, now)))
      ensures r.Err? ==> r.error.StorageFailure?
      ensures r.Ok? ==> storage.points == old(storage.points)[knowledgeId := TaskPoint(task, agentId, result, knowledgeId, now)]
      ensures NoWriteFault(faults) && Upsert in faults ==>
        && r == Err(StorageFailure(VectorError(Upsert)))
        && storage.redb == Put(old(storage.redb), Knowledge, knowledgeId, KnowledgeRecord(TaskKnowledge(task, agentId, result, knowledgeId, now)))
        && storage.points == old(storage.points)
      ensures !NoWriteFault(faults) ==>
        && r == Err(StorageFailure(WriteOutcome(faults).error))
        && storage.redb == old(storage.redb) && storage.points == old(storage.points)
      ensures storage.pendingOperations == PendingAfter(old(storage.pendingOperations), operationId, now, faults)
      ensures storage.operationsSuccess == old(storage.operationsSuccess) + (if NoWriteFault(faults) then 1 else 0)
      ensures storage.errorCount == old(storage.errorCount) + (if RollsBack(faults) then 1 else 0)
    {
      var knowledge := TaskKnowledge(task, agentId, result, knowledgeId, now);
      var stored := storage.StoreKnowledge(knowledge, operationId, now, faults);
      if stored.Err? {
        return Err(StorageFailure(stored.error));
      }
      r := Ok(());
    }

    /** `register_agent`: the agent enters the registry under `agentId` before
        anything is stored, so it stays registered even when storing fails;
        it is marked Available only once its entity is stored. */
    method RegisterAgent(
      state: Behavioral.AgentState, agentId: Uuid, now: Timestamp, operationId: Uuid, faults: set<Step>)
      returns (r: Result<Uuid, CoordinationError>)
      requires Valid()
      modifies this, storage
      ensures Valid()
      ensures agents == old(agents)[agentId := state]
      ensures r.Ok? <==> NoWriteFault(faults)
      ensures r.Ok? ==> r.value == agentId && agentStatus == old(agentStatus)[agentId := Available]
      ensures r.Ok? ==> storage.GetAgent(agentId, {}) == Ok(Some(RegisteredEntity(agentId, state, now)))
      ensures r.Err? ==> r.error.StorageFailure? && agentStatus == old(agentStatus)
      ensures r.Err? ==> r == Err(StorageFailure(WriteOutcome(faults).error)) && storage.redb == old(storage.redb)
      ensures storage.points == old(storage.points)
      ensures storage.pendingOperations == PendingAfter(old(storage.pendingOperations), operationId, now, faults)
      ensures storage.operationsSuccess == old(storage.operationsSuccess) + (if NoWriteFault(faults) then 1 else 0)
      ensures storage.errorCount == old(storage.errorCount) + (if RollsBack(faults) then 1 else 0)
      ensures totalSessions == old(totalSessions) && successfulCompletions == old(successfulCompletions)
    {
      agents := agents[agentId := state];
      var entity := RegisteredEntity(agentId, state, now);
      var stored := storage.StoreAgent(entity, operationId, now, faults);
      if stored.Err? {
        return Err(StorageFailure(stored.error));
      }
      agentStatus := agentStatus[agentId := Available];
      r := Ok(agentId);
    }

    /** `execute_coordinated_task`: route, run the agent, record the routing
        knowledge, then the coordination record. Nothing is stored unless the
        agent ran successfully. */
    method ExecuteCoordinatedTask(task: CoordinationTask, env: TaskEnvironment)
      returns (r: Result<CoordinationResult, CoordinationError>)
      requires Valid()
      requires IsEnumeration(env.parameterOrder, task.intent.parameters.Keys)
      requires forall c, v, n :: |env.nearest(c, v, n)| <= n
      modifies this, storage
      ensures Valid()
      ensures agents == old(agents)
      ensures totalSessions == old(totalSessions) || totalSessions == old(totalSessions) + 1
      ensures r.Ok? ==>
        && r.value.agentId in agents
        && env.execute(r.value.agentId, TaskContext(task, env)).Ok?
        && r.value == TaskResult(task, r.value.agentId, env.execute(r.value.agentId, TaskContext(task, env)).value, env.elapsedMs)
        && totalSessions == old(totalSessions) + 1
        && successfulCompletions == old(successfulCompletions) + 1
      ensures r.Ok? ==> !enableSemanticRouting ==> HasCapability(agents[r.value.agentId], task.intent.actionType)
      ensures r.Ok? ==>
        && env.knowledgeId in Rows(storage.redb, Knowledge)
        && Rows(storage.redb, Knowledge)[env.knowledgeId] ==
             KnowledgeRecord(TaskKnowledge(task, r.value.agentId, r.value, env.knowledgeId, env.now))
        && env.coordinationId in Rows(storage.redb, Coordination)
        && Rows(storage.redb, Coordination)[env.coordinationId] ==
             CoordinationRecord(TaskCoordinationRecord(r.value, env))
      ensures r.Err? && (r.error.AgentNotFound? || r.error.AgentExecutionError? ||
                         r.error.NoCapableAgent? || r.error.SemanticRoutingError?) ==>
        && storage.redb == old(storage.redb) && storage.points == old(storage.points)
        && storage.pendingOperations == old(storage.pendingOperations)
        && storage.operationsSuccess == old(storage.operationsSuccess) && storage.errorCount == old(storage.errorCount)
      ensures r.Ok? || (r.Err? && r.error.StorageFailure?) ==>
        && storage.pendingOperations == RecordedPending(old(storage.pendingOperations), env)
        && storage.operationsSuccess == RecordedSuccesses(old(storage.operationsSuccess), env)
        && storage.errorCount == RecordedErrors(old(storage.errorCount), env)
      ensures r.Err? && r.error.StorageFailure? ==>
        && (!NoWriteFault(env.knowledgeFaults) ==> storage.redb == old(storage.redb) && storage.points == old(storage.points))
        && (NoWriteFault(env.knowledgeFaults) ==> env.knowledgeId in Rows(storage.redb, Knowledge))
        && (Upsert in env.knowledgeFaults ==> storage.points == old(storage.points))
        && (KnowledgeRecorded(env) ==> env.knowledgeId in storage.points)
      ensures r.Ok? ==> agentStatus == old(agentStatus)[r.value.agentId := Available]
      ensures r.Err? && (r.error.AgentExecutionError? || r.error.StorageFailure?) ==>
        exists id :: id in agents && agentStatus == old(agentStatus)[id := Available]
      ensures r.Ok? ==> env.knowledgeId in storage.points && storage.points[env.knowledgeId] == TaskPoint(task, r.value.agentId, r.value, env.knowledgeId, env.now)
      ensures r.Err? && (r.error.NoCapableAgent? || r.error.SemanticRoutingError? || r.error.AgentNotFound?) ==>
        && agentStatus == old(agentStatus) && totalSessions == old(totalSessions)
        && successfulCompletions == old(successfulCompletions) && failedOperations == old(failedOperations)
      ensures r.Err? && r.error.AgentExecutionError? ==>
        && totalSessions == old(totalSessions) + 1
        && failedOperations == old(failedOperations) + 1 && successfulCompletions == old(successfulCompletions)
      ensures r.Err? && r.error.StorageFailure? ==>
        && totalSessions == old(totalSessions) + 1
        && successfulCompletions == old(successfulCompletions) + 1 && failedOperations == old(failedOperations)
    {
      var routed;
      if enableSemanticRouting {
        routed := RouteTaskBySimilarity(task.intent, env.parameterOrder, env.searchFaults, env.unreadable, env.nearest);
      } else {
        routed := RouteByCapabilities(task.intent.actionType);
      }
      if routed.Err? {
        return Err(routed.error);
      }
      var agentId := routed.value;
      var context := TaskContext(task, env);
      var action := ExecuteAgentTask(agentId, context, env.execute(agentId, context));
      if action.Err? {
        return Err(action.error);
      }
      var result := TaskResult(task, agentId, action.value, env.elapsedMs);
      var recorded := RecordTask(task, agentId, result, env);
      if recorded.Err? {
        return Err(recorded.error);
      }
      r := Ok(result);
    }

    /** The two writes that follow a successful execution in
        `execute_coordinated_task`: the routing knowledge, then the
        coordination record, which is written only if the first succeeded. */
    method RecordTask(task: CoordinationTask, agentId: Uuid, result: CoordinationResult, env: TaskEnvironment)
      returns (r: Result<(), CoordinationError>)
      requires Valid()
      modifies storage
      ensures Valid()
      ensures r.Ok? <==>
        NoWriteFault(env.knowledgeFaults) && Upsert !in env.knowledgeFaults && NoWriteFault(env.coordinationFaults)
      ensures r.Err? ==> r.error.StorageFailure?
      ensures r.Ok? ==>
        && env.knowledgeId in Rows(storage.redb, Knowledge)
        && Rows(storage.redb, Knowledge)[env.knowledgeId] ==
             KnowledgeRecord(TaskKnowledge(task, agentId, result, env.knowledgeId, env.now))
        && env.coordinationId in Rows(storage.redb, Coordination)
        && Rows(storage.redb, Coordination)[env.coordinationId] == CoordinationRecord(TaskCoordinationRecord(result, env))
        && env.knowledgeId in storage.points
        && storage.points[env.knowledgeId] == TaskPoint(task, agentId, result, env.knowledgeId, env.now)
      ensures !NoWriteFault(env.knowledgeFaults) ==>
        && r == Err(StorageFailure(WriteOutcome(env.knowledgeFaults).error))
        && storage.redb == old(storage.redb) && storage.points == old(storage.points)
      ensures NoWriteFault(env.knowledgeFaults) && Upsert in env.knowledgeFaults ==>
        && r == Err(StorageFailure(VectorError(Upsert)))
        && storage.redb == Put(old(storage.redb), Knowledge, env.knowledgeId,
             KnowledgeRecord(TaskKnowledge(task, agentId, result, env.knowledgeId, env.now)))
        && storage.points == old(storage.points)
      ensures KnowledgeRecorded(env) ==>
        storage.points == old(storage.points)[env.knowledgeId := TaskPoint(task, agentId, result, env.knowledgeId, env.now)]
      ensures KnowledgeRecorded(env) && !NoWriteFault(env.coordinationFaults) ==>
        && r == Err(StorageFailure(WriteOutcome(env.coordinationFaults).error))
        && storage.redb == Put(old(storage.redb), Knowledge, env.knowledgeId,
             KnowledgeRecord(TaskKnowledge(task, agentId, result, env.knowledgeId, env.now)))
      ensures storage.pendingOperations == RecordedPending(old(storage.pendingOperations), env)
      ensures storage.operationsSuccess == RecordedSuccesses(old(storage.operationsSuccess), env)
      ensures storage.errorCount == RecordedErrors(old(storage.errorCount), env)
    {
      var stored := StoreTaskKnowledge(task, agentId, result, env.knowledgeId, env.knowledgeOperationId, env.now,
        env.knowledgeFaults);
      if stored.Err? {
        return Err(stored.error);
      }
      var record := TaskCoordinationRecord(result, env);
      var updated := storage.UpdateCoordination(record, env.coordinationOperationId, env.now, env.coordinationFaults);
      if updated.Err? {
        return Err(StorageFailure(updated.error));
      }
      r := Ok(());
    }

    /** `delegate_to_cloud`: refused unless cloud delegation is enabled;
        otherwise a canned completed response. */
    function DelegateToCloud(task: CloudDelegationTask, now: Timestamp): (r: Result<Value, CoordinationError>)
      ensures r.Err? <==> !enableCloudDelegation
      ensures r.Err? ==> r.error == CloudDelegationDisabled
      ensures r.Ok? ==> r.value.Object? && r.value.fields.Keys == {"status", "response", "model", "timestamp"}
      ensures r.Ok? ==> r.value.fields["status"] == Str("completed")
      ensures r.Ok? ==>
        r.value.fields["model"] == Str(if task.modelPreference.Some? then task.modelPreference.value else "default")
    {
      if !enableCloudDelegation then Err(CloudDelegationDisabled)
      else Ok(Object(map[
        "status" := Str("completed"),
        "response" := Str("Cloud processing completed for task: " + task.taskType),
        "model" := Str(if task.modelPreference.Some? then task.modelPreference.value else "default"),
        "timestamp" := Str(now.rfc3339)]))
    }

    /** The number of agents whose status is Available. */
    function AvailableCount(): (n: nat)
      reads this, storage
      requires Valid()
      ensures n <= |agents|
      ensures n == |agentStatus|
    {
      var available := set id | id in agentStatus && agentStatus[id] == Available;
      assert available == agentStatus.Keys;
      SubsetCardinality(agentStatus.Keys, agents.Keys);
      |available|
    }

    /** `get_coordination_status`: the load is the share of registered agents
        that are not Available. */
    function GetCoordinationStatus(): (s: CoordinationStatus)
      reads this, storage
      requires Valid()
      ensures s.registeredAgents == |agents| && s.activeSessions == 0
      ensures 0.0 <= s.averageLoad <= 1.0
      ensures s.averageLoad == 0.0 <==> |agents| == |agentStatus|
      ensures s.performanceMetrics.successfulCompletions + s.performanceMetrics.failedOperations ==
        s.performanceMetrics.totalSessions
    {
      var registered := |agents|;
      var available := AvailableCount();
      var load := if registered > 0 then (registered - available) as real / registered as real else 0.0;
      CoordinationStatus(
        |activeSessions|, registered, load,
        CoordinationMetrics(totalSessions, successfulCompletions, failedOperations))
    }
  }
}
