/** The framework facade's conversions (lib.rs): building the research agent
    from a threshold name, high-level tasks to coordination tasks,
    coordination results to high-level results, and knowledge entities to
    high-level knowledge. */
module Framework {
  import opened Common
  import opened Behavioral
  import SystematicResearch
  import Storage
  import Coordination

  // ---------------------------------------------------------------------
  // Data
  // ---------------------------------------------------------------------

  datatype TaskType =
    | Research(query: string, domain: Option<string>, sourcesRequired: nat)
    | Analysis(content: string, analysisType: string)
    | Synthesis(inputs: seq<string>, outputFormat: string)
    | Custom(actionType: string, context: string)

  datatype AcsPriority = Critical | High | Medium | Low

  datatype AcsTask = AcsTask(
    description: string,
    taskType: TaskType,
    priority: AcsPriority,
    parameters: map<string, Value>,
    timeoutMs: Option<nat>)

  datatype ResultStatus = Success | Partial | Failed | RequiresInput

  datatype AcsEvidence = AcsEvidence(source: string, credibility: string, content: string, validationStatus: string)

  datatype AgentInfo = AgentInfo(agentId: Uuid, agentType: string, capabilities: seq<string>)

  datatype AcsResult = AcsResult(
    taskId: Uuid,
    status: ResultStatus,
    content: Value,
    evidence: seq<AcsEvidence>,
    confidence: real,
    executionTimeMs: nat,
    agentInfo: AgentInfo)

  datatype AcsKnowledge = AcsKnowledge(
    title: string,
    content: string,
    source: string,
    credibilityRating: string,
    metadata: map<string, Value>,
    tags: seq<string>)

  // ---------------------------------------------------------------------
  // The research agent
  // ---------------------------------------------------------------------

  /** The threshold match of `create_systematic_research_agent`. */
  function ParseThreshold(name: string): CredibilityRating {
    match name
    case "A1" => A1
    case "A2" => A2
    case "A3" => A3
    case "B1" => B1
    case "B2" => B2
    case "B3" => B3
    case _ => B3
  }

  /** The six names A1, A2, A3, B1, B2 and B3 give the rating they name; every
      other name, A4 and C1 included, gives B3. */
  lemma ParseThresholdSpec(name: string, r: CredibilityRating)
    requires r in {A1, A2, A3, B1, B2, B3}
    ensures ParseThreshold(SystematicResearch.RatingName(r)) == r
    ensures name !in {"A1", "A2", "A3", "B1", "B2", "B3"} ==> ParseThreshold(name) == B3
    ensures ParseThreshold("A4") == B3 && ParseThreshold("C1") == B3
  {
  }

  /** `create_systematic_research_agent`; the fresh agent id is supplied. */
  function CreateSystematicResearchAgent(evidenceThreshold: string, agentId: Uuid): SystematicResearch.SystematicResearchAgent {
    SystematicResearch.NewAgent(
      SystematicResearch.ValidationConfig(3, ParseThreshold(evidenceThreshold), true, 0.75),
      agentId)
  }

  /** The configured threshold reaches the validation configuration, but the
      agent always filters evidence at B3: a configured A1 is not enforced. */
  lemma ConfiguredThresholdIgnored(evidenceThreshold: string, agentId: Uuid)
    ensures CreateSystematicResearchAgent(evidenceThreshold, agentId).validationConfig.requiredCredibility ==
      ParseThreshold(evidenceThreshold)
    ensures CreateSystematicResearchAgent(evidenceThreshold, agentId).evidenceThreshold == B3
    ensures CreateSystematicResearchAgent(evidenceThreshold, agentId).validationConfig.minimumSources == 3
  {
    SystematicResearch.NewAgentThresholdIsB3(
      SystematicResearch.ValidationConfig(3, ParseThreshold(evidenceThreshold), true, 0.75),
      SystematicResearch.ValidationConfig(3, ParseThreshold(evidenceThreshold), true, 0.75),
      agentId);
  }

  // ---------------------------------------------------------------------
  // Task conversion
  // ---------------------------------------------------------------------

  function ActionTypeOf(t: TaskType): string {
    match t
    case Research(_, _, _) => "research"
    case Analysis(_, _) => "analyze"
    case Synthesis(_, _) => "synthesize"
    case Custom(actionType, _) => actionType
  }

  function RequiredCapabilitiesOf(t: TaskType): seq<string> {
    match t
    case Research(_, _, _) => ["systematic_research"]
    case Analysis(_, _) => ["analysis"]
    case Synthesis(_, _) => ["synthesis"]
    case Custom(_, _) => ["general"]
  }

  function IntentPriority(p: AcsPriority): Priority {
    match p
    case Critical => Priority.Critical
    case High => Priority.High
    case Medium => Priority.Medium
    case Low => Priority.Low
  }

  function CoordinationPriority(p: AcsPriority): Coordination.TaskPriority {
    match p
    case Critical => Coordination.TaskPriority.Critical
    case High => Coordination.TaskPriority.High
    case Medium => Coordination.TaskPriority.Medium
    case Low => Coordination.TaskPriority.Low
  }

  /** `convert_task`; the fresh task id is supplied. */
  function ConvertTask(task: AcsTask, taskId: Uuid): Coordination.CoordinationTask {
    Coordination.CoordinationTask(
      taskId,
      Intent(ActionTypeOf(task.taskType), task.parameters, IntentPriority(task.priority), task.description),
      RequiredCapabilitiesOf(task.taskType),
      CoordinationPriority(task.priority),
      task.timeoutMs,
      map[])
  }

  /** What `convert_task` keeps and what it decides: the action type and the
      one required capability by task type (a custom task keeps its own action
      type but not its context), both priorities by variant, the parameters,
      timeout and description copied, and an empty task context. */
  lemma ConvertTaskSpec(task: AcsTask, taskId: Uuid)
    ensures var c := ConvertTask(task, taskId);
      && c.taskId == taskId
      && c.intent.parameters == task.parameters && c.intent.context == task.description
      && c.timeoutMs == task.timeoutMs && c.context == map[]
      && c.intent.priority == IntentPriority(task.priority) && c.priority == CoordinationPriority(task.priority)
      && |c.requiredCapabilities| == 1
      && (task.taskType.Research? ==> c.intent.actionType == "research" && c.requiredCapabilities == ["systematic_research"])
      && (task.taskType.Analysis? ==> c.intent.actionType == "analyze" && c.requiredCapabilities == ["analysis"])
      && (task.taskType.Synthesis? ==> c.intent.actionType == "synthesize" && c.requiredCapabilities == ["synthesis"])
      && (task.taskType.Custom? ==> c.intent.actionType == task.taskType.actionType && c.requiredCapabilities == ["general"])
  {
  }

  /** Both priority tables keep the variant, so they agree with each other
      and are one-to-one. */
  lemma PriorityMapsAgree(p: AcsPriority, q: AcsPriority)
    ensures IntentPriority(p) == IntentPriority(q) <==> p == q
    ensures CoordinationPriority(p) == CoordinationPriority(q) <==> p == q
    ensures p == AcsPriority.Critical <==> IntentPriority(p) == Priority.Critical && CoordinationPriority(p) == Coordination.TaskPriority.Critical
    ensures p == AcsPriority.Low <==> IntentPriority(p) == Priority.Low && CoordinationPriority(p) == Coordination.TaskPriority.Low
    ensures IntentPriority(p) == Priority.High <==> p == AcsPriority.High
    ensures IntentPriority(p) == Priority.Medium <==> p == AcsPriority.Medium
    ensures CoordinationPriority(p) == Coordination.TaskPriority.High <==> p == AcsPriority.High
    ensures CoordinationPriority(p) == Coordination.TaskPriority.Medium <==> p == AcsPriority.Medium
  {
  }

  /** A research task is routed by capability to the research agent, whose
      first capability contains "research"; an analysis task's action type
      "analyze" matches none of its capabilities. */
  lemma ResearchTaskReachesResearchAgent(task: AcsTask, taskId: Uuid, agent: SystematicResearch.SystematicResearchAgent)
    requires task.taskType.Analysis? || task.taskType.Research?
    ensures task.taskType.Research? ==>
      Coordination.HasCapability(SystematicResearch.GetState(agent), ConvertTask(task, taskId).intent.actionType)
    ensures task.taskType.Analysis? ==>
      !Coordination.HasCapability(SystematicResearch.GetState(agent), ConvertTask(task, taskId).intent.actionType)
  {
    SystematicResearch.ResearchMatchesCapability(agent);
    var state := SystematicResearch.GetState(agent);
    if task.taskType.Analysis? {
      var intent := ConvertTask(task, taskId).intent;
      assert SystematicResearch.CanHandle(agent, intent);
      SystematicResearch.OtherIntentsMatchNoCapability(agent, intent);
      forall i | 0 <= i < |state.capabilities| ensures !Contains(state.capabilities[i], "analyze") {
        assert state.capabilities[i] in state.capabilities;
      }
    } else {
      assert Contains(state.capabilities[0], "research");
    }
  }

  // ---------------------------------------------------------------------
  // Result conversion
  // ---------------------------------------------------------------------

  function ResultStatusOf(s: Coordination.TaskStatus): ResultStatus {
    match s
    case Completed => Success
    case InProgress => Partial
    case Failed => ResultStatus.Failed
    case Pending => ResultStatus.RequiresInput
    case Delegated => Partial
  }

  /** The placeholder evidence entry `convert_result` makes for a source. */
  function PlaceholderEvidence(source: string): AcsEvidence {
    AcsEvidence(source, "B3", "Evidence content", "Passed")
  }

  /** `convert_result` */
  function ConvertResult(result: Coordination.CoordinationResult, agentInfo: AgentInfo): AcsResult {
    AcsResult(
      result.taskId,
      ResultStatusOf(result.status),
      result.results,
      seq(|result.evidence|, i requires 0 <= i < |result.evidence| => PlaceholderEvidence(result.evidence[i])),
      0.85,
      result.executionTimeMs,
      agentInfo)
  }

  /** `convert_result` keeps the task id, content, timing and agent info, maps
      the status by its table, and makes exactly one placeholder evidence
      entry per source, in order. */
  lemma ConvertResultSpec(result: Coordination.CoordinationResult, agentInfo: AgentInfo)
    ensures var a := ConvertResult(result, agentInfo);
      && a.taskId == result.taskId && a.content == result.results
      && a.executionTimeMs == result.executionTimeMs && a.agentInfo == agentInfo
      && a.confidence == 0.85
      && |a.evidence| == |result.evidence|
      && (forall i :: 0 <= i < |a.evidence| ==>
            a.evidence[i].source == result.evidence[i] && a.evidence[i].credibility == "B3" &&
            a.evidence[i].validationStatus == "Passed")
  {
  }

  /** Success only for a completed task; Partial for one in progress or
      delegated; RequiresInput only for a pending one. */
  lemma ResultStatusTable(s: Coordination.TaskStatus)
    ensures ResultStatusOf(s) == Success <==> s == Coordination.TaskStatus.Completed
    ensures ResultStatusOf(s) == Partial <==> s == Coordination.TaskStatus.InProgress || s == Coordination.Delegated
    ensures ResultStatusOf(s) == ResultStatus.Failed <==> s == Coordination.TaskStatus.Failed
    ensures ResultStatusOf(s) == ResultStatus.RequiresInput <==> s == Coordination.Pending
  {
  }

  /** From an agent's action to the framework's result: a blocked action is
      reported Failed and one that needs input RequiresInput. */
  lemma ActionToResultStatus(a: ActionStatus)
    ensures ResultStatusOf(Coordination.TaskStatusOf(a)) ==
      match a
      case Completed => Success
      case InProgress => Partial
      case Failed => ResultStatus.Failed
      case RequiresInput => ResultStatus.RequiresInput
      case Blocked => ResultStatus.Failed
  {
  }

  // ---------------------------------------------------------------------
  // Knowledge conversion
  // ---------------------------------------------------------------------

  /** The title of a knowledge entity: its "title" metadata when that is a
      string, otherwise "Untitled". */
  function TitleOf(metadata: map<string, Value>): string {
    var title := GetStr(metadata, "title");
    if title.Some? then title.value else "Untitled"
  }

  /** The mapping in `search_knowledge`. */
  function ToAcsKnowledge(e: Storage.KnowledgeEntity): AcsKnowledge {
    AcsKnowledge(TitleOf(e.metadata), e.content, e.source, e.credibilityRating, e.metadata, [])
  }

  /** `search_knowledge`'s collect: one high-level entry per entity, in order. */
  function ToAcsKnowledgeAll(entities: seq<Storage.KnowledgeEntity>): (r: seq<AcsKnowledge>)
    ensures |r| == |entities|
    ensures forall i :: 0 <= i < |entities| ==> r[i] == ToAcsKnowledge(entities[i])
  {
    seq(|entities|, i requires 0 <= i < |entities| => ToAcsKnowledge(entities[i]))
  }

  /** The entity `store_knowledge` builds from high-level knowledge; the fresh
      id and the clock are supplied. */
  function ToKnowledgeEntity(k: AcsKnowledge, id: Uuid, now: Timestamp): Storage.KnowledgeEntity {
    Storage.KnowledgeEntity(id, k.content, k.metadata, None, k.source, k.credibilityRating, now)
  }

  /** The search mapping copies content, source, credibility and metadata,
      takes the title from the metadata and drops the tags. Storing high-level
      knowledge and reading it back gives it back exactly when it has no tags
      and its title is the one its metadata determines. */
  lemma KnowledgeRoundTrip(k: AcsKnowledge, id: Uuid, now: Timestamp)
    ensures var back := ToAcsKnowledge(ToKnowledgeEntity(k, id, now));
      && back.content == k.content && back.source == k.source
      && back.credibilityRating == k.credibilityRating && back.metadata == k.metadata
      && back.tags == []
      && ("title" in k.metadata && k.metadata["title"].Str? ==> back.title == k.metadata["title"].s)
      && (!("title" in k.metadata && k.metadata["title"].Str?) ==> back.title == "Untitled")
      && (back == k <==> k.tags == [] && k.title == TitleOf(k.metadata))
  {
  }
}
