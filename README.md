# Example-ACS agent framework in Dafny

A model of the demonstration agent framework "Example-ACS": a hybrid
storage coordinator that pairs a structured store (REDB) with a vector
store (Qdrant), an agent coordination hub that registers agents, routes
tasks to them and books their outcomes, the systematic-research agent's
decision logic, the Admiralty-code credibility rating, and the framework
facade's task, result and knowledge conversions.

Modules, one per source file:

- `Common`: Option/Result, JSON values, UUID text, timestamps, substring
  search, join and filter helpers.
- `Behavioral` (behavioral/mod.rs): credibility ratings, intents, actions,
  evidence, agent state and errors.
- `SystematicResearch` (behavioral/systematic_research.rs): intent parsing,
  threshold filtering, first-wins deduplication, credibility validation,
  PRISMA checks, topic clustering and evidence strength.
- `Storage` (storage/mod.rs): the class `HybridStorageCoordinator`, whose
  fields are the two stores, the pending-operation map, the sync status and
  the counters.
- `Coordination` (coordination/mod.rs): the class `AgentCoordinationHub`,
  whose fields are the agent registry, the per-agent status map and the
  session counters.
- `Framework` (lib.rs): the research-agent factory and the conversions.

How the environment enters the model:

- The REDB tables are a map from table name to a map from key to an encoded
  record. Encoding is a datatype constructor, so decoding inverts it.
- The Qdrant collection is a map from point id to point.
- Backend failures are a set of the backend steps that fail when reached
  (begin_write, open_table, insert, commit, upsert, search, begin_read, get).
- Fresh UUIDs and the clock are parameters.
- The vector index is a function parameter that returns at most `limit` ids
  in rank order.
- An agent's `execute` is a function parameter, and `get_state` is the
  state supplied at registration.
- The text hash behind `generate_embedding` is a function parameter of the
  coordinator.

Behaviour of the source that the model keeps, as written:

- `numeric_value` gives the letter the tens digit (A is 6, F is 1) and the
  digit the units, so within one letter A6 ranks above A1. That is the
  reverse of the usual reading of the Admiralty code.
- The range `A1..=B3` is read in declaration order (A1–A6, B1–B3). It is
  therefore not the same set as "meets B3": B1 is in the range but does not
  meet B3, and B6 meets B3 but is outside the range.
- `calculate_evidence_strength` compares against `len / 2` and `len / 4`
  with integer division, so an empty input is Strong, and one strong finding
  out of three is Strong as well.
- `can_handle` accepts "investigate", "analyze" and "study", but none of
  the research agent's capabilities contains those words. Capability routing
  therefore never sends such an intent to it, and an Analysis task's
  "analyze" action type does not reach it.
- `SystematicResearchAgent::new` always sets the evidence threshold to B3.
  The threshold parsed by `create_systematic_research_agent` only reaches the
  validation configuration.
- A failed `begin_write` or `commit` returns before rollback, so the
  pending entry stays in the map and the error count does not change.
- `operations_success` grows on every successful coordinated write, while
  `operations_total` grows only in `store_agent`, so total never exceeds
  success.
- A failed vector upsert leaves the knowledge record in the structured
  table without a vector point.
- Semantic routing returns the top hit's `agent_id` without checking the
  registry.
- `register_agent` keeps the registry entry when storing the agent fails.
- `active_sessions` is never written, so it is always empty.

## Model

| member | source | states |
|---|---|---|
| Behavioral.NumericValue | Research/Active-Projects/Deep-Research/hybrid-symbolic-neural-ai-architecture/Example-ACS/src/behavioral/mod.rs:86-95 | the value lies in 11..66; its tens digit is 6 minus the letter's position (A=6 … F=1) and its units digit is the rating's digit |
| Behavioral.FromNumericValueRoundTrip | Research/Active-Projects/Deep-Research/hybrid-symbolic-neural-ai-architecture/Example-ACS/src/behavioral/mod.rs:86-95 | decoding a rating's numeric value gives the rating back |
| Behavioral.NumericValueInjective | Research/Active-Projects/Deep-Research/hybrid-symbolic-neural-ai-architecture/Example-ACS/src/behavioral/mod.rs:86-95 | distinct ratings have distinct numeric values |
| Behavioral.MeetsThresholdLexicographic | Research/Active-Projects/Deep-Research/hybrid-symbolic-neural-ai-architecture/Example-ACS/src/behavioral/mod.rs:82-95 | a rating meets a threshold iff its letter comes earlier, or the letters are equal and its digit is at least the threshold's |
| Behavioral.MeetsThresholdTotalOrder | Research/Active-Projects/Deep-Research/hybrid-symbolic-neural-ai-architecture/Example-ACS/src/behavioral/mod.rs:82-84 | meets_threshold is reflexive, total, transitive and antisymmetric |
| Behavioral.LetterDominatesDigit | Research/Active-Projects/Deep-Research/hybrid-symbolic-neural-ai-architecture/Example-ACS/src/behavioral/mod.rs:86-95 | every A or B rating meets C1, no C–F rating meets B1, and A6 meets A1 but A1 does not meet A6 |
| Behavioral.RangeAndThresholdDiffer | Research/Active-Projects/Deep-Research/hybrid-symbolic-neural-ai-architecture/Example-ACS/src/behavioral/systematic_research.rs:187 | the declaration range A1..=B3 and "meets B3" disagree on B1 and on B6, and agree on every A rating |
| SystematicResearch.NewAgentThresholdIsB3 | Research/Active-Projects/Deep-Research/hybrid-symbolic-neural-ai-architecture/Example-ACS/src/behavioral/systematic_research.rs:292-304 | new keeps the given validation configuration but always sets the evidence threshold to B3 |
| SystematicResearch.ResearchMatchesCapability | Research/Active-Projects/Deep-Research/hybrid-symbolic-neural-ai-architecture/Example-ACS/src/behavioral/systematic_research.rs:66-88 | the agent's first capability, systematic_research, contains "research" |
| SystematicResearch.OtherIntentsMatchNoCapability | Research/Active-Projects/Deep-Research/hybrid-symbolic-neural-ai-architecture/Example-ACS/src/behavioral/systematic_research.rs:66-88 | every intent can_handle accepts other than "research" is a substring of none of the agent's capabilities |
| SystematicResearch.CapabilityLacksIntent | Research/Active-Projects/Deep-Research/hybrid-symbolic-neural-ai-architecture/Example-ACS/src/behavioral/systematic_research.rs:66-88 | "investigate", "analyze" and "study" occur in no capability the agent advertises |
| SystematicResearch.ParseSearchIntent | Research/Active-Projects/Deep-Research/hybrid-symbolic-neural-ai-architecture/Example-ACS/src/behavioral/systematic_research.rs:306-329 | fails with Internal("Missing query parameter") exactly when query is missing or not a string; otherwise keeps the query and takes domain, scope and max_sources from the parameters or defaults them to "general", "comprehensive" and 20 |
| SystematicResearch.PassingThresholdSpec | Research/Active-Projects/Deep-Research/hybrid-symbolic-neural-ai-architecture/Example-ACS/src/behavioral/systematic_research.rs:103-109 | the threshold filter keeps, in order, exactly the findings with some evidence meeting the threshold |
| SystematicResearch.PassingThresholdAppend | Research/Active-Projects/Deep-Research/hybrid-symbolic-neural-ai-architecture/Example-ACS/src/behavioral/systematic_research.rs:100-112 | filtering the findings of several strategies equals concatenating each strategy's filtered findings |
| SystematicResearch.ExecuteSystematicSearch | Research/Active-Projects/Deep-Research/hybrid-symbolic-neural-ai-architecture/Example-ACS/src/behavioral/systematic_research.rs:94-125 | the findings are the deduplicated threshold-passing findings of all strategies in order, every one has evidence meeting the agent's threshold, the evidence is all strategies' evidence, and the metrics count all and high-quality evidence |
| SystematicResearch.DedupSubsequence | Research/Active-Projects/Deep-Research/hybrid-symbolic-neural-ai-architecture/Example-ACS/src/behavioral/systematic_research.rs:354-369 | deduplication returns an order-preserving subsequence of its input that starts with the first finding |
| SystematicResearch.DedupDistinct | Research/Active-Projects/Deep-Research/hybrid-symbolic-neural-ai-architecture/Example-ACS/src/behavioral/systematic_research.rs:354-386 | no two kept findings are duplicates of each other (equal titles, or both contents longer than 50 UTF-8 bytes and overlapping); in particular no two kept findings have equal titles |
| SystematicResearch.DuplicateGateCountsBytes | Research/Active-Projects/Deep-Research/hybrid-symbolic-neural-ai-architecture/Example-ACS/src/behavioral/systematic_research.rs:373-379 | the length gate counts UTF-8 bytes: two differently titled findings of 30 two-byte characters each (60 bytes) are duplicates exactly when they overlap, while 30 ASCII characters each never are |
| SystematicResearch.DedupCovers | Research/Active-Projects/Deep-Research/hybrid-symbolic-neural-ai-architecture/Example-ACS/src/behavioral/systematic_research.rs:354-369 | every dropped finding is a duplicate of some kept finding |
| SystematicResearch.DeduplicateFindings | Research/Active-Projects/Deep-Research/hybrid-symbolic-neural-ai-architecture/Example-ACS/src/behavioral/systematic_research.rs:354-369 | the loop computes the first-wins deduplication under the byte-counting duplicate test: an order-preserving subsequence keeping the first finding, with pairwise distinct titles |
| SystematicResearch.ValidationFailsOnlyOnCredibility | Research/Active-Projects/Deep-Research/hybrid-symbolic-neural-ai-architecture/Example-ACS/src/behavioral/systematic_research.rs:128-170 | the overall status is Failed iff the evidence's rating does not meet the agent's threshold, and is otherwise Passed |
| SystematicResearch.PrismaChecks | Research/Active-Projects/Deep-Research/hybrid-symbolic-neural-ai-architecture/Example-ACS/src/behavioral/systematic_research.rs:173-227 | identification iff at least 3 findings, screening iff at least 2 have A1..=B3 evidence, eligibility iff at least 2 findings (relevance is constantly 0.8), inclusion iff at least 2 have evidence meeting B3, compliance iff all four, methodology "Enhanced PRISMA 2020" |
| SystematicResearch.ScreeningAndInclusionDisagree | Research/Active-Projects/Deep-Research/hybrid-symbolic-neural-ai-architecture/Example-ACS/src/behavioral/systematic_research.rs:408-437 | a B1-only finding counts for screening but not inclusion, and a B6-only finding the other way round |
| SystematicResearch.ClusterFindingsByTopic | Research/Active-Projects/Deep-Research/hybrid-symbolic-neural-ai-architecture/Example-ACS/src/behavioral/systematic_research.rs:462-473 | the loop yields one cluster per topic present (absent topic means "general"), each holding that topic's findings in input order |
| SystematicResearch.ClustersSpec | Research/Active-Projects/Deep-Research/hybrid-symbolic-neural-ai-architecture/Example-ACS/src/behavioral/systematic_research.rs:462-473 | the cluster keys are exactly the findings' topics, and each cluster is the in-order list of findings with that topic |
| SystematicResearch.ClusterMembership | Research/Active-Projects/Deep-Research/hybrid-symbolic-neural-ai-architecture/Example-ACS/src/behavioral/systematic_research.rs:462-473 | a finding is in a cluster iff it is in the input and has that cluster's topic |
| SystematicResearch.ClusterSizesSum | Research/Active-Projects/Deep-Research/hybrid-symbolic-neural-ai-architecture/Example-ACS/src/behavioral/systematic_research.rs:462-473 | the cluster sizes sum to the number of findings |
| SystematicResearch.EvidenceStrengthBands | Research/Active-Projects/Deep-Research/hybrid-symbolic-neural-ai-architecture/Example-ACS/src/behavioral/systematic_research.rs:505-515 | Strong iff the strong count is at least len/2 (integer division), else Moderate iff at least len/4, else Weak; empty input is Strong |
| SystematicResearch.StrongEvidenceIsLetterA | Research/Active-Projects/Deep-Research/hybrid-symbolic-neural-ai-architecture/Example-ACS/src/behavioral/systematic_research.rs:507 | the range A1..=A6 is exactly the ratings with letter A |
| Storage.Put | Research/Active-Projects/Deep-Research/hybrid-symbolic-neural-ai-architecture/Example-ACS/src/storage/mod.rs:226-265 | a table write stores the record under its key and creates the table if absent |
| Storage.PutFrame | Research/Active-Projects/Deep-Research/hybrid-symbolic-neural-ai-architecture/Example-ACS/src/storage/mod.rs:226-265 | a table write leaves every other key of every table unchanged |
| Storage.WriteOutcome | Research/Active-Projects/Deep-Research/hybrid-symbolic-neural-ai-architecture/Example-ACS/src/storage/mod.rs:238-258 | a coordinated write succeeds iff no transaction step fails, and otherwise reports the first failing step among begin_write, open_table, insert and commit |
| Storage.WriteOutcomeTrichotomy | Research/Active-Projects/Deep-Research/hybrid-symbolic-neural-ai-architecture/Example-ACS/src/storage/mod.rs:226-279 | every write ends in exactly one of success, rollback, or an early return; only the early return keeps the operation's pending entry, and other entries are untouched |
| Storage.Embedding | Research/Active-Projects/Deep-Research/hybrid-symbolic-neural-ai-architecture/Example-ACS/src/storage/mod.rs:198-216 | the embedding has the configured dimension and each component is determined by the text's hash and its index |
| Storage.EmbeddingNormalised | Research/Active-Projects/Deep-Research/hybrid-symbolic-neural-ai-architecture/Example-ACS/src/storage/mod.rs:205-213 | every embedding component lies in [-1, 1] |
| Storage.RehydrateSpec | Research/Active-Projects/Deep-Research/hybrid-symbolic-neural-ai-architecture/Example-ACS/src/storage/mod.rs:390-405 | rehydration yields at most one entity per hit, each stored and decodable under a hit's id, and all of them when every hit is present |
| Storage.RehydratePresent | Research/Active-Projects/Deep-Research/hybrid-symbolic-neural-ai-architecture/Example-ACS/src/storage/mod.rs:397-403 | the returned entities are exactly the records of the present, readable, decodable hits, one per such hit and in hit order, and every such hit's record is returned; missing hits are skipped |
| Storage.HybridStorageCoordinator.constructor | Research/Active-Projects/Deep-Research/hybrid-symbolic-neural-ai-architecture/Example-ACS/src/storage/mod.rs:161-196 | a coordinator starts with the given stores, no pending operations, no sync, zero counters and the epoch timestamp |
| Storage.HybridStorageCoordinator.GenerateEmbedding | Research/Active-Projects/Deep-Research/hybrid-symbolic-neural-ai-architecture/Example-ACS/src/storage/mod.rs:198-216 | the loop builds the embedding of the text's hash, of the configured dimension, with components in [-1, 1] |
| Storage.HybridStorageCoordinator.ExecuteCoordinatedTransaction | Research/Active-Projects/Deep-Research/hybrid-symbolic-neural-ai-architecture/Example-ACS/src/storage/mod.rs:219-265 | succeeds iff no write step fails; on success writes the record, drops the pending entry and adds one success; a failed begin_write or commit leaves the pending entry with both flags false; a failed open_table or insert drops it and adds one error; a failure writes nothing |
| Storage.HybridStorageCoordinator.RollbackOperation | Research/Active-Projects/Deep-Research/hybrid-symbolic-neural-ai-architecture/Example-ACS/src/storage/mod.rs:267-272 | removes the pending entry and adds one to the error count, nothing else |
| Storage.HybridStorageCoordinator.CompleteOperation | Research/Active-Projects/Deep-Research/hybrid-symbolic-neural-ai-architecture/Example-ACS/src/storage/mod.rs:274-279 | removes the pending entry and adds one to the success count, nothing else |
| Storage.HybridStorageCoordinator.StoreAgent | Research/Active-Projects/Deep-Research/hybrid-symbolic-neural-ai-architecture/Example-ACS/src/storage/mod.rs:284-307 | on success the agent is in the agents table, get_agent returns it, operations_total grows by one and last_updated is now; on failure none of these change; the result, pending map, success and error counts are those of the coordinated write |
| Storage.HybridStorageCoordinator.StoreKnowledge | Research/Active-Projects/Deep-Research/hybrid-symbolic-neural-ai-architecture/Example-ACS/src/storage/mod.rs:309-354 | the record is written first; a write failure returns its step and stores nothing; with a clean write an upsert failure returns VectorError with the record kept and no point, else the point with the entity's id, the supplied or generated embedding and the payload source/credibility/created_at is written; pending map and counters are those of the coordinated write, so after a VectorError nothing stays pending; operations_total never changes |
| Storage.HybridStorageCoordinator.GetAgent | Research/Active-Projects/Deep-Research/hybrid-symbolic-neural-ai-architecture/Example-ACS/src/storage/mod.rs:356-373 | fails on begin_read or a missing table, returns None exactly for an id not stored, and otherwise the decoded stored agent |
| Storage.HybridStorageCoordinator.SearchKnowledge | Research/Active-Projects/Deep-Research/hybrid-symbolic-neural-ai-architecture/Example-ACS/src/storage/mod.rs:375-408 | fails exactly on a search, begin_read or table failure; otherwise returns, in hit order, exactly the stored decodable entities of at most limit hits, every present hit's entity included and missing ids skipped |
| Storage.HybridStorageCoordinator.UpdateCoordination | Research/Active-Projects/Deep-Research/hybrid-symbolic-neural-ai-architecture/Example-ACS/src/storage/mod.rs:410-424 | on success the record is in the coordination table; on failure the tables are unchanged; the result, pending map, success and error counts are those of the coordinated write, and operations_total and last_updated do not change |
| Storage.HybridStorageCoordinator.Synchronize | Research/Active-Projects/Deep-Research/hybrid-symbolic-neural-ai-architecture/Example-ACS/src/storage/mod.rs:426-444 | reports the number of pending operations with success true, empties the map so that an immediate second call reports 0, and records the sync time |
| Coordination.StringValuesSpec | Research/Active-Projects/Deep-Research/hybrid-symbolic-neural-ai-architecture/Example-ACS/src/coordination/mod.rs:187-193 | the query words are exactly the string-valued parameters, at most one per parameter |
| Coordination.SemanticQueryShape | Research/Active-Projects/Deep-Research/hybrid-symbolic-neural-ai-architecture/Example-ACS/src/coordination/mod.rs:187-193 | the semantic query starts with the action type and a space, and is just that when no parameter is a string |
| Coordination.TaskStatusOfSpec | Research/Active-Projects/Deep-Research/hybrid-symbolic-neural-ai-architecture/Example-ACS/src/coordination/mod.rs:389-395 | Completed, InProgress and Failed map to themselves, RequiresInput to Pending, Blocked to Failed, and nothing to Delegated |
| Coordination.TaskKnowledge | Research/Active-Projects/Deep-Research/hybrid-symbolic-neural-ai-architecture/Example-ACS/src/coordination/mod.rs:282-319 | the routing record has source "coordination_hub", credibility A1, no embedding and metadata exactly task_id, agent_id, action_type, status and execution_time_ms |
| Coordination.TaskKnowledgeRoutesBack | Research/Active-Projects/Deep-Research/hybrid-symbolic-neural-ai-architecture/Example-ACS/src/coordination/mod.rs:196-213 | a routing record found as the top hit routes the next similar task to the same agent |
| Coordination.RegisteredEntity | Research/Active-Projects/Deep-Research/hybrid-symbolic-neural-ai-architecture/Example-ACS/src/coordination/mod.rs:335-345 | the stored agent keeps its id and capabilities, and its type is the first capability or "unknown" |
| Coordination.AgentCoordinationHub.constructor | Research/Active-Projects/Deep-Research/hybrid-symbolic-neural-ai-architecture/Example-ACS/src/coordination/mod.rs:172-183 | a hub starts with no agents, no statuses and zero counters |
| Coordination.AgentCoordinationHub.RouteByCapabilities | Research/Active-Projects/Deep-Research/hybrid-symbolic-neural-ai-architecture/Example-ACS/src/coordination/mod.rs:217-230 | returns some registered agent with a capability containing the action type, and fails with NoCapableAgent exactly when there is none |
| Coordination.AgentCoordinationHub.RouteTaskBySimilarity | Research/Active-Projects/Deep-Research/hybrid-symbolic-neural-ai-architecture/Example-ACS/src/coordination/mod.rs:185-214 | searches with limit 5; a search failure is SemanticRoutingError; a top hit whose agent_id parses as a UUID is returned; otherwise capability routing decides |
| Coordination.AgentCoordinationHub.ExecuteAgentTask | Research/Active-Projects/Deep-Research/hybrid-symbolic-neural-ai-architecture/Example-ACS/src/coordination/mod.rs:233-279 | an unregistered id fails with AgentNotFound and changes nothing; otherwise the agent ends Available, total grows by one and exactly one of successes or failures grows by one |
| Coordination.AgentCoordinationHub.StoreTaskKnowledge | Research/Active-Projects/Deep-Research/hybrid-symbolic-neural-ai-architecture/Example-ACS/src/coordination/mod.rs:282-319 | succeeds iff the write and the upsert succeed, and then the routing record is in the knowledge table and its point, embedding the record's content, is in the collection; an upsert failure keeps the record without a point; a write failure stores nothing |
| Coordination.AgentCoordinationHub.RegisterAgent | Research/Active-Projects/Deep-Research/hybrid-symbolic-neural-ai-architecture/Example-ACS/src/coordination/mod.rs:324-359 | the agent enters the registry under the fresh id; only when storage succeeds is it marked Available and the stored entity readable; on failure the error is the failing step, the database is unchanged and the status map too; the vector index never changes; the pending log and the success and rollback counters move as the coordinated write prescribes |
| Coordination.AgentCoordinationHub.ExecuteCoordinatedTask | Research/Active-Projects/Deep-Research/hybrid-symbolic-neural-ai-architecture/Example-ACS/src/coordination/mod.rs:361-421 | on success the routed agent is registered, ran successfully, and the routing record, its point and the coordination record are stored; a routing failure or an unknown agent changes no status, counter or store; an execution failure adds one failure and changes no store; a storage failure comes after one success; after a run (success, execution failure or storage failure) exactly one registered agent is back to Available, and on success it is the routed one; after a storage failure the routing record stays when its database write committed and its point stays when the upsert succeeded, and nothing is stored when the first write failed; the storage counters and pending log follow the two writes |
| Coordination.AgentCoordinationHub.RecordTask | Research/Active-Projects/Deep-Research/hybrid-symbolic-neural-ai-architecture/Example-ACS/src/coordination/mod.rs:401-418 | succeeds iff both writes succeed, and then the routing record, its point and the coordination record are stored; every failure is a storage failure naming the failing step; a failed first write stores nothing; a failed upsert keeps the database row but not the point; a failed coordination write keeps the routing record and its point and leaves the coordination table as it was; the pending log and the success and rollback counters compose the two writes, the second counted only when the first succeeded |
| Coordination.AgentCoordinationHub.DelegateToCloud | Research/Active-Projects/Deep-Research/hybrid-symbolic-neural-ai-architecture/Example-ACS/src/coordination/mod.rs:427-440 | fails with CloudDelegationDisabled exactly when delegation is disabled, and otherwise returns a completed response object |
| Coordination.AgentCoordinationHub.AvailableCount | Research/Active-Projects/Deep-Research/hybrid-symbolic-neural-ai-architecture/Example-ACS/src/coordination/mod.rs:446-448 | the number of Available agents is at most the number registered |
| Coordination.AgentCoordinationHub.GetCoordinationStatus | Research/Active-Projects/Deep-Research/hybrid-symbolic-neural-ai-architecture/Example-ACS/src/coordination/mod.rs:442-462 | reports the registry size, no active sessions, a load in [0, 1] that is 0 exactly when every registered agent is Available, and metrics with successes plus failures equal to total |
| Framework.ParseThresholdSpec | Research/Active-Projects/Deep-Research/hybrid-symbolic-neural-ai-architecture/Example-ACS/src/lib.rs:232-240 | the names A1, A2, A3, B1, B2 and B3 give their own rating and every other name, A4 and C1 included, gives B3 |
| Framework.ConfiguredThresholdIgnored | Research/Active-Projects/Deep-Research/hybrid-symbolic-neural-ai-architecture/Example-ACS/src/lib.rs:227-246 | the parsed threshold reaches the validation configuration with minimum sources 3, but the agent's evidence threshold is B3 whatever was configured |
| Framework.ConvertTaskSpec | Research/Active-Projects/Deep-Research/hybrid-symbolic-neural-ai-architecture/Example-ACS/src/lib.rs:249-285 | action type research/analyze/synthesize or the custom one, one required capability by task type, the intent and task priorities given by the two priority mappings, parameters, timeout and description copied, empty task context |
| Framework.PriorityMapsAgree | Research/Active-Projects/Deep-Research/hybrid-symbolic-neural-ai-architecture/Example-ACS/src/lib.rs:258-281 | both priority mappings send each of Low, Medium, High and Critical to the variant of the same name, in both directions, and are one-to-one |
| Framework.ResearchTaskReachesResearchAgent | Research/Active-Projects/Deep-Research/hybrid-symbolic-neural-ai-architecture/Example-ACS/src/lib.rs:251-256 | a Research task's action type matches the research agent's capabilities and an Analysis task's does not |
| Framework.ConvertResultSpec | Research/Active-Projects/Deep-Research/hybrid-symbolic-neural-ai-architecture/Example-ACS/src/lib.rs:288-309 | task id, content, timing and agent info are kept, the confidence is 0.85, and there is exactly one placeholder evidence entry per source, in order, with that source |
| Framework.ResultStatusTable | Research/Active-Projects/Deep-Research/hybrid-symbolic-neural-ai-architecture/Example-ACS/src/lib.rs:291-297 | Success iff Completed, Partial iff InProgress or Delegated, Failed iff Failed, RequiresInput iff Pending |
| Framework.ActionToResultStatus | Research/Active-Projects/Deep-Research/hybrid-symbolic-neural-ai-architecture/Example-ACS/src/lib.rs:291-297 | an agent's Blocked action reaches the caller as Failed and RequiresInput as RequiresInput |
| Framework.ToAcsKnowledgeAll | Research/Active-Projects/Deep-Research/hybrid-symbolic-neural-ai-architecture/Example-ACS/src/lib.rs:396-409 | one knowledge entry per entity, in order |
| Framework.KnowledgeRoundTrip | Research/Active-Projects/Deep-Research/hybrid-symbolic-neural-ai-architecture/Example-ACS/src/lib.rs:373-409 | storing knowledge and mapping it back keeps content, source, credibility and metadata, takes the title from metadata "title" when a string and "Untitled" otherwise, and drops tags |

## Left out

- Backend initialisation (`HybridStorageCoordinator::new` listing and creating the collection, opening the database file) is not modelled: the coordinator starts from given stores.
- bincode and serde_json encoding are modelled as an exact encode/decode pair; a row that does not decode is a row holding a different kind of record, and a supplied set of keys stands for the rows whose `get` fails.
- The metadata table, the storage configuration and the consistency mode are never consulted by the modelled operations and are left out.
- `generate_embedding`'s DefaultHasher is a supplied hash function; the f32 arithmetic is modelled on exact reals.
- Concurrency (`RwLock`, `Arc`, async suspension) is left out: every operation is one sequential step.
- Floating-point scores are left out: average completion time, success rate, bias, similarity, confidence, cross-validation and average credibility. The load average is modelled on exact reals.
- Word-overlap similarity in deduplication is a supplied predicate; only the equal-title case is fixed.
- The clock, the age check in evidence validation and the bias detector are supplied values.
- u64/usize counter overflow is not modelled: counters are unbounded.
- `execute` of the research agent, `cross_validate_findings`, `synthesize_findings`, `execute_search_strategy` and the mock search results are left out; a strategy's search is a supplied function and an agent's execution a supplied outcome.
- `route_task_semantically`, `get_status`, `initialize` and `shutdown` are glue and are left out.
- `get_metrics` is a field read with no contract.
- The "embedding failure writes nothing" path does not exist in the source, since `generate_embedding` always succeeds; the model's embedding is total.
- Uuid parsing accepts only the hyphenated form; the other forms the uuid crate accepts are not modelled.
- `route_by_capabilities` iterates a HashMap; the model picks any matching agent and does not fix an order.
- The order of a HashMap's parameters in the semantic query is a supplied enumeration of the keys.
- Coordination.AgentCoordinationHub.DelegateToCloud: the JSON body's response text is not stated; its keys, status and model are.
