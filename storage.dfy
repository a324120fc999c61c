/** The hybrid storage coordinator (storage/mod.rs): entity records written
    to key-value tables inside write transactions, knowledge vectors kept in a
    vector collection, and the bookkeeping of pending operations, error and
    success counters around each transaction. */
module Storage {
  import opened Common

  // ---------------------------------------------------------------------
  // Entities and their encoding
  // ---------------------------------------------------------------------

  datatype AgentEntity = AgentEntity(
    id: Uuid,
    agentType: string,
    state: Value,
    capabilities: seq<string>,
    createdAt: Timestamp,
    updatedAt: Timestamp)

  /** Embedding components are f32 in the source; reals here. */
  datatype KnowledgeEntity = KnowledgeEntity(
    id: Uuid,
    content: string,
    metadata: map<string, Value>,
    embeddings: Option<seq<real>>,
    source: string,
    credibilityRating: string,
    createdAt: Timestamp)

  datatype CoordinationEntity = CoordinationEntity(
    id: Uuid,
    sessionId: Uuid,
    operationType: string,
    status: string,
    data: Value,
    timestamp: Timestamp)

  /** The bytes stored under a key. A record written by `bincode::serialize`
      is represented by the entity it encodes; any other bytes are `Opaque`
      and decode to no entity. */
  datatype Blob =
    | AgentRecord(agent: AgentEntity)
    | KnowledgeRecord(knowledge: KnowledgeEntity)
    | CoordinationRecord(coordination: CoordinationEntity)
    | Opaque(bytes: seq<int>)

  /** The tables the coordinator writes (AGENTS_TABLE, KNOWLEDGE_TABLE,
      COORDINATION_TABLE). */
  datatype TableName = Agents | Knowledge | Coordination

  type Table = map<string, Blob>

  /** The key-value database: the tables created so far and their rows. */
  type Database = map<TableName, Table>

  /** A point in the vector collection. */
  datatype Point = Point(id: string, vector: seq<real>, payload: map<string, Value>)

  /** The backend calls that can fail. Each operation is given the set of
      calls that fail if they are reached. */
  datatype Step = BeginWrite | OpenTable | Insert | Commit | Upsert | SearchPoints | BeginRead | Get

  /** StorageError; the backend's message text is reduced to the failing call. */
  datatype StorageError =
    | InitializationError(message: string)
    | TransactionError(step: Step)
    | SerializationError(message: string)
    | VectorError(step: Step)
    | CoordinationError(message: string)
    | ConfigurationError(message: string)

  datatype OperationType = Insert | Update | Delete | Batch

  datatype PendingOperation = PendingOperation(
    operationId: Uuid,
    operationType: OperationType,
    redbCommitted: bool,
    qdrantCommitted: bool,
    timestamp: Timestamp)

  /** StorageMetrics without its floating-point average latency. */
  datatype StorageMetrics = StorageMetrics(operationsTotal: nat, operationsSuccess: nat, lastUpdated: Timestamp)

  datatype SyncResult = SyncResult(operationsProcessed: nat, durationMs: nat, success: bool)

  const DefaultEmbeddingDimension: nat := 384

  /** `DateTime::default()`, the initial `last_updated`. */
  const UnixEpoch := Timestamp("1970-01-01T00:00:00+00:00")

  /** None of the calls of a write transaction fails. */
  predicate NoWriteFault(faults: set<Step>) {
    BeginWrite !in faults && OpenTable !in faults && Step.Insert !in faults && Commit !in faults
  }

  /** The result of a coordinated write: the first call of the transaction
      that fails, in the order begin_write, open_table, insert, commit. */
  function WriteOutcome(faults: set<Step>): (r: Result<(), StorageError>)
    ensures r.Ok? <==> NoWriteFault(faults)
    ensures r.Err? ==> r.error.TransactionError? && r.error.step in faults * {BeginWrite, OpenTable, Step.Insert, Commit}
  {
    if BeginWrite in faults then Err(TransactionError(BeginWrite))
    else if OpenTable in faults then Err(TransactionError(OpenTable))
    else if Step.Insert in faults then Err(TransactionError(Step.Insert))
    else if Commit in faults then Err(TransactionError(Commit))
    else Ok(())
  }

  /** The write fails before rollback can run (begin_write or commit), so its
      pending entry stays behind. */
  predicate LeavesPending(faults: set<Step>) {
    WriteOutcome(faults).Err? && WriteOutcome(faults).error.step in {BeginWrite, Commit}
  }

  /** The operation inside the transaction fails (open_table or insert), so
      the entry is rolled back and counted as an error. */
  predicate RollsBack(faults: set<Step>) {
    WriteOutcome(faults).Err? && WriteOutcome(faults).error.step in {OpenTable, Step.Insert}
  }

  /** The pending map after a coordinated write filed as `operationId`. */
  function PendingAfter(
    pending: map<Uuid, PendingOperation>, operationId: Uuid, now: Timestamp, faults: set<Step>): map<Uuid, PendingOperation>
  {
    if LeavesPending(faults) then pending[operationId := PendingOperation(operationId, OperationType.Insert, false, false, now)]
    else pending - {operationId}
  }

  /** Every coordinated write ends in exactly one of three ways: it succeeds
      and counts once as a success, it is rolled back and counts once as an
      error, or it leaves its pending entry behind and counts nothing. Only
      the last keeps an entry for the operation. */
  lemma WriteOutcomeTrichotomy(pending: map<Uuid, PendingOperation>, operationId: Uuid, now: Timestamp, faults: set<Step>)
    ensures NoWriteFault(faults) || RollsBack(faults) || LeavesPending(faults)
    ensures !(NoWriteFault(faults) && RollsBack(faults)) && !(NoWriteFault(faults) && LeavesPending(faults))
    ensures !(RollsBack(faults) && LeavesPending(faults))
    ensures operationId in PendingAfter(pending, operationId, now, faults) <==> LeavesPending(faults)
    ensures forall id :: id != operationId ==>
      (id in PendingAfter(pending, operationId, now, faults) <==> id in pending)
  {
  }

  // ---------------------------------------------------------------------
  // Tables
  // ---------------------------------------------------------------------

  /** The rows of a table; a table that was never created has none. */
  function Rows(db: Database, t: TableName): Table {
    if t in db then db[t] else map[]
  }

  /** The database after a committed `open_table` + `insert`: the write-side
      `open_table` creates the table when it does not exist. */
  function Put(db: Database, t: TableName, key: string, blob: Blob): (r: Database)
    ensures t in r && key in r[t] && r[t][key] == blob
    ensures r.Keys == db.Keys + {t}
  {
    db[t := Rows(db, t)[key := blob]]
  }

  /** A put changes the one row it writes and nothing else. */
  lemma PutFrame(db: Database, t: TableName, key: string, blob: Blob, t2: TableName, key2: string)
    requires t2 != t || key2 != key
    ensures key2 in Rows(Put(db, t, key, blob), t2) <==> key2 in Rows(db, t2)
    ensures key2 in Rows(db, t2) ==> Rows(Put(db, t, key, blob), t2)[key2] == Rows(db, t2)[key2]
  {
  }

  // ---------------------------------------------------------------------
  // Hash-based embedding
  // ---------------------------------------------------------------------

  const U64Modulus: int := 0x1_0000_0000_0000_0000

  type U64 = n: int | 0 <= n < 0x1_0000_0000_0000_0000

  /** Component `i` of the embedding of a text with hash `hash`:
      `hash.wrapping_mul(i + 1) / u64::MAX * 2 - 1`, in exact arithmetic
      rather than f32. */
  function EmbeddingComponent(hash: U64, i: nat): real {
    ((hash * (i + 1)) % U64Modulus) as real / (U64Modulus - 1) as real * 2.0 - 1.0
  }

  /** Every component lies in [-1, 1]. */
  lemma EmbeddingComponentBounds(hash: U64, i: nat)
    ensures -1.0 <= EmbeddingComponent(hash, i) <= 1.0
  {
    var w := (hash * (i + 1)) % U64Modulus;
    var m := (U64Modulus - 1) as real;
    assert 0.0 <= w as real <= m;
    assert 0.0 <= w as real / m <= 1.0;
  }

  /** The embedding `generate_embedding` produces for a text with hash `hash`. */
  function Embedding(hash: U64, dimension: nat): (e: seq<real>)
    ensures |e| == dimension
    ensures forall i :: 0 <= i < dimension ==> e[i] == EmbeddingComponent(hash, i)
  {
    seq(dimension, i requires 0 <= i < dimension => EmbeddingComponent(hash, i))
  }

  /** An embedding has the configured dimension and every component in
      [-1, 1]. */
  lemma EmbeddingNormalised(hash: U64, dimension: nat)
    ensures |Embedding(hash, dimension)| == dimension
    ensures forall i :: 0 <= i < dimension ==> -1.0 <= Embedding(hash, dimension)[i] <= 1.0
  {
    forall i | 0 <= i < dimension ensures -1.0 <= Embedding(hash, dimension)[i] <= 1.0 {
      EmbeddingComponentBounds(hash, i);
    }
  }

  // ---------------------------------------------------------------------
  // Reading knowledge back
  // ---------------------------------------------------------------------

  /** The entity stored under `id`, when its row exists, can be read and
      decodes; `unreadable` holds the keys whose `get` fails. */
  function StoredKnowledge(table: Table, id: string, unreadable: set<string>): Option<KnowledgeEntity> {
    if id !in unreadable && id in table && table[id].KnowledgeRecord? then Some(table[id].knowledge) else None
  }

  /** The entities `search_knowledge` collects for the hits `ids`, in hit
      order, silently skipping failed reads, missing rows and rows that do not
      decode. */
  function Rehydrate(ids: seq<string>, table: Table, unreadable: set<string>): seq<KnowledgeEntity> {
    if ids == [] then []
    else
      var found := StoredKnowledge(table, ids[|ids| - 1], unreadable);
      Rehydrate(ids[..|ids| - 1], table, unreadable) + (if found.Some? then [found.value] else [])
  }

  /** The hits whose row exists, can be read and decodes, in hit order. */
  function PresentHits(ids: seq<string>, table: Table, unreadable: set<string>): seq<string> {
    Filter(ids, id => StoredKnowledge(table, id, unreadable).Some?)
  }

  /** Rehydration returns exactly the records of the present hits, one per
      present hit and in hit order; every present hit's record is returned. */
  lemma {:induction false} RehydratePresent(ids: seq<string>, table: Table, unreadable: set<string>)
    ensures var present, found := PresentHits(ids, table, unreadable), Rehydrate(ids, table, unreadable);
      && IsSubsequence(present, ids)
      && (forall id :: id in present <==> id in ids && StoredKnowledge(table, id, unreadable).Some?)
      && |found| == |present|
      && (forall j :: 0 <= j < |found| ==> Some(found[j]) == StoredKnowledge(table, present[j], unreadable))
    ensures forall i :: 0 <= i < |ids| && StoredKnowledge(table, ids[i], unreadable).Some? ==>
      StoredKnowledge(table, ids[i], unreadable).value in Rehydrate(ids, table, unreadable)
    decreases |ids|
  {
    var p := id => StoredKnowledge(table, id, unreadable).Some?;
    FilterSpec(ids, p);
    PresentMatches(ids, table, unreadable);
    var present, found := PresentHits(ids, table, unreadable), Rehydrate(ids, table, unreadable);
    forall i | 0 <= i < |ids| && StoredKnowledge(table, ids[i], unreadable).Some?
      ensures StoredKnowledge(table, ids[i], unreadable).value in found
    {
      assert ids[i] in present;
      var j :| 0 <= j < |present| && present[j] == ids[i];
      assert found[j] == StoredKnowledge(table, ids[i], unreadable).value;
    }
  }

  /** The induction behind RehydratePresent: position by position, the
      rehydrated records are the records of the present hits. */
  lemma {:induction false} PresentMatches(ids: seq<string>, table: Table, unreadable: set<string>)
    ensures |Rehydrate(ids, table, unreadable)| == |PresentHits(ids, table, unreadable)|
    ensures forall j :: 0 <= j < |Rehydrate(ids, table, unreadable)| ==>
      Some(Rehydrate(ids, table, unreadable)[j]) == StoredKnowledge(table, PresentHits(ids, table, unreadable)[j], unreadable)
    decreases |ids|
  {
    if ids != [] {
      PresentMatches(ids[..|ids| - 1], table, unreadable);
    }
  }

  /** Every returned entity is the record stored under one of the hits, there
      are never more entities than hits, and when every hit is readable and
      decodes, the result is exactly the hits' records in hit order. */
  lemma {:induction false} RehydrateSpec(ids: seq<string>, table: Table, unreadable: set<string>)
    ensures |Rehydrate(ids, table, unreadable)| <= |ids|
    ensures forall k :: k in Rehydrate(ids, table, unreadable) ==>
      exists i :: 0 <= i < |ids| && StoredKnowledge(table, ids[i], unreadable) == Some(k)
    ensures (forall i :: 0 <= i < |ids| ==> StoredKnowledge(table, ids[i], unreadable).Some?) ==>
      |Rehydrate(ids, table, unreadable)| == |ids| &&
      forall i :: 0 <= i < |ids| ==> Some(Rehydrate(ids, table, unreadable)[i]) == StoredKnowledge(table, ids[i], unreadable)
    decreases |ids|
  {
    if ids != [] {
      var ids' := ids[..|ids| - 1];
      RehydrateSpec(ids', table, unreadable);
      forall k | k in Rehydrate(ids, table, unreadable)
        ensures exists i :: 0 <= i < |ids| && StoredKnowledge(table, ids[i], unreadable) == Some(k)
      {
        if k in Rehydrate(ids', table, unreadable) {
          var i :| 0 <= i < |ids'| && StoredKnowledge(table, ids'[i], unreadable) == Some(k);
          assert ids[i] == ids'[i];
        } else {
          assert StoredKnowledge(table, ids[|ids| - 1], unreadable) == Some(k);
        }
      }
      if forall i :: 0 <= i < |ids| ==> StoredKnowledge(table, ids[i], unreadable).Some? {
        assert forall i :: 0 <= i < |ids'| ==> ids'[i] == ids[i];
      }
    }
  }

  /** The payload stored with a knowledge vector. */
  function KnowledgePayload(k: KnowledgeEntity): map<string, Value> {
    map["source" := Str(k.source), "credibility" := Str(k.credibilityRating), "created_at" := Str(k.createdAt.rfc3339)]
  }

  // ---------------------------------------------------------------------
  // The coordinator
  // ---------------------------------------------------------------------

  /** HybridStorageCoordinator with its shared CoordinationState. The RwLock
      around the state is not modelled: every call runs alone. */
  class HybridStorageCoordinator {
    /** The key-value database. */
    var redb: Database
    /** The vector collection, by point id. */
    var points: map<string, Point>
    /** `pending_operations` */
    var pendingOperations: map<Uuid, PendingOperation>
    /** `sync_status` */
    var lastSync: Option<Timestamp>
    var pendingCount: nat
    var errorCount: nat
    /** `performance_metrics` */
    var operationsTotal: nat
    var operationsSuccess: nat
    var lastUpdated: Timestamp

    const embeddingDimension: nat
    /** The 64-bit text hash `generate_embedding` starts from. */
    const textHash: string -> U64

    /** What every operation preserves: each pending operation is filed under
        its own id and has committed nowhere; `pending_count` is never raised;
        and since only `store_agent` counts towards `operations_total` while
        every successful transaction counts towards `operations_success`, the
        total never exceeds the successes. */
    predicate Valid()
      reads this
    {
      && (forall id :: id in pendingOperations ==>
            pendingOperations[id].operationId == id &&
            !pendingOperations[id].redbCommitted && !pendingOperations[id].qdrantCommitted)
      && pendingCount == 0
      && operationsTotal <= operationsSuccess
    }

    /** `new`, once the database is open and the collection exists: `db` and
        `collection` are what they already hold. */
    constructor(db: Database, collection: map<string, Point>, dimension: nat, hash: string -> U64)
      ensures Valid()
      ensures redb == db && points == collection
      ensures embeddingDimension == dimension && textHash == hash
      ensures pendingOperations == map[] && lastSync == None
      ensures errorCount == 0 && operationsTotal == 0 && operationsSuccess == 0 && lastUpdated == UnixEpoch
    {
      redb := db;
      points := collection;
      pendingOperations := map[];
      lastSync := None;
      pendingCount := 0;
      errorCount := 0;
      operationsTotal := 0;
      operationsSuccess := 0;
      lastUpdated := UnixEpoch;
      embeddingDimension := dimension;
      textHash := hash;
    }

    /** `generate_embedding`: always succeeds. */
    method GenerateEmbedding(text: string) returns (e: seq<real>)
      ensures e == Embedding(textHash(text), embeddingDimension)
      ensures |e| == embeddingDimension
      ensures forall i :: 0 <= i < |e| ==> -1.0 <= e[i] <= 1.0
    {
      var hash := textHash(text);
      e := [];
      for i := 0 to embeddingDimension
        invariant |e| == i
        invariant forall j :: 0 <= j < i ==> e[j] == EmbeddingComponent(hash, j)
      {
        e := e + [EmbeddingComponent(hash, i)];
      }
      EmbeddingNormalised(hash, embeddingDimension);
    }

    /** `execute_coordinated_transaction` for the one operation every caller
        passes: open table `t` and insert `blob` under `key`. The operation is
        filed as pending before the write transaction begins. If beginning or
        committing the transaction fails, the error is returned at once and
        the pending entry stays behind; if the operation itself fails, the
        entry is rolled back and counted as an error; otherwise the write is
        committed, the entry completed and counted as a success. */
    method ExecuteCoordinatedTransaction(
      t: TableName, key: string, blob: Blob, operationId: Uuid, now: Timestamp, faults: set<Step>)
      returns (r: Result<(), StorageError>)
      requires Valid()
      modifies this
      ensures Valid()
      ensures r.Ok? <==> NoWriteFault(faults)
      ensures r.Ok? ==>
        && redb == Put(old(redb), t, key, blob)
        && pendingOperations == old(pendingOperations) - {operationId}
        && operationsSuccess == old(operationsSuccess) + 1 && errorCount == old(errorCount)
      ensures BeginWrite in faults ==> r == Err(TransactionError(BeginWrite))
      ensures BeginWrite !in faults && OpenTable in faults ==> r == Err(TransactionError(OpenTable))
      ensures BeginWrite !in faults && OpenTable !in faults && Step.Insert in faults ==> r == Err(TransactionError(Step.Insert))
      ensures BeginWrite !in faults && OpenTable !in faults && Step.Insert !in faults && Commit in faults ==>
        r == Err(TransactionError(Commit))
      ensures r.Err? ==> redb == old(redb) && operationsSuccess == old(operationsSuccess)
      ensures r.Err? && r.error.step in {BeginWrite, Commit} ==>
        && pendingOperations == old(pendingOperations)[operationId := PendingOperation(operationId, OperationType.Insert, false, false, now)]
        && errorCount == old(errorCount)
      ensures r.Err? && r.error.step in {OpenTable, Step.Insert} ==>
        pendingOperations == old(pendingOperations) - {operationId} && errorCount == old(errorCount) + 1
      ensures points == old(points) && lastSync == old(lastSync) && pendingCount == old(pendingCount)
      ensures operationsTotal == old(operationsTotal) && lastUpdated == old(lastUpdated)
      ensures r == WriteOutcome(faults)
      ensures pendingOperations == PendingAfter(old(pendingOperations), operationId, now, faults)
      ensures operationsSuccess == old(operationsSuccess) + (if NoWriteFault(faults) then 1 else 0)
      ensures errorCount == old(errorCount) + (if RollsBack(faults) then 1 else 0)
    {
      pendingOperations := pendingOperations[operationId := PendingOperation(operationId, OperationType.Insert, false, false, now)];
      if BeginWrite in faults {
        return Err(TransactionError(BeginWrite));
      }
      // the operation runs inside the transaction; its writes are seen only on commit
      var operation: Result<Database, StorageError> :=
        if OpenTable in faults then Err(TransactionError(OpenTable))
        else if Step.Insert in faults then Err(TransactionError(Step.Insert))
        else Ok(Put(redb, t, key, blob));
      if operation.Err? {
        RollbackOperation(operationId);
        return Err(operation.error);
      }
      if Commit in faults {
        return Err(TransactionError(Commit));
      }
      redb := operation.value;
      pendingOperations := pendingOperations[operationId := pendingOperations[operationId].(redbCommitted := true)];
      CompleteOperation(operationId);
      r := Ok(());
    }

    /** `rollback_operation` */
    method RollbackOperation(operationId: Uuid)
      modifies this
      ensures pendingOperations == old(pendingOperations) - {operationId}
      ensures errorCount == old(errorCount) + 1
      ensures redb == old(redb) && points == old(points) && lastSync == old(lastSync)
      ensures pendingCount == old(pendingCount) && operationsTotal == old(operationsTotal)
      ensures operationsSuccess == old(operationsSuccess) && lastUpdated == old(lastUpdated)
    {
      pendingOperations := pendingOperations - {operationId};
      errorCount := errorCount + 1;
    }

    /** `complete_operation` */
    method CompleteOperation(operationId: Uuid)
      modifies this
      ensures pendingOperations == old(pendingOperations) - {operationId}
      ensures operationsSuccess == old(operationsSuccess) + 1
      ensures redb == old(redb) && points == old(points) && lastSync == old(lastSync)
      ensures pendingCount == old(pendingCount) && operationsTotal == old(operationsTotal)
      ensures errorCount == old(errorCount) && lastUpdated == old(lastUpdated)
    {
      pendingOperations := pendingOperations - {operationId};
      operationsSuccess := operationsSuccess + 1;
    }

    /** `store_agent`: the record goes under the agent's id in the agents
        table; only a successful store counts towards `operations_total`. */
    method StoreAgent(agent: AgentEntity, operationId: Uuid, now: Timestamp, faults: set<Step>)
      returns (r: Result<(), StorageError>)
      requires Valid()
      modifies this
      ensures Valid()
      ensures r.Ok? <==> NoWriteFault(faults)
      ensures r.Ok? ==> redb == Put(old(redb), Agents, agent.id, AgentRecord(agent))
      ensures r.Ok? ==> GetAgent(agent.id, {}) == Ok(Some(agent))
      ensures r.Ok? ==> operationsTotal == old(operationsTotal) + 1 && lastUpdated == now
      ensures r.Err? ==> redb == old(redb) && operationsTotal == old(operationsTotal) && lastUpdated == old(lastUpdated)
      ensures points == old(points)
      ensures r == WriteOutcome(faults)
      ensures pendingOperations == PendingAfter(old(pendingOperations), operationId, now, faults)
      ensures operationsSuccess == old(operationsSuccess) + (if NoWriteFault(faults) then 1 else 0)
      ensures errorCount == old(errorCount) + (if RollsBack(faults) then 1 else 0)
      ensures lastSync == old(lastSync) && pendingCount == old(pendingCount)
    {
      r := ExecuteCoordinatedTransaction(Agents, agent.id, AgentRecord(agent), operationId, now, faults);
      if r.Ok? {
        operationsTotal := operationsTotal + 1;
        lastUpdated := now;
      }
    }

    /** `store_knowledge`: the supplied embedding, or one generated from the
        content, is upserted as a point only after the record is committed.
        A failed upsert returns VectorError and leaves the committed record in
        place without a vector. */
    method StoreKnowledge(knowledge: KnowledgeEntity, operationId: Uuid, now: Timestamp, faults: set<Step>)
      returns (r: Result<(), StorageError>)
      requires Valid()
      modifies this
      ensures Valid()
      ensures r.Ok? <==>
        NoWriteFault(faults) && Upsert !in faults
      ensures r.Ok? || r == Err(VectorError(Upsert)) ==>
        redb == Put(old(redb), Knowledge, knowledge.id, KnowledgeRecord(knowledge))
      ensures r.Ok? ==> points == old(points)[knowledge.id := Point(
        knowledge.id,
        if knowledge.embeddings.Some? then knowledge.embeddings.value
        else Embedding(textHash(knowledge.content), embeddingDimension),
        KnowledgePayload(knowledge))]
      ensures r.Err? ==> points == old(points)
      ensures r.Err? && r != Err(VectorError(Upsert)) ==> redb == old(redb)
      ensures operationsTotal == old(operationsTotal)
      ensures !NoWriteFault(faults) ==> r == WriteOutcome(faults)
      ensures NoWriteFault(faults) && Upsert in faults ==> r == Err(VectorError(Upsert))
      ensures pendingOperations == PendingAfter(old(pendingOperations), operationId, now, faults)
      ensures operationsSuccess == old(operationsSuccess) + (if NoWriteFault(faults) then 1 else 0)
      ensures errorCount == old(errorCount) + (if RollsBack(faults) then 1 else 0)
      ensures lastSync == old(lastSync) && pendingCount == old(pendingCount) && lastUpdated == old(lastUpdated)
    {
      var embedding;
      if knowledge.embeddings.Some? {
        embedding := knowledge.embeddings.value;
      } else {
        embedding := GenerateEmbedding(knowledge.content);
      }
      r := ExecuteCoordinatedTransaction(Knowledge, knowledge.id, KnowledgeRecord(knowledge), operationId, now, faults);
      if r.Err? {
        return;
      }
      if Upsert in faults {
        return Err(VectorError(Upsert));
      }
      points := points[knowledge.id := Point(knowledge.id, embedding, KnowledgePayload(knowledge))];
    }

    /** `get_agent`: a read transaction on the agents table. A table that was
        never written cannot be opened for reading. A missing row is
        `Ok(None)`; a row that does not decode is a SerializationError. */
    function GetAgent(id: Uuid, faults: set<Step>): (r: Result<Option<AgentEntity>, StorageError>)
      reads this
      ensures BeginRead in faults ==> r == Err(TransactionError(BeginRead))
      ensures BeginRead !in faults && (OpenTable in faults || Agents !in redb) ==> r == Err(TransactionError(OpenTable))
      ensures r.Ok? <==>
        BeginRead !in faults && OpenTable !in faults && Agents in redb && Get !in faults &&
        (id in redb[Agents] ==> redb[Agents][id].AgentRecord?)
      ensures r == Ok(None) <==>
        BeginRead !in faults && OpenTable !in faults && Get !in faults && Agents in redb && id !in redb[Agents]
      ensures r.Ok? && r.value.Some? ==> id in redb[Agents] && redb[Agents][id] == AgentRecord(r.value.value)
      ensures r.Err? && r.error.SerializationError? ==>
        Agents in redb && id in redb[Agents] && !redb[Agents][id].AgentRecord?
    {
      if BeginRead in faults then Err(TransactionError(BeginRead))
      else if OpenTable in faults || Agents !in redb then Err(TransactionError(OpenTable))
      else if Get in faults then Err(TransactionError(Get))
      else if id !in redb[Agents] then Ok(None)
      else if redb[Agents][id].AgentRecord? then Ok(Some(redb[Agents][id].agent))
      else Err(SerializationError("Failed to deserialize agent"))
    }

    /** Some call `search_knowledge` needs fails, or the knowledge table was
        never written. */
    predicate SearchFails(faults: set<Step>)
      reads this
    {
      SearchPoints in faults || BeginRead in faults || OpenTable in faults || Knowledge !in redb
    }

    /** The knowledge records of the vector hits for `query`. */
    function SearchHits(
      query: string, limit: nat, unreadable: set<string>,
      nearest: (map<string, Point>, seq<real>, nat) -> seq<string>): seq<KnowledgeEntity>
      reads this
    {
      Rehydrate(nearest(points, Embedding(textHash(query), embeddingDimension), limit), Rows(redb, Knowledge), unreadable)
    }

    /** `search_knowledge`: the query is embedded, the vector collection is
        searched for at most `limit` hits (`nearest` stands for the vector
        search), and the hits are read back from the knowledge table. */
    method SearchKnowledge(
      query: string, limit: nat, faults: set<Step>, unreadable: set<string>,
      nearest: (map<string, Point>, seq<real>, nat) -> seq<string>)
      returns (r: Result<seq<KnowledgeEntity>, StorageError>)
      requires forall c, v, n :: |nearest(c, v, n)| <= n
      ensures SearchPoints in faults ==> r == Err(VectorError(SearchPoints))
      ensures SearchPoints !in faults && BeginRead in faults ==> r == Err(TransactionError(BeginRead))
      ensures SearchPoints !in faults && BeginRead !in faults && (OpenTable in faults || Knowledge !in redb) ==>
        r == Err(TransactionError(OpenTable))
      ensures r.Err? <==> SearchFails(faults)
      ensures r.Ok? ==> r.value == SearchHits(query, limit, unreadable, nearest)
      ensures r.Ok? ==> |r.value| <= limit
      ensures r.Ok? ==>
        var hits := nearest(points, Embedding(textHash(query), embeddingDimension), limit);
        var present := PresentHits(hits, Rows(redb, Knowledge), unreadable);
        && |r.value| == |present|
        && (forall j :: 0 <= j < |r.value| ==> Some(r.value[j]) == StoredKnowledge(Rows(redb, Knowledge), present[j], unreadable))
        && (forall i :: 0 <= i < |hits| && StoredKnowledge(Rows(redb, Knowledge), hits[i], unreadable).Some? ==>
              StoredKnowledge(Rows(redb, Knowledge), hits[i], unreadable).value in r.value)
    {
      var queryEmbedding := GenerateEmbedding(query);
      if SearchPoints in faults {
        return Err(VectorError(SearchPoints));
      }
      var hits := nearest(points, queryEmbedding, limit);
      if BeginRead in faults {
        return Err(TransactionError(BeginRead));
      }
      if OpenTable in faults || Knowledge !in redb {
        return Err(TransactionError(OpenTable));
      }
      var table := redb[Knowledge];
      var found: seq<KnowledgeEntity> := [];
      for i := 0 to |hits|
        invariant found == Rehydrate(hits[..i], table, unreadable)
      {
        assert hits[..i + 1][..i] == hits[..i];
        var id := hits[i];
        if id !in unreadable && id in table && table[id].KnowledgeRecord? {
          found := found + [table[id].knowledge];
        }
      }
      assert hits[..|hits|] == hits;
      RehydrateSpec(hits, table, unreadable);
      RehydratePresent(hits, table, unreadable);
      r := Ok(found);
    }

    /** `update_coordination`: the record goes under its id in the
        coordination table; no metrics change beyond the transaction's. */
    method UpdateCoordination(coordination: CoordinationEntity, operationId: Uuid, now: Timestamp, faults: set<Step>)
      returns (r: Result<(), StorageError>)
      requires Valid()
      modifies this
      ensures Valid()
      ensures r.Ok? <==> NoWriteFault(faults)
      ensures r.Ok? ==> redb == Put(old(redb), Coordination, coordination.id, CoordinationRecord(coordination))
      ensures r.Err? ==> redb == old(redb)
      ensures points == old(points) && operationsTotal == old(operationsTotal)
      ensures r == WriteOutcome(faults)
      ensures pendingOperations == PendingAfter(old(pendingOperations), operationId, now, faults)
      ensures operationsSuccess == old(operationsSuccess) + (if NoWriteFault(faults) then 1 else 0)
      ensures errorCount == old(errorCount) + (if RollsBack(faults) then 1 else 0)
      ensures lastSync == old(lastSync) && pendingCount == old(pendingCount) && lastUpdated == old(lastUpdated)
    {
      r := ExecuteCoordinatedTransaction(Coordination, coordination.id, CoordinationRecord(coordination), operationId, now, faults);
    }

    /** `synchronize`: reports how many operations were pending, then drops
        them all and records the sync time. */
    method Synchronize(now: Timestamp, elapsedMs: nat) returns (r: SyncResult)
      requires Valid()
      modifies this
      ensures Valid()
      ensures r == SyncResult(|old(pendingOperations)|, elapsedMs, true)
      ensures pendingOperations == map[] && lastSync == Some(now) && pendingCount == 0
      ensures redb == old(redb) && points == old(points) && errorCount == old(errorCount)
      ensures operationsTotal == old(operationsTotal) && operationsSuccess == old(operationsSuccess)
      ensures lastUpdated == old(lastUpdated)
    {
      var count := |pendingOperations|;
      pendingOperations := map[];
      lastSync := Some(now);
      pendingCount := 0;
      r := SyncResult(count, elapsedMs, true);
    }

    /** `get_metrics` */
    function GetMetrics(): StorageMetrics
      reads this
    {
      StorageMetrics(operationsTotal, operationsSuccess, lastUpdated)
    }
  }
}
