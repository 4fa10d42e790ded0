/**
 * Applying dbCheck oplog entries on a secondary: a batch entry re-hashes the
 * batch's range and reports to the health log whether this node's hash
 * matches the primary's; start and stop entries are only recorded.
 *
 * The collection, its indexes, the cursors over the batch and the MD5 digest
 * are inputs (`BatchEnv`). The health log is modelled by the sequence of
 * entries written to it.
 */
module DbCheckApply {

  import opened Wrappers
  import opened DbCheckLog
  import opened DbCheckHasher

  /** 2^32: `batchesProcessed` is an unsigned int and wraps around. */
  const UINT_RANGE: nat := 0x1_0000_0000

  // ---------------------------------------------------------------------------
  // Inputs
  // ---------------------------------------------------------------------------

  datatype IndexDescriptor = IndexDescriptor(name: string, keyPattern: BsonObj, infoObj: BsonObj)

  /** The collection as the batch's snapshot sees it. */
  datatype CollectionInfo = CollectionInfo(
    nss: Namespace,
    uuid: Uuid,
    options: CollectionOptions,
    clustered: bool,
    idIndex: Option<IndexDescriptor>,
    descriptors: seq<IndexDescriptor>,
    catalog: seq<IndexEntry>)

  /** A parsed dbCheck batch oplog entry; `serialized` is its toBSON(). */
  datatype DbCheckOplogBatch = DbCheckOplogBatch(
    nss: Namespace,
    md5: string,
    readTimestamp: Option<int>,
    batchId: Option<Uuid>,
    parameters: Option<SecondaryIndexCheckParameters>,
    logBatchToHealthLog: Option<bool>,
    batchStart: Option<BsonObj>,
    batchEnd: Option<BsonObj>,
    minKey: BsonValue,
    maxKey: BsonValue,
    serialized: BsonObj)

  /**
   * What a batch runs against: the collection (None once it was dropped),
   * the walks over the batch's range, the MD5 digest, key rehydration,
   * the hasher's default ceilings, gDbCheckHealthLogEveryNBatches and
   * whether this is a debug build.
   */
  datatype BatchEnv = BatchEnv(
    collection: Option<CollectionInfo>,
    collectionScan: CollectionScan,
    indexScan: IndexScan,
    md5: seq<Byte> -> string,
    rehydrate: (BsonObj, BsonObj) -> BsonObj,
    maxCount: int,
    maxBytes: int,
    everyNBatches: int,
    debugBuild: bool)

  predicate ValidEnv(env: BatchEnv)
  {
    WellFormedKeys(env.indexScan) && env.everyNBatches >= 1
  }

  datatype Outcome = Outcome(counter: nat, logged: seq<HealthLogEntry>)

  datatype OpTime = OpTime(ts: int, term: int)

  /** The optime of an OpTime() that was never set. */
  const NULL_OPTIME := OpTime(0, -1)

  function OpTimeBson(t: OpTime): BsonObj
  {
    [BsonField("ts", BTimestamp(t.ts)), BsonField("t", BInt(t.term))]
  }

  // ---------------------------------------------------------------------------
  // dbCheckBatchOnSecondary, as a function of its inputs
  // ---------------------------------------------------------------------------

  const FAILED_MSG := "dbCheck failed"
  const CONSISTENCY_MSG := "replication consistency check"

  function FindIndexByName(descriptors: seq<IndexDescriptor>, name: string): (r: Option<IndexDescriptor>)
    ensures r.Some? ==> r.value in descriptors && r.value.name == name
    ensures r.None? ==> forall d :: d in descriptors ==> d.name != name
  {
    if descriptors == [] then None
    else if descriptors[0].name == name then Some(descriptors[0])
    else FindIndexByName(descriptors[1..], name)
  }

  predicate ExtraKeysMode(parameters: Option<SecondaryIndexCheckParameters>)
  {
    parameters.Some? && parameters.value.validateMode == ExtraIndexKeysCheck
  }

  function VanishedEntry(entry: DbCheckOplogBatch): HealthLogEntry
  {
    HealthLogEntryOf(entry.parameters, Some(entry.nss), None, Info, FAILED_MSG, Cluster, Batch,
                     Some([BsonField("success", BBool(false)), BsonField("info", BStr("Collection under dbCheck no longer exists"))]))
  }

  function NoIndexEntry(entry: DbCheckOplogBatch, indexName: string): HealthLogEntry
  {
    HealthLogEntryOf(entry.parameters, Some(entry.nss), None, Error, FAILED_MSG, Index, Batch,
                     Some([BsonField("success", BBool(false)),
                           BsonField("info", BStr("cannot find index " + indexName + " for ns " + entry.nss.name))]))
  }

  /** The entry logged when the batch throws. */
  function CaughtEntry(entry: DbCheckOplogBatch, err: Status): HealthLogEntry
  {
    ErrorEntry(entry.parameters, Some(entry.nss), None, CONSISTENCY_MSG, Cluster, Batch, err, entry.serialized)
  }

  function HasherConfigOf(entry: DbCheckOplogBatch, coll: CollectionInfo, batchEnd: BsonObj, env: BatchEnv): HasherConfig
  {
    HasherConfig(coll.nss, coll.uuid, batchEnd, env.maxCount, env.maxBytes, entry.parameters,
                 IndexesToCheck(entry.parameters, coll.catalog))
  }

  /** The batch counter after one more batch. */
  function NextCounter(counter: nat): (r: nat)
    ensures r < UINT_RANGE
    ensures r == (counter + 1) % UINT_RANGE
  {
    (counter + 1) % UINT_RANGE
  }

  /** The batch entry of a hashed batch, with its bounds rehydrated when an index describes them. */
  function BatchReport(optime: OpTime, entry: DbCheckOplogBatch, coll: CollectionInfo, batchStart: BsonObj,
                       s: HasherState, desc: Option<IndexDescriptor>, env: BatchEnv): HealthLogEntry
  {
    var found := env.md5(s.message);
    var start := if desc.Some? then env.rehydrate(desc.value.keyPattern, batchStart) else batchStart;
    var end := if desc.Some? then env.rehydrate(desc.value.keyPattern, s.lastKey) else s.lastKey;
    var indexSpec := if ExtraKeysMode(entry.parameters) && desc.Some? then Some(desc.value.infoObj) else None;
    BatchEntry(entry.parameters, entry.batchId, entry.nss, Some(coll.uuid), CountSeen(s), s.bytes,
               entry.md5, found, start, end, s.nConsecutive, entry.readTimestamp, OpTimeBson(optime),
               Some(coll.options), indexSpec)
  }

  /** Whether a batch entry of severity Info is written: every N-th batch, unless the entry says otherwise. */
  function ShouldLog(entry: DbCheckOplogBatch, counter: nat, env: BatchEnv): bool
    requires env.everyNBatches >= 1
  {
    if entry.logBatchToHealthLog.Some? then entry.logBatchToHealthLog.value
    else counter % env.everyNBatches == 0
  }

  /** The end of a hashed batch: the counter advances and the batch entry is written unless it is a quiet Info. */
  function FinishBatch(counter: nat, optime: OpTime, entry: DbCheckOplogBatch, coll: CollectionInfo, batchStart: BsonObj,
                       s: HasherState, desc: Option<IndexDescriptor>, env: BatchEnv): (r: Outcome)
    requires env.everyNBatches >= 1
    ensures r.counter == (counter + 1) % UINT_RANGE
    ensures s.logged <= r.logged && |r.logged| <= |s.logged| + 1
    ensures |r.logged| == |s.logged| + 1 ==> r.logged[|s.logged|] == BatchReport(optime, entry, coll, batchStart, s, desc, env)
  {
    var report := BatchReport(optime, entry, coll, batchStart, s, desc, env);
    var c := NextCounter(counter);
    var written := env.debugBuild || report.severity != Info || ShouldLog(entry, c, env);
    Outcome(c, s.logged + if written then [report] else [])
  }

  /** An extra-index-keys batch: the named index is walked and hashed. */
  function ExtraKeysBatchSpec(counter: nat, optime: OpTime, entry: DbCheckOplogBatch, coll: CollectionInfo,
                              batchStart: BsonObj, batchEnd: BsonObj, env: BatchEnv): Outcome
    requires ValidEnv(env) && ExtraKeysMode(entry.parameters)
  {
    var indexName := entry.parameters.value.secondaryIndex;
    var desc := FindIndexByName(coll.descriptors, indexName);
    if desc.None? then Outcome(counter, [NoIndexEntry(entry, indexName)])
    else
      var (s, st) := ExtraKeysScan(HasherConfigOf(entry, coll, batchEnd, env), env.indexScan, EmptyState());
      if !st.OK? then Outcome(counter, s.logged + [CaughtEntry(entry, st)])
      else FinishBatch(counter, optime, entry, coll, batchStart, s, desc, env)
  }

  /** What a collection batch reports once the hasher has returned `st` in state `s`. */
  function AfterCollectionScan(counter: nat, optime: OpTime, entry: DbCheckOplogBatch, coll: CollectionInfo,
                               batchStart: BsonObj, s: HasherState, st: Status, env: BatchEnv): Outcome
    requires ValidEnv(env)
  {
    if entry.parameters.None? && st.Err? && st.code == KeyNotFound then
      Outcome(counter, s.logged + [ErrorEntry(entry.parameters, Some(entry.nss), Some(coll.uuid), FETCH_MSG, Index, Batch, st, [])])
    else if !st.OK? then Outcome(counter, s.logged + [CaughtEntry(entry, st)])
    else FinishBatch(counter, optime, entry, coll, batchStart, s, coll.idIndex, env)
  }

  /** A collection batch: the _id index is walked and the documents hashed. */
  function CollectionBatchSpec(counter: nat, optime: OpTime, entry: DbCheckOplogBatch, coll: CollectionInfo,
                               batchStart: BsonObj, batchEnd: BsonObj, env: BatchEnv): Outcome
    requires ValidEnv(env)
  {
    if !coll.clustered && coll.idIndex.None? then
      Outcome(counter, [CaughtEntry(entry, Err(IndexNotFound, "dbCheck needs _id index"))])
    else
      var res := ScanFrom(HasherConfigOf(entry, coll, batchEnd, env), env.collectionScan, EmptyState(), 0);
      AfterCollectionScan(counter, optime, entry, coll, batchStart, res.0, res.1, env)
  }

  /** dbCheckBatchOnSecondary: the new batch counter and the entries written to the health log. */
  function BatchOnSecondarySpec(counter: nat, optime: OpTime, entry: DbCheckOplogBatch,
                                batchStart: BsonObj, batchEnd: BsonObj, env: BatchEnv): Outcome
    requires ValidEnv(env)
  {
    if env.collection.None? then Outcome(counter, [VanishedEntry(entry)])
    else if ExtraKeysMode(entry.parameters) then
      ExtraKeysBatchSpec(counter, optime, entry, env.collection.value, batchStart, batchEnd, env)
    else CollectionBatchSpec(counter, optime, entry, env.collection.value, batchStart, batchEnd, env)
  }

  // ---------------------------------------------------------------------------
  // Properties of a batch
  // ---------------------------------------------------------------------------

  /** A dropped collection is reported once, as Info, and does not count as a batch. */
  lemma VanishedCollectionReported(counter: nat, optime: OpTime, entry: DbCheckOplogBatch,
                                   batchStart: BsonObj, batchEnd: BsonObj, env: BatchEnv)
    requires ValidEnv(env) && env.collection.None?
    ensures var r := BatchOnSecondarySpec(counter, optime, entry, batchStart, batchEnd, env);
      r.counter == counter && |r.logged| == 1 && r.logged[0].severity == Info && r.logged[0].msg == FAILED_MSG
      && r.logged[0].scope == Cluster && r.logged[0].collectionUUID.None?
  {
  }

  /** An extra-keys batch over an index the snapshot lacks is one Index-scoped error, not a batch. */
  lemma UnknownIndexReported(counter: nat, optime: OpTime, entry: DbCheckOplogBatch,
                             batchStart: BsonObj, batchEnd: BsonObj, env: BatchEnv)
    requires ValidEnv(env) && env.collection.Some? && ExtraKeysMode(entry.parameters)
    requires forall d :: d in env.collection.value.descriptors ==> d.name != entry.parameters.value.secondaryIndex
    ensures var r := BatchOnSecondarySpec(counter, optime, entry, batchStart, batchEnd, env);
      r.counter == counter && |r.logged| == 1 && r.logged[0].severity == Error && r.logged[0].scope == Index
  {
    var desc := FindIndexByName(env.collection.value.descriptors, entry.parameters.value.secondaryIndex);
    assert desc.None?;
  }

  /**
   * An interrupted collection batch is reported as a Cluster-scoped error
   * after whatever the hasher logged, and does not count as a batch.
   */
  lemma InterruptedBatchReported(counter: nat, optime: OpTime, entry: DbCheckOplogBatch,
                                 batchStart: BsonObj, batchEnd: BsonObj, env: BatchEnv)
    requires ValidEnv(env) && env.collection.Some? && !ExtraKeysMode(entry.parameters)
    requires env.collection.value.clustered || env.collection.value.idIndex.Some?
    requires |env.collectionScan.entries| > 0 && env.collectionScan.interrupted(0)
    ensures var r := BatchOnSecondarySpec(counter, optime, entry, batchStart, batchEnd, env);
      r.counter == counter && r.logged == [CaughtEntry(entry, Err(Interrupted, ""))]
      && r.logged[0].severity == Error && r.logged[0].scope == Cluster && r.logged[0].msg == CONSISTENCY_MSG
  {
  }

  /** The batch counter stays below 2^32: it either stays or advances by one, wrapping around. */
  lemma CounterWraps(counter: nat, optime: OpTime, entry: DbCheckOplogBatch,
                     batchStart: BsonObj, batchEnd: BsonObj, env: BatchEnv)
    requires ValidEnv(env) && counter < UINT_RANGE
    ensures var r := BatchOnSecondarySpec(counter, optime, entry, batchStart, batchEnd, env);
      r.counter < UINT_RANGE && (r.counter == counter || r.counter == (counter + 1) % UINT_RANGE)
  {
  }

  /** The KeyNotFound branch of a batch without parameters is never taken: the hasher only logs missing records. */
  lemma NoKeyNotFoundReport(counter: nat, optime: OpTime, entry: DbCheckOplogBatch,
                            batchStart: BsonObj, batchEnd: BsonObj, env: BatchEnv)
    requires ValidEnv(env) && env.collection.Some? && entry.parameters.None?
    ensures var r := BatchOnSecondarySpec(counter, optime, entry, batchStart, batchEnd, env);
      forall i :: 0 <= i < |r.logged| ==> r.logged[i].scope != Index
  {
    var coll := env.collection.value;
    if coll.clustered || coll.idIndex.Some? {
      var cfg := HasherConfigOf(entry, coll, batchEnd, env);
      var res := ScanFrom(cfg, env.collectionScan, EmptyState(), 0);
      ScanNeverKeyNotFound(cfg, env.collectionScan, EmptyState());
      ScanLogsDocumentScoped(cfg, env.collectionScan, EmptyState(), 0);
      AfterScanNotIndexScoped(counter, optime, entry, coll, batchStart, res.0, res.1, env);
    }
  }

  /** After a scan that logged only document-scoped entries and did not fail with KeyNotFound, nothing is index-scoped. */
  lemma AfterScanNotIndexScoped(counter: nat, optime: OpTime, entry: DbCheckOplogBatch, coll: CollectionInfo,
                                batchStart: BsonObj, s: HasherState, st: Status, env: BatchEnv)
    requires ValidEnv(env) && DocumentScoped(s.logged) && !(st.Err? && st.code == KeyNotFound)
    ensures var r := AfterCollectionScan(counter, optime, entry, coll, batchStart, s, st, env);
      forall i :: 0 <= i < |r.logged| ==> r.logged[i].scope != Index
  {
  }

  /** An inconsistent batch is always written to the health log, and never as Info. */
  lemma InconsistentBatchAlwaysLogged(counter: nat, optime: OpTime, entry: DbCheckOplogBatch, coll: CollectionInfo,
                                      batchStart: BsonObj, s: HasherState, desc: Option<IndexDescriptor>, env: BatchEnv)
    requires env.everyNBatches >= 1
    requires env.md5(s.message) != entry.md5
    ensures var r := FinishBatch(counter, optime, entry, coll, batchStart, s, desc, env);
      |r.logged| == |s.logged| + 1 && r.logged[|s.logged|].severity != Info
      && r.logged[|s.logged|].msg == INCONSISTENT_MSG
  {
  }

  /**
   * On a release build, with no instruction in the entry, a consistent batch
   * is written exactly when the new counter is a multiple of N.
   */
  lemma ConsistentBatchLoggedEveryN(counter: nat, optime: OpTime, entry: DbCheckOplogBatch, coll: CollectionInfo,
                                    batchStart: BsonObj, s: HasherState, desc: Option<IndexDescriptor>, env: BatchEnv)
    requires env.everyNBatches >= 1 && !env.debugBuild && entry.logBatchToHealthLog.None?
    requires env.md5(s.message) == entry.md5
    ensures var r := FinishBatch(counter, optime, entry, coll, batchStart, s, desc, env);
      r.counter == (counter + 1) % UINT_RANGE
      && (|r.logged| == |s.logged| + 1 <==> r.counter % env.everyNBatches == 0)
      && (|r.logged| == |s.logged| + 1 ==> r.logged[|s.logged|].severity == Info && r.logged[|s.logged|].msg == CONSISTENT_MSG)
  {
  }

  // ---------------------------------------------------------------------------
  // dbCheckOplogCommand
  // ---------------------------------------------------------------------------

  datatype ApplicationMode = InitialSync | UnstableRecovering | StableRecovering | ApplyOpsCmd | Secondary

  /** The name of an oplog application mode in dbCheck's warnings. */
  function ModeName(mode: ApplicationMode): (r: string)
    ensures r == "secondary" <==> mode == Secondary
  {
    match mode
    case InitialSync => "initial sync"
    case UnstableRecovering => "unstable recovering"
    case StableRecovering => "stable recovering"
    case ApplyOpsCmd => "applyOps"
    case Secondary => "secondary"
  }

  /** A parsed dbCheck oplog command. */
  datatype OplogCommand =
    | BatchCommand(batch: DbCheckOplogBatch)
    | CollectionCommand
    | StartStopCommand(op: OplogEntries, nss: Namespace, uuid: Option<Uuid>,
                       parameters: Option<SecondaryIndexCheckParameters>)

  predicate ValidCommand(cmd: OplogCommand)
  {
    cmd.StartStopCommand? ==> cmd.op == Start || cmd.op == Stop
  }

  /** Entries of older primaries carry minKey/maxKey instead of the batch bounds; they bound the _id. */
  function BatchBounds(b: DbCheckOplogBatch): (r: (BsonObj, BsonObj))
    ensures b.batchStart.Some? ==> r.0 == b.batchStart.value
    ensures b.batchStart.None? ==> r.0 == [BsonField("_id", b.minKey)]
    ensures b.batchEnd.Some? ==> r.1 == b.batchEnd.value
    ensures b.batchEnd.None? ==> r.1 == [BsonField("_id", b.maxKey)]
  {
    (if b.batchStart.Some? then b.batchStart.value else [BsonField("_id", b.minKey)],
     if b.batchEnd.Some? then b.batchEnd.value else [BsonField("_id", b.maxKey)])
  }

  const SKIP_PARAMETER_MSG :=
    "skipping applying dbcheck batch because the 'skipApplyingDbCheckBatchOnSecondary' parameter is on"

  function OngoingMsg(mode: ApplicationMode): string
  {
    "cannot execute dbcheck due to ongoing " + ModeName(mode)
  }

  /** The warning written for a batch that is not applied. */
  function SkippedBatchEntry(b: DbCheckOplogBatch, mode: ApplicationMode, skipParameter: bool): (r: HealthLogEntry)
    ensures r.severity == Warning && r.scope == Cluster && r.nss == Some(b.nss) && r.collectionUUID.None?
    ensures r.msg == (if skipParameter then SKIP_PARAMETER_MSG else OngoingMsg(mode))
    ensures r.data.Some?
    ensures FieldValue(r.data.value, "batchStart") == Some(BDoc(BatchBounds(b).0))
    ensures FieldValue(r.data.value, "batchEnd") == Some(BDoc(BatchBounds(b).1))
    ensures b.batchId.Some? ==> FieldValue(r.data.value, "batchId") == Some(BUuid(b.batchId.value))
  {
    var (start, end) := BatchBounds(b);
    var data := [BsonField("batchStart", BDoc(start)), BsonField("batchEnd", BDoc(end))]
                + if b.batchId.Some? then [BsonField("batchId", BUuid(b.batchId.value))] else [];
    var msg := if skipParameter then SKIP_PARAMETER_MSG else OngoingMsg(mode);
    SkippedDataFields(b, msg, start, end, data);
    HealthLogEntryOf(b.parameters, Some(b.nss), None, Warning, msg, Cluster, Batch, Some(data))
  }

  /** The bounds and the batch id of a skipped batch are each the only field of their name. */
  lemma SkippedDataFields(b: DbCheckOplogBatch, msg: string, start: BsonObj, end: BsonObj, data: BsonObj)
    requires data == [BsonField("batchStart", BDoc(start)), BsonField("batchEnd", BDoc(end))]
                     + if b.batchId.Some? then [BsonField("batchId", BUuid(b.batchId.value))] else []
    ensures var r := HealthLogEntryOf(b.parameters, Some(b.nss), None, Warning, msg, Cluster, Batch, Some(data));
      r.data.Some?
      && FieldValue(r.data.value, "batchStart") == Some(BDoc(start))
      && FieldValue(r.data.value, "batchEnd") == Some(BDoc(end))
      && (b.batchId.Some? ==> FieldValue(r.data.value, "batchId") == Some(BUuid(b.batchId.value)))
  {
    assert DistinctNames(data);
    DistinctField(b.parameters, Some(b.nss), None, Warning, msg, Cluster, Batch, data, data[0]);
    DistinctField(b.parameters, Some(b.nss), None, Warning, msg, Cluster, Batch, data, data[1]);
    if b.batchId.Some? {
      DistinctField(b.parameters, Some(b.nss), None, Warning, msg, Cluster, Batch, data, data[2]);
    }
  }

  /** The entry recording a start or a stop: Info on a secondary, a Warning otherwise. */
  function StartStopEntry(cmd: OplogCommand, mode: ApplicationMode): (r: HealthLogEntry)
    requires cmd.StartStopCommand?
    ensures r.severity == Warning <==> mode != Secondary
    ensures r.severity == Info <==> mode == Secondary
    ensures mode == Secondary ==> r.msg == ""
    ensures r.scope == Cluster
    ensures r.data.Some? <==> cmd.parameters.Some?
  {
    var skip := mode != Secondary;
    HealthLogEntryOf(cmd.parameters, Some(cmd.nss), cmd.uuid, if skip then Warning else Info,
                     if skip then OngoingMsg(mode) else "", Cluster, cmd.op, None)
  }

  /** The optime passed to a batch: the entry's own only when writes are not replicated. */
  function BatchOpTime(writesReplicated: bool, entryOpTime: OpTime): OpTime
  {
    if writesReplicated then NULL_OPTIME else entryOpTime
  }

  /** dbCheckOplogCommand: the new batch counter and the entries written to the health log. */
  function OplogCommandSpec(counter: nat, cmd: OplogCommand, mode: ApplicationMode, writesReplicated: bool,
                            entryOpTime: OpTime, skipParameter: bool, env: BatchEnv): Outcome
    requires ValidEnv(env) && ValidCommand(cmd)
  {
    match cmd
    case BatchCommand(b) =>
      var (start, end) := BatchBounds(b);
      if mode == Secondary && !skipParameter then
        BatchOnSecondarySpec(counter, BatchOpTime(writesReplicated, entryOpTime), b, start, end, env)
      else Outcome(counter, [SkippedBatchEntry(b, mode, skipParameter)])
    case CollectionCommand => Outcome(counter, [])
    case StartStopCommand(_, _, _, _) => Outcome(counter, [StartStopEntry(cmd, mode)])
  }

  /** A batch is applied only on a steady-state secondary with the skip parameter off; otherwise one warning says why. */
  lemma BatchAppliedOnlyOnSecondary(counter: nat, b: DbCheckOplogBatch, mode: ApplicationMode, writesReplicated: bool,
                                    entryOpTime: OpTime, skipParameter: bool, env: BatchEnv)
    requires ValidEnv(env)
    requires mode != Secondary || skipParameter
    ensures var r := OplogCommandSpec(counter, BatchCommand(b), mode, writesReplicated, entryOpTime, skipParameter, env);
      r.counter == counter && |r.logged| == 1 && r.logged[0].severity == Warning
      && r.logged[0].scope == Cluster && r.logged[0].nss == Some(b.nss)
      && r.logged[0].msg == (if skipParameter then SKIP_PARAMETER_MSG else OngoingMsg(mode))
      && r.logged[0].data.Some?
      && FieldValue(r.logged[0].data.value, "batchStart") == Some(BDoc(BatchBounds(b).0))
      && FieldValue(r.logged[0].data.value, "batchEnd") == Some(BDoc(BatchBounds(b).1))
      && (b.batchId.Some? ==> FieldValue(r.logged[0].data.value, "batchId") == Some(BUuid(b.batchId.value)))
  {
  }

  /** On a steady-state secondary with the skip parameter off, a batch entry is applied with its bounds decoded. */
  lemma BatchAppliedOnSecondary(counter: nat, b: DbCheckOplogBatch, writesReplicated: bool,
                                entryOpTime: OpTime, env: BatchEnv)
    requires ValidEnv(env)
    ensures OplogCommandSpec(counter, BatchCommand(b), Secondary, writesReplicated, entryOpTime, false, env)
         == BatchOnSecondarySpec(counter, BatchOpTime(writesReplicated, entryOpTime), b,
                                 BatchBounds(b).0, BatchBounds(b).1, env)
  {
  }

  /** A collection entry does nothing; a start or stop entry writes one entry, a Warning exactly when it is not applied. */
  lemma OtherCommandsLogged(counter: nat, cmd: OplogCommand, mode: ApplicationMode, writesReplicated: bool,
                            entryOpTime: OpTime, skipParameter: bool, env: BatchEnv)
    requires ValidEnv(env) && ValidCommand(cmd) && !cmd.BatchCommand?
    ensures var r := OplogCommandSpec(counter, cmd, mode, writesReplicated, entryOpTime, skipParameter, env);
      r.counter == counter
      && (cmd.CollectionCommand? ==> r.logged == [])
      && (cmd.StartStopCommand? ==> |r.logged| == 1 && r.logged[0].operation == RenderOp(cmd.op)
                                    && (r.logged[0].severity == Warning <==> mode != Secondary))
  {
  }

  // ---------------------------------------------------------------------------
  // The applier
  // ---------------------------------------------------------------------------

  /** The process-wide state dbCheck's application touches: the batch counter and the health log. */
  class Applier {
    var batchesProcessed: nat
    /** The entries written to the health log, oldest first. */
    var healthLog: seq<HealthLogEntry>

    constructor ()
      ensures batchesProcessed == 0 && healthLog == []
    {
      batchesProcessed := 0;
      healthLog := [];
    }

    /** Writes the batch entry of a hashed batch, advancing the counter. */
    method Finish(optime: OpTime, entry: DbCheckOplogBatch, coll: CollectionInfo, batchStart: BsonObj,
                  hasher: Hasher, desc: Option<IndexDescriptor>, env: BatchEnv)
      requires env.everyNBatches >= 1
      modifies this`batchesProcessed, this`healthLog
      ensures var r := FinishBatch(old(batchesProcessed), optime, entry, coll, batchStart, hasher.State(), desc, env);
        batchesProcessed == r.counter && healthLog == old(healthLog) + r.logged
    {
      var report := BatchReport(optime, entry, coll, batchStart, hasher.State(), desc, env);
      var counter := NextCounter(batchesProcessed);
      var written := env.debugBuild || report.severity != Info || ShouldLog(entry, counter, env);
      healthLog := healthLog + (hasher.healthLog + if written then [report] else []);
      batchesProcessed := counter;
    }

    /** The extra-index-keys branch of dbCheckBatchOnSecondary. */
    method ExtraKeysBatch(optime: OpTime, entry: DbCheckOplogBatch, coll: CollectionInfo,
                          batchStart: BsonObj, batchEnd: BsonObj, env: BatchEnv)
      requires ValidEnv(env) && ExtraKeysMode(entry.parameters)
      modifies this
      ensures var r := ExtraKeysBatchSpec(old(batchesProcessed), optime, entry, coll, batchStart, batchEnd, env);
        batchesProcessed == r.counter && healthLog == old(healthLog) + r.logged
    {
      var indexName := entry.parameters.value.secondaryIndex;
      var hasher := new Hasher(coll.nss, coll.uuid, batchEnd, entry.parameters, Some(indexName),
                               coll.catalog, env.maxCount, env.maxBytes);
      var desc := FindIndexByName(coll.descriptors, indexName);
      if desc.None? {
        healthLog := healthLog + [NoIndexEntry(entry, indexName)];
        return;
      }
      var st := hasher.HashForExtraIndexKeysCheck(env.indexScan);
      if !st.OK? {
        healthLog := healthLog + hasher.healthLog + [CaughtEntry(entry, st)];
        return;
      }
      Finish(optime, entry, coll, batchStart, hasher, desc, env);
    }

    /** Reports a hashed collection batch, or the status the hasher failed with. */
    method ReportCollectionScan(optime: OpTime, entry: DbCheckOplogBatch, coll: CollectionInfo,
                                batchStart: BsonObj, hasher: Hasher, st: Status, env: BatchEnv)
      requires ValidEnv(env)
      modifies this
      ensures var r := AfterCollectionScan(old(batchesProcessed), optime, entry, coll, batchStart, hasher.State(), st, env);
        batchesProcessed == r.counter && healthLog == old(healthLog) + r.logged
    {
      if entry.parameters.None? && st.Err? && st.code == KeyNotFound {
        healthLog := healthLog + hasher.healthLog
                     + [ErrorEntry(entry.parameters, Some(entry.nss), Some(coll.uuid), FETCH_MSG, Index, Batch, st, [])];
        return;
      }
      if !st.OK? {
        healthLog := healthLog + hasher.healthLog + [CaughtEntry(entry, st)];
        return;
      }
      Finish(optime, entry, coll, batchStart, hasher, coll.idIndex, env);
    }

    /** The collection branch of dbCheckBatchOnSecondary. */
    method CollectionBatch(optime: OpTime, entry: DbCheckOplogBatch, coll: CollectionInfo,
                           batchStart: BsonObj, batchEnd: BsonObj, env: BatchEnv)
      requires ValidEnv(env)
      modifies this
      ensures var r := CollectionBatchSpec(old(batchesProcessed), optime, entry, coll, batchStart, batchEnd, env);
        batchesProcessed == r.counter && healthLog == old(healthLog) + r.logged
    {
      if !coll.clustered && coll.idIndex.None? {
        healthLog := healthLog + [CaughtEntry(entry, Err(IndexNotFound, "dbCheck needs _id index"))];
        return;
      }
      var hasher := new Hasher(coll.nss, coll.uuid, batchEnd, entry.parameters, None,
                               coll.catalog, env.maxCount, env.maxBytes);
      var st := hasher.HashForCollectionCheck(env.collectionScan);
      ReportCollectionScan(optime, entry, coll, batchStart, hasher, st, env);
    }

    /** dbCheckBatchOnSecondary: always succeeds; failures end up in the health log. */
    method BatchOnSecondary(optime: OpTime, entry: DbCheckOplogBatch, batchStart: BsonObj, batchEnd: BsonObj,
                            env: BatchEnv) returns (status: Status)
      requires ValidEnv(env)
      modifies this
      ensures status == OK
      ensures var r := BatchOnSecondarySpec(old(batchesProcessed), optime, entry, batchStart, batchEnd, env);
        batchesProcessed == r.counter && healthLog == old(healthLog) + r.logged
    {
      if env.collection.None? {
        healthLog := healthLog + [VanishedEntry(entry)];
      } else if ExtraKeysMode(entry.parameters) {
        ExtraKeysBatch(optime, entry, env.collection.value, batchStart, batchEnd, env);
      } else {
        CollectionBatch(optime, entry, env.collection.value, batchStart, batchEnd, env);
      }
      return OK;
    }

    /** dbCheckOplogCommand: applies one dbCheck oplog entry; it always succeeds. */
    method ApplyOplogCommand(cmd: OplogCommand, mode: ApplicationMode, writesReplicated: bool,
                             entryOpTime: OpTime, skipParameter: bool, env: BatchEnv) returns (status: Status)
      requires ValidEnv(env) && ValidCommand(cmd)
      modifies this
      ensures status == OK
      ensures var r := OplogCommandSpec(old(batchesProcessed), cmd, mode, writesReplicated, entryOpTime, skipParameter, env);
        batchesProcessed == r.counter && healthLog == old(healthLog) + r.logged
    {
      var optime := NULL_OPTIME;
      if !writesReplicated {
        optime := entryOpTime;
      }
      var skip := mode != Secondary;
      match cmd
      case BatchCommand(b) =>
        var (start, end) := BatchBounds(b);
        if !skip && !skipParameter {
          status := BatchOnSecondary(optime, b, start, end, env);
          return;
        }
        healthLog := healthLog + [SkippedBatchEntry(b, mode, skipParameter)];
        return OK;
      case CollectionCommand =>
        return OK;
      case StartStopCommand(_, _, _, _) =>
        healthLog := healthLog + [StartStopEntry(cmd, mode)];
        return OK;
    }
  }
}
