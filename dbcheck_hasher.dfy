/**
 * DbCheckHasher: walks one batch of a collection (through its _id index) or of
 * one index, feeds what it sees to an MD5 state and counts it, stopping at the
 * batch's count and byte ceilings.
 *
 * The MD5 state is modelled by the bytes appended to it (`message`); the
 * digest is a function of those bytes supplied by the caller. Cursors are
 * modelled by the sequence of entries they return; interruption and the
 * deadline are functions of the cursor position.
 */
module DbCheckHasher {

  import opened Wrappers
  import opened DbCheckLog

  type Key = seq<Byte>

  // ---------------------------------------------------------------------------
  // Inputs
  // ---------------------------------------------------------------------------

  datatype AccessMethod = BTree | Hashed | OtherAccessMethod(name: string)

  /**
   * A ready index of the collection. `keysFor(doc, rid)` is getKeys (the
   * record id is appended to each key when given); `seek(k)` is the record id
   * of the entry seekForKeyString lands on, if any.
   */
  datatype IndexEntry = IndexEntry(
    name: string,
    isId: bool,
    partial: bool,
    filter: BsonObj -> bool,
    accessMethod: AccessMethod,
    unique: bool,
    keysFor: (BsonObj, Option<int>) -> seq<Key>,
    seek: Key -> Option<int>,
    spec: BsonObj)

  /** One step of the _id index walk: the _id value and the record id it points to. */
  datatype ScanEntry = ScanEntry(id: BsonValue, recordId: int)

  /** A stored record: its raw bytes, the document they parse to and its declared size. */
  datatype Record = Record(data: seq<Byte>, doc: BsonObj, objSize: nat)

  datatype CollectionScan = CollectionScan(
    entries: seq<ScanEntry>,
    store: map<int, Record>,
    validate: seq<Byte> -> Status,
    interrupted: nat -> bool,
    pastDeadline: nat -> bool)

  /** One entry of an index walk: the key string with its record id, and the key as BSON. */
  datatype IndexKeyEntry = IndexKeyEntry(keyString: seq<Byte>, sizeWithoutRecordId: nat, bson: BsonObj)

  datatype IndexScan = IndexScan(
    entries: seq<IndexKeyEntry>,
    batchEnd: Key,
    maxConsecutive: int,
    interrupted: nat -> bool)

  predicate WellFormedKeys(scan: IndexScan)
  {
    forall i :: 0 <= i < |scan.entries| ==> scan.entries[i].sizeWithoutRecordId <= |scan.entries[i].keyString|
  }

  // ---------------------------------------------------------------------------
  // Hasher state and configuration
  // ---------------------------------------------------------------------------

  datatype HasherConfig = HasherConfig(
    nss: Namespace,
    uuid: Uuid,
    maxKey: BsonObj,
    maxCount: int,
    maxBytes: int,
    parameters: Option<SecondaryIndexCheckParameters>,
    indexes: seq<IndexEntry>)

  datatype HasherState = HasherState(
    message: seq<Byte>,
    docs: nat,
    keys: nat,
    bytes: nat,
    lastKey: BsonObj,
    nConsecutive: nat,
    missing: seq<BsonObj>,
    logged: seq<HealthLogEntry>)

  predicate MissingKeysMode(parameters: Option<SecondaryIndexCheckParameters>)
  {
    parameters.Some? && parameters.value.validateMode == DataConsistencyAndMissingIndexKeysCheck
  }

  /** The indexes the constructor keeps: every non-_id index, in missing-keys mode only. */
  function IndexesToCheck(parameters: Option<SecondaryIndexCheckParameters>, catalog: seq<IndexEntry>): seq<IndexEntry>
  {
    if !MissingKeysMode(parameters) || catalog == [] then []
    else
      var rest := IndexesToCheck(parameters, catalog[..|catalog| - 1]);
      if catalog[|catalog| - 1].isId then rest else rest + [catalog[|catalog| - 1]]
  }

  /** In missing-keys mode the hasher checks exactly the catalog's non-_id indexes; otherwise none. */
  lemma {:induction false} IndexesToCheckExact(parameters: Option<SecondaryIndexCheckParameters>, catalog: seq<IndexEntry>, ix: IndexEntry)
    ensures ix in IndexesToCheck(parameters, catalog) <==> MissingKeysMode(parameters) && ix in catalog && !ix.isId
  {
    if MissingKeysMode(parameters) && catalog != [] {
      var init := catalog[..|catalog| - 1];
      IndexesToCheckExact(parameters, init, ix);
      assert catalog == init + [catalog[|catalog| - 1]];
    }
  }

  function EmptyState(): HasherState
  {
    HasherState([], 0, 0, 0, [], 0, [], [])
  }

  function CountSeen(s: HasherState): nat
  {
    s.docs + s.keys
  }

  /** _canHashForCollectionCheck: the first document always fits; later ones must keep both ceilings. */
  predicate CanHash(cfg: HasherConfig, s: HasherState, objSize: nat)
  {
    CountSeen(s) == 0 || (s.bytes + objSize <= cfg.maxBytes && CountSeen(s) + 1 <= cfg.maxCount)
  }

  /** A batch always takes its first document, whatever its size and the ceilings. */
  lemma FirstDocumentFits(cfg: HasherConfig, objSize: nat)
    ensures CanHash(cfg, EmptyState(), objSize)
  {
  }

  /** Index keys probed for earlier documents count against the ceiling: probing never admits more. */
  lemma ProbesTightenCeiling(cfg: HasherConfig, s: HasherState, probes: nat, objSize: nat)
    requires CountSeen(s) > 0
    ensures CanHash(cfg, s.(keys := s.keys + probes), objSize) ==> CanHash(cfg, s, objSize)
  {
  }

  // ---------------------------------------------------------------------------
  // Missing index keys
  // ---------------------------------------------------------------------------

  /** An index is checked for a document unless its partial filter rejects it or it is a special index. */
  predicate IndexChecked(ix: IndexEntry, doc: BsonObj)
  {
    !(ix.partial && !ix.filter(doc)) && (ix.accessMethod == BTree || ix.accessMethod == Hashed)
  }

  /** The keys probed for a document: unique indexes are probed without the record id. */
  function Probes(ix: IndexEntry, doc: BsonObj, rid: int): seq<Key>
  {
    if IndexChecked(ix, doc) then ix.keysFor(doc, if ix.unique then None else Some(rid)) else []
  }

  function MissingKeyReport(ix: IndexEntry, key: Key, rid: int): BsonObj
  {
    [BsonField("indexName", BStr(ix.name)), BsonField("keyString", BKey(key)),
     BsonField("expectedRecordId", BRecordId(rid)), BsonField("indexSpec", BDoc(ix.spec))]
  }

  /** A probe misses when no entry is found or the entry found points to another record. */
  predicate Misses(ix: IndexEntry, key: Key, rid: int)
  {
    ix.seek(key) != Some(rid)
  }

  /** The reports for the keys of `keys` that miss, in order. */
  function MissingIn(ix: IndexEntry, keys: seq<Key>, rid: int): (r: seq<BsonObj>)
    ensures |r| <= |keys|
  {
    if keys == [] then []
    else
      var k := keys[|keys| - 1];
      MissingIn(ix, keys[..|keys| - 1], rid) + (if Misses(ix, k, rid) then [MissingKeyReport(ix, k, rid)] else [])
  }

  /** The reports of every index, in catalog order. */
  function MissingKeysOf(indexes: seq<IndexEntry>, doc: BsonObj, rid: int): (r: seq<BsonObj>)
    ensures |r| <= ProbeCount(indexes, doc, rid)
  {
    if indexes == [] then []
    else
      var ix := indexes[|indexes| - 1];
      MissingKeysOf(indexes[..|indexes| - 1], doc, rid) + MissingIn(ix, Probes(ix, doc, rid), rid)
  }

  /** Every probe counts as one key seen. */
  function ProbeCount(indexes: seq<IndexEntry>, doc: BsonObj, rid: int): nat
  {
    if indexes == [] then 0
    else ProbeCount(indexes[..|indexes| - 1], doc, rid) + |Probes(indexes[|indexes| - 1], doc, rid)|
  }

  lemma {:induction false} MissingInComplete(ix: IndexEntry, keys: seq<Key>, rid: int, k: Key)
    requires k in keys && Misses(ix, k, rid)
    ensures MissingKeyReport(ix, k, rid) in MissingIn(ix, keys, rid)
  {
    if keys[|keys| - 1] != k {
      assert k in keys[..|keys| - 1];
      MissingInComplete(ix, keys[..|keys| - 1], rid, k);
    }
  }

  lemma {:induction false} MissingInSound(ix: IndexEntry, keys: seq<Key>, rid: int, r: BsonObj)
    requires r in MissingIn(ix, keys, rid)
    ensures exists k :: k in keys && Misses(ix, k, rid) && r == MissingKeyReport(ix, k, rid)
  {
    var init := keys[..|keys| - 1];
    if r in MissingIn(ix, init, rid) {
      MissingInSound(ix, init, rid, r);
      var k :| k in init && Misses(ix, k, rid) && r == MissingKeyReport(ix, k, rid);
      assert k in keys;
    } else {
      assert keys[|keys| - 1] in keys;
    }
  }

  /** Every probed key that misses is reported. */
  lemma {:induction false} MissingKeysComplete(indexes: seq<IndexEntry>, doc: BsonObj, rid: int, j: int, k: Key)
    requires 0 <= j < |indexes|
    requires k in Probes(indexes[j], doc, rid) && Misses(indexes[j], k, rid)
    ensures MissingKeyReport(indexes[j], k, rid) in MissingKeysOf(indexes, doc, rid)
  {
    var n := |indexes| - 1;
    if j == n {
      MissingInComplete(indexes[n], Probes(indexes[n], doc, rid), rid, k);
    } else {
      MissingKeysComplete(indexes[..n], doc, rid, j, k);
    }
  }

  /** Only probed keys that miss are reported. */
  lemma {:induction false} MissingKeysSound(indexes: seq<IndexEntry>, doc: BsonObj, rid: int, r: BsonObj)
    requires r in MissingKeysOf(indexes, doc, rid)
    ensures exists j, k :: 0 <= j < |indexes| && k in Probes(indexes[j], doc, rid) && Misses(indexes[j], k, rid)
                           && r == MissingKeyReport(indexes[j], k, rid)
  {
    var n := |indexes| - 1;
    if r in MissingKeysOf(indexes[..n], doc, rid) {
      MissingKeysSound(indexes[..n], doc, rid, r);
      var j, k :| 0 <= j < n && k in Probes(indexes[..n][j], doc, rid) && Misses(indexes[..n][j], k, rid)
                  && r == MissingKeyReport(indexes[..n][j], k, rid);
      assert indexes[..n][j] == indexes[j];
    } else {
      MissingInSound(indexes[n], Probes(indexes[n], doc, rid), rid, r);
    }
  }

  /** An index the document is not checked against (partial filter, special index) adds nothing. */
  lemma SkippedIndexAddsNothing(indexes: seq<IndexEntry>, ix: IndexEntry, doc: BsonObj, rid: int)
    requires !IndexChecked(ix, doc)
    ensures MissingKeysOf(indexes + [ix], doc, rid) == MissingKeysOf(indexes, doc, rid)
    ensures ProbeCount(indexes + [ix], doc, rid) == ProbeCount(indexes, doc, rid)
  {
    assert (indexes + [ix])[..|indexes|] == indexes;
  }

  // ---------------------------------------------------------------------------
  // Collection check
  // ---------------------------------------------------------------------------

  /** rehydrateKey with the pattern {_id: 1}. */
  function Rehydrate(id: BsonValue): BsonObj
  {
    [BsonField("_id", id)]
  }

  function DocContext(rid: int, objId: BsonObj): BsonObj
  {
    [BsonField("recordID", BRecordId(rid)), BsonField("objId", BDoc(objId))]
  }

  const FETCH_MSG := "Error fetching record from record id"
  const MALFORMED_MSG := "Document is not well-formed BSON"
  const MISSING_KEYS_MSG := "Document has missing index keys"

  /** The entry logged when the _id index points to a record the record store lacks. */
  function MissingRecordEntry(cfg: HasherConfig, rid: int, objId: BsonObj): (r: HealthLogEntry)
    ensures r.severity == Error && r.scope == Document && r.msg == FETCH_MSG
  {
    ErrorEntry(cfg.parameters, Some(cfg.nss), Some(cfg.uuid), FETCH_MSG, Document, Batch,
               Err(KeyNotFound, FETCH_MSG), DocContext(rid, objId))
  }

  /** The entries logged by BSON validation of a record (missing-keys mode only). */
  function ValidationLog(cfg: HasherConfig, scan: CollectionScan, rec: Record, rid: int, objId: BsonObj): (r: seq<HealthLogEntry>)
    ensures |r| <= 1
    ensures |r| == 1 ==> r[0].scope == Document && r[0].msg == MALFORMED_MSG
    ensures |r| == 1 <==> MissingKeysMode(cfg.parameters) && !scan.validate(rec.data).OK?
    ensures |r| == 1 ==> (r[0].severity == Warning <==> scan.validate(rec.data).code == NonConformantBSON)
  {
    if !MissingKeysMode(cfg.parameters) then []
    else
      var st := scan.validate(rec.data);
      if st.OK? then []
      else if st.code != NonConformantBSON then
        [ErrorEntry(cfg.parameters, Some(cfg.nss), Some(cfg.uuid), MALFORMED_MSG, Document, Batch, st, DocContext(rid, objId))]
      else
        [WarningEntry(cfg.parameters, cfg.nss, Some(cfg.uuid), MALFORMED_MSG, Document, Batch, st, DocContext(rid, objId))]
  }

  /**
   * The validation log as the code is written: the warning for non-conformant
   * BSON goes through the warning builder that drops its scope, so it is
   * Cluster-scoped although the document is named in its context.
   */
  function ValidationLogAsWritten(cfg: HasherConfig, scan: CollectionScan, rec: Record, rid: int, objId: BsonObj): (r: seq<HealthLogEntry>)
    ensures |r| <= 1
    ensures |r| == 1 <==> MissingKeysMode(cfg.parameters) && !scan.validate(rec.data).OK?
    ensures |r| == 1 ==> (r[0].scope == Document <==> r[0].severity == Error)
    ensures |r| == 1 ==> (r[0].scope == Cluster <==> scan.validate(rec.data).code == NonConformantBSON)
  {
    if !MissingKeysMode(cfg.parameters) then []
    else
      var st := scan.validate(rec.data);
      if st.OK? then []
      else if st.code != NonConformantBSON then
        [ErrorEntry(cfg.parameters, Some(cfg.nss), Some(cfg.uuid), MALFORMED_MSG, Document, Batch, st, DocContext(rid, objId))]
      else
        [WarningEntryAsWritten(cfg.parameters, cfg.nss, Some(cfg.uuid), MALFORMED_MSG, Document, Batch, st, DocContext(rid, objId))]
  }

  /**
   * The corrected validation log logs the same entries as the code as written,
   * except that its non-conformance warning keeps the Document scope.
   */
  lemma ValidationLogScopeOnly(cfg: HasherConfig, scan: CollectionScan, rec: Record, rid: int, objId: BsonObj)
    ensures var written := ValidationLogAsWritten(cfg, scan, rec, rid, objId);
      var corrected := ValidationLog(cfg, scan, rec, rid, objId);
      |written| == |corrected|
      && (|written| == 1 ==> written[0] == corrected[0].(scope := if corrected[0].severity == Warning then Cluster else Document))
  {
    var st := scan.validate(rec.data);
    if MissingKeysMode(cfg.parameters) && !st.OK? && st.code == NonConformantBSON {
      var context := DocContext(rid, objId);
      var data := FailureData(st, context);
      var w := WarningEntry(cfg.parameters, cfg.nss, Some(cfg.uuid), MALFORMED_MSG, Document, Batch, st, context);
      assert w == HealthLogEntryOf(cfg.parameters, Some(cfg.nss), Some(cfg.uuid), Warning, MALFORMED_MSG, Document, Batch, Some(data));
    }
  }

  function MissingKeysEntry(cfg: HasherConfig, rid: int, objId: BsonObj, missing: seq<BsonObj>): (r: HealthLogEntry)
    ensures r.severity == Error && r.scope == Document && r.msg == MISSING_KEYS_MSG
  {
    ErrorEntry(cfg.parameters, Some(cfg.nss), Some(cfg.uuid), MISSING_KEYS_MSG, Document, Batch,
               Err(NoSuchKey, MISSING_KEYS_MSG),
               DocContext(rid, objId) + [BsonField("missingIndexKeys", BArr(seq(|missing|, i requires 0 <= i < |missing| => BDoc(missing[i]))))])
  }

  /** The missing-keys check of one document: the list is cleared, refilled and logged when non-empty. */
  function MissingKeysStep(cfg: HasherConfig, s: HasherState, doc: BsonObj, rid: int, objId: BsonObj): HasherState
  {
    var missing := MissingKeysOf(cfg.indexes, doc, rid);
    var s1 := s.(missing := missing, keys := s.keys + ProbeCount(cfg.indexes, doc, rid));
    if |missing| > 0 then s1.(logged := s1.logged + [MissingKeysEntry(cfg, rid, objId, missing)]) else s1
  }

  /** Hashing one record: its bytes go to MD5, its _id becomes the last key seen. */
  function HashRecord(s: HasherState, rec: Record, objId: BsonObj): HasherState
  {
    s.(lastKey := objId, docs := s.docs + 1, bytes := s.bytes + rec.objSize, message := s.message + rec.data)
  }

  datatype Step = Continue(s: HasherState) | Halt(s: HasherState, status: Status)

  /** One turn of the loop of hashForCollectionCheck, on the `i`-th entry of the _id index walk. */
  function CollectionStep(cfg: HasherConfig, scan: CollectionScan, s: HasherState, i: nat): Step
    requires i < |scan.entries|
  {
    var e := scan.entries[i];
    var objId := Rehydrate(e.id);
    if scan.interrupted(i) then Halt(s, Err(Interrupted, ""))
    else if e.recordId !in scan.store then
      Continue(s.(logged := s.logged + [MissingRecordEntry(cfg, e.recordId, objId)]))
    else
      var rec := scan.store[e.recordId];
      var s1 := s.(logged := s.logged + ValidationLog(cfg, scan, rec, e.recordId, objId));
      if FieldValue(rec.doc, "_id").None? then Halt(s1, Err(NoSuchKey, "missing _id"))
      else if !CanHash(cfg, s1, rec.objSize) then Halt(s1, OK)
      else
        var s2 := if MissingKeysMode(cfg.parameters) then MissingKeysStep(cfg, s1, rec.doc, e.recordId, objId) else s1;
        var s3 := HashRecord(s2, rec, objId);
        if scan.pastDeadline(i) then Halt(s3, OK) else Continue(s3)
  }

  /** hashForCollectionCheck from the `i`-th entry on; reaching the end sets the last key to the batch's maximum. */
  function ScanFrom(cfg: HasherConfig, scan: CollectionScan, s: HasherState, i: nat): (HasherState, Status)
    requires i <= |scan.entries|
    decreases |scan.entries| - i
  {
    if i == |scan.entries| then (s.(lastKey := cfg.maxKey), OK)
    else
      match CollectionStep(cfg, scan, s, i)
      case Continue(s') => ScanFrom(cfg, scan, s', i + 1)
      case Halt(s', st) => (s', st)
  }

  /** The collection check fails only when interrupted or when a document lacks an _id. */
  lemma {:induction false} ScanStatus(cfg: HasherConfig, scan: CollectionScan, s: HasherState, i: nat)
    decreases |scan.entries| - i
    requires i <= |scan.entries|
    ensures var st := ScanFrom(cfg, scan, s, i).1;
      st.OK? || st.code == Interrupted || st.code == NoSuchKey
  {
    if i < |scan.entries| && CollectionStep(cfg, scan, s, i).Continue? {
      ScanStatus(cfg, scan, CollectionStep(cfg, scan, s, i).s, i + 1);
    }
  }

  /** In particular it never reports KeyNotFound: a record missing from the store is only logged. */
  lemma ScanNeverKeyNotFound(cfg: HasherConfig, scan: CollectionScan, s: HasherState)
    ensures !(ScanFrom(cfg, scan, s, 0).1.Err? && ScanFrom(cfg, scan, s, 0).1.code == KeyNotFound)
  {
    ScanStatus(cfg, scan, s, 0);
  }

  /**
   * One turn of the collection check only appends to the hash and the log,
   * keeps the ceilings and, with exact record sizes, counts the bytes it hashes.
   */
  lemma StepFacts(cfg: HasherConfig, scan: CollectionScan, s: HasherState, i: nat)
    requires i < |scan.entries|
    ensures var t := CollectionStep(cfg, scan, s, i).s;
      s.message <= t.message && s.logged <= t.logged && s.docs <= t.docs && s.bytes <= t.bytes
      && (WithinCeiling(cfg, s) ==> WithinCeiling(cfg, t))
      && (SizesExact(scan) ==> t.bytes - s.bytes == |t.message| - |s.message|)
  {
    var e := scan.entries[i];
    var objId := Rehydrate(e.id);
    if !scan.interrupted(i) && e.recordId in scan.store {
      var rec := scan.store[e.recordId];
      var s1 := s.(logged := s.logged + ValidationLog(cfg, scan, rec, e.recordId, objId));
      if FieldValue(rec.doc, "_id").Some? && CanHash(cfg, s1, rec.objSize) {
        var s2 := if MissingKeysMode(cfg.parameters) then MissingKeysStep(cfg, s1, rec.doc, e.recordId, objId) else s1;
        assert s2.docs == s.docs && s2.bytes == s.bytes && s2.message == s.message && s2.keys >= s.keys;
        assert s.logged <= s1.logged <= s2.logged;
      }
    }
  }

  /** The ceilings: once two documents are hashed, the bytes and the documents stay within them. */
  predicate WithinCeiling(cfg: HasherConfig, s: HasherState)
  {
    s.docs <= 1 || (s.bytes <= cfg.maxBytes && s.docs <= cfg.maxCount)
  }

  lemma {:induction false} ScanKeepsCeiling(cfg: HasherConfig, scan: CollectionScan, s: HasherState, i: nat)
    decreases |scan.entries| - i
    requires i <= |scan.entries|
    requires WithinCeiling(cfg, s)
    ensures WithinCeiling(cfg, ScanFrom(cfg, scan, s, i).0)
  {
    if i < |scan.entries| {
      StepFacts(cfg, scan, s, i);
      var step := CollectionStep(cfg, scan, s, i);
      if step.Continue? {
        ScanKeepsCeiling(cfg, scan, step.s, i + 1);
      }
    }
  }

  /** The hash only ever grows by appending; nothing logged is taken back. */
  lemma {:induction false} ScanAppends(cfg: HasherConfig, scan: CollectionScan, s: HasherState, i: nat)
    decreases |scan.entries| - i
    requires i <= |scan.entries|
    ensures var r := ScanFrom(cfg, scan, s, i).0;
      s.message <= r.message && s.logged <= r.logged && s.docs <= r.docs && s.bytes <= r.bytes
  {
    if i < |scan.entries| {
      StepFacts(cfg, scan, s, i);
      var step := CollectionStep(cfg, scan, s, i);
      if step.Continue? {
        ScanAppends(cfg, scan, step.s, i + 1);
      }
    }
  }

  predicate SizesExact(scan: CollectionScan)
  {
    forall rid :: rid in scan.store ==> scan.store[rid].objSize == |scan.store[rid].data|
  }

  /** When every record's declared size is its length, the bytes counted are the bytes hashed. */
  lemma {:induction false} ScanBytesAreHashed(cfg: HasherConfig, scan: CollectionScan, s: HasherState, i: nat)
    decreases |scan.entries| - i
    requires i <= |scan.entries|
    requires SizesExact(scan)
    ensures var r := ScanFrom(cfg, scan, s, i).0;
      r.bytes - s.bytes == |r.message| - |s.message|
  {
    if i < |scan.entries| {
      StepFacts(cfg, scan, s, i);
      var step := CollectionStep(cfg, scan, s, i);
      if step.Continue? {
        ScanBytesAreHashed(cfg, scan, step.s, i + 1);
      }
    }
  }

  /**
   * Records the store lacks are skipped: each is logged as a Document-scoped
   * error and the scan carries on to the batch's end.
   */
  lemma {:induction false} MissingRecordsSkipped(cfg: HasherConfig, scan: CollectionScan, s: HasherState, i: nat)
    decreases |scan.entries| - i
    requires i <= |scan.entries|
    requires forall j :: i <= j < |scan.entries| ==> !scan.interrupted(j) && scan.entries[j].recordId !in scan.store
    ensures var (r, st) := ScanFrom(cfg, scan, s, i);
      st == OK && r.lastKey == cfg.maxKey && r.message == s.message && r.docs == s.docs
      && s.logged <= r.logged && |r.logged| == |s.logged| + |scan.entries| - i
      && forall k :: |s.logged| <= k < |r.logged| ==> r.logged[k].severity == Error && r.logged[k].scope == Document
  {
    if i < |scan.entries| {
      var e := scan.entries[i];
      var entry := MissingRecordEntry(cfg, e.recordId, Rehydrate(e.id));
      var s' := s.(logged := s.logged + [entry]);
      assert CollectionStep(cfg, scan, s, i) == Continue(s');
      MissingRecordsSkipped(cfg, scan, s', i + 1);
      var r := ScanFrom(cfg, scan, s', i + 1).0;
      assert r.logged[|s.logged|] == entry;
    }
  }

  predicate DocumentScoped(log: seq<HealthLogEntry>)
  {
    forall k :: 0 <= k < |log| ==> log[k].scope == Document
  }

  /** One turn of the collection check only appends Document-scoped entries to the log. */
  lemma StepLogsDocumentScoped(cfg: HasherConfig, scan: CollectionScan, s: HasherState, i: nat)
    requires i < |scan.entries| && DocumentScoped(s.logged)
    ensures DocumentScoped(CollectionStep(cfg, scan, s, i).s.logged)
  {
    var e := scan.entries[i];
    var objId := Rehydrate(e.id);
    if !scan.interrupted(i) && e.recordId in scan.store {
      var rec := scan.store[e.recordId];
      var s1 := s.(logged := s.logged + ValidationLog(cfg, scan, rec, e.recordId, objId));
      assert DocumentScoped(s1.logged);
      if MissingKeysMode(cfg.parameters) {
        var s2 := MissingKeysStep(cfg, s1, rec.doc, e.recordId, objId);
        assert DocumentScoped(s2.logged);
      }
    }
  }

  /** Everything the collection check logs is about a document. */
  lemma {:induction false} ScanLogsDocumentScoped(cfg: HasherConfig, scan: CollectionScan, s: HasherState, i: nat)
    decreases |scan.entries| - i
    requires i <= |scan.entries| && DocumentScoped(s.logged)
    ensures DocumentScoped(ScanFrom(cfg, scan, s, i).0.logged)
  {
    if i < |scan.entries| {
      StepLogsDocumentScoped(cfg, scan, s, i);
      var step := CollectionStep(cfg, scan, s, i);
      if step.Continue? {
        ScanLogsDocumentScoped(cfg, scan, step.s, i + 1);
      }
    }
  }

  /** A fresh hasher hashes the first record it reaches, if it is not interrupted and the record has an _id. */
  lemma FirstRecordHashed(cfg: HasherConfig, scan: CollectionScan)
    requires |scan.entries| > 0 && !scan.interrupted(0)
    requires scan.entries[0].recordId in scan.store
    requires FieldValue(scan.store[scan.entries[0].recordId].doc, "_id").Some?
    ensures ScanFrom(cfg, scan, EmptyState(), 0).0.docs >= 1
  {
    var step := CollectionStep(cfg, scan, EmptyState(), 0);
    assert step.s.docs == 1;
    if step.Continue? {
      ScanAppends(cfg, scan, step.s, 1);
    }
  }

  /**
   * What one turn does with a stored record: a record without _id aborts with NoSuchKey; a record
   * over the ceiling ends the batch with OK and leaves the hash and the last key as they were; an
   * accepted record moves the last key to its _id, counts one document and its size, and appends
   * exactly its bytes to the hash.
   */
  lemma StoredRecordStep(cfg: HasherConfig, scan: CollectionScan, s: HasherState, i: nat)
    requires i < |scan.entries| && !scan.interrupted(i) && scan.entries[i].recordId in scan.store
    ensures var e := scan.entries[i];
      var rec := scan.store[e.recordId];
      var s1 := s.(logged := s.logged + ValidationLog(cfg, scan, rec, e.recordId, Rehydrate(e.id)));
      var step := CollectionStep(cfg, scan, s, i);
      (FieldValue(rec.doc, "_id").None? ==> step == Halt(s1, Err(NoSuchKey, "missing _id")))
      && (FieldValue(rec.doc, "_id").Some? && !CanHash(cfg, s1, rec.objSize) ==>
            step == Halt(s1, OK) && step.s.lastKey == s.lastKey && step.s.message == s.message)
      && (FieldValue(rec.doc, "_id").Some? && CanHash(cfg, s1, rec.objSize) ==>
            step.s.lastKey == Rehydrate(e.id) && step.s.docs == s.docs + 1 &&
            step.s.bytes == s.bytes + rec.objSize && step.s.message == s.message + rec.data &&
            (step.Halt? <==> scan.pastDeadline(i)))
  {
  }

  // ---------------------------------------------------------------------------
  // Extra index keys check
  // ---------------------------------------------------------------------------

  /** The end of hashForExtraIndexKeysCheck: a batch that saw no key reports the batch's maximum. */
  function FinishKeys(cfg: HasherConfig, s: HasherState): HasherState
  {
    if s.keys == 0 then s.(lastKey := cfg.maxKey) else s
  }

  /** Hashing one index key: its bytes without the record id go to MD5. */
  function HashKey(s: HasherState, e: IndexKeyEntry): HasherState
    requires e.sizeWithoutRecordId <= |e.keyString|
  {
    s.(bytes := s.bytes + e.sizeWithoutRecordId, keys := s.keys + 1,
       message := s.message + e.keyString[..e.sizeWithoutRecordId], lastKey := e.bson)
  }

  /** The loop of hashForExtraIndexKeysCheck from the `i`-th index entry on. */
  function KeysFrom(cfg: HasherConfig, scan: IndexScan, s: HasherState, i: nat): (HasherState, Status)
    requires i <= |scan.entries| && WellFormedKeys(scan)
    decreases |scan.entries| - i
  {
    if i == |scan.entries| then (FinishKeys(cfg, s), OK)
    else if scan.interrupted(i) then (s, Err(Interrupted, ""))
    else
      var e := scan.entries[i];
      var s1 := HashKey(s, e);
      if e.keyString[..e.sizeWithoutRecordId] == scan.batchEnd then
        var s2 := s1.(nConsecutive := s1.nConsecutive + 1);
        if s2.nConsecutive >= scan.maxConsecutive then (FinishKeys(cfg, s2), OK)
        else KeysFrom(cfg, scan, s2, i + 1)
      else KeysFrom(cfg, scan, s1, i + 1)
  }

  /** The run of keys equal to the batch end is counted afresh for each batch. */
  function ExtraKeysScan(cfg: HasherConfig, scan: IndexScan, s: HasherState): (HasherState, Status)
    requires WellFormedKeys(scan)
  {
    KeysFrom(cfg, scan, s.(nConsecutive := 0), 0)
  }

  /** The extra-keys check fails only when interrupted. */
  lemma {:induction false} KeysStatus(cfg: HasherConfig, scan: IndexScan, s: HasherState, i: nat)
    decreases |scan.entries| - i
    requires i <= |scan.entries| && WellFormedKeys(scan)
    ensures var st := KeysFrom(cfg, scan, s, i).1;
      st.OK? || st.code == Interrupted
  {
    if i < |scan.entries| && !scan.interrupted(i) {
      var e := scan.entries[i];
      var s1 := HashKey(s, e);
      if e.keyString[..e.sizeWithoutRecordId] == scan.batchEnd {
        KeysStatus(cfg, scan, s1.(nConsecutive := s1.nConsecutive + 1), i + 1);
      } else {
        KeysStatus(cfg, scan, s1, i + 1);
      }
    }
  }

  /** The bytes counted are exactly the bytes hashed, and each key hashed is counted once. */
  lemma {:induction false} KeysBytesAreHashed(cfg: HasherConfig, scan: IndexScan, s: HasherState, i: nat)
    decreases |scan.entries| - i
    requires i <= |scan.entries| && WellFormedKeys(scan)
    ensures var r := KeysFrom(cfg, scan, s, i).0;
      r.bytes - s.bytes == |r.message| - |s.message| && s.message <= r.message
      && s.keys <= r.keys <= s.keys + |scan.entries| - i
  {
    if i < |scan.entries| && !scan.interrupted(i) {
      var e := scan.entries[i];
      var s1 := HashKey(s, e);
      if e.keyString[..e.sizeWithoutRecordId] == scan.batchEnd {
        KeysBytesAreHashed(cfg, scan, s1.(nConsecutive := s1.nConsecutive + 1), i + 1);
      } else {
        KeysBytesAreHashed(cfg, scan, s1, i + 1);
      }
    }
  }

  /** The run of identical keys at the batch end never exceeds its limit (or one, for a limit below one). */
  lemma {:induction false} KeysRunBounded(cfg: HasherConfig, scan: IndexScan, s: HasherState, i: nat)
    decreases |scan.entries| - i
    requires i <= |scan.entries| && WellFormedKeys(scan)
    requires s.nConsecutive < scan.maxConsecutive || s.nConsecutive == 0
    ensures KeysFrom(cfg, scan, s, i).0.nConsecutive <= if scan.maxConsecutive < 1 then 1 else scan.maxConsecutive
  {
    if i < |scan.entries| && !scan.interrupted(i) {
      var e := scan.entries[i];
      var s1 := HashKey(s, e);
      if e.keyString[..e.sizeWithoutRecordId] == scan.batchEnd {
        var s2 := s1.(nConsecutive := s1.nConsecutive + 1);
        if s2.nConsecutive < scan.maxConsecutive {
          KeysRunBounded(cfg, scan, s2, i + 1);
        }
      } else {
        KeysRunBounded(cfg, scan, s1, i + 1);
      }
    }
  }

  /** A batch that completes without having seen any key reports the batch's maximum as its last key. */
  lemma {:induction false} NoKeysMeansMaxKey(cfg: HasherConfig, scan: IndexScan, s: HasherState, i: nat)
    decreases |scan.entries| - i
    requires i <= |scan.entries| && WellFormedKeys(scan)
    ensures var (r, st) := KeysFrom(cfg, scan, s, i);
      st.OK? && r.keys == 0 ==> r.lastKey == cfg.maxKey
  {
    if i < |scan.entries| && !scan.interrupted(i) {
      var e := scan.entries[i];
      var s1 := HashKey(s, e);
      if e.keyString[..e.sizeWithoutRecordId] == scan.batchEnd {
        KeysBytesAreHashed(cfg, scan, s1.(nConsecutive := s1.nConsecutive + 1), i + 1);
      } else {
        KeysBytesAreHashed(cfg, scan, s1, i + 1);
      }
    }
  }

  /** The bytes of an index key that go to MD5: the key string without its record id. */
  function KeyBytes(e: IndexKeyEntry): (r: seq<Byte>)
    requires e.sizeWithoutRecordId <= |e.keyString|
    ensures |r| == e.sizeWithoutRecordId && r <= e.keyString
  {
    e.keyString[..e.sizeWithoutRecordId]
  }

  /** The `j`-th key equals the batch's end key. */
  predicate AtEnd(scan: IndexScan, j: nat)
    requires j < |scan.entries| && WellFormedKeys(scan)
  {
    KeyBytes(scan.entries[j]) == scan.batchEnd
  }

  /** How many of the keys `i` to `j - 1` equal the batch's end key. */
  function EndMatches(scan: IndexScan, i: nat, j: nat): (r: nat)
    requires i <= j <= |scan.entries| && WellFormedKeys(scan)
    ensures r <= j - i
    decreases j - i
  {
    if i == j then 0 else (if AtEnd(scan, i) then 1 else 0) + EndMatches(scan, i + 1, j)
  }

  /** The bytes of the keys `i` to `j - 1`, one after the other. */
  function KeysBytes(scan: IndexScan, i: nat, j: nat): seq<Byte>
    requires i <= j <= |scan.entries| && WellFormedKeys(scan)
    decreases j - i
  {
    if i == j then [] else KeyBytes(scan.entries[i]) + KeysBytes(scan, i + 1, j)
  }

  /**
   * The `j`-th key closes the run at the batch end: it equals the end key and,
   * counting the `n` seen before position `i`, the run reaches its limit.
   */
  predicate LimitAt(scan: IndexScan, n: nat, i: nat, j: nat)
    requires i <= j < |scan.entries| && WellFormedKeys(scan)
  {
    AtEnd(scan, j) && n + EndMatches(scan, i, j + 1) >= scan.maxConsecutive
  }

  /**
   * Where the walk that starts at `i` with a run of `n` stops: at the end of
   * the index, at an interrupted position, or just after the key that closes the run.
   */
  function KeysEnd(scan: IndexScan, n: nat, i: nat): (e: nat)
    requires i <= |scan.entries| && WellFormedKeys(scan)
    ensures i <= e <= |scan.entries|
    decreases |scan.entries| - i
  {
    if i == |scan.entries| || scan.interrupted(i) then i
    else if AtEnd(scan, i) && n + 1 >= scan.maxConsecutive then i + 1
    else KeysEnd(scan, if AtEnd(scan, i) then n + 1 else n, i + 1)
  }

  /** The walk stops at the first position that ends it: nothing before is interrupted or closes the run. */
  lemma {:induction false} KeysEndIsFirstStop(scan: IndexScan, n: nat, i: nat)
    decreases |scan.entries| - i
    requires i <= |scan.entries| && WellFormedKeys(scan)
    ensures var e := KeysEnd(scan, n, i);
      (forall j :: i <= j < e ==> !scan.interrupted(j))
      && (forall j :: i <= j < e - 1 ==> !LimitAt(scan, n, i, j))
      && (e == |scan.entries| || (e < |scan.entries| && scan.interrupted(e)) || (e > i && LimitAt(scan, n, i, e - 1)))
  {
    if i < |scan.entries| && !scan.interrupted(i) {
      var n' := if AtEnd(scan, i) then n + 1 else n;
      assert EndMatches(scan, i, i + 1) == (if AtEnd(scan, i) then 1 else 0);
      if !(AtEnd(scan, i) && n + 1 >= scan.maxConsecutive) {
        KeysEndIsFirstStop(scan, n', i + 1);
        var e := KeysEnd(scan, n', i + 1);
        forall j | i + 1 <= j < e
          ensures LimitAt(scan, n, i, j) == LimitAt(scan, n', i + 1, j)
        {
        }
        assert !LimitAt(scan, n, i, i);
      }
    }
  }

  /**
   * The extra-keys walk hashes exactly the keys before its stop, in order:
   * the hash gains their bytes, the counts grow by their number and sizes,
   * the run counts the ones equal to the end key, and nothing else changes.
   */
  lemma {:induction false} KeysRunAbsorbed(cfg: HasherConfig, scan: IndexScan, s: HasherState, i: nat)
    decreases |scan.entries| - i
    requires i <= |scan.entries| && WellFormedKeys(scan)
    ensures var r := KeysFrom(cfg, scan, s, i).0;
      var e := KeysEnd(scan, s.nConsecutive, i);
      r.message == s.message + KeysBytes(scan, i, e)
      && r.bytes == s.bytes + |KeysBytes(scan, i, e)|
      && r.keys == s.keys + (e - i)
      && r.nConsecutive == s.nConsecutive + EndMatches(scan, i, e)
      && r.docs == s.docs && r.missing == s.missing && r.logged == s.logged
  {
    if i < |scan.entries| && !scan.interrupted(i) {
      var e := scan.entries[i];
      var s1 := HashKey(s, e);
      if AtEnd(scan, i) {
        var s2 := s1.(nConsecutive := s1.nConsecutive + 1);
        if s2.nConsecutive < scan.maxConsecutive {
          KeysRunAbsorbed(cfg, scan, s2, i + 1);
          assert s1.message + KeysBytes(scan, i + 1, KeysEnd(scan, s2.nConsecutive, i + 1))
              == s.message + KeysBytes(scan, i, KeysEnd(scan, s.nConsecutive, i));
        } else {
          assert KeysBytes(scan, i, i + 1) == KeyBytes(e);
        }
      } else {
        KeysRunAbsorbed(cfg, scan, s1, i + 1);
        assert s1.message + KeysBytes(scan, i + 1, KeysEnd(scan, s.nConsecutive, i + 1))
            == s.message + KeysBytes(scan, i, KeysEnd(scan, s.nConsecutive, i));
      }
    }
  }

  /**
   * The walk fails exactly when it stops at an interrupted position (not just
   * after a key that closed the run); its last key is the last key hashed,
   * or, when it completes without one, the batch's maximum for a fresh batch.
   */
  lemma {:induction false} KeysStopOutcome(cfg: HasherConfig, scan: IndexScan, s: HasherState, i: nat)
    decreases |scan.entries| - i
    requires i <= |scan.entries| && WellFormedKeys(scan)
    ensures var (r, st) := KeysFrom(cfg, scan, s, i);
      var e := KeysEnd(scan, s.nConsecutive, i);
      (st.Err? <==> e < |scan.entries| && scan.interrupted(e) && !(e > i && LimitAt(scan, s.nConsecutive, i, e - 1)))
      && r.lastKey == (if e > i then scan.entries[e - 1].bson
                       else if st.OK? && s.keys == 0 then cfg.maxKey
                       else s.lastKey)
  {
    if i < |scan.entries| && !scan.interrupted(i) {
      var e := scan.entries[i];
      var s1 := HashKey(s, e);
      assert EndMatches(scan, i, i + 1) == (if AtEnd(scan, i) then 1 else 0);
      var s' := if AtEnd(scan, i) then s1.(nConsecutive := s1.nConsecutive + 1) else s1;
      if !(AtEnd(scan, i) && s'.nConsecutive >= scan.maxConsecutive) {
        KeysStopOutcome(cfg, scan, s', i + 1);
        KeysBytesAreHashed(cfg, scan, s', i + 1);
        var end := KeysEnd(scan, s'.nConsecutive, i + 1);
        if end > i + 1 {
          assert EndMatches(scan, i, end) == EndMatches(scan, i, i + 1) + EndMatches(scan, i + 1, end);
        }
      }
    }
  }

  /**
   * One batch of the extra-keys check, from a run of zero: it hashes the keys
   * up to the first stop, and reports the last of them (or the batch's
   * maximum when none was seen at all).
   */
  lemma ExtraKeysBatchHashes(cfg: HasherConfig, scan: IndexScan, s: HasherState)
    requires WellFormedKeys(scan)
    ensures var (r, st) := ExtraKeysScan(cfg, scan, s);
      var e := KeysEnd(scan, 0, 0);
      r.message == s.message + KeysBytes(scan, 0, e)
      && r.keys == s.keys + e && r.nConsecutive == EndMatches(scan, 0, e)
      && (st.Err? <==> e < |scan.entries| && scan.interrupted(e) && !(e > 0 && LimitAt(scan, 0, 0, e - 1)))
      && r.lastKey == (if e > 0 then scan.entries[e - 1].bson
                       else if st.OK? && s.keys == 0 then cfg.maxKey
                       else s.lastKey)
  {
    KeysRunAbsorbed(cfg, scan, s.(nConsecutive := 0), 0);
    KeysStopOutcome(cfg, scan, s.(nConsecutive := 0), 0);
  }

  // ---------------------------------------------------------------------------
  // The hasher
  // ---------------------------------------------------------------------------

  class Hasher {
    const nss: Namespace
    const uuid: Uuid
    const maxKey: BsonObj
    const indexName: Option<string>
    const maxCount: int
    const maxBytes: int
    const parameters: Option<SecondaryIndexCheckParameters>
    const indexes: seq<IndexEntry>

    var message: seq<Byte>
    var countDocsSeen: nat
    var countKeysSeen: nat
    var bytesSeen: nat
    var lastKeySeen: BsonObj
    var nConsecutiveAtEnd: nat
    var missingIndexKeys: seq<BsonObj>
    /** The entries this hasher wrote to the health log, oldest first. */
    var healthLog: seq<HealthLogEntry>

    function Config(): HasherConfig
    {
      HasherConfig(nss, uuid, maxKey, maxCount, maxBytes, parameters, indexes)
    }

    function State(): HasherState
      reads this
    {
      HasherState(message, countDocsSeen, countKeysSeen, bytesSeen, lastKeySeen, nConsecutiveAtEnd,
                  missingIndexKeys, healthLog)
    }

    /** The hasher of one batch ending at `end`; missing-keys mode keeps the catalog's non-_id indexes. */
    constructor (nss: Namespace, uuid: Uuid, end: BsonObj,
                 parameters: Option<SecondaryIndexCheckParameters>, indexName: Option<string>,
                 catalog: seq<IndexEntry>, maxCount: int, maxBytes: int)
      ensures Config() == HasherConfig(nss, uuid, end, maxCount, maxBytes, parameters, IndexesToCheck(parameters, catalog))
      ensures this.indexName == indexName
      ensures State() == EmptyState()
    {
      this.nss := nss;
      this.uuid := uuid;
      this.maxKey := end;
      this.indexName := indexName;
      this.maxCount := maxCount;
      this.maxBytes := maxBytes;
      this.parameters := parameters;
      this.indexes := IndexesToCheck(parameters, catalog);
      message := [];
      countDocsSeen := 0;
      countKeysSeen := 0;
      bytesSeen := 0;
      lastKeySeen := [];
      nConsecutiveAtEnd := 0;
      missingIndexKeys := [];
      healthLog := [];
    }

    /** total(): the MD5 digest of everything hashed so far. */
    function Total(md5: seq<Byte> -> string): string
      reads this
    {
      md5(message)
    }

    function CountSeen(): nat
      reads this
    {
      countDocsSeen + countKeysSeen
    }

    /** Probes one index for the expected keys of the document, as the inner loop of validateMissingKeys. */
    method ProbeIndex(ix: IndexEntry, doc: BsonObj, rid: int)
      modifies this`countKeysSeen, this`missingIndexKeys
      ensures countKeysSeen == old(countKeysSeen) + |Probes(ix, doc, rid)|
      ensures missingIndexKeys == old(missingIndexKeys) + MissingIn(ix, Probes(ix, doc, rid), rid)
    {
      if (ix.partial && !ix.filter(doc)) || (ix.accessMethod != BTree && ix.accessMethod != Hashed) {
        return;
      }
      var keys := ix.keysFor(doc, if ix.unique then None else Some(rid));
      var k := 0;
      while k < |keys|
        invariant 0 <= k <= |keys|
        invariant countKeysSeen == old(countKeysSeen) + k
        invariant missingIndexKeys == old(missingIndexKeys) + MissingIn(ix, keys[..k], rid)
      {
        var key := keys[k];
        assert keys[..k + 1][..k] == keys[..k];
        countKeysSeen := countKeysSeen + 1;
        if ix.seek(key) != Some(rid) {
          missingIndexKeys := missingIndexKeys + [MissingKeyReport(ix, key, rid)];
        }
        k := k + 1;
      }
      assert keys[..k] == keys;
    }

    /** validateMissingKeys: probes every checked index for every expected key of the document. */
    method ValidateMissingKeys(doc: BsonObj, rid: int) returns (status: Status)
      modifies this`countKeysSeen, this`missingIndexKeys
      ensures countKeysSeen == old(countKeysSeen) + ProbeCount(indexes, doc, rid)
      ensures missingIndexKeys == old(missingIndexKeys) + MissingKeysOf(indexes, doc, rid)
      ensures status == if |missingIndexKeys| > 0 then Err(NoSuchKey, MISSING_KEYS_MSG) else OK
    {
      var j := 0;
      while j < |indexes|
        invariant 0 <= j <= |indexes|
        invariant countKeysSeen == old(countKeysSeen) + ProbeCount(indexes[..j], doc, rid)
        invariant missingIndexKeys == old(missingIndexKeys) + MissingKeysOf(indexes[..j], doc, rid)
      {
        assert indexes[..j + 1][..j] == indexes[..j];
        ProbeIndex(indexes[j], doc, rid);
        j := j + 1;
      }
      assert indexes[..j] == indexes;
      if |missingIndexKeys| > 0 {
        return Err(NoSuchKey, MISSING_KEYS_MSG);
      }
      return OK;
    }

    /** Logs what BSON validation finds wrong with a record, in missing-keys mode. */
    method LogValidation(scan: CollectionScan, rec: Record, rid: int, objId: BsonObj)
      modifies this`healthLog
      ensures healthLog == old(healthLog) + ValidationLog(Config(), scan, rec, rid, objId)
    {
      if MissingKeysMode(parameters) {
        var valid := scan.validate(rec.data);
        if !valid.OK? {
          var entry;
          if valid.code != NonConformantBSON {
            entry := ErrorEntry(parameters, Some(nss), Some(uuid), MALFORMED_MSG, Document, Batch, valid, DocContext(rid, objId));
          } else {
            entry := WarningEntry(parameters, nss, Some(uuid), MALFORMED_MSG, Document, Batch, valid, DocContext(rid, objId));
          }
          healthLog := healthLog + [entry];
        }
      }
    }

    /** The missing-keys check of one document, logged when keys are missing. */
    method CheckMissingKeys(doc: BsonObj, rid: int, objId: BsonObj)
      modifies this`countKeysSeen, this`missingIndexKeys, this`healthLog
      ensures State() == MissingKeysStep(Config(), old(State()), doc, rid, objId)
    {
      ghost var s0 := State();
      missingIndexKeys := [];
      var st := ValidateMissingKeys(doc, rid);
      assert [] + MissingKeysOf(indexes, doc, rid) == MissingKeysOf(indexes, doc, rid);
      assert State() == s0.(missing := MissingKeysOf(indexes, doc, rid), keys := s0.keys + ProbeCount(indexes, doc, rid));
      if !st.OK? {
        healthLog := healthLog + [MissingKeysEntry(Config(), rid, objId, missingIndexKeys)];
      }
    }

    /** One turn of the loop of hashForCollectionCheck; `halt` says the loop returns `status`. */
    method CollectionTurn(scan: CollectionScan, i: nat) returns (halt: bool, status: Status)
      requires i < |scan.entries|
      modifies this`message, this`countDocsSeen, this`countKeysSeen, this`bytesSeen, this`lastKeySeen,
               this`missingIndexKeys, this`healthLog
      ensures CollectionStep(Config(), scan, old(State()), i) == if halt then Halt(State(), status) else Continue(State())
    {
      var e := scan.entries[i];
      if scan.interrupted(i) {
        return true, Err(Interrupted, "");
      }
      var objId := Rehydrate(e.id);
      if e.recordId !in scan.store {
        healthLog := healthLog + [MissingRecordEntry(Config(), e.recordId, objId)];
        return false, OK;
      }
      var rec := scan.store[e.recordId];
      LogValidation(scan, rec, e.recordId, objId);
      if FieldValue(rec.doc, "_id").None? {
        return true, Err(NoSuchKey, "missing _id");
      }
      if !CanHash(Config(), State(), rec.objSize) {
        return true, OK;
      }
      if MissingKeysMode(parameters) {
        CheckMissingKeys(rec.doc, e.recordId, objId);
      }
      lastKeySeen := objId;
      countDocsSeen := countDocsSeen + 1;
      bytesSeen := bytesSeen + rec.objSize;
      message := message + rec.data;
      if scan.pastDeadline(i) {
        return true, OK;
      }
      return false, OK;
    }

    /** hashForCollectionCheck over the _id index walk `scan`. */
    method HashForCollectionCheck(scan: CollectionScan) returns (status: Status)
      modifies this`message, this`countDocsSeen, this`countKeysSeen, this`bytesSeen, this`lastKeySeen,
               this`missingIndexKeys, this`healthLog
      ensures (State(), status) == ScanFrom(Config(), scan, old(State()), 0)
    {
      var i := 0;
      while i < |scan.entries|
        invariant 0 <= i <= |scan.entries|
        invariant ScanFrom(Config(), scan, State(), i) == ScanFrom(Config(), scan, old(State()), 0)
      {
        var halt;
        halt, status := CollectionTurn(scan, i);
        if halt {
          return;
        }
        i := i + 1;
      }
      lastKeySeen := maxKey;
      return OK;
    }

    /** hashForExtraIndexKeysCheck over the index walk `scan`, which starts at the batch start. */
    method HashForExtraIndexKeysCheck(scan: IndexScan) returns (status: Status)
      requires WellFormedKeys(scan)
      modifies this`message, this`countKeysSeen, this`bytesSeen, this`lastKeySeen, this`nConsecutiveAtEnd
      ensures (State(), status) == ExtraKeysScan(Config(), scan, old(State()))
    {
      nConsecutiveAtEnd := 0;
      var i := 0;
      while i < |scan.entries|
        invariant 0 <= i <= |scan.entries|
        invariant KeysFrom(Config(), scan, State(), i) == ExtraKeysScan(Config(), scan, old(State()))
      {
        if scan.interrupted(i) {
          return Err(Interrupted, "");
        }
        var e := scan.entries[i];
        ghost var s := State();
        var size := e.sizeWithoutRecordId;
        bytesSeen := bytesSeen + size;
        countKeysSeen := countKeysSeen + 1;
        message := message + e.keyString[..size];
        lastKeySeen := e.bson;
        assert State() == HashKey(s, e);
        if e.keyString[..size] == scan.batchEnd {
          nConsecutiveAtEnd := nConsecutiveAtEnd + 1;
          if nConsecutiveAtEnd >= scan.maxConsecutive {
            break;
          }
        }
        assert KeysFrom(Config(), scan, s, i) == KeysFrom(Config(), scan, State(), i + 1);
        i := i + 1;
      }
      if countKeysSeen == 0 {
        lastKeySeen := maxKey;
      }
      return OK;
    }
  }
}
