/**
 * The health-log side of dbCheck: the enums it renders, the expected/found
 * reports and the entries it writes to the health log.
 *
 * BSON objects are modelled as sequences of named fields; the pieces of a
 * BSON object that dbCheck only copies through (a status text, a record id,
 * an oplog time) are carried as values of their own.
 */
module DbCheckLog {

  import opened Wrappers

  type Byte = x: int | 0 <= x < 256

  // ---------------------------------------------------------------------------
  // Statuses and BSON
  // ---------------------------------------------------------------------------

  datatype ErrorCode =
    | NoSuchKey
    | KeyNotFound
    | NonConformantBSON
    | InvalidBSON
    | Interrupted
    | IndexNotFound
    | OtherError(name: string)

  datatype Status = OK | Err(code: ErrorCode, reason: string)

  datatype BsonValue =
    | BStr(s: string)
    | BBool(b: bool)
    | BInt(i: int)
    | BDoc(fields: seq<BsonField>)
    | BArr(items: seq<BsonValue>)
    | BMinKey
    | BMaxKey
    | BStatus(status: Status)    // a status rendered with toString()
    | BRecordId(rid: int)        // a record id rendered with toString()
    | BUuid(uuid: Uuid)
    | BTimestamp(ts: int)
    | BKey(bytes: seq<Byte>)

  datatype BsonField = BsonField(name: string, value: BsonValue)

  type BsonObj = seq<BsonField>

  type Uuid = seq<Byte>

  /** The value of the first field called `name`, if any. */
  function FieldValue(obj: BsonObj, name: string): (r: Option<BsonValue>)
    ensures r.Some? ==> BsonField(name, r.value) in obj
  {
    if obj == [] then None
    else if obj[0].name == name then Some(obj[0].value)
    else FieldValue(obj[1..], name)
  }

  /** A field is found exactly when the object has a field of that name. */
  lemma {:induction false} FieldValueFound(obj: BsonObj, name: string)
    ensures FieldValue(obj, name).Some? <==> exists i :: 0 <= i < |obj| && obj[i].name == name
  {
    if obj != [] && obj[0].name != name {
      FieldValueFound(obj[1..], name);
      if exists i :: 0 <= i < |obj| && obj[i].name == name {
        var i :| 0 <= i < |obj| && obj[i].name == name;
        assert obj[1..][i - 1].name == name;
      }
    }
  }

  /**
   * BSONObj::addField: the field replaces the first field of the same name,
   * keeping the field order, or is appended when there is none.
   */
  function AddField(obj: BsonObj, f: BsonField): (r: BsonObj)
    ensures FieldValue(r, f.name) == Some(f.value)
  {
    if obj == [] then [f]
    else if obj[0].name == f.name then [f] + obj[1..]
    else [obj[0]] + AddField(obj[1..], f)
  }

  /** Adding a field keeps every field of another name and brings in no other field. */
  lemma {:induction false} AddFieldKeepsOthers(obj: BsonObj, f: BsonField)
    ensures forall i :: 0 <= i < |obj| && obj[i].name != f.name ==> obj[i] in AddField(obj, f)
    ensures forall g :: g in AddField(obj, f) ==> g == f || g in obj
  {
    if obj != [] && obj[0].name != f.name {
      AddFieldKeepsOthers(obj[1..], f);
      forall i | 0 <= i < |obj| && obj[i].name != f.name
        ensures obj[i] in AddField(obj, f)
      {
        if i > 0 {
          assert obj[i] == obj[1..][i - 1];
        }
      }
    }
  }

  // ---------------------------------------------------------------------------
  // Enums and their renderings
  // ---------------------------------------------------------------------------

  datatype OplogEntries = Batch | Collection | Start | Stop

  datatype ValidateMode =
    | DataConsistency
    | DataConsistencyAndMissingIndexKeysCheck
    | ExtraIndexKeysCheck

  datatype Severity = Info | Warning | Error

  datatype Scope = Cluster | Document | Index

  /** renderForHealthLog for an oplog entry type: the health log's `operation`. */
  function RenderOp(op: OplogEntries): (r: string)
    ensures |r| > 7 && r[..7] == "dbCheck"
  {
    match op
    case Batch => "dbCheckBatch"
    case Collection => "dbCheckCollection"
    case Start => "dbCheckStart"
    case Stop => "dbCheckStop"
  }

  /** Distinct operations are told apart in the health log. */
  lemma RenderOpInjective(a: OplogEntries, b: OplogEntries)
    ensures RenderOp(a) == RenderOp(b) <==> a == b
  {
    if a != b {
      var ra, rb := RenderOp(a), RenderOp(b);
      assert ra[7] != rb[7] || |ra| != |rb|;
    }
  }

  /** renderForHealthLog for a validation mode. */
  function RenderMode(m: ValidateMode): (r: string)
    ensures |r| > 0
  {
    match m
    case DataConsistency => "dataConsistency"
    case DataConsistencyAndMissingIndexKeysCheck => "dataConsistencyAndMissingIndexKeysCheck"
    case ExtraIndexKeysCheck => "extraIndexKeysCheck"
  }

  /** Distinct validation modes are told apart in the health log. */
  lemma RenderModeInjective(a: ValidateMode, b: ValidateMode)
    ensures RenderMode(a) == RenderMode(b) <==> a == b
  {
    if a != b {
      var ra, rb := RenderMode(a), RenderMode(b);
      assert |ra| != |rb|;
    }
  }

  // ---------------------------------------------------------------------------
  // Expected / found reports
  // ---------------------------------------------------------------------------

  datatype Report = Report(matches: bool, obj: BsonObj)

  /** expectedFound for two present values. */
  function ExpectedFound(expected: BsonValue, found: BsonValue): (r: Report)
    ensures r.matches <==> expected == found
    ensures FieldValue(r.obj, "expected") == Some(expected)
    ensures FieldValue(r.obj, "found") == Some(found)
  {
    Report(expected == found, [BsonField("expected", expected), BsonField("found", found)])
  }

  /** The overload for optional values: absent values are left out of the report. */
  function ExpectedFoundOptional(expected: Option<BsonValue>, found: Option<BsonValue>): (r: Report)
    ensures r.matches <==> expected == found
    ensures FieldValue(r.obj, "expected") == expected
    ensures FieldValue(r.obj, "found") == found
  {
    var e := if expected.Some? then [BsonField("expected", expected.value)] else [];
    var f := if found.Some? then [BsonField("found", found.value)] else [];
    var obj := e + f;
    assert FieldValue(obj, "found") == found by {
      if expected.Some? { assert obj[1..] == f; }
    }
    if expected.Some? && found.Some? then Report(expected.value == found.value, obj)
    else if expected.Some? || found.Some? then Report(false, obj)
    else Report(true, obj)
  }

  // ---------------------------------------------------------------------------
  // Health-log entries
  // ---------------------------------------------------------------------------

  datatype NsKind = ChangeStreamPreImages | ConfigImages | ChangeCollection | Ordinary

  datatype Namespace = Namespace(name: string, kind: NsKind)

  datatype CollectionOptions = CollectionOptions(capped: bool)

  /** The secondary-index check parameters; `serialized` is their toBSON(). */
  datatype SecondaryIndexCheckParameters =
    SecondaryIndexCheckParameters(validateMode: ValidateMode, secondaryIndex: string, serialized: BsonObj)

  datatype HealthLogEntry = HealthLogEntry(
    nss: Option<Namespace>,
    collectionUUID: Option<Uuid>,
    severity: Severity,
    scope: Scope,
    msg: string,
    operation: string,
    data: Option<BsonObj>)

  const PARAMETERS_FIELD := "dbCheckParameters"

  /**
   * dbCheckHealthLogEntry: the fields are set from the arguments and the
   * parameters, when present, are added to the data under
   * "dbCheckParameters" (the data then exists even if none was given).
   */
  function HealthLogEntryOf(
    parameters: Option<SecondaryIndexCheckParameters>,
    nss: Option<Namespace>,
    uuid: Option<Uuid>,
    severity: Severity,
    msg: string,
    scope: Scope,
    operation: OplogEntries,
    data: Option<BsonObj>): (r: HealthLogEntry)
    ensures r.nss == nss && r.collectionUUID == uuid
    ensures r.severity == severity && r.scope == scope && r.msg == msg
    ensures r.operation == RenderOp(operation)
    ensures r.data.Some? <==> data.Some? || parameters.Some?
    ensures parameters.Some? ==>
      FieldValue(r.data.value, PARAMETERS_FIELD) == Some(BDoc(parameters.value.serialized))
    ensures parameters.None? ==> r.data == data
  {
    var recorded :=
      if data.Some? then
        if parameters.Some? then Some(AddField(data.value, BsonField(PARAMETERS_FIELD, BDoc(parameters.value.serialized))))
        else data
      else if parameters.Some? then Some([BsonField(PARAMETERS_FIELD, BDoc(parameters.value.serialized))])
      else None;
    HealthLogEntry(nss, uuid, severity, scope, msg, RenderOp(operation), recorded)
  }

  /**
   * The data given to an entry is kept: every field of it except one named
   * "dbCheckParameters" is in the entry, and the entry holds no field besides
   * those and the parameters.
   */
  lemma HealthLogEntryKeepsData(
    parameters: Option<SecondaryIndexCheckParameters>, nss: Option<Namespace>, uuid: Option<Uuid>,
    severity: Severity, msg: string, scope: Scope, operation: OplogEntries, data: BsonObj)
    ensures var r := HealthLogEntryOf(parameters, nss, uuid, severity, msg, scope, operation, Some(data));
      (forall i :: 0 <= i < |data| && data[i].name != PARAMETERS_FIELD ==> data[i] in r.data.value)
      && (forall g :: g in r.data.value ==> g in data || g.name == PARAMETERS_FIELD)
  {
    if parameters.Some? {
      AddFieldKeepsOthers(data, BsonField(PARAMETERS_FIELD, BDoc(parameters.value.serialized)));
    }
  }

  /** A field of the data that is the only one of its name is found in the entry built from it. */
  lemma EntryDataField(
    parameters: Option<SecondaryIndexCheckParameters>, nss: Option<Namespace>, uuid: Option<Uuid>,
    severity: Severity, msg: string, scope: Scope, operation: OplogEntries, data: BsonObj, f: BsonField)
    requires f in data && f.name != PARAMETERS_FIELD
    requires forall g :: g in data && g.name == f.name ==> g == f
    ensures var r := HealthLogEntryOf(parameters, nss, uuid, severity, msg, scope, operation, Some(data));
      r.data.Some? && FieldValue(r.data.value, f.name) == Some(f.value)
  {
    var r := HealthLogEntryOf(parameters, nss, uuid, severity, msg, scope, operation, Some(data));
    HealthLogEntryKeepsData(parameters, nss, uuid, severity, msg, scope, operation, data);
    var i :| 0 <= i < |data| && data[i] == f;
    UniqueName(r.data.value, f);
  }

  /** The data of an error or warning entry. */
  function FailureData(err: Status, context: BsonObj): BsonObj
  {
    [BsonField("success", BBool(false)), BsonField("error", BStatus(err)), BsonField("context", BDoc(context))]
  }

  /** dbCheckErrorHealthLogEntry: an Error entry reporting `err` in `context`. */
  function ErrorEntry(
    parameters: Option<SecondaryIndexCheckParameters>,
    nss: Option<Namespace>,
    uuid: Option<Uuid>,
    msg: string,
    scope: Scope,
    operation: OplogEntries,
    err: Status,
    context: BsonObj): (r: HealthLogEntry)
    ensures r.severity == Error && r.scope == scope && r.msg == msg
    ensures r.data.Some?
    ensures FieldValue(r.data.value, "success") == Some(BBool(false))
    ensures FieldValue(r.data.value, "error") == Some(BStatus(err))
    ensures FieldValue(r.data.value, "context") == Some(BDoc(context))
  {
    var data := FailureData(err, context);
    var r := HealthLogEntryOf(parameters, nss, uuid, Error, msg, scope, operation, Some(data));
    HealthLogEntryKeepsData(parameters, nss, uuid, Error, msg, scope, operation, data);
    assert data[0] in r.data.value && data[1] in r.data.value && data[2] in r.data.value;
    FailureFields(r.data.value, err, context);
    r
  }

  /**
   * The three failure fields are found in any object built from them by
   * dbCheckHealthLogEntry (other fields never share their names).
   */
  lemma FailureFields(obj: BsonObj, err: Status, context: BsonObj)
    requires forall g :: g in obj ==> g in FailureData(err, context) || g.name == PARAMETERS_FIELD
    requires FailureData(err, context)[0] in obj && FailureData(err, context)[1] in obj
    requires FailureData(err, context)[2] in obj
    ensures FieldValue(obj, "success") == Some(BBool(false))
    ensures FieldValue(obj, "error") == Some(BStatus(err))
    ensures FieldValue(obj, "context") == Some(BDoc(context))
  {
    UniqueName(obj, BsonField("success", BBool(false)));
    UniqueName(obj, BsonField("error", BStatus(err)));
    UniqueName(obj, BsonField("context", BDoc(context)));
  }

  /** A field that is the only one of its name is what FieldValue finds. */
  lemma {:induction false} UniqueName(obj: BsonObj, f: BsonField)
    requires f in obj
    requires forall g :: g in obj && g.name == f.name ==> g == f
    ensures FieldValue(obj, f.name) == Some(f.value)
  {
    if obj[0] != f {
      UniqueName(obj[1..], f);
    }
  }

  /**
   * dbCheckWarningHealthLogEntry as written: a Warning entry whose scope is
   * always Cluster, whatever scope the caller passes.
   */
  function WarningEntryAsWritten(
    parameters: Option<SecondaryIndexCheckParameters>,
    nss: Namespace,
    uuid: Option<Uuid>,
    msg: string,
    scope: Scope,
    operation: OplogEntries,
    err: Status,
    context: BsonObj): (r: HealthLogEntry)
    ensures r.severity == Warning && r.scope == Cluster && r.nss == Some(nss)
  {
    HealthLogEntryOf(parameters, Some(nss), uuid, Warning, msg, Cluster, operation, Some(FailureData(err, context)))
  }

  /** A caller asking for a Document-scoped warning gets a Cluster-scoped one. */
  lemma WarningScopeDropped(
    parameters: Option<SecondaryIndexCheckParameters>, nss: Namespace, uuid: Option<Uuid>,
    msg: string, operation: OplogEntries, err: Status, context: BsonObj)
    ensures WarningEntryAsWritten(parameters, nss, uuid, msg, Document, operation, err, context).scope != Document
  {
  }

  /** dbCheckWarningHealthLogEntry with the scope its caller asks for. */
  function WarningEntry(
    parameters: Option<SecondaryIndexCheckParameters>,
    nss: Namespace,
    uuid: Option<Uuid>,
    msg: string,
    scope: Scope,
    operation: OplogEntries,
    err: Status,
    context: BsonObj): (r: HealthLogEntry)
    ensures r.severity == Warning && r.scope == scope && r.nss == Some(nss) && r.msg == msg
    ensures r.data.Some?
    ensures FieldValue(r.data.value, "success") == Some(BBool(false))
    ensures FieldValue(r.data.value, "error") == Some(BStatus(err))
    ensures FieldValue(r.data.value, "context") == Some(BDoc(context))
  {
    var data := FailureData(err, context);
    var r := HealthLogEntryOf(parameters, Some(nss), uuid, Warning, msg, scope, operation, Some(data));
    HealthLogEntryKeepsData(parameters, Some(nss), uuid, Warning, msg, scope, operation, data);
    assert data[0] in r.data.value && data[1] in r.data.value && data[2] in r.data.value;
    FailureFields(r.data.value, err, context);
    r
  }

  /**
   * Collections whose batches may legitimately differ between nodes:
   * pre-images, config.image_collection, change collections and capped ones.
   */
  predicate RelaxedCollection(nss: Namespace, options: Option<CollectionOptions>)
  {
    nss.kind == ChangeStreamPreImages || nss.kind == ConfigImages || nss.kind == ChangeCollection
    || (options.Some? && options.value.capped)
  }

  /** The severity of a batch entry. */
  function BatchSeverity(hashesMatch: bool, nss: Namespace, options: Option<CollectionOptions>): (r: Severity)
    ensures r == Info <==> hashesMatch
    ensures r == Warning <==> !hashesMatch && RelaxedCollection(nss, options)
    ensures r == Error <==> !hashesMatch && !RelaxedCollection(nss, options)
  {
    if hashesMatch then Info
    else if RelaxedCollection(nss, options) then Warning
    else Error
  }

  /** The data of a batch entry, field by field in the order they are appended. */
  function BatchData(
    batchId: Option<Uuid>, count: int, bytes: int, md5: BsonObj,
    batchStart: BsonObj, batchEnd: BsonObj, nConsecutive: int,
    readTimestamp: Option<int>, optime: BsonObj, indexSpec: Option<BsonObj>): BsonObj
  {
    (if batchId.Some? then [BsonField("batchId", BUuid(batchId.value))] else [])
    + [BsonField("success", BBool(true)), BsonField("count", BInt(count)), BsonField("bytes", BInt(bytes)),
       BsonField("md5", BDoc(md5)), BsonField("batchStart", BDoc(batchStart)), BsonField("batchEnd", BDoc(batchEnd)),
       BsonField("nConsecutiveIdenticalIndexKeysSeenAtEnd", BInt(nConsecutive))]
    + (if readTimestamp.Some? then [BsonField("readTimestamp", BTimestamp(readTimestamp.value))] else [])
    + (if indexSpec.Some? then [BsonField("indexSpec", BDoc(indexSpec.value))] else [])
    + [BsonField("optime", BDoc(optime))]
  }

  const CONSISTENT_MSG := "dbCheck batch consistent"
  const INCONSISTENT_MSG := "dbCheck batch inconsistent"

  /**
   * dbCheckBatchEntry: a Cluster-scoped batch entry whose severity and message
   * say whether the primary's hash equals this node's.
   */
  function BatchEntry(
    parameters: Option<SecondaryIndexCheckParameters>,
    batchId: Option<Uuid>,
    nss: Namespace,
    uuid: Option<Uuid>,
    count: int,
    bytes: int,
    expectedHash: string,
    foundHash: string,
    batchStart: BsonObj,
    batchEnd: BsonObj,
    nConsecutive: int,
    readTimestamp: Option<int>,
    optime: BsonObj,
    options: Option<CollectionOptions>,
    indexSpec: Option<BsonObj>): (r: HealthLogEntry)
    ensures r.severity == BatchSeverity(expectedHash == foundHash, nss, options)
    ensures r.msg == (if expectedHash == foundHash then CONSISTENT_MSG else INCONSISTENT_MSG)
    ensures r.scope == Cluster && r.operation == RenderOp(Batch)
    ensures r.nss == Some(nss) && r.collectionUUID == uuid
    ensures r.data.Some?
    ensures FieldValue(r.data.value, "success") == Some(BBool(true))
    ensures FieldValue(r.data.value, "count") == Some(BInt(count))
    ensures FieldValue(r.data.value, "bytes") == Some(BInt(bytes))
    ensures FieldValue(r.data.value, "md5") == Some(BDoc(ExpectedFound(BStr(expectedHash), BStr(foundHash)).obj))
    ensures FieldValue(r.data.value, "batchStart") == Some(BDoc(batchStart))
    ensures FieldValue(r.data.value, "batchEnd") == Some(BDoc(batchEnd))
    ensures FieldValue(r.data.value, "nConsecutiveIdenticalIndexKeysSeenAtEnd") == Some(BInt(nConsecutive))
    ensures FieldValue(r.data.value, "optime") == Some(BDoc(optime))
    ensures batchId.Some? ==> FieldValue(r.data.value, "batchId") == Some(BUuid(batchId.value))
    ensures readTimestamp.Some? ==> FieldValue(r.data.value, "readTimestamp") == Some(BTimestamp(readTimestamp.value))
    ensures indexSpec.Some? ==> FieldValue(r.data.value, "indexSpec") == Some(BDoc(indexSpec.value))
  {
    var hashes := ExpectedFound(BStr(expectedHash), BStr(foundHash));
    var data := BatchData(batchId, count, bytes, hashes.obj, batchStart, batchEnd, nConsecutive,
                          readTimestamp, optime, indexSpec);
    var severity := BatchSeverity(hashes.matches, nss, options);
    var msg := if hashes.matches then CONSISTENT_MSG else INCONSISTENT_MSG;
    BatchDataFields(parameters, nss, uuid, severity, msg, batchId, count, bytes, hashes.obj, batchStart, batchEnd,
                    nConsecutive, readTimestamp, optime, indexSpec);
    HealthLogEntryOf(parameters, Some(nss), uuid, severity, msg, Cluster, Batch, Some(data))
  }

  /** No two fields of the object have the same name. */
  ghost predicate DistinctNames(obj: BsonObj)
  {
    forall i, j :: 0 <= i < j < |obj| ==> obj[i].name != obj[j].name
  }

  /** In an object whose names are distinct, a field is the only one of its name. */
  lemma DistinctNamesUnique(obj: BsonObj, f: BsonField)
    requires DistinctNames(obj) && f in obj
    ensures forall g :: g in obj && g.name == f.name ==> g == f
  {
    var i :| 0 <= i < |obj| && obj[i] == f;
    forall g | g in obj && g.name == f.name
      ensures g == f
    {
      var j :| 0 <= j < |obj| && obj[j] == g;
      assert !(i < j) && !(j < i);
    }
  }

  /** The fields of a batch entry's data have distinct names. */
  lemma BatchDataDistinct(
    batchId: Option<Uuid>, count: int, bytes: int, md5: BsonObj,
    batchStart: BsonObj, batchEnd: BsonObj, nConsecutive: int,
    readTimestamp: Option<int>, optime: BsonObj, indexSpec: Option<BsonObj>)
    ensures DistinctNames(BatchData(batchId, count, bytes, md5, batchStart, batchEnd, nConsecutive,
                                    readTimestamp, optime, indexSpec))
  {
  }

  /** Every field of a batch entry's data is the only one of its name, so the entry carries each. */
  lemma BatchDataFields(
    parameters: Option<SecondaryIndexCheckParameters>, nss: Namespace, uuid: Option<Uuid>,
    severity: Severity, msg: string,
    batchId: Option<Uuid>, count: int, bytes: int, md5: BsonObj,
    batchStart: BsonObj, batchEnd: BsonObj, nConsecutive: int,
    readTimestamp: Option<int>, optime: BsonObj, indexSpec: Option<BsonObj>)
    ensures var r := HealthLogEntryOf(parameters, Some(nss), uuid, severity, msg, Cluster, Batch,
                                      Some(BatchData(batchId, count, bytes, md5, batchStart, batchEnd, nConsecutive,
                                                     readTimestamp, optime, indexSpec)));
      r.data.Some?
      && FieldValue(r.data.value, "success") == Some(BBool(true))
      && FieldValue(r.data.value, "count") == Some(BInt(count))
      && FieldValue(r.data.value, "bytes") == Some(BInt(bytes))
      && FieldValue(r.data.value, "md5") == Some(BDoc(md5))
      && FieldValue(r.data.value, "batchStart") == Some(BDoc(batchStart))
      && FieldValue(r.data.value, "batchEnd") == Some(BDoc(batchEnd))
      && FieldValue(r.data.value, "nConsecutiveIdenticalIndexKeysSeenAtEnd") == Some(BInt(nConsecutive))
      && FieldValue(r.data.value, "optime") == Some(BDoc(optime))
      && (batchId.Some? ==> FieldValue(r.data.value, "batchId") == Some(BUuid(batchId.value)))
      && (readTimestamp.Some? ==> FieldValue(r.data.value, "readTimestamp") == Some(BTimestamp(readTimestamp.value)))
      && (indexSpec.Some? ==> FieldValue(r.data.value, "indexSpec") == Some(BDoc(indexSpec.value)))
  {
    var data := BatchData(batchId, count, bytes, md5, batchStart, batchEnd, nConsecutive, readTimestamp, optime, indexSpec);
    BatchDataDistinct(batchId, count, bytes, md5, batchStart, batchEnd, nConsecutive, readTimestamp, optime, indexSpec);
    DistinctField(parameters, Some(nss), uuid, severity, msg, Cluster, Batch, data, BsonField("success", BBool(true)));
    DistinctField(parameters, Some(nss), uuid, severity, msg, Cluster, Batch, data, BsonField("count", BInt(count)));
    DistinctField(parameters, Some(nss), uuid, severity, msg, Cluster, Batch, data, BsonField("bytes", BInt(bytes)));
    DistinctField(parameters, Some(nss), uuid, severity, msg, Cluster, Batch, data, BsonField("md5", BDoc(md5)));
    DistinctField(parameters, Some(nss), uuid, severity, msg, Cluster, Batch, data, BsonField("batchStart", BDoc(batchStart)));
    DistinctField(parameters, Some(nss), uuid, severity, msg, Cluster, Batch, data, BsonField("batchEnd", BDoc(batchEnd)));
    DistinctField(parameters, Some(nss), uuid, severity, msg, Cluster, Batch, data, BsonField("nConsecutiveIdenticalIndexKeysSeenAtEnd", BInt(nConsecutive)));
    DistinctField(parameters, Some(nss), uuid, severity, msg, Cluster, Batch, data, BsonField("optime", BDoc(optime)));
    if batchId.Some? {
      DistinctField(parameters, Some(nss), uuid, severity, msg, Cluster, Batch, data, BsonField("batchId", BUuid(batchId.value)));
    }
    if readTimestamp.Some? {
      DistinctField(parameters, Some(nss), uuid, severity, msg, Cluster, Batch, data, BsonField("readTimestamp", BTimestamp(readTimestamp.value)));
    }
    if indexSpec.Some? {
      DistinctField(parameters, Some(nss), uuid, severity, msg, Cluster, Batch, data, BsonField("indexSpec", BDoc(indexSpec.value)));
    }
  }

  /** A field of data whose names are distinct is found in an entry built from that data. */
  lemma DistinctField(
    parameters: Option<SecondaryIndexCheckParameters>, nss: Option<Namespace>, uuid: Option<Uuid>,
    severity: Severity, msg: string, scope: Scope, operation: OplogEntries, data: BsonObj, f: BsonField)
    requires DistinctNames(data) && f in data && f.name != PARAMETERS_FIELD
    ensures var r := HealthLogEntryOf(parameters, nss, uuid, severity, msg, scope, operation, Some(data));
      r.data.Some? && FieldValue(r.data.value, f.name) == Some(f.value)
  {
    DistinctNamesUnique(data, f);
    EntryDataField(parameters, nss, uuid, severity, msg, scope, operation, data, f);
  }

  /** A batch entry is an Info entry exactly when its message says consistent. */
  lemma BatchEntryInfoIffConsistent(
    parameters: Option<SecondaryIndexCheckParameters>, batchId: Option<Uuid>, nss: Namespace,
    uuid: Option<Uuid>, count: int, bytes: int, expectedHash: string, foundHash: string,
    batchStart: BsonObj, batchEnd: BsonObj, nConsecutive: int, readTimestamp: Option<int>,
    optime: BsonObj, options: Option<CollectionOptions>, indexSpec: Option<BsonObj>)
    ensures var r := BatchEntry(parameters, batchId, nss, uuid, count, bytes, expectedHash, foundHash,
                                batchStart, batchEnd, nConsecutive, readTimestamp, optime, options, indexSpec);
      r.severity == Info <==> r.msg == CONSISTENT_MSG
  {
  }
}
