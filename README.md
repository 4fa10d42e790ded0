# dbCheck, the document field cache and the BSONColumn materializer, in Dafny

This project models three sequential pieces of the MongoDB server and proves properties of them.

- **dbCheck** (`src/mongo/db/repl/dbcheck.cpp`), the replica-set consistency checker.
  - `DbCheckHasher` walks one batch. The batch is either documents through the `_id` index or the keys of one secondary index.
  - It feeds every accepted item to an MD5 state and counts documents, keys and bytes. It stops at the batch's count and byte ceilings.
  - In missing-index-keys mode it validates each document's BSON and probes every secondary index for the keys the document should have.
  - `dbCheckBatchOnSecondary` re-hashes a batch on a secondary and writes a health-log entry whose severity says whether the hashes match. Every failure is turned into a health-log entry; the function itself always returns OK.
  - `dbCheckOplogCommand` decodes a dbCheck oplog entry and decides whether the batch is applied or skipped.
  - Modules `DbCheckLog` (`dbcheck_log.dfy`), `DbCheckHasher` (`dbcheck_hasher.dfy`) and `DbCheckApply` (`dbcheck_apply.dfy`).
  - The hasher and the process-wide batch counter are classes whose methods update their fields. Each method is proved equal to a specification function over a state datatype, and the properties are lemmas about those functions.
- **The document field cache** (`src/mongo/db/exec/document_value/document.cpp`).
  - `DocumentStorage` is an append-only buffer of named fields, filled lazily from the backing BSON. Its power-of-two bucket hash table chains collisions through the fields themselves.
  - It is the class `DocumentCache.DocumentStorage`. Its invariant `Valid()` ties the hash chains to "the first later field of the same bucket" (`ChainsOK`).
  - The file's pure parts are in module `DocumentValue`: `Document::compare` and the two dotted-path lookups.
- **The BSONColumn → SBE materializer** (`src/mongo/db/exec/sbe/values/bsoncolumn_materializer.h`), in module `Materializer`.
  - Scalar values become (tag, 64-bit word) pairs, and the `get<T>` accessors read them back.
  - Strings, code, BinData, Decimal128 and ObjectIds are written into freshly allocated byte arrays in the BSON layouts. Each layout is proved to read back to what was written.
  - `ElementStorageValueBlock` is modelled as a class.

The following are inputs of the model rather than things it computes:
- the MD5 digest, a function of the bytes appended to the MD5 state;
- the cursors, sequences of entries;
- interruption and the deadline, functions of the cursor position;
- the record store, a map from record id to record;
- BSON validation, index key generation and index seeks;
- key rehydration;
- the constants of `document.h`, such as `HASH_TAB_MIN` and the field-name hash.

A C++ exception (`iassert`, `uassertStatusOK`) becomes an error status. The caller that catches it handles that status.

## Model

| member | source | states |
|---|---|---|
| `Materializer.FromLEOfLE` | src/mongo/db/exec/sbe/values/bsoncolumn_materializer.h:72-73 | reading back the n little-endian bytes written for x gives x |
| `Materializer.LEOfFromLE` | src/mongo/db/exec/sbe/values/bsoncolumn_materializer.h:217 | re-encoding the number read from little-endian bytes reproduces the bytes |
| `Materializer.Int32Bits` | src/mongo/db/exec/sbe/values/bsoncolumn_materializer.h:57-58 | the 32-bit pattern of a signed int32 is below 2^32 and decodes back to the same int32 |
| `Materializer.Int64Bits` | src/mongo/db/exec/sbe/values/bsoncolumn_materializer.h:61-62 | the 64-bit pattern of a signed int64 is below 2^64 and decodes back to the same int64 |
| `Materializer.TimestampFromULL` | src/mongo/db/exec/sbe/values/bsoncolumn_materializer.h:300-301 | splitting a 64-bit word gives seconds and increment that each fit in 32 bits |
| `Materializer.MaterializeMissing` | src/mongo/db/exec/sbe/values/bsoncolumn_materializer.h:132-138 | the element for an absent value is one `isMissing` recognises (tag Nothing) |
| `Materializer.GetString` | src/mongo/db/exec/sbe/values/bsoncolumn_materializer.h:274-275 | only a small-string, string or code element yields a string, and a small string yields its own characters |
| `Materializer.BinDataView` | src/mongo/db/exec/sbe/values/bsoncolumn_materializer.h:280-281 | a BinData view never reads past the bytes: the length prefix is the payload length, the subtype is byte 4 and the payload follows it |
| `Materializer.MaterializeBool` | src/mongo/db/exec/sbe/values/bsoncolumn_materializer.h:53-55 | tag Boolean, not missing, and the word is non-zero exactly when the value is true |
| `Materializer.MaterializeInt32` | src/mongo/db/exec/sbe/values/bsoncolumn_materializer.h:57-59 | tag NumberInt32, and `get<int32_t>` gives back the value |
| `Materializer.MaterializeInt64` | src/mongo/db/exec/sbe/values/bsoncolumn_materializer.h:61-63 | tag NumberInt64, and `get<int64_t>` gives back the value |
| `Materializer.MaterializeDate` | src/mongo/db/exec/sbe/values/bsoncolumn_materializer.h:77-79 | tag Date, and `get<Date_t>` gives back the milliseconds since the epoch |
| `Materializer.MaterializeTimestamp` | src/mongo/db/exec/sbe/values/bsoncolumn_materializer.h:81-83 | tag Timestamp, and `get<Timestamp>` gives back the timestamp (the `asULL` word split again) |
| `Materializer.GetInt32` | src/mongo/db/exec/sbe/values/bsoncolumn_materializer.h:298-299 | the value read from the word is a signed 32-bit integer |
| `Materializer.GetInt64` | src/mongo/db/exec/sbe/values/bsoncolumn_materializer.h:302-303 | the value read from the word is a signed 64-bit integer |
| `Materializer.GetDate` | src/mongo/db/exec/sbe/values/bsoncolumn_materializer.h:286-287 | the milliseconds are the word read as `get<int64_t>` reads it, a signed 64-bit integer |
| `Materializer.GetTimestamp` | src/mongo/db/exec/sbe/values/bsoncolumn_materializer.h:300-301 | the timestamp read from the word has 32-bit halves |
| `Materializer.LengthPrefixedString` | src/mongo/db/exec/sbe/values/bsoncolumn_materializer.h:158-168 | the string layout is 4 + n + 1 bytes long |
| `Materializer.StringView` | src/mongo/db/exec/sbe/values/bsoncolumn_materializer.h:274-275 | a string read from a layout is at least 5 bytes shorter than the layout |
| `Materializer.BinDataBytes` | src/mongo/db/exec/sbe/values/bsoncolumn_materializer.h:97-108 | the BinData layout is 5 + len bytes long |
| `Materializer.Decimal128Bytes` | src/mongo/db/exec/sbe/values/bsoncolumn_materializer.h:69-75 | the Decimal128 layout is 16 bytes long |
| `Materializer.Decimal128View` | src/mongo/db/exec/sbe/values/bsoncolumn_materializer.h:304-305 | a Decimal128 read from bytes has two 64-bit halves |
| `Materializer.OidView` | src/mongo/db/exec/sbe/values/bsoncolumn_materializer.h:282-283 | an ObjectId read from bytes is exactly 12 bytes |
| `Materializer.StringRoundTrip` | src/mongo/db/exec/sbe/values/bsoncolumn_materializer.h:158-168 | reading a length-prefixed, NUL-terminated string back gives the string written |
| `Materializer.BinDataRoundTrip` | src/mongo/db/exec/sbe/values/bsoncolumn_materializer.h:97-108 | reading the BinData layout back gives the subtype and data written |
| `Materializer.Decimal128RoundTrip` | src/mongo/db/exec/sbe/values/bsoncolumn_materializer.h:69-75 | reading the 16-byte layout back gives `low64` and `high64` as written |
| `Materializer.WriteLE` | src/mongo/db/exec/sbe/values/bsoncolumn_materializer.h:72-73 | a `DataView` write puts the n little-endian bytes of x at the offset and changes no other byte |
| `Materializer.CopyBytes` | src/mongo/db/exec/sbe/values/bsoncolumn_materializer.h:164 | a `memcpy` puts the source bytes at the offset and changes no other byte |
| `Materializer.CopyStringWithLengthPrefix` | src/mongo/db/exec/sbe/values/bsoncolumn_materializer.h:158-168 | a fresh buffer holds int32 n+1 little-endian, the n bytes, then one zero byte |
| `Materializer.MaterializeString` | src/mongo/db/exec/sbe/values/bsoncolumn_materializer.h:85-95 | a small string exactly when `canUseSmallString` holds, otherwise a fresh bsonString copy in the length-prefixed layout; either way `get<StringData>` gives back the string |
| `Materializer.MaterializeCode` | src/mongo/db/exec/sbe/values/bsoncolumn_materializer.h:110-112 | tag bsonJavascript over a fresh length-prefixed copy; `get<BSONCode>` gives back the code |
| `Materializer.MaterializeBinData` | src/mongo/db/exec/sbe/values/bsoncolumn_materializer.h:97-108 | tag bsonBinData over a fresh buffer in the BinData layout, which reads back to the value |
| `Materializer.MaterializeDecimal` | src/mongo/db/exec/sbe/values/bsoncolumn_materializer.h:69-75 | tag NumberDecimal over a fresh 16-byte buffer, which reads back to the value |
| `Materializer.MaterializeOid` | src/mongo/db/exec/sbe/values/bsoncolumn_materializer.h:114-118 | tag bsonObjectId over a fresh copy of exactly the 12 id bytes |
| `Materializer.MaterializeBoolElement` | src/mongo/db/exec/sbe/values/bsoncolumn_materializer.h:171-176 | the BSON overload is the scalar overload applied to "value byte is not zero" |
| `Materializer.MaterializeInt32Element` | src/mongo/db/exec/sbe/values/bsoncolumn_materializer.h:178-183 | tag NumberInt32 with a word value |
| `Materializer.MaterializeInt64Element` | src/mongo/db/exec/sbe/values/bsoncolumn_materializer.h:185-190 | tag NumberInt64 with a word value |
| `Materializer.MaterializeDateElement` | src/mongo/db/exec/sbe/values/bsoncolumn_materializer.h:206-211 | tag Date with a word value; `DateElementAgrees` ties it to the scalar overload |
| `Materializer.MaterializeTimestampElement` | src/mongo/db/exec/sbe/values/bsoncolumn_materializer.h:213-219 | tag Timestamp with a word value |
| `Materializer.MaterializeDecimalElement` | src/mongo/db/exec/sbe/values/bsoncolumn_materializer.h:199-204 | tag NumberDecimal pointing at the element's own value bytes (a view, no copy) |
| `Materializer.MaterializeStringElement` | src/mongo/db/exec/sbe/values/bsoncolumn_materializer.h:221-232 | a small string when it fits, otherwise a bsonString view of the element's bytes; `get<StringData>` gives the element's string |
| `Materializer.MaterializeBinDataElement` | src/mongo/db/exec/sbe/values/bsoncolumn_materializer.h:234-239 | tag bsonBinData pointing at the element's value bytes |
| `Materializer.MaterializeCodeElement` | src/mongo/db/exec/sbe/values/bsoncolumn_materializer.h:241-246 | tag bsonJavascript pointing at the element's value bytes |
| `Materializer.MaterializeOidElement` | src/mongo/db/exec/sbe/values/bsoncolumn_materializer.h:248-253 | tag bsonObjectId pointing at the element's value bytes |
| `Materializer.Int32ElementAgrees` | src/mongo/db/exec/sbe/values/bsoncolumn_materializer.h:178-183 | the BSON overload on an int32's little-endian bytes equals the scalar overload on the int32 |
| `Materializer.Int64ElementAgrees` | src/mongo/db/exec/sbe/values/bsoncolumn_materializer.h:185-190 | the BSON overload on an int64's little-endian bytes equals the scalar overload on the int64 |
| `Materializer.DateElementAgrees` | src/mongo/db/exec/sbe/values/bsoncolumn_materializer.h:206-211 | the BSON overload on a date's little-endian milliseconds equals the scalar overload on the date |
| `Materializer.TimestampElementAgrees` | src/mongo/db/exec/sbe/values/bsoncolumn_materializer.h:213-219 | reading the little-endian `asULL` word of a timestamp equals materialising the timestamp |
| `Materializer.StringElementAgrees` | src/mongo/db/exec/sbe/values/bsoncolumn_materializer.h:221-232 | the BSON overload on a string's length-prefixed layout yields that string through `get<StringData>` |
| `Materializer.ElementStorageValueBlock.constructor` | src/mongo/db/exec/sbe/values/bsoncolumn_materializer.h:345-348 | the block holds the given storage, tags and values |
| `Materializer.ElementStorageValueBlock.Size` | src/mongo/db/exec/sbe/values/bsoncolumn_materializer.h:350-352 | `size()` is the number of tags |
| `Materializer.ElementStorageValueBlock.Count` | src/mongo/db/exec/sbe/values/bsoncolumn_materializer.h:354-356 | `count()` is the number of values |
| `Materializer.ElementStorageValueBlock.Deblock` | src/mongo/db/exec/sbe/values/bsoncolumn_materializer.h:358-360 | `deblock` reports the value count and both vectors |
| `Materializer.ElementStorageValueBlock.Clone` | src/mongo/db/exec/sbe/values/bsoncolumn_materializer.h:362-364 | `clone` is a new block sharing the storage, with equal tags and values |
| `DocumentValue.NameCompare` | src/mongo/db/exec/document_value/document.cpp:768-770 | a field-name comparison answers -1, 0 or 1 |
| `DocumentValue.NameCompareZeroIffEqual` | src/mongo/db/exec/document_value/document.cpp:768-770 | two names compare equal exactly when they are the same string |
| `DocumentValue.NameCompareAntisymmetric` | src/mongo/db/exec/document_value/document.cpp:768-770 | swapping the names negates the answer |
| `DocumentValue.CompareFields` | src/mongo/db/exec/document_value/document.cpp:745-778 | the field loop answers 0 only for equally long field lists; its exact zero set is `CompareFieldsZeroIff` |
| `DocumentValue.Compare` | src/mongo/db/exec/document_value/document.cpp:733-779 | two documents compare 0 only when they share storage or have as many fields |
| `DocumentValue.CompareZeroIff` | src/mongo/db/exec/document_value/document.cpp:733-779 | two documents compare equal exactly when they share storage or their fields tie pairwise (same canonical type, same name, equal values) and they are equally long |
| `DocumentValue.CompareFieldsZeroIff` | src/mongo/db/exec/document_value/document.cpp:745-778 | the field loop answers 0 exactly for equally long field lists that tie pairwise |
| `DocumentValue.CompareFieldsReflexive` | src/mongo/db/exec/document_value/document.cpp:745-778 | a document compares equal to itself when value comparison is reflexive |
| `DocumentValue.ProperPrefixIsLess` | src/mongo/db/exec/document_value/document.cpp:746-754 | a proper prefix is less than the longer document, and the longer one is greater |
| `DocumentValue.CompareFieldsAntisymmetric` | src/mongo/db/exec/document_value/document.cpp:745-778 | swapping the documents flips the sign of the answer when value comparison is antisymmetric |
| `DocumentValue.FieldByName` | src/mongo/db/exec/document_value/document.cpp:75 | a sub-field is found exactly when some field has that name |
| `DocumentValue.PositionOf` | src/mongo/db/exec/document_value/document.cpp:673-676 | the position found holds the first field of that name; none is found only when no field has it |
| `DocumentValue.NestedBson` | src/mongo/db/exec/document_value/document.cpp:62-81 | the BSON walk finds a value only when it was given an element, and meets an array only before the last level |
| `DocumentValue.NestedCached` | src/mongo/db/exec/document_value/document.cpp:668-689 | the cached walk records between one position and one per remaining level, or none together with a missing value |
| `DocumentValue.NestedCachedPositions` | src/mongo/db/exec/document_value/document.cpp:668-689 | the cached lookup records one position per level it resolves, each the position of that level's name; a value is found only after all levels |
| `DocumentValue.NestedLookupsAgree` | src/mongo/db/exec/document_value/document.cpp:62-81 | the cached lookup finds what the BSON lookup finds, and is missing where the BSON lookup is missing or meets an array |
| `DocumentCache.SmallestDoubling` | src/mongo/db/exec/document_value/document.cpp:292-294 | a doubling loop ends at or above both its start and its target, and below twice the target unless it never doubled |
| `DocumentCache.SmallestDoublingPow2` | src/mongo/db/exec/document_value/document.cpp:288-289 | doubling from a power of two ends on a power of two, so `buckets - 1` is a mask |
| `DocumentCache.Align` | src/mongo/db/exec/document_value/document.cpp:234 | `align` rounds up to the next multiple of the alignment, by less than one unit |
| `DocumentCache.UsedBytesOf` | src/mongo/db/exec/document_value/document.cpp:234 | the bytes used by the fields are a multiple of the alignment and cover the last field's header and name |
| `DocumentCache.FirstNamed` | src/mongo/db/exec/document_value/document.cpp:184-193 | the first position with that name, or not-found exactly when no field has it |
| `DocumentCache.FirstNamedIsPositionOf` | src/mongo/db/exec/document_value/document.cpp:184-193 | the cache's first position of a name is the position the document lookup finds for it, and not-found exactly when that lookup finds none |
| `DocumentCache.Bucket` | src/mongo/db/exec/document_value/document.cpp:171-172 | a name's bucket is below the bucket count |
| `DocumentCache.FirstFromIsFirst` | src/mongo/db/exec/document_value/document.cpp:174-183 | the chain successor of a position is the first later field of the same bucket, or not-found when there is none |
| `DocumentCache.FirstFromAppend` | src/mongo/db/exec/document_value/document.cpp:268-280 | appending a field only fills in the end of its own bucket's chain |
| `DocumentCache.ChainHead` | src/mongo/db/exec/document_value/document.cpp:174 | a bucket's head is the first field of that bucket |
| `DocumentCache.ChainLink` | src/mongo/db/exec/document_value/document.cpp:182 | a field's `nextCollision` is the next field of its bucket |
| `DocumentCache.HangAtHead` | src/mongo/db/exec/document_value/document.cpp:274-279 | a field whose bucket is empty becomes its head, and the chains stay correct |
| `DocumentCache.HangAfterLink` | src/mongo/db/exec/document_value/document.cpp:275-279 | hanging a field after its chain's last field leaves every other link correct |
| `DocumentCache.HangAfter` | src/mongo/db/exec/document_value/document.cpp:274-279 | a field hung after its chain's last field keeps the chains correct, old order first |
| `DocumentCache.DocumentStorage.constructor` | src/mongo/db/exec/document_value/document.cpp:336-337 | an empty storage over the BSON with no buffer, keeping the given flags |
| `DocumentCache.DocumentStorage.FindFieldInCache` | src/mongo/db/exec/document_value/document.cpp:167-194 | by hash chain or linear scan, the answer is the first cached field with that name, or not-found |
| `DocumentCache.DocumentStorage.ChainEnd` | src/mongo/db/exec/document_value/document.cpp:274-278 | the walk ends at an empty bucket, or at the bucket's last field, which has no link and no later field of its bucket |
| `DocumentCache.DocumentStorage.ClearLink` | src/mongo/db/exec/document_value/document.cpp:269-270 | the new field's link is cleared; names, contents and chains are unchanged |
| `DocumentCache.DocumentStorage.AddFieldToHashTable` | src/mongo/db/exec/document_value/document.cpp:268-280 | the new field goes to the end of its bucket's chain with an empty link; the contents are unchanged and the chains cover one more field |
| `DocumentCache.DocumentStorage.Rehash` | src/mongo/db/exec/document_value/document.cpp:257-262 | every field is hashed again in order; contents unchanged, chains correct over all fields |
| `DocumentCache.DocumentStorage.GrowBuckets` | src/mongo/db/exec/document_value/document.cpp:288-289 | the bucket count doubles, staying a power of two, until it reaches both twice the field count and the initial size |
| `DocumentCache.DocumentStorage.InstallBuffer` | src/mongo/db/exec/document_value/document.cpp:298-315 | the new buffer has the given capacity minus the table for fields; contents kept; the table is rehashed or slid down unchanged |
| `DocumentCache.DocumentStorage.Alloc` | src/mongo/db/exec/document_value/document.cpp:282-316 | bucket growth as above; the capacity is the smallest power of two from 128 covering the size plus the table, oversized exactly when it exceeds the maximum; on success the fields are kept and the invariant holds, on failure the buffer is untouched |
| `DocumentCache.DocumentStorage.HashAppended` | src/mongo/db/exec/document_value/document.cpp:257-262 | at `HASH_TAB_MIN` fields everything is rehashed and above it only the new field is hashed; either way the chains are correct |
| `DocumentCache.DocumentStorage.PushField` | src/mongo/db/exec/document_value/document.cpp:237-262 | one more field, a missing value of the given name and kind, and used bytes set to the new end; invariant kept |
| `DocumentCache.DocumentStorage.AppendField` | src/mongo/db/exec/document_value/document.cpp:225-265 | the field count grows by exactly one, used bytes become `align(old + header + name)`, the new field is last and its position is returned; an oversized document changes no field |
| `DocumentCache.DocumentStorage.SetValue` | src/mongo/db/exec/document_value/document.cpp:219 | the store through the returned reference changes only that field's value |
| `DocumentCache.DocumentStorage.ConstructInCache` | src/mongo/db/exec/document_value/document.cpp:211-223 | the element is appended as a cached field with its value; `_modified` is unchanged and the bytes from BSON grow by the element's size |
| `DocumentCache.DocumentStorage.FindField` | src/mongo/db/exec/document_value/document.cpp:196-209 | a cache hit or cache-only lookup changes nothing; otherwise the first BSON element of that name is promoted, and with no such element nothing changes |
| `DocumentCache.DocumentStorage.ReserveFields` | src/mongo/db/exec/document_value/document.cpp:318-333 | buckets double from the initial size to cover the expected fields; room for expected+1 aligned headers, oversized exactly when over the maximum |
| `DocumentCache.DocumentStorage.Reset` | src/mongo/db/exec/document_value/document.cpp:382-400 | the cache is emptied, counters and mask are zero, not modified, no bytes from BSON, over the new BSON; the buffer is kept |
| `DbCheckLog.FieldValueFound` | src/mongo/db/repl/dbcheck.cpp:733 | a field is found exactly when the object has a field of that name |
| `DbCheckLog.AddField` | src/mongo/db/repl/dbcheck.cpp:197-199 | after `addField` the field's name finds the added value |
| `DbCheckLog.AddFieldKeepsOthers` | src/mongo/db/repl/dbcheck.cpp:197-199 | `addField` keeps every field of another name and brings in nothing else |
| `DbCheckLog.RenderOp` | src/mongo/db/repl/dbcheck.cpp:144-157 | every operation renders to a name starting with "dbCheck" |
| `DbCheckLog.RenderOpInjective` | src/mongo/db/repl/dbcheck.cpp:144-157 | distinct operations render differently |
| `DbCheckLog.RenderMode` | src/mongo/db/repl/dbcheck.cpp:159-169 | every validation mode renders to a non-empty name |
| `DbCheckLog.RenderModeInjective` | src/mongo/db/repl/dbcheck.cpp:159-169 | distinct validation modes render differently |
| `DbCheckLog.ExpectedFound` | src/mongo/db/repl/dbcheck.cpp:102-106 | match exactly when the values are equal; the report holds both under "expected" and "found" |
| `DbCheckLog.ExpectedFoundOptional` | src/mongo/db/repl/dbcheck.cpp:117-137 | match exactly when both are absent or both present and equal; absent values are left out of the report |
| `DbCheckLog.HealthLogEntryOf` | src/mongo/db/repl/dbcheck.cpp:174-206 | the entry carries the given namespace, UUID, severity, scope, message and rendered operation; it has data exactly when data or parameters are given, and the parameters sit under "dbCheckParameters" |
| `DbCheckLog.HealthLogEntryKeepsData` | src/mongo/db/repl/dbcheck.cpp:195-201 | adding the parameters keeps every other field of the data and adds nothing else |
| `DbCheckLog.EntryDataField` | src/mongo/db/repl/dbcheck.cpp:195-201 | a data field that is the only one of its name, and not the parameters, is found with its value in the entry |
| `DbCheckLog.ErrorEntry` | src/mongo/db/repl/dbcheck.cpp:211-229 | an Error entry of the given scope and message whose data says success false, the error and the context |
| `DbCheckLog.WarningEntryAsWritten` | src/mongo/db/repl/dbcheck.cpp:231-249 | as written, the warning entry is always Cluster-scoped |
| `DbCheckLog.WarningScopeDropped` | src/mongo/db/repl/dbcheck.cpp:236 | a caller asking for a Document-scoped warning does not get one |
| `DbCheckLog.WarningEntry` | src/mongo/db/repl/dbcheck.cpp:231-249 | a Warning entry of the requested scope and message whose data says success false, the error and the context |
| `DbCheckLog.BatchSeverity` | src/mongo/db/repl/dbcheck.cpp:295-312 | Info exactly when the hashes match; Warning exactly for a mismatch on a pre-image, config image, change or capped collection; Error exactly for any other mismatch |
| `DbCheckLog.BatchEntry` | src/mongo/db/repl/dbcheck.cpp:254-324 | the batch entry has that severity, "consistent"/"inconsistent" by the hash comparison, Cluster scope, the Batch operation, the namespace and UUID; its data holds success true, count, bytes, the expected/found md5 report, both bounds, the run at the end and the optime, and the batch id, read timestamp and index spec when given |
| `DbCheckLog.BatchDataDistinct` | src/mongo/db/repl/dbcheck.cpp:272-293 | the fields of a batch entry's data have distinct names |
| `DbCheckLog.BatchDataFields` | src/mongo/db/repl/dbcheck.cpp:272-293 | every field written into a batch entry's data is found there with its value |
| `DbCheckLog.BatchEntryInfoIffConsistent` | src/mongo/db/repl/dbcheck.cpp:295-314 | a batch entry is Info exactly when its message says consistent |
| `DbCheckHasher.IndexesToCheckExact` | src/mongo/db/repl/dbcheck.cpp:428-443 | the hasher checks exactly the catalog's non-_id indexes, and only in missing-keys mode |
| `DbCheckHasher.CanHash` | src/mongo/db/repl/dbcheck.cpp:819-833 | a document is admitted when nothing was seen yet or it keeps both ceilings; `FirstDocumentFits` and `ProbesTightenCeiling` state its properties |
| `DbCheckHasher.FirstDocumentFits` | src/mongo/db/repl/dbcheck.cpp:819-823 | the first document of a batch is always accepted |
| `DbCheckHasher.ProbesTightenCeiling` | src/mongo/db/repl/dbcheck.cpp:825-833 | keys probed for missing-key checks count toward the ceiling: probing never admits a document that was not admitted before |
| `DbCheckHasher.MissingInComplete` | src/mongo/db/repl/dbcheck.cpp:619-638 | every probed key with no entry or an entry for another record is reported |
| `DbCheckHasher.MissingInSound` | src/mongo/db/repl/dbcheck.cpp:619-638 | every report is about a probed key that missed |
| `DbCheckHasher.MissingIn` | src/mongo/db/repl/dbcheck.cpp:619-638 | at most one report per probed key |
| `DbCheckHasher.MissingKeysOf` | src/mongo/db/repl/dbcheck.cpp:572-640 | over all indexes, at most one report per probe |
| `DbCheckHasher.MissingKeysComplete` | src/mongo/db/repl/dbcheck.cpp:572-640 | over all indexes, every missing probed key is reported |
| `DbCheckHasher.MissingKeysSound` | src/mongo/db/repl/dbcheck.cpp:572-640 | over all indexes, every report is of some index's missing probed key |
| `DbCheckHasher.SkippedIndexAddsNothing` | src/mongo/db/repl/dbcheck.cpp:574-590 | an index whose partial filter rejects the document, or which is neither btree nor hashed, adds no probe and no report |
| `DbCheckHasher.MissingRecordEntry` | src/mongo/db/repl/dbcheck.cpp:667-679 | a record missing from the store is one Document-scoped Error "Error fetching record from record id" |
| `DbCheckHasher.ValidationLog` | src/mongo/db/repl/dbcheck.cpp:691-730 | at most one Document-scoped "not well-formed" entry, present exactly in missing-keys mode when validation fails, a Warning exactly for NonConformantBSON |
| `DbCheckHasher.ValidationLogAsWritten` | src/mongo/db/repl/dbcheck.cpp:691-730 | as written, the single validation entry is Document-scoped exactly when it is an Error; the non-conformance Warning is Cluster-scoped |
| `DbCheckHasher.ValidationLogScopeOnly` | src/mongo/db/repl/dbcheck.cpp:717-726 | the corrected log has the same entries as the log as written, except that its Warning keeps the Document scope |
| `DbCheckHasher.MissingKeysEntry` | src/mongo/db/repl/dbcheck.cpp:749-761 | the missing-keys entry is a Document-scoped Error "Document has missing index keys" |
| `DbCheckHasher.ScanStatus` | src/mongo/db/repl/dbcheck.cpp:657-786 | the collection check returns OK, Interrupted or NoSuchKey and nothing else |
| `DbCheckHasher.ScanNeverKeyNotFound` | src/mongo/db/repl/dbcheck.cpp:667-684 | the collection check never returns KeyNotFound: missing records are only logged |
| `DbCheckHasher.StepFacts` | src/mongo/db/repl/dbcheck.cpp:657-778 | one turn only appends to the hash and the log, never decreases counts, keeps the ceiling, and counts as many bytes as it hashes when sizes are exact |
| `DbCheckHasher.ScanKeepsCeiling` | src/mongo/db/repl/dbcheck.cpp:738-741 | once within the ceilings, the check stays within them |
| `DbCheckHasher.ScanAppends` | src/mongo/db/repl/dbcheck.cpp:765-772 | the hash and the log only grow by appending; documents and bytes never decrease |
| `DbCheckHasher.ScanBytesAreHashed` | src/mongo/db/repl/dbcheck.cpp:770-772 | when every record's size is its length, the bytes counted equal the bytes appended to MD5 |
| `DbCheckHasher.MissingRecordsSkipped` | src/mongo/db/repl/dbcheck.cpp:667-684 | a walk over missing records only logs one Document-scoped Error each, leaves hash and documents alone, and ends at EOF with the last key set to the batch maximum |
| `DbCheckHasher.StepLogsDocumentScoped` | src/mongo/db/repl/dbcheck.cpp:667-761 | one turn only logs Document-scoped entries |
| `DbCheckHasher.ScanLogsDocumentScoped` | src/mongo/db/repl/dbcheck.cpp:667-761 | everything the collection check logs is Document-scoped |
| `DbCheckHasher.FirstRecordHashed` | src/mongo/db/repl/dbcheck.cpp:819-823 | a fresh hasher hashes the first stored record that has an _id |
| `DbCheckHasher.StoredRecordStep` | src/mongo/db/repl/dbcheck.cpp:732-777 | a record without _id aborts with NoSuchKey; over the ceiling the batch ends OK with the hash and last key unchanged; otherwise the last key is the _id, one document and its size are counted, exactly its bytes are hashed, and the turn ends the batch exactly past the deadline |
| `DbCheckHasher.CollectionStep` | src/mongo/db/repl/dbcheck.cpp:658-777 | one turn of the collection loop; `StepFacts`, `StepLogsDocumentScoped` and `StoredRecordStep` state its properties |
| `DbCheckHasher.ScanFrom` | src/mongo/db/repl/dbcheck.cpp:648-786 | the collection loop from an index position; the `Scan…` lemmas state its properties |
| `DbCheckHasher.KeysStatus` | src/mongo/db/repl/dbcheck.cpp:506-565 | the extra-keys check fails only when interrupted |
| `DbCheckHasher.KeysBytesAreHashed` | src/mongo/db/repl/dbcheck.cpp:522-526 | the bytes counted equal the number of key bytes appended to MD5, the hash only grows, and at most one key is counted per index entry (the bytes themselves: `KeysRunAbsorbed`) |
| `DbCheckHasher.KeysRunBounded` | src/mongo/db/repl/dbcheck.cpp:537-545 | the run of keys equal to the batch end never exceeds the configured maximum |
| `DbCheckHasher.NoKeysMeansMaxKey` | src/mongo/db/repl/dbcheck.cpp:548-551 | a check that saw no key reports the batch maximum as its last key |
| `DbCheckHasher.KeysFrom` | src/mongo/db/repl/dbcheck.cpp:506-565 | the extra-keys loop from an index position; the `Keys…` lemmas state its properties |
| `DbCheckHasher.ExtraKeysScan` | src/mongo/db/repl/dbcheck.cpp:462-566 | the extra-keys check with the run reset; `ExtraKeysBatchHashes` states its outcome |
| `DbCheckHasher.KeyBytes` | src/mongo/db/repl/dbcheck.cpp:522-526 | the bytes hashed for a key are its key string without the record id, a prefix of it |
| `DbCheckHasher.KeysEnd` | src/mongo/db/repl/dbcheck.cpp:506-551 | the stop position lies between the start position and the end of the index |
| `DbCheckHasher.KeysEndIsFirstStop` | src/mongo/db/repl/dbcheck.cpp:506-551 | the walk stops at the first position that ends it: the end of the index, an interrupt, or just after the key that brings the run at the batch end to its limit; nothing before it is interrupted or closes the run |
| `DbCheckHasher.KeysRunAbsorbed` | src/mongo/db/repl/dbcheck.cpp:515-545 | up to that stop the hash gains exactly the hashed keys' bytes without record ids, in order; the key count grows by their number, the bytes by their total size, the run by the number of them equal to the batch end; documents, missing keys and log are unchanged |
| `DbCheckHasher.KeysStopOutcome` | src/mongo/db/repl/dbcheck.cpp:506-551 | the walk fails exactly when it stops at an interrupt rather than after closing the run; the last key is the last key hashed, or, with none hashed, the batch maximum when the batch saw no key at all |
| `DbCheckHasher.ExtraKeysBatchHashes` | src/mongo/db/repl/dbcheck.cpp:462-566 | a batch whose run starts at zero hashes exactly the keys up to the first stop and reports the last of them, the batch maximum when it saw none, and fails only at an interrupt |
| `DbCheckHasher.Hasher.constructor` | src/mongo/db/repl/dbcheck.cpp:373-444 | the hasher keeps its batch end, ceilings and parameters, the indexes to check, and starts with nothing hashed |
| `DbCheckHasher.Hasher.ProbeIndex` | src/mongo/db/repl/dbcheck.cpp:592-639 | one key seen per probe, and the missing probes appended in order |
| `DbCheckHasher.Hasher.ValidateMissingKeys` | src/mongo/db/repl/dbcheck.cpp:568-646 | the keys seen grow by every probe, the reports of every index are appended, and NoSuchKey is returned exactly when the list is non-empty |
| `DbCheckHasher.Hasher.LogValidation` | src/mongo/db/repl/dbcheck.cpp:691-730 | the validation entries of the record are appended to the health log |
| `DbCheckHasher.Hasher.CheckMissingKeys` | src/mongo/db/repl/dbcheck.cpp:743-763 | the list is cleared before the document, refilled, and logged when non-empty |
| `DbCheckHasher.Hasher.CollectionTurn` | src/mongo/db/repl/dbcheck.cpp:658-777 | one turn of the loop does what `CollectionStep` specifies |
| `DbCheckHasher.Hasher.HashForCollectionCheck` | src/mongo/db/repl/dbcheck.cpp:648-786 | the new state and the status are those of `ScanFrom`, whose properties are the lemmas above |
| `DbCheckHasher.Hasher.HashForExtraIndexKeysCheck` | src/mongo/db/repl/dbcheck.cpp:462-566 | the new state and status are those of `ExtraKeysScan`: run counter reset, keys hashed until the run limit, maximum key when none was seen |
| `DbCheckApply.FindIndexByName` | src/mongo/db/repl/dbcheck.cpp:904-906 | the index found has that name; none is found only when no index has it |
| `DbCheckApply.NextCounter` | src/mongo/db/repl/dbcheck.cpp:1009 | the unsigned counter advances by one modulo 2^32 |
| `DbCheckApply.ShouldLog` | src/mongo/db/repl/dbcheck.cpp:1010-1013 | the entry's own instruction, else every N-th batch; `ConsistentBatchLoggedEveryN` states its effect |
| `DbCheckApply.FinishBatch` | src/mongo/db/repl/dbcheck.cpp:1007-1019 | the counter advances modulo 2^32 and the log gains at most the batch entry, after what was already logged |
| `DbCheckApply.BatchOnSecondarySpec` | src/mongo/db/repl/dbcheck.cpp:844-1034 | one batch on a secondary; the lemmas after it state its outcomes |
| `DbCheckApply.OplogCommandSpec` | src/mongo/db/repl/dbcheck.cpp:1043-1155 | one dbCheck oplog entry; `BatchAppliedOnlyOnSecondary`, `BatchAppliedOnSecondary` and `OtherCommandsLogged` state its outcomes |
| `DbCheckApply.SkippedBatchEntry` | src/mongo/db/repl/dbcheck.cpp:1097-1124 | a Cluster-scoped Warning without UUID naming the skip parameter or the mode, whose data holds both bounds and the batch id when given |
| `DbCheckApply.VanishedCollectionReported` | src/mongo/db/repl/dbcheck.cpp:869-881 | a dropped collection gives one Info "dbCheck failed" entry without UUID, and the counter stays |
| `DbCheckApply.UnknownIndexReported` | src/mongo/db/repl/dbcheck.cpp:904-920 | a missing named index gives one Index-scoped Error entry, and the counter stays |
| `DbCheckApply.InterruptedBatchReported` | src/mongo/db/repl/dbcheck.cpp:1020-1032 | an interrupted batch is caught as one Cluster-scoped Error entry, and the counter stays |
| `DbCheckApply.CounterWraps` | src/mongo/db/repl/dbcheck.cpp:842 | the counter stays below 2^32 and either stays or advances by one |
| `DbCheckApply.NoKeyNotFoundReport` | src/mongo/db/repl/dbcheck.cpp:954-966 | without parameters, no Index-scoped entry is ever written: the KeyNotFound branch is dead |
| `DbCheckApply.AfterScanNotIndexScoped` | src/mongo/db/repl/dbcheck.cpp:954-1019 | after a scan that logged only Document-scoped entries and did not return KeyNotFound, nothing logged is Index-scoped |
| `DbCheckApply.InconsistentBatchAlwaysLogged` | src/mongo/db/repl/dbcheck.cpp:1015-1019 | a hash mismatch is always written, never as Info, as "inconsistent" |
| `DbCheckApply.ConsistentBatchLoggedEveryN` | src/mongo/db/repl/dbcheck.cpp:1009-1019 | on a release build with no instruction in the entry, a consistent batch is written exactly when the new counter is a multiple of N |
| `DbCheckApply.ModeName` | src/mongo/db/repl/dbcheck.cpp:1058-1069 | the mode is named "secondary" exactly for steady-state secondary application |
| `DbCheckApply.BatchBounds` | src/mongo/db/repl/dbcheck.cpp:1077-1087 | absent bounds become `{_id: minKey}` and `{_id: maxKey}`, present ones are kept |
| `DbCheckApply.StartStopEntry` | src/mongo/db/repl/dbcheck.cpp:1136-1151 | Warning exactly when not a secondary, Info with an empty message on one, Cluster scope, data exactly when parameters are given |
| `DbCheckApply.BatchAppliedOnlyOnSecondary` | src/mongo/db/repl/dbcheck.cpp:1089-1130 | off a secondary or with the skip parameter on, the counter stays and one Cluster-scoped Warning is written, naming the skip parameter or the application mode, with both bounds and the batch id when given |
| `DbCheckApply.BatchAppliedOnSecondary` | src/mongo/db/repl/dbcheck.cpp:1047-1091 | on a secondary with the skip parameter off, the batch is applied with its decoded bounds, with the entry's own optime only when writes are not replicated |
| `DbCheckApply.OtherCommandsLogged` | src/mongo/db/repl/dbcheck.cpp:1132-1151 | a collection entry does nothing; a start or stop entry writes one entry for its operation, a Warning exactly when not a secondary |
| `DbCheckApply.Applier.constructor` | src/mongo/db/repl/dbcheck.cpp:842 | the batch counter starts at zero and nothing is logged |
| `DbCheckApply.Applier.Finish` | src/mongo/db/repl/dbcheck.cpp:1007-1019 | the counter advances and the batch entry is appended as `FinishBatch` specifies |
| `DbCheckApply.Applier.ExtraKeysBatch` | src/mongo/db/repl/dbcheck.cpp:893-933 | the extra-keys branch updates the counter and the log as `ExtraKeysBatchSpec` specifies |
| `DbCheckApply.Applier.ReportCollectionScan` | src/mongo/db/repl/dbcheck.cpp:954-1019 | the report after a collection scan follows `AfterCollectionScan` |
| `DbCheckApply.Applier.CollectionBatch` | src/mongo/db/repl/dbcheck.cpp:934-968 | the collection branch follows `CollectionBatchSpec` |
| `DbCheckApply.Applier.BatchOnSecondary` | src/mongo/db/repl/dbcheck.cpp:844-1034 | always returns OK; counter and log follow `BatchOnSecondarySpec`, whose properties are the lemmas above |
| `DbCheckApply.Applier.ApplyOplogCommand` | src/mongo/db/repl/dbcheck.cpp:1043-1155 | always returns OK; counter and log follow `OplogCommandSpec` |

## Left out

- MD5 (RFC 1321) itself: the digest is a function of the appended bytes, supplied by the caller.
- The storage collaborators: the `PlanExecutor` and index/collection cursors, the record store, `getKeys`, key-string encoding and comparison, `rehydrateKey`, `validateBSON`.
  - Each is an input: a sequence of entries, a map, or a function.
  - Comparing a key string with the batch end is modelled as equality of the key bytes without the record id.
- `DbCheckAcquisition`, `DataThrottle`, the fail points, LOGV2 and the health-log sink: lock and recovery-unit plumbing and side effects. The health log is the sequence of entries written.
- The `Date_t::now()` deadline and interruption checks become functions of the cursor position.
- A throwing `getNext` on a corrupt `_id` index entry is not modelled.
- The clustered-collection scan bounds (`keyForDoc`) are not modelled. For a non-clustered collection without an _id index, only the resulting `IndexNotFound` is modelled.
- `maybeAppend`, the vector `operator==` and the `BSONObj` overload of `expectedFound` are not modelled. They are unused here, or only differ in how the comparison is made.
- Status, record id, timestamp and UUID texts are carried as values and not rendered. The health-log timestamp is not modelled.
- IDL parsing of oplog entries (`DbCheckOplogBatch::parse`): the parsed entry is a datatype.
- `gDbCheckHealthLogEveryNBatches` is required to be at least 1. Its server-parameter bounds are not part of this model.
- Integer widths are unbounded except `batchesProcessed`, which wraps modulo 2^32.
- document.cpp:
  - raw `memcpy` layout and byte offsets (a position is a field ordinal);
  - `Value` reference counting (`memcpyed`);
  - lazy metadata and `toBsonWithMetaData`;
  - approximate-size accounting and `hash_combine`;
  - `clone`;
  - the iterators and `shouldSkipDeleted`;
  - sorter serialisation;
  - `MutableDocument`.
- `HASH_TAB_MIN`, `HASH_TAB_INIT_SIZE`, the header size, the alignment, `BufferMaxSize` and `hashKey` live in `document.h`, which is not part of this model. They are the fields of `Layout`.
- `DocumentCache.Bucket`: `hash & mask` is modelled as `hash % buckets`. The two agree because the bucket count is always a power of two.
- `DocumentCache.DocumentStorage.Alloc`: after an oversized failure the invariant is not promised, because the source has already grown the mask when it throws.
- The materializer's double overloads are floating point and are not modelled.
- `bson::convertFrom` (the generic overload and `materializePreallocated`), `value::compareValue`, `canonicalType`, `canUseSmallString` and `makeSmallString` are foreign. `canUseSmallString` is a parameter.
- `get<bool>` is not modelled. It goes through `bitcastTo<double>`.
- The BSONObj, array, regex, DBRef, symbol and CodeWScope `get` branches are not modelled.
- `SBEPath` is not modelled.
- `DbCheckHasher.ValidationLog` uses the corrected Document scope for its non-conformance Warning. The code as written logs that Warning Cluster-scoped (see Findings and `ValidationLogAsWritten`).
- `DbCheckHasher.Hasher.LogValidation` appends the corrected validation log, so its Warning is Document-scoped where the code as written logs it Cluster-scoped.
- `DbCheckHasher.StepLogsDocumentScoped` holds of the corrected scope. As written, a non-conformance Warning in missing-keys mode is Cluster-scoped; no entry is Index-scoped either way.
- `DbCheckHasher.ScanLogsDocumentScoped` holds of the corrected scope, for the same reason.
- `DbCheckApply.Applier.CollectionBatch`, `BatchOnSecondary` and `ApplyOplogCommand` carry the corrected scope of the collection check's non-conformance Warning.
- `DbCheckApply.ValidEnv` leaves the collection scan's deadline free. The secondary passes no deadline, and its default lives in `dbcheck.h`, which is not part of this model. The secondary's deadline is over-approximated: every lemma holds for any deadline.
- Field names are `string`s compared by code point. The source compares `StringData` bytes, and the two orders agree on valid UTF-8.
- The BSONColumn and SBE `$lookup` test files and the clang-tidy helper script are not part of the core.

## Findings

| source | as written | input that shows it | evidently intended | confidence | as-written member | corrected member |
|---|---|---|---|---|---|---|
| src/mongo/db/repl/dbcheck.cpp:231-249 | `dbCheckWarningHealthLogEntry` takes a `scope` argument but always writes `ScopeEnum::Cluster` (line 246) | the caller at lines 717-726 asks for `ScopeEnum::Document` for a non-conformant document, and the entry is Cluster-scoped | the entry carries the scope the caller passes, like `dbCheckErrorHealthLogEntry` does | high (from reading; not executed) | `DbCheckLog.WarningEntryAsWritten`, `DbCheckLog.WarningScopeDropped`, `DbCheckHasher.ValidationLogAsWritten` | `DbCheckLog.WarningEntry`, `DbCheckHasher.ValidationLog`, `DbCheckHasher.ValidationLogScopeOnly` |
