/**
 * The materializer that turns values decompressed from a BSONColumn into SBE
 * (tag, value) pairs, and the value block that owns them.
 *
 * An SBE value is a 64-bit word: scalars are stored in it by a `bitcastFrom`
 * (a memcpy of the scalar's bytes into a zeroed word on a little-endian host),
 * everything else is a pointer into memory owned by the column's element
 * storage. A pointer is modelled by the bytes it points to.
 */
module Materializer {

  import opened Wrappers

  type Byte = x: int | 0 <= x < 256

  /** An unsigned 64-bit SBE value word. */
  type Word = x: int | 0 <= x < 0x1_0000_0000_0000_0000

  const OID_SIZE: nat := 12

  // ---------------------------------------------------------------------------
  // Little-endian byte layout
  // ---------------------------------------------------------------------------

  function Pow256(n: nat): (p: nat)
    ensures p >= 1
  {
    if n == 0 then 1 else 256 * Pow256(n - 1)
  }

  /** The `n` little-endian bytes of `x` (a `DataView` write of an `n`-byte unsigned). */
  function LE(x: nat, n: nat): (r: seq<Byte>)
    requires x < Pow256(n)
    ensures |r| == n
  {
    if n == 0 then [] else [x % 256] + LE(x / 256, n - 1)
  }

  /** The unsigned number whose little-endian bytes are `bs` (a `ConstDataView` read). */
  function FromLE(bs: seq<Byte>): (v: nat)
    ensures v < Pow256(|bs|)
  {
    if bs == [] then 0
    else
      var rest := FromLE(bs[1..]);
      assert bs[0] + 256 * rest <= 255 + 256 * (Pow256(|bs| - 1) - 1);
      bs[0] + 256 * rest
  }

  /** Reading back what a little-endian write stored gives the number written. */
  lemma {:induction false} FromLEOfLE(x: nat, n: nat)
    requires x < Pow256(n)
    ensures FromLE(LE(x, n)) == x
  {
    if n > 0 {
      FromLEOfLE(x / 256, n - 1);
      assert LE(x, n)[1..] == LE(x / 256, n - 1);
    }
  }

  /** Writing back what was read reproduces the bytes. */
  lemma {:induction false} LEOfFromLE(bs: seq<Byte>)
    ensures LE(FromLE(bs), |bs|) == bs
  {
    if bs != [] {
      LEOfFromLE(bs[1..]);
      var rest := FromLE(bs[1..]);
      assert (bs[0] + 256 * rest) % 256 == bs[0];
      assert (bs[0] + 256 * rest) / 256 == rest;
    }
  }

  // ---------------------------------------------------------------------------
  // Two's complement views of the fixed-width integers
  // ---------------------------------------------------------------------------

  predicate IsInt32(v: int) { -0x8000_0000 <= v < 0x8000_0000 }
  predicate IsInt64(v: int) { -0x8000_0000_0000_0000 <= v < 0x8000_0000_0000_0000 }

  /** The 32-bit pattern of a signed 32-bit integer. */
  function Int32Bits(v: int): (u: nat)
    requires IsInt32(v)
    ensures u < 0x1_0000_0000 && FromInt32Bits(u) == v
  {
    if v < 0 then v + 0x1_0000_0000 else v
  }

  /** The signed 32-bit integer a 32-bit pattern denotes. */
  function FromInt32Bits(u: nat): int
    requires u < 0x1_0000_0000
  {
    if u >= 0x8000_0000 then u - 0x1_0000_0000 else u
  }

  /** The 64-bit pattern of a signed 64-bit integer. */
  function Int64Bits(v: int): (u: nat)
    requires IsInt64(v)
    ensures u < 0x1_0000_0000_0000_0000 && FromInt64Bits(u) == v
  {
    if v < 0 then v + 0x1_0000_0000_0000_0000 else v
  }

  function FromInt64Bits(u: nat): int
    requires u < 0x1_0000_0000_0000_0000
  {
    if u >= 0x8000_0000_0000_0000 then u - 0x1_0000_0000_0000_0000 else u
  }

  // ---------------------------------------------------------------------------
  // SBE elements
  // ---------------------------------------------------------------------------

  datatype TypeTag =
    | Nothing
    | Boolean
    | NumberInt32
    | NumberInt64
    | NumberDecimal
    | Date
    | Timestamp
    | StringSmall
    | BsonString
    | BsonBinData
    | BsonJavascript
    | BsonObjectId

  /**
   * The value half of an element: a scalar word, the bytes a pointer refers
   * to, or the characters kept inline in a small string.
   */
  datatype Payload =
    | Word(w: Word)
    | Pointer(bytes: seq<Byte>)
    | SmallChars(chars: seq<Byte>)

  datatype Element = Element(tag: TypeTag, value: Payload)

  /** A BSON timestamp: seconds and increment, each an unsigned 32-bit number. */
  datatype BsonTimestamp = BsonTimestamp(secs: nat, inc: nat)
  {
    predicate Valid() { secs < 0x1_0000_0000 && inc < 0x1_0000_0000 }

    /** `Timestamp::asULL`: seconds in the high word, increment in the low word. */
    function AsULL(): (u: Word)
      requires Valid()
    {
      secs * 0x1_0000_0000 + inc
    }
  }

  /** `Timestamp(unsigned long long)`: the inverse split of `AsULL`. */
  function TimestampFromULL(u: Word): (t: BsonTimestamp)
    ensures t.Valid()
  {
    BsonTimestamp(u / 0x1_0000_0000, u % 0x1_0000_0000)
  }

  /** A Decimal128 as its two 64-bit halves. */
  datatype Decimal128 = Decimal128(low64: nat, high64: nat)
  {
    predicate Valid() { low64 < Pow256(8) && high64 < Pow256(8) }
  }

  /** A BinData value: subtype byte and payload. */
  datatype BinData = BinData(subtype: Byte, data: seq<Byte>)

  // ---------------------------------------------------------------------------
  // Scalar materialisation and the `get<T>` accessors
  // ---------------------------------------------------------------------------

  /** `materializeMissing`: the element standing for an absent value. */
  function MaterializeMissing(): (e: Element)
    ensures IsMissing(e)
  {
    Element(Nothing, Word(0))
  }

  /** `isMissing`: true exactly for the Nothing tag. */
  predicate IsMissing(e: Element)
  {
    e.tag == Nothing
  }

  function MaterializeBool(b: bool): (e: Element)
    ensures e.tag == Boolean && !IsMissing(e)
    ensures e.value.Word? && (e.value.w != 0 <==> b)
  {
    Element(Boolean, Word(if b then 1 else 0))
  }

  function MaterializeInt32(v: int): (e: Element)
    requires IsInt32(v)
    ensures e.tag == NumberInt32 && !IsMissing(e)
    ensures e.value.Word? && GetInt32(e) == v
  {
    Element(NumberInt32, Word(Int32Bits(v)))
  }

  function MaterializeInt64(v: int): (e: Element)
    requires IsInt64(v)
    ensures e.tag == NumberInt64 && !IsMissing(e)
    ensures e.value.Word? && GetInt64(e) == v
  {
    Element(NumberInt64, Word(Int64Bits(v)))
  }

  /** A `Date_t` is materialised by its milliseconds since the epoch. */
  function MaterializeDate(millis: int): (e: Element)
    requires IsInt64(millis)
    ensures e.tag == Date && !IsMissing(e)
    ensures e.value.Word? && GetDate(e) == millis
  {
    Element(Date, Word(Int64Bits(millis)))
  }

  function MaterializeTimestamp(t: BsonTimestamp): (e: Element)
    requires t.Valid()
    ensures e.tag == Timestamp && !IsMissing(e)
    ensures e.value.Word? && GetTimestamp(e) == t
  {
    Element(Timestamp, Word(t.AsULL()))
  }

  /** `get<int32_t>`: the low four bytes of the word, as a signed number. */
  function GetInt32(e: Element): (v: int)
    requires e.value.Word?
    ensures IsInt32(v)
  {
    FromInt32Bits(e.value.w % 0x1_0000_0000)
  }

  function GetInt64(e: Element): (v: int)
    requires e.value.Word?
    ensures IsInt64(v)
  {
    FromInt64Bits(e.value.w)
  }

  /** `get<Date_t>`: milliseconds since the epoch, read as a signed 64-bit number. */
  function GetDate(e: Element): (millis: int)
    requires e.value.Word?
    ensures IsInt64(millis)
  {
    GetInt64(e)
  }

  function GetTimestamp(e: Element): (t: BsonTimestamp)
    requires e.value.Word?
    ensures t.Valid()
  {
    TimestampFromULL(e.value.w)
  }

  // ---------------------------------------------------------------------------
  // Byte layouts of the heap-allocated values (specifications)
  // ---------------------------------------------------------------------------

  /**
   * The bsonString / bsonJavascript layout: a little-endian int32 holding the
   * length including the terminating NUL, the characters, then a NUL.
   */
  function LengthPrefixedString(s: seq<Byte>): (r: seq<Byte>)
    requires |s| + 1 < 0x8000_0000
    ensures |r| == 4 + |s| + 1
  {
    LE(|s| + 1, 4) + s + [0]
  }

  /** `getStringView` of a length-prefixed string: the prefix counts the NUL. */
  function StringView(bytes: seq<Byte>): (r: Option<seq<Byte>>)
    ensures r.Some? ==> |r.value| + 5 <= |bytes|
  {
    if |bytes| < 4 then None
    else
      var len := FromLE(bytes[..4]);
      if len < 1 || 4 + len > |bytes| then None
      else Some(bytes[4..4 + len - 1])
  }

  /** The BinData layout: little-endian int32 length, the subtype byte, the data. */
  function BinDataBytes(b: BinData): (r: seq<Byte>)
    requires |b.data| < 0x8000_0000
    ensures |r| == 5 + |b.data|
  {
    LE(|b.data|, 4) + [b.subtype] + b.data
  }

  /** `BSONElementValue::BinData`: reads the layout above back. */
  function BinDataView(bytes: seq<Byte>): (r: Option<BinData>)
    ensures r.Some? ==> 5 + |r.value.data| <= |bytes| && FromLE(bytes[..4]) == |r.value.data|
    ensures r.Some? ==> r.value.subtype == bytes[4] && r.value.data == bytes[5..5 + |r.value.data|]
  {
    if |bytes| < 5 then None
    else
      var len := FromLE(bytes[..4]);
      if 5 + len > |bytes| then None
      else Some(BinData(bytes[4], bytes[5..5 + len]))
  }

  /** The 16-byte Decimal128 layout: `low64` then `high64`, each little-endian. */
  function Decimal128Bytes(d: Decimal128): (r: seq<Byte>)
    requires d.Valid()
    ensures |r| == 16
  {
    LE(d.low64, 8) + LE(d.high64, 8)
  }

  /** `BSONElementValue::Decimal`: reads the layout above back. */
  function Decimal128View(bytes: seq<Byte>): (r: Option<Decimal128>)
    ensures r.Some? ==> r.value.Valid()
  {
    if |bytes| < 16 then None
    else Some(Decimal128(FromLE(bytes[..8]), FromLE(bytes[8..16])))
  }

  /** `BSONElementValue::ObjectID`: the first twelve bytes. */
  function OidView(bytes: seq<Byte>): (r: Option<seq<Byte>>)
    ensures r.Some? ==> |r.value| == OID_SIZE
  {
    if |bytes| < OID_SIZE then None else Some(bytes[..OID_SIZE])
  }

  /** `get<StringData>`: small strings carry their characters, the rest a view. */
  function GetString(e: Element): (r: Option<seq<Byte>>)
    ensures r.Some? ==> e.tag == StringSmall || e.tag == BsonString || e.tag == BsonJavascript
    ensures e.tag == StringSmall && e.value.SmallChars? ==> r == Some(e.value.chars)
  {
    match e.value
    case SmallChars(cs) => if e.tag == StringSmall then Some(cs) else None
    case Pointer(bytes) =>
      if e.tag == BsonString || e.tag == BsonJavascript then StringView(bytes) else None
    case Word(_) => None
  }

  lemma StringRoundTrip(s: seq<Byte>)
    requires |s| + 1 < 0x8000_0000
    ensures StringView(LengthPrefixedString(s)) == Some(s)
  {
    var bytes := LengthPrefixedString(s);
    assert bytes[..4] == LE(|s| + 1, 4);
    FromLEOfLE(|s| + 1, 4);
    assert bytes[4..4 + |s|] == s;
  }

  lemma BinDataRoundTrip(b: BinData)
    requires |b.data| < 0x8000_0000
    ensures BinDataView(BinDataBytes(b)) == Some(b)
  {
    var bytes := BinDataBytes(b);
    assert bytes[..4] == LE(|b.data|, 4);
    FromLEOfLE(|b.data|, 4);
    assert bytes[5..5 + |b.data|] == b.data;
  }

  lemma Decimal128RoundTrip(d: Decimal128)
    requires d.Valid()
    ensures Decimal128View(Decimal128Bytes(d)) == Some(d)
  {
    var bytes := Decimal128Bytes(d);
    assert bytes[..8] == LE(d.low64, 8);
    assert bytes[8..16] == LE(d.high64, 8);
    FromLEOfLE(d.low64, 8);
    FromLEOfLE(d.high64, 8);
  }

  // ---------------------------------------------------------------------------
  // The encoders that fill freshly allocated element storage
  // ---------------------------------------------------------------------------

  /** A `DataView` write of `x` as `n` little-endian bytes at `off`. */
  method WriteLE(a: array<Byte>, off: nat, x: nat, n: nat)
    requires off + n <= a.Length && x < Pow256(n)
    modifies a
    ensures a[off..off + n] == LE(x, n)
    ensures forall i :: 0 <= i < a.Length && !(off <= i < off + n) ==> a[i] == old(a[i])
  {
    var y: nat := x;
    var k: nat := 0;
    while k < n
      invariant 0 <= k <= n
      invariant y < Pow256(n - k)
      invariant a[off..off + k] + LE(y, n - k) == LE(x, n)
      invariant forall i :: 0 <= i < a.Length && !(off <= i < off + k) ==> a[i] == old(a[i])
    {
      assert LE(y, n - k) == [y % 256] + LE(y / 256, n - k - 1);
      a[off + k] := y % 256;
      assert a[off..off + k + 1] == a[off..off + k] + [y % 256];
      y := y / 256;
      k := k + 1;
    }
  }

  /** A `memcpy` of `src` into `a` at `off`. */
  method CopyBytes(a: array<Byte>, off: nat, src: seq<Byte>)
    requires off + |src| <= a.Length
    modifies a
    ensures a[off..off + |src|] == src
    ensures forall i :: 0 <= i < a.Length && !(off <= i < off + |src|) ==> a[i] == old(a[i])
  {
    var k := 0;
    while k < |src|
      invariant 0 <= k <= |src|
      invariant a[off..off + k] == src[..k]
      invariant forall i :: 0 <= i < a.Length && !(off <= i < off + k) ==> a[i] == old(a[i])
    {
      a[off + k] := src[k];
      assert a[off..off + k + 1] == a[off..off + k] + [src[k]];
      k := k + 1;
    }
  }

  /**
   * `copyStringWithLengthPrefix`: allocates 4 + n + 1 bytes and writes the
   * length (counting the NUL), the characters and the NUL.
   */
  method CopyStringWithLengthPrefix(s: seq<Byte>) returns (storage: array<Byte>)
    requires |s| + 1 < 0x8000_0000
    ensures fresh(storage)
    ensures storage[..] == LengthPrefixedString(s)
  {
    storage := new Byte[4 + |s| + 1];
    WriteLE(storage, 0, |s| + 1, 4);
    CopyBytes(storage, 4, s);
    storage[4 + |s|] := 0;
    assert storage[..] == storage[0..4] + storage[4..4 + |s|] + [storage[4 + |s|]];
  }

  /** `materialize(StringData)`: a small string when it fits, else a bsonString copy. */
  method MaterializeString(s: seq<Byte>, canUseSmallString: seq<Byte> -> bool)
    returns (e: Element, storage: array?<Byte>)
    requires |s| + 1 < 0x8000_0000
    ensures canUseSmallString(s) ==> e == Element(StringSmall, SmallChars(s)) && storage == null
    ensures !canUseSmallString(s) ==>
              storage != null && fresh(storage) &&
              e == Element(BsonString, Pointer(storage[..])) &&
              storage[..] == LengthPrefixedString(s)
    ensures GetString(e) == Some(s)
  {
    if canUseSmallString(s) {
      e, storage := Element(StringSmall, SmallChars(s)), null;
    } else {
      var buf := CopyStringWithLengthPrefix(s);
      StringRoundTrip(s);
      e, storage := Element(BsonString, Pointer(buf[..])), buf;
    }
  }

  /** `materialize(BSONCode)`: the code string in the bsonString layout, tagged JavaScript. */
  method MaterializeCode(code: seq<Byte>) returns (e: Element, storage: array<Byte>)
    requires |code| + 1 < 0x8000_0000
    ensures fresh(storage)
    ensures e == Element(BsonJavascript, Pointer(storage[..]))
    ensures storage[..] == LengthPrefixedString(code)
    ensures GetString(e) == Some(code)
  {
    storage := CopyStringWithLengthPrefix(code);
    StringRoundTrip(code);
    e := Element(BsonJavascript, Pointer(storage[..]));
  }

  /** `materialize(BSONBinData)`: 5 + len bytes: length, subtype at offset 4, data from 5. */
  method MaterializeBinData(b: BinData) returns (e: Element, storage: array<Byte>)
    requires |b.data| < 0x8000_0000
    ensures fresh(storage)
    ensures e == Element(BsonBinData, Pointer(storage[..]))
    ensures storage[..] == BinDataBytes(b)
    ensures BinDataView(e.value.bytes) == Some(b)
  {
    storage := new Byte[5 + |b.data|];
    WriteLE(storage, 0, |b.data|, 4);
    storage[4] := b.subtype;
    CopyBytes(storage, 5, b.data);
    assert storage[..] == storage[0..4] + [storage[4]] + storage[5..5 + |b.data|];
    BinDataRoundTrip(b);
    e := Element(BsonBinData, Pointer(storage[..]));
  }

  /** `materialize(Decimal128)`: 16 bytes, `low64` at offset 0 and `high64` at offset 8. */
  method MaterializeDecimal(d: Decimal128) returns (e: Element, storage: array<Byte>)
    requires d.Valid()
    ensures fresh(storage)
    ensures e == Element(NumberDecimal, Pointer(storage[..]))
    ensures storage[..] == Decimal128Bytes(d)
    ensures Decimal128View(e.value.bytes) == Some(d)
  {
    storage := new Byte[16];
    WriteLE(storage, 0, d.low64, 8);
    WriteLE(storage, 8, d.high64, 8);
    assert storage[..] == storage[0..8] + storage[8..16];
    Decimal128RoundTrip(d);
    e := Element(NumberDecimal, Pointer(storage[..]));
  }

  /** `materialize(OID)`: a copy of exactly the twelve id bytes. */
  method MaterializeOid(oid: seq<Byte>) returns (e: Element, storage: array<Byte>)
    requires |oid| == OID_SIZE
    ensures fresh(storage)
    ensures e == Element(BsonObjectId, Pointer(storage[..]))
    ensures storage[..] == oid
    ensures OidView(e.value.bytes) == Some(oid)
  {
    storage := new Byte[OID_SIZE];
    CopyBytes(storage, 0, oid);
    assert storage[..] == storage[0..OID_SIZE];
    e := Element(BsonObjectId, Pointer(storage[..]));
  }

  // ---------------------------------------------------------------------------
  // The BSONElement overloads: scalars are decoded, the rest are views
  // ---------------------------------------------------------------------------

  datatype BsonType = Bool | NumberInt | NumberLong | NumberDecimalType | DateType
                    | TimestampType | StringType | BinDataType | Code | JstOid

  /** A BSON element by its type and the bytes of its value. */
  datatype BsonElement = BsonElement(btype: BsonType, value: seq<Byte>)

  /** `materialize<bool>(BSONElement)`: true exactly when the value byte is not zero. */
  function MaterializeBoolElement(elt: BsonElement): (e: Element)
    requires elt.btype == Bool && |elt.value| >= 1
    ensures e == MaterializeBool(elt.value[0] != 0)
  {
    MaterializeBool(elt.value[0] != 0)
  }

  function MaterializeInt32Element(elt: BsonElement): (e: Element)
    requires elt.btype == NumberInt && |elt.value| >= 4
    ensures e.tag == NumberInt32 && e.value.Word?
  {
    var u := FromLE(elt.value[..4]);
    MaterializeInt32(FromInt32Bits(u))
  }

  function MaterializeInt64Element(elt: BsonElement): (e: Element)
    requires elt.btype == NumberLong && |elt.value| >= 8
    ensures e.tag == NumberInt64 && e.value.Word?
  {
    var u := FromLE(elt.value[..8]);
    MaterializeInt64(FromInt64Bits(u))
  }

  function MaterializeDateElement(elt: BsonElement): (e: Element)
    requires elt.btype == DateType && |elt.value| >= 8
    ensures e.tag == Date && e.value.Word?
  {
    MaterializeDate(FromInt64Bits(FromLE(elt.value[..8])))
  }

  /** `materialize<Timestamp>(BSONElement)`: the little-endian 64-bit word as is. */
  function MaterializeTimestampElement(elt: BsonElement): (e: Element)
    requires elt.btype == TimestampType && |elt.value| >= 8
    ensures e.tag == Timestamp && e.value.Word?
  {
    Element(Timestamp, Word(FromLE(elt.value[..8])))
  }

  /** The view overloads reference the element's own value bytes instead of copying. */
  function MaterializeDecimalElement(elt: BsonElement): (e: Element)
    requires elt.btype == NumberDecimalType
    ensures e.tag == NumberDecimal && e.value == Pointer(elt.value)
  {
    Element(NumberDecimal, Pointer(elt.value))
  }

  function MaterializeStringElement(elt: BsonElement, canUseSmallString: seq<Byte> -> bool): (e: Element)
    requires elt.btype == StringType && StringView(elt.value).Some?
    ensures canUseSmallString(StringView(elt.value).value) ==> e.tag == StringSmall
    ensures !canUseSmallString(StringView(elt.value).value) ==>
              e == Element(BsonString, Pointer(elt.value))
    ensures GetString(e) == StringView(elt.value)
  {
    var sd := StringView(elt.value).value;
    if canUseSmallString(sd) then Element(StringSmall, SmallChars(sd))
    else Element(BsonString, Pointer(elt.value))
  }

  function MaterializeBinDataElement(elt: BsonElement): (e: Element)
    requires elt.btype == BinDataType
    ensures e.tag == BsonBinData && e.value == Pointer(elt.value)
  {
    Element(BsonBinData, Pointer(elt.value))
  }

  function MaterializeCodeElement(elt: BsonElement): (e: Element)
    requires elt.btype == Code
    ensures e.tag == BsonJavascript && e.value == Pointer(elt.value)
  {
    Element(BsonJavascript, Pointer(elt.value))
  }

  function MaterializeOidElement(elt: BsonElement): (e: Element)
    requires elt.btype == JstOid
    ensures e.tag == BsonObjectId && e.value == Pointer(elt.value)
  {
    Element(BsonObjectId, Pointer(elt.value))
  }

  /**
   * Decoding a BSON int32 element gives the same SBE element as materialising
   * the number it encodes.
   */
  lemma Int32ElementAgrees(v: int)
    requires IsInt32(v)
    ensures MaterializeInt32Element(BsonElement(NumberInt, LE(Int32Bits(v), 4))) == MaterializeInt32(v)
  {
    FromLEOfLE(Int32Bits(v), 4);
    assert LE(Int32Bits(v), 4)[..4] == LE(Int32Bits(v), 4);
  }

  lemma Int64ElementAgrees(v: int)
    requires IsInt64(v)
    ensures MaterializeInt64Element(BsonElement(NumberLong, LE(Int64Bits(v), 8))) == MaterializeInt64(v)
  {
    FromLEOfLE(Int64Bits(v), 8);
    assert LE(Int64Bits(v), 8)[..8] == LE(Int64Bits(v), 8);
  }

  /** A date element read from its little-endian bytes is the date materialized directly. */
  lemma DateElementAgrees(millis: int)
    requires IsInt64(millis)
    ensures MaterializeDateElement(BsonElement(DateType, LE(Int64Bits(millis), 8))) == MaterializeDate(millis)
  {
    FromLEOfLE(Int64Bits(millis), 8);
    assert LE(Int64Bits(millis), 8)[..8] == LE(Int64Bits(millis), 8);
  }

  lemma TimestampElementAgrees(t: BsonTimestamp)
    requires t.Valid()
    ensures MaterializeTimestampElement(BsonElement(TimestampType, LE(t.AsULL(), 8))) == MaterializeTimestamp(t)
  {
    FromLEOfLE(t.AsULL(), 8);
    assert LE(t.AsULL(), 8)[..8] == LE(t.AsULL(), 8);
  }

  /**
   * The string view over a BSON string element and the copying overload over
   * the same characters give elements that read back the same string.
   */
  lemma StringElementAgrees(s: seq<Byte>, canUseSmallString: seq<Byte> -> bool)
    requires |s| + 1 < 0x8000_0000
    ensures StringView(LengthPrefixedString(s)) == Some(s)
    ensures GetString(MaterializeStringElement(BsonElement(StringType, LengthPrefixedString(s)), canUseSmallString)) == Some(s)
  {
    StringRoundTrip(s);
  }

  // ---------------------------------------------------------------------------
  // ElementStorageValueBlock
  // ---------------------------------------------------------------------------

  /** The decompression arena whose lifetime the value blocks share. */
  class ElementStorage {
    constructor () {}
  }

  /** What `deblock` hands out: the count and the two parallel vectors. */
  datatype DeblockedTagVals = DeblockedTagVals(count: nat, tags: seq<TypeTag>, vals: seq<Payload>)

  /**
   * A value block that owns its values through a shared element storage and
   * exposes tags and values as two vectors.
   */
  class ElementStorageValueBlock {
    const storage: ElementStorage
    var vals: seq<Payload>
    var tags: seq<TypeTag>

    constructor (storage: ElementStorage, tags: seq<TypeTag>, vals: seq<Payload>)
      ensures this.storage == storage && this.tags == tags && this.vals == vals
    {
      this.storage := storage;
      this.vals := vals;
      this.tags := tags;
    }

    /** `size()`: the number of tags. */
    function Size(): (n: nat)
      reads this
      ensures n == |tags|
    {
      |tags|
    }

    /** `count()`: the number of values. */
    method Count() returns (n: nat)
      ensures n == |vals|
    {
      n := |vals|;
    }

    /** `deblock`: the value count with both vectors. */
    method Deblock() returns (d: DeblockedTagVals)
      ensures d.count == |vals| && d.tags == tags && d.vals == vals
    {
      d := DeblockedTagVals(|vals|, tags, vals);
    }

    /** `clone`: a new block over the same storage with copies of both vectors. */
    method Clone() returns (b: ElementStorageValueBlock)
      ensures fresh(b)
      ensures b.storage == storage && b.tags == tags && b.vals == vals
    {
      b := new ElementStorageValueBlock(storage, tags, vals);
    }
  }
}
