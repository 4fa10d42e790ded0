/**
 * The field cache of a document (`DocumentStorage` in document.cpp): an
 * append-only buffer of named fields, promoted lazily from the backing BSON,
 * with a power-of-two bucket hash table whose collisions are chained through
 * the fields themselves. The table is consulted once the cache holds
 * `hashTabMin` fields.
 *
 * A position is the ordinal of a field in the cache (-1 for "not found"),
 * which is what the byte offset of the source identifies.
 */
module DocumentCache {

  import opened DocumentValue

  /** How a cached field came to be there. */
  datatype Kind = Inserted | Cached | MaybeInserted

  /** One cached field; `nextCollision` links it to the next field of its bucket. */
  datatype ValueElement = ValueElement(name: string, val: Val, kind: Kind, nextCollision: int)

  /** A cached field without its hash-table link. */
  datatype Entry = Entry(name: string, val: Val, kind: Kind)

  /** An element of the backing BSON object, with its size in bytes. */
  datatype BsonField = BsonField(name: string, val: Val, size: nat)

  /** The failure of `uassert(16490/16491, "Tried to make oversized document")`. */
  datatype Result<T> = Ok(value: T) | Oversized

  /**
   * The constants of the storage layout, which live in document.h: the field
   * count from which the hash table is used, the initial bucket count, the
   * sizes of a `ValueElement` header and of a `Position`, the alignment of
   * fields, the largest buffer, and the hash of a field name.
   */
  datatype Layout = Layout(
    hashTabMin: nat,
    hashTabInitSize: nat,
    valueElementSize: nat,
    positionSize: nat,
    alignment: nat,
    bufferMaxSize: nat,
    hashKey: string -> nat)
  {
    predicate Valid()
    {
      hashTabMin >= 1 && IsPow2(hashTabInitSize) && valueElementSize >= 1 &&
      positionSize >= 1 && alignment >= 1
    }
  }

  const NOT_FOUND: int := -1

  predicate IsPow2(x: nat)
    decreases x
  {
    x == 1 || (x >= 2 && x % 2 == 0 && IsPow2(x / 2))
  }

  /** Doubling a power of two gives a power of two. */
  lemma Pow2Double(x: nat)
    requires IsPow2(x)
    ensures IsPow2(2 * x)
  {
    assert (2 * x) / 2 == x;
  }

  /**
   * The doubling loops of `alloc` and `reserveFields`: the first of
   * `start`, `2 * start`, `4 * start`, ... that reaches `target`.
   */
  function SmallestDoubling(start: nat, target: nat): (r: nat)
    requires start >= 1
    ensures r >= start && r >= target
    ensures r == start || r < 2 * target
    decreases if start >= target then 0 else target - start
  {
    if start >= target then start else SmallestDoubling(2 * start, target)
  }

  /** Doubling from a power of two stays on powers of two, so the table can be indexed by a mask. */
  lemma {:induction false} SmallestDoublingPow2(start: nat, target: nat)
    requires start >= 1 && IsPow2(start)
    ensures IsPow2(SmallestDoubling(start, target))
    decreases if start >= target then 0 else target - start
  {
    if start < target {
      Pow2Double(start);
      SmallestDoublingPow2(2 * start, target);
    }
  }

  /** `r` is a whole number of `a`-byte units. */
  predicate IsMultiple(r: nat, a: nat)
    requires a >= 1
    decreases r
  {
    r == 0 || (r >= a && IsMultiple(r - a, a))
  }

  /** `ValueElement::align`: round up to the next multiple of the alignment. */
  function Align(x: nat, a: nat): (r: nat)
    requires a >= 1
    ensures x <= r < x + a && IsMultiple(r, a)
    decreases x
  {
    if x == 0 then 0 else if x <= a then a else a + Align(x - a, a)
  }

  /** `count` slots of `unit` bytes each, laid end to end. */
  function Slots(count: nat, unit: nat): nat
  {
    if count == 0 then 0 else Slots(count - 1, unit) + unit
  }

  /** The slots take `count * unit` bytes. */
  lemma {:induction false} SlotsIsProduct(count: nat, unit: nat)
    ensures Slots(count, unit) == count * unit
  {
    if count > 0 {
      SlotsIsProduct(count - 1, unit);
    }
  }

  /** Bytes used by fields with these names, each a header plus its name, aligned. */
  function UsedBytesOf(names: seq<string>, layout: Layout): (r: nat)
    requires layout.Valid()
    ensures IsMultiple(r, layout.alignment)
    ensures names != [] ==> r >= layout.valueElementSize + |names[|names| - 1]|
  {
    if names == [] then 0
    else
      var prev := UsedBytesOf(names[..|names| - 1], layout);
      Align(prev + layout.valueElementSize + |names[|names| - 1]|, layout.alignment)
  }

  function Contents(fs: seq<ValueElement>): (r: seq<Entry>)
    ensures |r| == |fs|
    ensures forall i :: 0 <= i < |fs| ==> r[i] == Entry(fs[i].name, fs[i].val, fs[i].kind)
  {
    seq(|fs|, i requires 0 <= i < |fs| => Entry(fs[i].name, fs[i].val, fs[i].kind))
  }

  function EntryNames(es: seq<Entry>): seq<string>
  {
    seq(|es|, i requires 0 <= i < |es| => es[i].name)
  }

  function NamesOf(fs: seq<ValueElement>): (r: seq<string>)
    ensures |r| == |fs|
    ensures forall i :: 0 <= i < |fs| ==> r[i] == fs[i].name
  {
    EntryNames(Contents(fs))
  }

  function BsonNames(bson: seq<BsonField>): seq<string>
  {
    seq(|bson|, i requires 0 <= i < |bson| => bson[i].name)
  }

  /** The first position holding `name`, or NOT_FOUND. */
  function FirstNamed(names: seq<string>, name: string): (r: int)
    ensures r == NOT_FOUND <==> forall i :: 0 <= i < |names| ==> names[i] != name
    ensures r != NOT_FOUND ==>
              0 <= r < |names| && names[r] == name && forall i :: 0 <= i < r ==> names[i] != name
  {
    if names == [] then NOT_FOUND
    else if names[0] == name then 0
    else
      var r := FirstNamed(names[1..], name);
      assert forall i :: 1 <= i < |names| ==> names[i] == names[1..][i - 1];
      if r == NOT_FOUND then NOT_FOUND else r + 1
  }

  /** The cached fields as the document's fields, name and value, in order. */
  function AsFields(fs: seq<ValueElement>): (r: seq<Field>)
    ensures |r| == |fs|
    ensures forall i :: 0 <= i < |fs| ==> r[i] == Field(fs[i].name, fs[i].val)
  {
    seq(|fs|, i requires 0 <= i < |fs| => Field(fs[i].name, fs[i].val))
  }

  /** The cache's first position of a name is the position the document's value semantics look a name up at. */
  lemma FirstNamedIsPositionOf(fs: seq<ValueElement>, name: string)
    ensures var p := PositionOf(AsFields(fs), name);
      FirstNamed(NamesOf(fs), name) == if p.Some? then p.value else NOT_FOUND
  {
    var p := PositionOf(AsFields(fs), name);
    var r := FirstNamed(NamesOf(fs), name);
    if p.Some? && r != NOT_FOUND {
      assert !(r < p.value) && !(p.value < r);
    }
  }

  // ---------------------------------------------------------------------------
  // Hash chains
  // ---------------------------------------------------------------------------

  /**
   * The remainder of `x` divided by `m`, by repeated subtraction; for a
   * power-of-two `m` it is `x & (m - 1)`.
   */
  function Remainder(x: nat, m: nat): (r: nat)
    requires m >= 1
    ensures r < m
    decreases x
  {
    if x < m then x else Remainder(x - m, m)
  }

  /** `bucketForKey`: the hash masked by `buckets - 1` (buckets is a power of two). */
  function Bucket(key: string -> nat, buckets: nat, name: string): (r: nat)
    requires buckets >= 1
    ensures r < buckets
  {
    Remainder(key(name), buckets)
  }

  /** The first position at or after `j` whose name falls in bucket `b`, or NOT_FOUND. */
  function FirstFrom(names: seq<string>, key: string -> nat, buckets: nat, b: nat, j: nat): (r: int)
    requires buckets >= 1 && j <= |names|
    ensures r == NOT_FOUND || j <= r < |names|
    decreases |names| - j
  {
    if j == |names| then NOT_FOUND
    else if Bucket(key, buckets, names[j]) == b then j
    else FirstFrom(names, key, buckets, b, j + 1)
  }

  /**
   * FirstFrom finds the earliest name of bucket `b` at or after `j`, and
   * NOT_FOUND exactly when there is none.
   */
  lemma {:induction false} FirstFromIsFirst(names: seq<string>, key: string -> nat, buckets: nat, b: nat, j: nat)
    requires buckets >= 1 && j <= |names|
    ensures var r := FirstFrom(names, key, buckets, b, j);
            (r == NOT_FOUND <==> forall k :: j <= k < |names| ==> Bucket(key, buckets, names[k]) != b) &&
            (r != NOT_FOUND ==>
               Bucket(key, buckets, names[r]) == b &&
               forall k :: j <= k < r ==> Bucket(key, buckets, names[k]) != b)
    decreases |names| - j
  {
    if j < |names| && Bucket(key, buckets, names[j]) != b {
      FirstFromIsFirst(names, key, buckets, b, j + 1);
    }
  }

  /** Appending a name only fills in the end of its own bucket's chain. */
  lemma {:induction false} FirstFromAppend(names: seq<string>, key: string -> nat, buckets: nat, b: nat, j: nat, name: string)
    requires buckets >= 1 && j <= |names|
    ensures FirstFrom(names + [name], key, buckets, b, j) ==
            if FirstFrom(names, key, buckets, b, j) != NOT_FOUND then FirstFrom(names, key, buckets, b, j)
            else if Bucket(key, buckets, name) == b then |names|
            else NOT_FOUND
    decreases |names| - j
  {
    var ext := names + [name];
    if j == |names| {
      assert ext[j] == name;
      assert FirstFrom(ext, key, buckets, b, j + 1) == NOT_FOUND;
    } else {
      assert ext[j] == names[j];
      if Bucket(key, buckets, names[j]) != b {
        FirstFromAppend(names, key, buckets, b, j + 1, name);
      }
    }
  }

  /** The link of field `i`: the next field of its bucket, or NOT_FOUND. */
  function Link(fields: seq<ValueElement>, i: nat): int
    requires i < |fields|
  {
    fields[i].nextCollision
  }

  /**
   * The hash table over the first `k` fields: every bucket head is the first
   * field of that bucket, and every field links to the next field of its
   * bucket. Chains therefore run in position order and hold exactly the
   * fields of their bucket.
   */
  ghost predicate ChainsOK(fields: seq<ValueElement>, hashTab: seq<int>, k: nat, key: string -> nat, buckets: nat)
    requires k <= |fields| && buckets >= 1
  {
    var names := NamesOf(fields)[..k];
    |hashTab| == buckets &&
    (forall b :: 0 <= b < buckets ==> hashTab[b] == FirstFrom(names, key, buckets, b, 0)) &&
    (forall i {:trigger Link(fields, i)} :: 0 <= i < k ==>
       Link(fields, i) == FirstFrom(names, key, buckets, Bucket(key, buckets, fields[i].name), i + 1))
  }

  /** Changing one field's link changes neither the names nor the contents of the cache. */
  lemma RelinkKeepsContents(fs: seq<ValueElement>, i: nat, link: int)
    requires i < |fs|
    ensures NamesOf(fs[i := fs[i].(nextCollision := link)]) == NamesOf(fs)
    ensures Contents(fs[i := fs[i].(nextCollision := link)]) == Contents(fs)
  {
    var gs := fs[i := fs[i].(nextCollision := link)];
    assert forall k :: 0 <= k < |fs| ==> gs[k].name == fs[k].name && gs[k].val == fs[k].val && gs[k].kind == fs[k].kind;
  }

  /** Over all the fields, bucket `b`'s head is its first field. */
  lemma ChainHead(fields: seq<ValueElement>, hashTab: seq<int>, key: string -> nat, buckets: nat, b: nat)
    requires buckets >= 1 && b < buckets && ChainsOK(fields, hashTab, |fields|, key, buckets)
    ensures hashTab[b] == FirstFrom(NamesOf(fields), key, buckets, b, 0)
  {
    assert NamesOf(fields)[..|fields|] == NamesOf(fields);
  }

  /** Over all the fields, a field of bucket `b` links to the next field of that bucket. */
  lemma ChainLink(fields: seq<ValueElement>, hashTab: seq<int>, key: string -> nat, buckets: nat, b: nat, pos: nat)
    requires buckets >= 1 && pos < |fields| && ChainsOK(fields, hashTab, |fields|, key, buckets)
    requires Bucket(key, buckets, fields[pos].name) == b
    ensures fields[pos].nextCollision == FirstFrom(NamesOf(fields), key, buckets, b, pos + 1)
  {
    assert NamesOf(fields)[..|fields|] == NamesOf(fields);
    assert Link(fields, pos) == FirstFrom(NamesOf(fields), key, buckets, b, pos + 1);
  }

  /**
   * `addFieldToHashTable` after its walk, when the bucket of field `pos` is
   * empty among the first `pos` fields: the field becomes the bucket's head.
   */
  lemma HangAtHead(fields: seq<ValueElement>, hashTab: seq<int>, pos: nat, key: string -> nat, buckets: nat)
    requires pos < |fields| && buckets >= 1
    requires ChainsOK(fields, hashTab, pos, key, buckets) && fields[pos].nextCollision == NOT_FOUND
    requires FirstFrom(NamesOf(fields)[..pos], key, buckets, Bucket(key, buckets, fields[pos].name), 0) == NOT_FOUND
    ensures ChainsOK(fields, hashTab[Bucket(key, buckets, fields[pos].name) := pos], pos + 1, key, buckets)
  {
    var names := NamesOf(fields);
    var prefix := names[..pos];
    var name := names[pos];
    var b := Bucket(key, buckets, name);
    var table := hashTab[b := pos];
    assert names[..pos + 1] == prefix + [name];
    forall c | 0 <= c < buckets
      ensures table[c] == FirstFrom(prefix + [name], key, buckets, c, 0)
    {
      FirstFromAppend(prefix, key, buckets, c, 0, name);
    }
    forall i | 0 <= i < pos + 1
      ensures Link(fields, i) == FirstFrom(prefix + [name], key, buckets, Bucket(key, buckets, fields[i].name), i + 1)
    {
      if i < pos {
        assert prefix[i] == fields[i].name;
        var c := Bucket(key, buckets, prefix[i]);
        FirstFromAppend(prefix, key, buckets, c, i + 1, name);
        if c == b {
          FirstFromIsFirst(prefix, key, buckets, b, 0);
        }
      }
    }
  }

  /** The link of a field other than `last` is unchanged when the chain's last field `last` is hung onto `pos`. */
  lemma HangAfterLink(mid: seq<ValueElement>, hashTab: seq<int>, pos: nat, key: string -> nat, buckets: nat, last: nat, i: nat)
    requires pos < |mid| && buckets >= 1 && last < pos && i < pos && i != last
    requires ChainsOK(mid, hashTab, pos, key, buckets) && mid[pos].nextCollision == NOT_FOUND
    requires Bucket(key, buckets, mid[last].name) == Bucket(key, buckets, mid[pos].name)
    requires FirstFrom(NamesOf(mid)[..pos], key, buckets, Bucket(key, buckets, mid[pos].name), last + 1) == NOT_FOUND
    ensures var fields := mid[last := mid[last].(nextCollision := pos)];
      Link(fields, i) == FirstFrom(NamesOf(mid)[..pos] + [mid[pos].name], key, buckets, Bucket(key, buckets, fields[i].name), i + 1)
  {
    var names := NamesOf(mid);
    var prefix := names[..pos];
    var name := names[pos];
    var b := Bucket(key, buckets, name);
    var fields := mid[last := mid[last].(nextCollision := pos)];
    assert prefix[last] == mid[last].name;
    assert prefix[i] == fields[i].name && fields[i] == mid[i] && Link(mid, i) == Link(fields, i);
    var c := Bucket(key, buckets, prefix[i]);
    FirstFromAppend(prefix, key, buckets, c, i + 1, name);
    if c == b && i < last {
      FirstFromIsFirst(prefix, key, buckets, b, i + 1);
    } else if c == b {
      FirstFromIsFirst(prefix, key, buckets, b, last + 1);
    }
  }

  /**
   * `addFieldToHashTable` after its walk, when `last` is the last of the
   * first `pos` fields in the bucket of field `pos`: `last` links to the new
   * field and nothing else changes.
   */
  lemma HangAfter(mid: seq<ValueElement>, hashTab: seq<int>, pos: nat, key: string -> nat, buckets: nat, last: nat)
    requires pos < |mid| && buckets >= 1 && last < pos
    requires ChainsOK(mid, hashTab, pos, key, buckets) && mid[pos].nextCollision == NOT_FOUND
    requires Bucket(key, buckets, mid[last].name) == Bucket(key, buckets, mid[pos].name)
    requires FirstFrom(NamesOf(mid)[..pos], key, buckets, Bucket(key, buckets, mid[pos].name), last + 1) == NOT_FOUND
    ensures ChainsOK(mid[last := mid[last].(nextCollision := pos)], hashTab, pos + 1, key, buckets)
  {
    var names := NamesOf(mid);
    var prefix := names[..pos];
    var name := names[pos];
    var b := Bucket(key, buckets, name);
    var fields := mid[last := mid[last].(nextCollision := pos)];
    RelinkKeepsContents(mid, last, pos);
    assert names[..pos + 1] == prefix + [name];
    assert prefix[last] == mid[last].name;
    forall c | 0 <= c < buckets
      ensures hashTab[c] == FirstFrom(prefix + [name], key, buckets, c, 0)
    {
      FirstFromAppend(prefix, key, buckets, c, 0, name);
      if c == b {
        FirstFromIsFirst(prefix, key, buckets, b, 0);
      }
    }
    forall i | 0 <= i < pos + 1
      ensures Link(fields, i) == FirstFrom(prefix + [name], key, buckets, Bucket(key, buckets, fields[i].name), i + 1)
    {
      if i == last {
        FirstFromAppend(prefix, key, buckets, b, last + 1, name);
      } else if i < pos {
        HangAfterLink(mid, hashTab, pos, key, buckets, last, i);
      }
    }
  }

  /** The chains of a prefix do not look at the fields after it. */
  lemma ChainsOKAppend(fields: seq<ValueElement>, hashTab: seq<int>, k: nat, key: string -> nat, buckets: nat, e: ValueElement)
    requires k <= |fields| && buckets >= 1
    requires ChainsOK(fields, hashTab, k, key, buckets)
    ensures ChainsOK(fields + [e], hashTab, k, key, buckets)
  {
    assert NamesOf(fields + [e])[..k] == NamesOf(fields)[..k];
    forall i | 0 <= i < k
      ensures Link(fields + [e], i) == Link(fields, i) && (fields + [e])[i].name == fields[i].name
    {
    }
  }

  // ---------------------------------------------------------------------------
  // DocumentStorage
  // ---------------------------------------------------------------------------

  class DocumentStorage {
    const layout: Layout
    /** The cached fields in append order; a position is an index into it. */
    var fields: seq<ValueElement>
    var numFields: nat
    var usedBytes: nat
    var hashTabMask: nat
    /** The bucket heads; meaningful once `numFields >= hashTabMin`. */
    var hashTab: seq<int>
    /** `_cache != nullptr`. */
    var hasBuffer: bool
    /** `_cacheEnd - _cache`: the bytes available for fields. */
    var cacheBytes: nat
    /** The size of the buffer last allocated. */
    var bufferBytes: nat
    var bson: seq<BsonField>
    var stripMetadata: bool
    var modified: bool
    var numBytesFromBSONInCache: nat

    function Buckets(): nat
      reads this`hashTabMask
    {
      hashTabMask + 1
    }

    predicate NeedRehash()
      reads this`numFields, this`hashTabMask
    {
      numFields * 2 > Buckets()
    }

    function HashTabBytes(): nat
      reads this`hashTabMask
    {
      Slots(Buckets(), layout.positionSize)
    }

    predicate Hashing()
      reads this`numFields
    {
      numFields >= layout.hashTabMin
    }

    ghost predicate Valid()
      reads this`fields, this`numFields, this`usedBytes, this`hashTabMask, this`hashTab,
            this`hasBuffer, this`cacheBytes
    {
      layout.Valid() &&
      numFields == |fields| &&
      IsPow2(Buckets()) &&
      usedBytes == UsedBytesOf(NamesOf(fields), layout) &&
      usedBytes <= cacheBytes &&
      (!hasBuffer ==> fields == [] && cacheBytes == 0) &&
      (cacheBytes > 0 ==> Buckets() >= layout.hashTabInitSize) &&
      (Hashing() ==> ChainsOK(fields, hashTab, |fields|, layout.hashKey, Buckets()))
    }

    /** An empty storage over `bson`, with no buffer yet. */
    constructor(layout: Layout, bson: seq<BsonField>, stripMetadata: bool, modified: bool, numBytesFromBSONInCache: nat)
      requires layout.Valid()
      ensures Valid()
      ensures this.layout == layout && fields == [] && !hasBuffer && hashTabMask == 0
      ensures this.bson == bson && this.stripMetadata == stripMetadata
      ensures this.modified == modified && this.numBytesFromBSONInCache == numBytesFromBSONInCache
    {
      this.layout := layout;
      fields := [];
      numFields := 0;
      usedBytes := 0;
      hashTabMask := 0;
      hashTab := [];
      hasBuffer := false;
      cacheBytes := 0;
      bufferBytes := 0;
      this.bson := bson;
      this.stripMetadata := stripMetadata;
      this.modified := modified;
      this.numBytesFromBSONInCache := numBytesFromBSONInCache;
    }

    /**
     * `findFieldInCache`: the position of the first cached field named
     * `requested`, found through the bucket chain once hashing is on and by
     * a linear scan before.
     */
    method FindFieldInCache(requested: string) returns (pos: int)
      requires Valid()
      ensures pos == FirstNamed(NamesOf(fields), requested)
    {
      ghost var names := NamesOf(fields);
      if numFields >= layout.hashTabMin {
        var key, buckets := layout.hashKey, Buckets();
        var b := Bucket(key, buckets, requested);
        ChainHead(fields, hashTab, key, buckets, b);
        pos := hashTab[b];
        ghost var j := 0;
        while pos != NOT_FOUND
          invariant 0 <= j <= |fields|
          invariant pos == FirstFrom(names, key, buckets, b, j)
          invariant forall i :: 0 <= i < j ==> names[i] != requested
          decreases |fields| - j
        {
          FirstFromIsFirst(names, key, buckets, b, j);
          if fields[pos].name == requested {
            return;
          }
          assert names[pos] == fields[pos].name;
          ChainLink(fields, hashTab, key, buckets, b, pos);
          forall i | j <= i <= pos
            ensures names[i] != requested
          {
            if i < pos {
              assert Bucket(key, buckets, names[i]) != b;
            }
          }
          j := pos + 1;
          pos := fields[pos].nextCollision;
        }
        FirstFromIsFirst(names, key, buckets, b, j);
      } else {
        var i := 0;
        while i < numFields
          invariant 0 <= i <= numFields
          invariant forall k :: 0 <= k < i ==> names[k] != requested
        {
          if fields[i].name == requested {
            return i;
          }
          i := i + 1;
        }
        pos := NOT_FOUND;
      }
    }

    /**
     * The walk of `addFieldToHashTable` along bucket `b` of the first `pos`
     * fields: the last field of the chain, or -1 when the chain is empty.
     */
    method ChainEnd(b: nat, pos: nat) returns (last: int)
      requires pos <= |fields| && b < Buckets() && ChainsOK(fields, hashTab, pos, layout.hashKey, Buckets())
      ensures -1 <= last < pos
      ensures last == -1 ==> hashTab[b] == NOT_FOUND &&
                             FirstFrom(NamesOf(fields)[..pos], layout.hashKey, Buckets(), b, 0) == NOT_FOUND
      ensures last != -1 ==> fields[last].nextCollision == NOT_FOUND &&
                             Bucket(layout.hashKey, Buckets(), fields[last].name) == b &&
                             FirstFrom(NamesOf(fields)[..pos], layout.hashKey, Buckets(), b, last + 1) == NOT_FOUND
    {
      var key, buckets := layout.hashKey, Buckets();
      ghost var prefix := NamesOf(fields)[..pos];
      last := -1;
      var p := hashTab[b];
      while p != NOT_FOUND
        invariant -1 <= last < pos
        invariant last != -1 ==> Bucket(key, buckets, fields[last].name) == b
        invariant p == FirstFrom(prefix, key, buckets, b, last + 1)
        invariant p == if last == -1 then hashTab[b] else fields[last].nextCollision
        decreases pos - last
      {
        FirstFromIsFirst(prefix, key, buckets, b, last + 1);
        assert prefix[p] == fields[p].name;
        assert Link(fields, p) == FirstFrom(prefix, key, buckets, b, p + 1);
        last := p;
        p := fields[p].nextCollision;
      }
    }

    /** The first step of `addFieldToHashTable`: the field at `pos` loses its link. */
    method ClearLink(pos: nat)
      requires pos < |fields| && ChainsOK(fields, hashTab, pos, layout.hashKey, Buckets())
      modifies this`fields
      ensures |fields| == old(|fields|) && NamesOf(fields) == old(NamesOf(fields))
      ensures Contents(fields) == old(Contents(fields))
      ensures fields[pos].nextCollision == NOT_FOUND
      ensures ChainsOK(fields, hashTab, pos, layout.hashKey, Buckets())
    {
      ghost var before := fields;
      RelinkKeepsContents(fields, pos, NOT_FOUND);
      fields := fields[pos := fields[pos].(nextCollision := NOT_FOUND)];
      forall i | 0 <= i < pos
        ensures Link(fields, i) == Link(before, i)
      {
      }
    }

    /**
     * `addFieldToHashTable`: the field at `pos` gets an empty link and is
     * hung at the end of its bucket's chain, so the table then indexes the
     * first `pos + 1` fields.
     */
    method AddFieldToHashTable(pos: nat)
      requires pos < |fields| && ChainsOK(fields, hashTab, pos, layout.hashKey, Buckets())
      modifies this`fields, this`hashTab
      ensures |fields| == old(|fields|) && Contents(fields) == old(Contents(fields))
      ensures ChainsOK(fields, hashTab, pos + 1, layout.hashKey, Buckets())
      ensures fields[pos].nextCollision == NOT_FOUND
    {
      var key, buckets := layout.hashKey, Buckets();
      ClearLink(pos);
      ghost var mid := fields;
      var b := Bucket(key, buckets, fields[pos].name);
      var last := ChainEnd(b, pos);
      if last == -1 {
        HangAtHead(fields, hashTab, pos, key, buckets);
        hashTab := hashTab[b := pos];
      } else {
        HangAfter(fields, hashTab, pos, key, buckets, last);
        RelinkKeepsContents(fields, last, pos);
        fields := fields[last := fields[last].(nextCollision := pos)];
      }
    }

    /** `rehash`: empties the table and hashes every cached field again, in order. */
    method Rehash()
      modifies this`fields, this`hashTab
      ensures |fields| == old(|fields|) && Contents(fields) == old(Contents(fields))
      ensures ChainsOK(fields, hashTab, |fields|, layout.hashKey, Buckets())
    {
      hashTab := seq(Buckets(), _ => NOT_FOUND);
      var k := 0;
      while k < |fields|
        invariant 0 <= k <= |fields| == old(|fields|)
        invariant Contents(fields) == old(Contents(fields))
        invariant ChainsOK(fields, hashTab, k, layout.hashKey, Buckets())
      {
        AddFieldToHashTable(k);
        k := k + 1;
      }
    }

    /** The bucket count `alloc` grows to: room for twice the fields, and at least the initial size. */
    function BucketTarget(): nat
      reads this`numFields
    {
      if 2 * numFields > layout.hashTabInitSize then 2 * numFields else layout.hashTabInitSize
    }

    /** The bucket loop of `alloc`: doubles while the table is over half full or below the initial size. */
    method GrowBuckets()
      requires IsPow2(Buckets())
      modifies this`hashTabMask
      ensures IsPow2(Buckets()) && Buckets() == SmallestDoubling(old(Buckets()), BucketTarget())
    {
      ghost var target := BucketTarget();
      ghost var start := Buckets();
      while NeedRehash() || Buckets() < layout.hashTabInitSize
        invariant IsPow2(Buckets())
        invariant SmallestDoubling(Buckets(), target) == SmallestDoubling(start, target)
        decreases target - Buckets()
      {
        Pow2Double(Buckets());
        hashTabMask := Buckets() * 2 - 1;
      }
    }

    /** The doubling loops of `alloc` and `reserveFields`: doubles `start` until it reaches `target`. */
    static method DoubleUntil(start: nat, target: nat) returns (r: nat)
      requires start >= 1
      ensures r == SmallestDoubling(start, target)
    {
      r := start;
      while r < target
        invariant r >= 1
        invariant SmallestDoubling(r, target) == SmallestDoubling(start, target)
        decreases target - r
      {
        r := r * 2;
      }
    }

    /**
     * The second half of `alloc`: the new buffer replaces the old one, the
     * fields are copied over, and the table is either rebuilt or carried over.
     */
    method InstallBuffer(capacity: nat, rehash: bool)
      requires capacity >= HashTabBytes()
      modifies this`hasBuffer, this`bufferBytes, this`cacheBytes, this`fields, this`hashTab
      ensures hasBuffer && bufferBytes == capacity && cacheBytes == capacity - HashTabBytes()
      ensures |fields| == old(|fields|) && Contents(fields) == old(Contents(fields))
      ensures rehash ==> ChainsOK(fields, hashTab, |fields|, layout.hashKey, Buckets())
      ensures !rehash ==> fields == old(fields) && hashTab == old(hashTab)
    {
      hasBuffer := true;
      bufferBytes := capacity;
      cacheBytes := capacity - HashTabBytes();
      if rehash {
        Rehash();
      }
    }

    /**
     * `alloc`: grows the bucket count until the table is at most half full
     * and at least `hashTabInitSize`, then replaces the buffer by the smallest
     * power of two from 128 bytes that holds `newSize` bytes of fields plus
     * the table. The fields are kept; the table is rebuilt when the bucket
     * count grew while hashing, and carried over otherwise. A buffer over
     * `bufferMaxSize` fails after the bucket count has grown.
     */
    method Alloc(newSize: nat) returns (ok: bool)
      requires Valid() && newSize >= usedBytes
      modifies this`hashTabMask, this`hashTab, this`fields, this`hasBuffer, this`cacheBytes, this`bufferBytes
      ensures Buckets() == SmallestDoubling(old(Buckets()), BucketTarget())
      ensures ok <==> SmallestDoubling(128, newSize + HashTabBytes()) <= layout.bufferMaxSize
      ensures ok ==> Valid() && hasBuffer && Contents(fields) == old(Contents(fields))
      ensures ok ==> bufferBytes == SmallestDoubling(128, newSize + HashTabBytes())
      ensures ok ==> cacheBytes == bufferBytes - HashTabBytes() && cacheBytes >= newSize
      ensures !ok ==> fields == old(fields) && hashTab == old(hashTab) && hasBuffer == old(hasBuffer) &&
                      cacheBytes == old(cacheBytes) && bufferBytes == old(bufferBytes)
    {
      var firstAlloc := !hasBuffer;
      var doingRehash := NeedRehash();
      ghost var target := BucketTarget();
      ghost var oldBuckets := Buckets();
      ghost var names := NamesOf(fields);
      assert Hashing() ==> oldBuckets >= layout.hashTabInitSize by {
        if Hashing() {
          assert names != [] && usedBytes >= layout.valueElementSize;
        }
      }
      GrowBuckets();
      var capacity := DoubleUntil(128, newSize + HashTabBytes());
      if capacity > layout.bufferMaxSize {
        return false;
      }
      assert Hashing() && !doingRehash ==> Buckets() == oldBuckets;
      InstallBuffer(capacity, !firstAlloc && numFields >= layout.hashTabMin && doingRehash);
      assert NamesOf(fields) == names;
      assert usedBytes <= cacheBytes;
      assert Hashing() ==> ChainsOK(fields, hashTab, |fields|, layout.hashKey, Buckets());
      return true;
    }

    /**
     * The hashing step at the end of `appendField`, once the new field is the
     * last of `fields`: the field reaching `hashTabMin` hashes every field,
     * later ones only themselves.
     */
    method HashAppended()
      requires 1 <= numFields == |fields| && Buckets() >= 1
      requires numFields - 1 >= layout.hashTabMin ==>
                 ChainsOK(fields, hashTab, numFields - 1, layout.hashKey, Buckets())
      modifies this`fields, this`hashTab
      ensures |fields| == old(|fields|) && Contents(fields) == old(Contents(fields))
      ensures Hashing() ==> ChainsOK(fields, hashTab, |fields|, layout.hashKey, Buckets())
    {
      if numFields > layout.hashTabMin {
        AddFieldToHashTable(numFields - 1);
        assert NamesOf(fields)[..|fields|] == NamesOf(fields);
      } else if numFields == layout.hashTabMin {
        Rehash();
      }
    }

    /** The append proper of `appendField`, once the buffer has room for `newUsed` bytes. */
    method PushField(name: string, kind: Kind, newUsed: nat)
      requires Valid() && newUsed <= cacheBytes
      requires newUsed == Align(usedBytes + layout.valueElementSize + |name|, layout.alignment)
      modifies this`fields, this`numFields, this`usedBytes, this`hashTab
      ensures Valid() && numFields == old(numFields) + 1 && usedBytes == newUsed
      ensures Contents(fields) == old(Contents(fields)) + [Entry(name, Missing, kind)]
    {
      ghost var before := fields;
      ghost var names := NamesOf(fields) + [name];
      assert names[..|before|] == NamesOf(before);
      assert UsedBytesOf(names, layout) == newUsed;
      assert hasBuffer && Buckets() >= layout.hashTabInitSize;
      var e := ValueElement(name, Missing, kind, NOT_FOUND);
      usedBytes := newUsed;
      fields := fields + [e];
      numFields := numFields + 1;
      assert Contents(fields) == Contents(before) + [Entry(name, Missing, kind)];
      assert NamesOf(fields) == names;
      if numFields - 1 >= layout.hashTabMin {
        assert NamesOf(before)[..|before|] == NamesOf(before);
        ChainsOKAppend(before, hashTab, |before|, layout.hashKey, Buckets(), e);
      }
      HashAppended();
      assert NamesOf(fields) == names;
      assert usedBytes == UsedBytesOf(NamesOf(fields), layout);
      assert Hashing() ==> ChainsOK(fields, hashTab, |fields|, layout.hashKey, Buckets());
    }

    /**
     * `appendField`: a new field with no value and an empty link goes at the
     * end of the cache, `usedBytes` advancing by its aligned size; the buffer
     * is reallocated first when the field does not fit.
     */
    method AppendField(name: string, kind: Kind) returns (r: Result<nat>)
      requires Valid()
      modifies this`fields, this`numFields, this`usedBytes, this`hashTabMask, this`hashTab,
               this`hasBuffer, this`cacheBytes, this`bufferBytes
      ensures r.Ok? ==> Valid() && r.value == old(numFields)
      ensures r.Ok? ==> numFields == old(numFields) + 1 &&
                        usedBytes == Align(old(usedBytes) + layout.valueElementSize + |name|, layout.alignment)
      ensures r.Ok? ==> Contents(fields) == old(Contents(fields)) + [Entry(name, Missing, kind)]
      ensures r.Oversized? ==> fields == old(fields) && usedBytes == old(usedBytes)
    {
      var pos := numFields;
      var newUsed := Align(usedBytes + layout.valueElementSize + |name|, layout.alignment);
      if newUsed > cacheBytes {
        var ok := Alloc(newUsed);
        if !ok {
          return Oversized;
        }
        assert Valid() && newUsed <= cacheBytes;
      }
      PushField(name, kind, newUsed);
      return Ok(pos);
    }

    /** The store through the reference `appendField` returns: field `pos` takes value `v`, its name, kind and link stay. */
    method SetValue(pos: nat, v: Val)
      requires Valid() && pos < |fields|
      modifies this`fields
      ensures Valid()
      ensures Contents(fields) == old(Contents(fields))[pos := Entry(old(fields[pos].name), v, old(fields[pos].kind))]
    {
      ghost var before := fields;
      fields := fields[pos := fields[pos].(val := v)];
      assert NamesOf(fields) == NamesOf(before);
      assert Contents(fields) == Contents(before)[pos := Entry(before[pos].name, v, before[pos].kind)];
      forall i | 0 <= i < |fields|
        ensures Link(fields, i) == Link(before, i)
      {
      }
    }

    /**
     * `constructInCache`: appends the BSON element as a cached field holding
     * its value, counting its size as bytes of BSON now held in the cache,
     * and leaves the modified flag as it was.
     */
    method ConstructInCache(elem: BsonField) returns (r: Result<nat>)
      requires Valid()
      modifies this`fields, this`numFields, this`usedBytes, this`hashTabMask, this`hashTab,
               this`hasBuffer, this`cacheBytes, this`bufferBytes, this`numBytesFromBSONInCache, this`modified
      ensures numBytesFromBSONInCache == old(numBytesFromBSONInCache) + elem.size
      ensures modified == old(modified)
      ensures r.Ok? ==> Valid() && r.value == old(numFields) &&
                        Contents(fields) == old(Contents(fields)) + [Entry(elem.name, elem.val, Cached)]
      ensures r.Oversized? ==> fields == old(fields)
    {
      var savedModified := modified;
      var pos := numFields;
      ghost var contents := Contents(fields);
      numBytesFromBSONInCache := numBytesFromBSONInCache + elem.size;
      var appended := AppendField(elem.name, Cached);
      if appended.Oversized? {
        return Oversized;
      }
      assert Contents(fields) == contents + [Entry(elem.name, Missing, Cached)];
      SetValue(pos, elem.val);
      assert Contents(fields) == contents + [Entry(elem.name, elem.val, Cached)];
      assert Valid();
      modified := savedModified;
      return Ok(pos);
    }

    /**
     * `findField`: a cache hit is returned as is; with `cacheOnly` a miss is
     * final; otherwise the first BSON element of that name is promoted into
     * the cache, and NOT_FOUND means no element has the name.
     */
    method FindField(requested: string, cacheOnly: bool) returns (r: Result<int>)
      requires Valid()
      modifies this`fields, this`numFields, this`usedBytes, this`hashTabMask, this`hashTab,
               this`hasBuffer, this`cacheBytes, this`bufferBytes, this`numBytesFromBSONInCache, this`modified
      ensures var hit := old(FirstNamed(NamesOf(fields), requested));
              hit != NOT_FOUND || cacheOnly ==> r == Ok(hit) && unchanged(this)
      ensures var hit := old(FirstNamed(NamesOf(fields), requested));
              var k := FirstNamed(BsonNames(bson), requested);
              hit == NOT_FOUND && !cacheOnly && k == NOT_FOUND ==> r == Ok(NOT_FOUND) && unchanged(this)
      ensures var hit := old(FirstNamed(NamesOf(fields), requested));
              var k := FirstNamed(BsonNames(bson), requested);
              hit == NOT_FOUND && !cacheOnly && k != NOT_FOUND ==>
                modified == old(modified) &&
                numBytesFromBSONInCache == old(numBytesFromBSONInCache) + bson[k].size &&
                (r.Oversized? ||
                 (Valid() && r == Ok(old(numFields)) &&
                  Contents(fields) == old(Contents(fields)) + [Entry(requested, bson[k].val, Cached)]))
    {
      var pos := FindFieldInCache(requested);
      if pos != NOT_FOUND || cacheOnly {
        return Ok(pos);
      }
      var i := 0;
      while i < |bson|
        invariant 0 <= i <= |bson|
        invariant forall j :: 0 <= j < i ==> BsonNames(bson)[j] != requested
      {
        if bson[i].name == requested {
          assert BsonNames(bson)[i] == requested;
          var c := ConstructInCache(bson[i]);
          match c
          case Ok(p) => return Ok(p);
          case Oversized => return Oversized;
        }
        i := i + 1;
      }
      return Ok(NOT_FOUND);
    }

    /**
     * `reserveFields`: before any buffer exists, sizes the table to the
     * first doubling of `hashTabInitSize` that reaches the expected count,
     * and room for one more field than expected.
     */
    method ReserveFields(expectedFields: nat) returns (ok: bool)
      requires Valid() && !hasBuffer
      modifies this`hashTabMask, this`hasBuffer, this`cacheBytes, this`bufferBytes
      ensures Valid()
      ensures Buckets() == SmallestDoubling(layout.hashTabInitSize, expectedFields)
      ensures var newSize := Slots(expectedFields + 1, Align(layout.valueElementSize, layout.alignment));
              (ok <==> newSize <= layout.bufferMaxSize) &&
              (ok ==> hasBuffer && cacheBytes == newSize && bufferBytes == newSize + HashTabBytes()) &&
              (!ok ==> !hasBuffer && cacheBytes == 0)
    {
      assert fields == [] && usedBytes == 0;
      var buckets := DoubleUntil(layout.hashTabInitSize, expectedFields);
      SmallestDoublingPow2(layout.hashTabInitSize, expectedFields);
      hashTabMask := buckets - 1;
      var newSize := Slots(expectedFields + 1, Align(layout.valueElementSize, layout.alignment));
      if newSize > layout.bufferMaxSize {
        return false;
      }
      hasBuffer := true;
      cacheBytes := newSize;
      bufferBytes := newSize + HashTabBytes();
      return true;
    }

    /**
     * `reset`: points the storage at new BSON and empties the cache, keeping
     * the buffer for reuse.
     */
    method Reset(bson: seq<BsonField>, stripMetadata: bool)
      requires layout.Valid()
      modifies this
      ensures Valid()
      ensures this.bson == bson && this.stripMetadata == stripMetadata
      ensures fields == [] && numFields == 0 && usedBytes == 0 && hashTabMask == 0 && cacheBytes == 0
      ensures !modified && numBytesFromBSONInCache == 0
      ensures hasBuffer == old(hasBuffer) && bufferBytes == old(bufferBytes)
    {
      this.bson := bson;
      numBytesFromBSONInCache := 0;
      this.stripMetadata := stripMetadata;
      modified := false;
      fields := [];
      cacheBytes := 0;
      usedBytes := 0;
      numFields := 0;
      hashTabMask := 0;
    }
  }
}
