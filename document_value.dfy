/**
 * Document values and the pure algorithms of document.cpp: the field-by-field
 * ordering of two documents (`Document::compare`) and the two dotted-path
 * lookups (`getNestedFieldHelperBSON` over raw BSON, and the static
 * `getNestedFieldHelper` over cached documents).
 */
module DocumentValue {

  import opened Wrappers

  /** A value held in a document field; arrays and embedded objects nest. */
  datatype Val =
    | Missing
    | Scalar(bsonType: int, payload: seq<int>)
    | Arr(elems: seq<Val>)
    | Obj(fields: seq<Field>)

  datatype Field = Field(name: string, value: Val)

  /**
   * A document as its iteration order, together with the identity of the
   * storage it reads from (documents that share storage are the same value).
   */
  datatype Document = Document(storage: nat, fields: seq<Field>)

  /**
   * The collaborators of the comparison that live outside document.cpp: the
   * BSON type of a value, `canonicalizeBSONType`, and `Value::compare`.
   */
  datatype ValueOrder = ValueOrder(typeOf: Val -> int, canonical: int -> int, compare: (Val, Val) -> int)

  function Sign(x: int): int
  {
    if x < 0 then -1 else if x == 0 then 0 else 1
  }

  // ---------------------------------------------------------------------------
  // Field names: StringData::compare
  // ---------------------------------------------------------------------------

  /** Byte-wise comparison of two names; a proper prefix sorts first. */
  function NameCompare(a: string, b: string): (r: int)
    ensures -1 <= r <= 1
  {
    if a == [] && b == [] then 0
    else if a == [] then -1
    else if b == [] then 1
    else if a[0] < b[0] then -1
    else if a[0] > b[0] then 1
    else NameCompare(a[1..], b[1..])
  }

  lemma {:induction false} NameCompareZeroIffEqual(a: string, b: string)
    ensures NameCompare(a, b) == 0 <==> a == b
  {
    if a != [] && b != [] && a[0] == b[0] {
      NameCompareZeroIffEqual(a[1..], b[1..]);
      assert a == [a[0]] + a[1..] && b == [b[0]] + b[1..];
    }
  }

  lemma {:induction false} NameCompareAntisymmetric(a: string, b: string)
    ensures NameCompare(a, b) == -NameCompare(b, a)
  {
    if a != [] && b != [] && a[0] == b[0] {
      NameCompareAntisymmetric(a[1..], b[1..]);
    }
  }

  // ---------------------------------------------------------------------------
  // Document::compare
  // ---------------------------------------------------------------------------

  /**
   * The field-by-field comparison loop: canonical type first (only when the
   * types differ), then the name, then the value; a document that runs out
   * first is the smaller.
   */
  function CompareFields(ls: seq<Field>, rs: seq<Field>, ord: ValueOrder): (c: int)
    ensures c == 0 ==> |ls| == |rs|
  {
    if ls == [] then (if rs == [] then 0 else -1)
    else if rs == [] then 1
    else
      var l, r := ls[0], rs[0];
      var lType, rType := ord.typeOf(l.value), ord.typeOf(r.value);
      if lType != rType && ord.canonical(lType) != ord.canonical(rType) then
        (if ord.canonical(lType) < ord.canonical(rType) then -1 else 1)
      else if NameCompare(l.name, r.name) != 0 then NameCompare(l.name, r.name)
      else if ord.compare(l.value, r.value) != 0 then ord.compare(l.value, r.value)
      else CompareFields(ls[1..], rs[1..], ord)
  }

  /** `Document::compare`: documents over the same storage are equal without looking. */
  function Compare(l: Document, r: Document, ord: ValueOrder): (c: int)
    ensures c == 0 ==> l.storage == r.storage || |l.fields| == |r.fields|
  {
    if l.storage == r.storage then 0 else CompareFields(l.fields, r.fields, ord)
  }

  /** Two fields the loop steps over: same canonical type, same name, equal values. */
  predicate FieldsTie(l: Field, r: Field, ord: ValueOrder)
  {
    (ord.typeOf(l.value) == ord.typeOf(r.value) ||
     ord.canonical(ord.typeOf(l.value)) == ord.canonical(ord.typeOf(r.value))) &&
    l.name == r.name && ord.compare(l.value, r.value) == 0
  }

  /** Value comparison is reflexive on the given values. */
  predicate ReflexiveOn(fs: seq<Field>, ord: ValueOrder)
  {
    forall i :: 0 <= i < |fs| ==> ord.compare(fs[i].value, fs[i].value) == 0
  }

  /** The comparison is zero exactly when both documents have pairwise tying fields. */
  lemma {:induction false} CompareFieldsZeroIff(ls: seq<Field>, rs: seq<Field>, ord: ValueOrder)
    ensures CompareFields(ls, rs, ord) == 0 <==>
            |ls| == |rs| && forall i :: 0 <= i < |ls| ==> FieldsTie(ls[i], rs[i], ord)
  {
    if ls != [] && rs != [] {
      NameCompareZeroIffEqual(ls[0].name, rs[0].name);
      CompareFieldsZeroIff(ls[1..], rs[1..], ord);
      if |ls| == |rs| && forall i :: 0 <= i < |ls| ==> FieldsTie(ls[i], rs[i], ord) {
        assert FieldsTie(ls[0], rs[0], ord);
        assert forall i :: 0 <= i < |ls| - 1 ==> FieldsTie(ls[1..][i], rs[1..][i], ord) by {
          forall i | 0 <= i < |ls| - 1 ensures FieldsTie(ls[1..][i], rs[1..][i], ord) {
            assert FieldsTie(ls[i + 1], rs[i + 1], ord);
          }
        }
      }
      if CompareFields(ls, rs, ord) == 0 {
        forall i | 0 <= i < |ls| ensures FieldsTie(ls[i], rs[i], ord) {
          if i > 0 {
            assert FieldsTie(ls[1..][i - 1], rs[1..][i - 1], ord);
          }
        }
      }
    }
  }

  /** A document compares equal to itself when value comparison is reflexive. */
  lemma {:induction false} CompareFieldsReflexive(fs: seq<Field>, ord: ValueOrder)
    requires ReflexiveOn(fs, ord)
    ensures CompareFields(fs, fs, ord) == 0
  {
    if fs != [] {
      NameCompareZeroIffEqual(fs[0].name, fs[0].name);
      assert ord.compare(fs[0].value, fs[0].value) == 0;
      assert ReflexiveOn(fs[1..], ord) by {
        forall i | 0 <= i < |fs| - 1 ensures ord.compare(fs[1..][i].value, fs[1..][i].value) == 0 {
          assert fs[1..][i] == fs[i + 1];
        }
      }
      CompareFieldsReflexive(fs[1..], ord);
    }
  }

  /** A proper prefix sorts before the longer document. */
  lemma {:induction false} ProperPrefixIsLess(ls: seq<Field>, rs: seq<Field>, ord: ValueOrder)
    requires |ls| < |rs| && ls == rs[..|ls|]
    requires ReflexiveOn(ls, ord)
    ensures CompareFields(ls, rs, ord) == -1
    ensures CompareFields(rs, ls, ord) == 1
  {
    if ls != [] {
      assert ls[0] == rs[0];
      NameCompareZeroIffEqual(ls[0].name, rs[0].name);
      assert ord.compare(ls[0].value, ls[0].value) == 0;
      assert ls[1..] == rs[1..][..|ls| - 1];
      assert ReflexiveOn(ls[1..], ord) by {
        forall i | 0 <= i < |ls| - 1 ensures ord.compare(ls[1..][i].value, ls[1..][i].value) == 0 {
          assert ls[1..][i] == ls[i + 1];
        }
      }
      ProperPrefixIsLess(ls[1..], rs[1..], ord);
    }
  }

  /** Value comparison answers with opposite signs when its arguments swap. */
  predicate AntisymmetricOn(ls: seq<Field>, rs: seq<Field>, ord: ValueOrder)
  {
    forall i :: 0 <= i < |ls| && i < |rs| ==>
      Sign(ord.compare(ls[i].value, rs[i].value)) == -Sign(ord.compare(rs[i].value, ls[i].value))
  }

  /** Swapping the documents flips the sign of the answer. */
  lemma {:induction false} CompareFieldsAntisymmetric(ls: seq<Field>, rs: seq<Field>, ord: ValueOrder)
    requires AntisymmetricOn(ls, rs, ord)
    ensures Sign(CompareFields(ls, rs, ord)) == -Sign(CompareFields(rs, ls, ord))
  {
    if ls != [] && rs != [] {
      NameCompareAntisymmetric(ls[0].name, rs[0].name);
      assert Sign(ord.compare(ls[0].value, rs[0].value)) == -Sign(ord.compare(rs[0].value, ls[0].value));
      assert AntisymmetricOn(ls[1..], rs[1..], ord) by {
        forall i | 0 <= i < |ls| - 1 && i < |rs| - 1
          ensures Sign(ord.compare(ls[1..][i].value, rs[1..][i].value)) ==
                  -Sign(ord.compare(rs[1..][i].value, ls[1..][i].value))
        {
          assert ls[1..][i] == ls[i + 1] && rs[1..][i] == rs[i + 1];
        }
      }
      CompareFieldsAntisymmetric(ls[1..], rs[1..], ord);
    }
  }

  /** `Document::compare` is zero exactly for shared storage or for pairwise tying fields. */
  lemma CompareZeroIff(l: Document, r: Document, ord: ValueOrder)
    ensures Compare(l, r, ord) == 0 <==>
            l.storage == r.storage ||
            (|l.fields| == |r.fields| && forall i :: 0 <= i < |l.fields| ==> FieldsTie(l.fields[i], r.fields[i], ord))
  {
    CompareFieldsZeroIff(l.fields, r.fields, ord);
  }

  // ---------------------------------------------------------------------------
  // Dotted-path lookups
  // ---------------------------------------------------------------------------

  /** What a non-caching lookup finds: an element, an array on the way, or nothing. */
  datatype Lookup = Found(v: Val) | TraversesArray | NotFound

  /** `embeddedObject()[name]`: the first field of that name, or the EOO element. */
  function FieldByName(fs: seq<Field>, name: string): (r: Option<Val>)
    ensures r.Some? <==> exists i :: 0 <= i < |fs| && fs[i].name == name
  {
    if fs == [] then None
    else if fs[0].name == name then Some(fs[0].value)
    else
      var r := FieldByName(fs[1..], name);
      assert forall i :: 1 <= i < |fs| ==> fs[i] == fs[1..][i - 1];
      r
  }

  /** `positionOf`: the position of the first field of that name. */
  function PositionOf(fs: seq<Field>, name: string): (r: Option<nat>)
    ensures r.Some? ==> r.value < |fs| && fs[r.value].name == name &&
                        forall j :: 0 <= j < r.value ==> fs[j].name != name
    ensures r.None? ==> forall j :: 0 <= j < |fs| ==> fs[j].name != name
    ensures r.Some? ==> FieldByName(fs, name) == Some(fs[r.value].value)
  {
    if fs == [] then None
    else if fs[0].name == name then Some(0)
    else
      var r := PositionOf(fs[1..], name);
      assert forall j :: 1 <= j < |fs| ==> fs[j] == fs[1..][j - 1];
      if r.Some? then Some(r.value + 1) else None
  }

  /**
   * `getNestedFieldHelperBSON`: `elt` is the element reached at `level` (None
   * for EOO). At the end of the path it is the answer; an array on the way
   * stops the walk; an object is descended into; anything else means the
   * path does not exist.
   */
  function NestedBson(elt: Option<Val>, path: seq<string>, level: nat): (r: Lookup)
    requires level <= |path|
    ensures r.Found? ==> elt.Some?
    ensures r.TraversesArray? ==> level < |path| && elt.Some?
    decreases |path| - level
  {
    if level == |path| then (if elt.Some? then Found(elt.value) else NotFound)
    else match elt
      case Some(Arr(_)) => TraversesArray
      case Some(Obj(fs)) => NestedBson(FieldByName(fs, path[level]), path, level + 1)
      case _ => NotFound
  }

  /**
   * The static `getNestedFieldHelper`: looks each name up by position,
   * recording one position per level found, and gives up (missing) when a
   * name is absent or a non-final value is not an object.
   */
  function NestedCached(doc: seq<Field>, path: seq<string>, level: nat): (r: (Val, seq<nat>))
    requires level < |path|
    ensures 1 <= |r.1| <= |path| - level || (r.1 == [] && r.0 == Missing)
    decreases |path| - level
  {
    match PositionOf(doc, path[level])
    case None => (Missing, [])
    case Some(pos) =>
      var val := doc[pos].value;
      if level == |path| - 1 then (val, [pos])
      else if !val.Obj? then (Missing, [pos])
      else
        var (v, ps) := NestedCached(val.fields, path, level + 1);
        (v, [pos] + ps)
  }

  /** The document reached after following `ps` along `path` from `doc`. */
  predicate PositionsFollowPath(doc: seq<Field>, path: seq<string>, level: nat, ps: seq<nat>)
    requires level <= |path|
    decreases |ps|
  {
    |ps| <= |path| - level &&
    (ps != [] ==>
      ps[0] < |doc| && doc[ps[0]].name == path[level] &&
      (|ps| > 1 ==> doc[ps[0]].value.Obj? &&
                    PositionsFollowPath(doc[ps[0]].value.fields, path, level + 1, ps[1..])))
  }

  /**
   * The cached lookup records one position per level it resolved, each the
   * position of that level's name in the document reached so far; a value
   * other than missing is only found after resolving every level.
   */
  lemma {:induction false} NestedCachedPositions(doc: seq<Field>, path: seq<string>, level: nat)
    requires level < |path|
    ensures PositionsFollowPath(doc, path, level, NestedCached(doc, path, level).1)
    ensures NestedCached(doc, path, level).0 != Missing ==>
              |NestedCached(doc, path, level).1| == |path| - level
    decreases |path| - level
  {
    match PositionOf(doc, path[level])
    case None =>
    case Some(pos) =>
      var val := doc[pos].value;
      if level < |path| - 1 && val.Obj? {
        NestedCachedPositions(val.fields, path, level + 1);
        var (v, ps) := NestedCached(val.fields, path, level + 1);
        assert ([pos] + ps)[1..] == ps;
      }
  }

  /** The value a non-caching lookup stands for once arrays are not traversed. */
  function AsValue(l: Lookup): Val
  {
    match l
    case Found(v) => v
    case TraversesArray => Missing
    case NotFound => Missing
  }

  /**
   * Both lookups agree on a document: where the BSON walk finds an element
   * the cached walk finds the same value, and where the BSON walk reports
   * nothing or an array on the way, the cached walk answers missing.
   */
  lemma {:induction false} NestedLookupsAgree(doc: seq<Field>, path: seq<string>, level: nat)
    requires level < |path|
    ensures NestedCached(doc, path, level).0 == AsValue(NestedBson(Some(Obj(doc)), path, level))
    decreases |path| - level
  {
    assert NestedBson(Some(Obj(doc)), path, level) ==
           NestedBson(FieldByName(doc, path[level]), path, level + 1);
    match PositionOf(doc, path[level])
    case None =>
    case Some(pos) =>
      var val := doc[pos].value;
      if level < |path| - 1 && val.Obj? {
        NestedLookupsAgree(val.fields, path, level + 1);
      }
  }
}
