/** The values the serializers see, what they mean, and the order of their keys. */
module JsonTree {
  import opened JsText

  predicate IsNumberUnit(u: Unit) {
    0x30 <= u <= 0x39 || u == 0x2B || u == 0x2D || u == 0x2E || u == 0x65
  }

  predicate IsNumberText(t: Text) {
    |t| > 0 && (0x30 <= t[0] <= 0x39 || t[0] == 0x2D) &&
    forall i :: 0 <= i < |t| ==> IsNumberUnit(t[i])
  }

  /** The decimal text JavaScript gives a finite number. */
  type NumberText = t: Text | IsNumberText(t) witness [0x30]

  datatype NonFinite = NaN | PositiveInfinity | NegativeInfinity

  /** A JavaScript value as the serializers see it; `Other` is a function, symbol or bigint. */
  datatype Json =
    | Null
    | Undefined
    | Bool(b: bool)
    | Number(text: NumberText)
    | NotFinite(kind: NonFinite)
    | String(s: Text)
    | Array(items: seq<Json>)
    | Object(fields: seq<Field>)
    | Other(display: Text)

  /** Own enumerable properties, in insertion order. */
  datatype Field = Field(key: Text, value: Json)

  predicate DistinctKeys(fields: seq<Field>) {
    forall i, j :: 0 <= i < j < |fields| ==> fields[i].key != fields[j].key
  }

  /** No object holds a key twice. */
  predicate Valid(v: Json) {
    match v
    case Array(items) => forall i :: 0 <= i < |items| ==> Valid(items[i])
    case Object(fields) =>
      DistinctKeys(fields) && forall i :: 0 <= i < |fields| ==> Valid(fields[i].value)
    case _ => true
  }

  /** A tree up to key order, with null, undefined and the non-finite numbers identified. */
  datatype Meaning =
    | Nothing
    | Truth(b: bool)
    | Decimal(text: NumberText)
    | Words(s: Text)
    | List(items: seq<Meaning>)
    | Record(fields: map<Text, Meaning>)

  function KeySet(fields: seq<Field>): set<Text> {
    set i | 0 <= i < |fields| :: fields[i].key
  }

  function IndexOf(fields: seq<Field>, key: Text): (i: nat)
    requires key in KeySet(fields)
    ensures i < |fields| && fields[i].key == key
  {
    if fields[0].key == key then 0 else
      assert key in KeySet(fields[1..]) by {
        var j :| 0 <= j < |fields| && fields[j].key == key;
        assert fields[1..][j - 1].key == key;
      }
      1 + IndexOf(fields[1..], key)
  }

  function MeaningOf(v: Json): Meaning {
    match v
    case Null => Nothing
    case Undefined => Nothing
    case NotFinite(_) => Nothing
    case Bool(b) => Truth(b)
    case Number(text) => Decimal(text)
    case String(s) => Words(s)
    case Other(display) => Words(display)
    case Array(items) => List(seq(|items|, i requires 0 <= i < |items| => MeaningOf(items[i])))
    case Object(fields) =>
      Record(map key | key in KeySet(fields) :: MeaningOf(fields[IndexOf(fields, key)].value))
  }

  // ----- Key order -----

  /** Comparison of strings by code units, as `Array.prototype.sort` does it. */
  predicate Less(a: Text, b: Text) {
    |b| > 0 && (|a| == 0 || a[0] < b[0] || (a[0] == b[0] && Less(a[1..], b[1..])))
  }

  lemma {:induction false} LessTotal(a: Text, b: Text)
    ensures Less(a, b) || Less(b, a) || a == b
    ensures !(Less(a, b) && Less(b, a)) && !Less(a, a)
  {
    if |a| > 0 {
      LessTotal(a[1..], a[1..]);
    }
    if |a| > 0 && |b| > 0 && a[0] == b[0] {
      LessTotal(a[1..], b[1..]);
      assert a == [a[0]] + a[1..] && b == [b[0]] + b[1..];
    }
  }

  lemma {:induction false} LessTransitive(a: Text, b: Text, c: Text)
    requires Less(a, b) && Less(b, c)
    ensures Less(a, c)
  {
    if |a| > 0 && a[0] == b[0] == c[0] {
      LessTransitive(a[1..], b[1..], c[1..]);
    }
  }

  function Insert(f: Field, fields: seq<Field>): (r: seq<Field>)
    ensures |r| == |fields| + 1
    ensures multiset(r) == multiset(fields) + multiset{f}
  {
    if |fields| == 0 then [f]
    else if Less(f.key, fields[0].key) then [f] + fields
    else
      assert fields == [fields[0]] + fields[1..];
      [fields[0]] + Insert(f, fields[1..])
  }

  /** `Object.keys(record).sort()`, each key with its value. */
  function SortByKey(fields: seq<Field>): (r: seq<Field>)
    ensures |r| == |fields|
    ensures multiset(r) == multiset(fields)
  {
    if |fields| == 0 then []
    else
      assert fields == [fields[0]] + fields[1..];
      Insert(fields[0], SortByKey(fields[1..]))
  }

  predicate Ascending(fields: seq<Field>) {
    forall i, j :: 0 <= i < j < |fields| ==> Less(fields[i].key, fields[j].key)
  }

  lemma SortedElement(fields: seq<Field>, i: nat)
    requires i < |fields|
    ensures SortByKey(fields)[i] in fields
  {
    assert SortByKey(fields)[i] in multiset(SortByKey(fields));
  }

  lemma UnsortedElement(fields: seq<Field>, i: nat)
    requires i < |fields|
    ensures fields[i] in SortByKey(fields)
  {
    assert fields[i] in multiset(fields);
  }

  lemma {:induction false} InsertAscending(f: Field, fields: seq<Field>)
    requires Ascending(fields) && forall i :: 0 <= i < |fields| ==> fields[i].key != f.key
    ensures Ascending(Insert(f, fields))
  {
    var r := Insert(f, fields);
    if |fields| > 0 {
      LessTotal(f.key, fields[0].key);
      if Less(f.key, fields[0].key) {
        forall j | 0 < j < |fields| ensures Less(f.key, fields[j].key) {
          LessTransitive(f.key, fields[0].key, fields[j].key);
        }
      } else {
        InsertAscending(f, fields[1..]);
        forall j | 1 <= j < |r| ensures Less(r[0].key, r[j].key) {
          assert r[j] == Insert(f, fields[1..])[j - 1];
          assert r[j] in multiset(Insert(f, fields[1..]));
        }
      }
    }
  }

  lemma {:induction false} SortAscending(fields: seq<Field>)
    requires DistinctKeys(fields)
    ensures Ascending(SortByKey(fields))
  {
    if |fields| > 0 {
      SortAscending(fields[1..]);
      forall i | 0 <= i < |fields| - 1 ensures SortByKey(fields[1..])[i].key != fields[0].key {
        SortedElement(fields[1..], i);
      }
      InsertAscending(fields[0], SortByKey(fields[1..]));
    }
  }

  lemma SortedKeySet(fields: seq<Field>)
    ensures KeySet(SortByKey(fields)) == KeySet(fields)
  {
    hide SortByKey;
    forall i | 0 <= i < |fields| ensures fields[i].key in KeySet(SortByKey(fields)) {
      UnsortedElement(fields, i);
    }
    forall i | 0 <= i < |fields| ensures SortByKey(fields)[i].key in KeySet(fields) {
      SortedElement(fields, i);
    }
  }

  lemma NoKeys(fs: seq<Field>)
    ensures KeySet(fs) == {} <==> |fs| == 0
  {
    if |fs| > 0 {
      assert fs[0].key in KeySet(fs);
    }
  }

  /** A set of keys has one ascending listing. */
  lemma {:induction false} AscendingUnique(fs: seq<Field>, gs: seq<Field>)
    requires Ascending(fs) && Ascending(gs) && KeySet(fs) == KeySet(gs)
    ensures |fs| == |gs|
    ensures forall i :: 0 <= i < |fs| ==> fs[i].key == gs[i].key
  {
    NoKeys(fs);
    NoKeys(gs);
    if |fs| > 0 {
      assert fs[0].key in KeySet(gs) && gs[0].key in KeySet(fs);
      LessTotal(fs[0].key, gs[0].key);
      TailKeys(fs);
      TailKeys(gs);
      AscendingUnique(fs[1..], gs[1..]);
      assert forall i :: 1 <= i < |fs| ==> fs[i] == fs[1..][i - 1];
      assert forall i :: 1 <= i < |gs| ==> gs[i] == gs[1..][i - 1];
    }
  }

  lemma TailKeys(fs: seq<Field>)
    requires |fs| > 0 && Ascending(fs)
    ensures KeySet(fs[1..]) == KeySet(fs) - {fs[0].key}
  {
    LessTotal(fs[0].key, fs[0].key);
    forall i | 1 <= i < |fs| ensures fs[i].key in KeySet(fs[1..]) && fs[i].key != fs[0].key {
      assert fs[i] == fs[1..][i - 1];
    }
  }

  /** In an object without repeated keys, a field's value is what its key looks up. */
  lemma LookupField(fields: seq<Field>, f: Field)
    requires DistinctKeys(fields) && f in fields
    ensures f.key in KeySet(fields) && fields[IndexOf(fields, f.key)] == f
  {
  }

  /** The record an object means, field by field. */
  lemma ObjectMeaning(fields: seq<Field>)
    requires DistinctKeys(fields)
    ensures MeaningOf(Object(fields)).Record?
    ensures MeaningOf(Object(fields)).fields.Keys == KeySet(fields)
    ensures forall i :: 0 <= i < |fields| ==>
      fields[i].key in MeaningOf(Object(fields)).fields &&
      MeaningOf(Object(fields)).fields[fields[i].key] == MeaningOf(fields[i].value)
  {
    forall i | 0 <= i < |fields|
      ensures fields[i].key in MeaningOf(Object(fields)).fields
      ensures MeaningOf(Object(fields)).fields[fields[i].key] == MeaningOf(fields[i].value)
    {
      LookupField(fields, fields[i]);
    }
  }

  lemma KeyAt(fields: seq<Field>, key: Text) returns (i: nat)
    requires key in KeySet(fields)
    ensures i < |fields| && fields[i].key == key
  {
    i := IndexOf(fields, key);
  }
}
