/** `stableStringify`: its text and the meaning of the tree determine each other. */
module StableJson {
  import opened JsText
  import opened JsonString
  import opened JsonTree

  const COMMA: Unit := 0x2C
  const COLON: Unit := 0x3A

  const NULL: Text := [0x6E, 0x75, 0x6C, 0x6C]
  const TRUE: Text := [0x74, 0x72, 0x75, 0x65]
  const FALSE: Text := [0x66, 0x61, 0x6C, 0x73, 0x65]

  /** The serializer of the provider plan, and the one of the cache hash: they differ on two kinds of leaf. */
  datatype Dialect = PlanText | HashText

  /** `String(kind)`. */
  function DisplayNonFinite(kind: NonFinite): Text {
    match kind
    case NaN => [0x4E, 0x61, 0x4E]
    case PositiveInfinity => INFINITY
    case NegativeInfinity => [0x2D] + INFINITY
  }

  const INFINITY: Text := [0x49, 0x6E, 0x66, 0x69, 0x6E, 0x69, 0x74, 0x79]

  /** JSON-like: no function, symbol or bigint at any depth. */
  predicate NoOther(v: Json) {
    match v
    case Array(items) => forall i :: 0 <= i < |items| ==> NoOther(items[i])
    case Object(fields) => forall i :: 0 <= i < |fields| ==> NoOther(fields[i].value)
    case Other(_) => false
    case _ => true
  }

  /** No NaN or infinity at any depth. */
  predicate AllFinite(v: Json) {
    match v
    case Array(items) => forall i :: 0 <= i < |items| ==> AllFinite(items[i])
    case Object(fields) => forall i :: 0 <= i < |fields| ==> AllFinite(fields[i].value)
    case NotFinite(_) => false
    case _ => true
  }

  /** `stableStringify`. */
  function Stringify(d: Dialect, v: Json): Text
    decreases v, 1
  {
    match v
    case Null => NULL
    case Undefined => NULL
    case Bool(b) => if b then TRUE else FALSE
    case Number(text) => text
    case NotFinite(kind) => if d.PlanText? then NULL else DisplayNonFinite(kind)
    case String(s) => Quote(s)
    case Array(items) =>
      [0x5B] + Join(seq(|items|, i requires 0 <= i < |items| => Stringify(d, items[i])), [COMMA]) + [0x5D]
    case Object(fields) =>
      [0x7B] + Join(seq(|fields|, i requires 0 <= i < |fields| => Property(d, v, i)), [COMMA]) + [0x7D]
    case Other(display) => if d.PlanText? then Quote(display) else display
  }

  /** The `i`th property in key order. */
  function Property(d: Dialect, v: Json, i: nat): Text
    requires v.Object? && i < |v.fields|
    decreases v, 0
  {
    Child(v, i);
    Quote(SortByKey(v.fields)[i].key) + [COLON] + Stringify(d, SortByKey(v.fields)[i].value)
  }

  /** The fields of an object in key order, or the items of an array without keys. */
  function Children(v: Json): seq<Field> {
    match v
    case Array(items) => seq(|items|, i requires 0 <= i < |items| => Field([], items[i]))
    case Object(fields) => SortByKey(fields)
    case _ => []
  }

  lemma Child(v: Json, i: nat)
    requires i < |Children(v)|
    ensures Children(v)[i].value < v
    ensures Valid(v) ==> Valid(Children(v)[i].value)
    ensures NoOther(v) ==> NoOther(Children(v)[i].value)
  {
    if v.Object? {
      SortedElement(v.fields, i);
      var k :| 0 <= k < |v.fields| && v.fields[k] == Children(v)[i];
    }
  }

  function Part(d: Dialect, v: Json, i: nat): Text
    requires i < |Children(v)|
  {
    if v.Object? then Quote(Children(v)[i].key) + [COLON] + Stringify(d, Children(v)[i].value)
    else Stringify(d, Children(v)[i].value)
  }

  function Parts(d: Dialect, v: Json): (parts: seq<Text>)
    ensures |parts| == |Children(v)|
  {
    seq(|Children(v)|, i requires 0 <= i < |Children(v)| => Part(d, v, i))
  }

  function Open(v: Json): Unit { if v.Array? then 0x5B else 0x7B }

  function Close(v: Json): Unit { if v.Array? then 0x5D else 0x7D }

  lemma StringifyParts(d: Dialect, v: Json)
    requires v.Array? || v.Object?
    ensures Stringify(d, v) == [Open(v)] + Join(Parts(d, v), [COMMA]) + [Close(v)]
  {
    if v.Array? {
      assert Parts(d, v) == seq(|v.items|, i requires 0 <= i < |v.items| => Stringify(d, v.items[i]));
    } else {
      var ps := seq(|v.fields|, i requires 0 <= i < |v.fields| => Property(d, v, i));
      forall i | 0 <= i < |v.fields| ensures ps[i] == Parts(d, v)[i] {
        assert ps[i] == Property(d, v, i) && Parts(d, v)[i] == Part(d, v, i);
      }
      assert ps == Parts(d, v);
    }
  }

  // ----- Equal meanings print alike -----

  lemma SameChildren(v: Json, w: Json)
    requires Valid(v) && Valid(w) && v.Object? && w.Object?
    requires MeaningOf(v) == MeaningOf(w)
    ensures |Children(v)| == |Children(w)|
    ensures forall i :: 0 <= i < |Children(v)| ==>
      Children(v)[i].key == Children(w)[i].key &&
      MeaningOf(Children(v)[i].value) == MeaningOf(Children(w)[i].value)
  {
    assert MeaningOf(v).fields.Keys == KeySet(v.fields) && MeaningOf(w).fields.Keys == KeySet(w.fields);
    SortAscending(v.fields);
    SortAscending(w.fields);
    SortedKeySet(v.fields);
    SortedKeySet(w.fields);
    AscendingUnique(Children(v), Children(w));
    forall i | 0 <= i < |Children(v)|
      ensures MeaningOf(Children(v)[i].value) == MeaningOf(Children(w)[i].value)
    {
      ChildMeaning(v, i);
      ChildMeaning(w, i);
    }
  }

  lemma ChildMeaning(v: Json, i: nat)
    requires Valid(v) && v.Object? && i < |Children(v)|
    ensures Children(v)[i].key in MeaningOf(v).fields
    ensures MeaningOf(v).fields[Children(v)[i].key] == MeaningOf(Children(v)[i].value)
  {
    SortedElement(v.fields, i);
    LookupField(v.fields, Children(v)[i]);
  }

  /** Key order does not show: trees that mean the same print the same. */
  lemma {:induction false} MeaningDeterminesText(v: Json, w: Json)
    requires Valid(v) && Valid(w) && MeaningOf(v) == MeaningOf(w)
    ensures Stringify(PlanText, v) == Stringify(PlanText, w)
    decreases v
  {
    if v.Array? || v.Object? {
      assert w.Array? == v.Array? && w.Object? == v.Object?;
      if v.Object? {
        SameChildren(v, w);
      } else {
        SameItems(v, w);
      }
      forall i | 0 <= i < |Children(v)| ensures Part(PlanText, v, i) == Part(PlanText, w, i) {
        Child(v, i);
        Child(w, i);
        MeaningDeterminesText(Children(v)[i].value, Children(w)[i].value);
      }
      assert Parts(PlanText, v) == Parts(PlanText, w);
      StringifyParts(PlanText, v);
      StringifyParts(PlanText, w);
    }
  }

  lemma SameItems(v: Json, w: Json)
    requires v.Array? && w.Array? && MeaningOf(v) == MeaningOf(w)
    ensures |Children(v)| == |Children(w)|
    ensures forall i :: 0 <= i < |Children(v)| ==>
      MeaningOf(Children(v)[i].value) == MeaningOf(Children(w)[i].value)
  {
    assert |MeaningOf(v).items| == |v.items| && |MeaningOf(w).items| == |w.items|;
    forall i | 0 <= i < |v.items| ensures MeaningOf(v.items[i]) == MeaningOf(w.items[i]) {
      assert MeaningOf(v).items[i] == MeaningOf(v.items[i]) && MeaningOf(w).items[i] == MeaningOf(w.items[i]);
    }
  }

  // ----- Equal texts mean the same -----

  /** What may follow a value: nothing, or a character that continues no number. */
  predicate Ends(s: Text) {
    |s| == 0 || s[0] == COMMA || s[0] == 0x5D || s[0] == 0x7D
  }

  function FirstUnit(d: Dialect, v: Json): Unit
    requires d.PlanText? || NoOther(v)
  {
    match v
    case Null => NULL[0]
    case Undefined => NULL[0]
    case NotFinite(kind) => if d.PlanText? then NULL[0] else DisplayNonFinite(kind)[0]
    case Bool(b) => if b then TRUE[0] else FALSE[0]
    case Number(text) => text[0]
    case String(_) => QUOTE
    case Other(_) => QUOTE
    case Array(_) => 0x5B
    case Object(_) => 0x7B
  }

  lemma Starts(d: Dialect, v: Json, s: Text)
    requires d.PlanText? || NoOther(v)
    ensures |Stringify(d, v)| > 0 && Stringify(d, v)[0] == FirstUnit(d, v) == (Stringify(d, v) + s)[0]
    ensures FirstUnit(d, v) != COMMA && FirstUnit(d, v) != 0x5D && FirstUnit(d, v) != 0x7D
  {
  }

  lemma NumberUnique(a: NumberText, b: NumberText, s: Text, t: Text)
    requires a + s == b + t && Ends(s) && Ends(t)
    ensures a == b && s == t
  {
    assert |s| > 0 ==> (a + s)[|a|] == s[0];
    assert |t| > 0 ==> (b + t)[|b|] == t[0];
    assert forall i :: 0 <= i < |a| ==> (a + s)[i] == a[i];
    assert forall i :: 0 <= i < |b| ==> (b + t)[i] == b[i];
    SplitAt(a, s, b, t);
  }

  /** The rest of an array or object after its first part. */
  function Tail(parts: seq<Text>, close: Unit): Text {
    if |parts| == 0 then [close] else [COMMA] + parts[0] + Tail(parts[1..], close)
  }

  lemma {:induction false} JoinTail(parts: seq<Text>, close: Unit)
    ensures Join(parts, [COMMA]) + [close] ==
      if |parts| == 0 then [close] else parts[0] + Tail(parts[1..], close)
  {
    if |parts| > 1 {
      JoinTail(parts[1..], close);
      assert Join(parts, [COMMA]) + [close] == parts[0] + [COMMA] + (Join(parts[1..], [COMMA]) + [close]);
    }
  }

  ghost predicate SameChild(v: Json, w: Json, i: nat)
    requires i < |Children(v)| && i < |Children(w)|
  {
    MeaningOf(Children(v)[i].value) == MeaningOf(Children(w)[i].value) &&
    (v.Object? ==> Children(v)[i].key == Children(w)[i].key)
  }

  /** A value's text is no proper beginning of another's: value by value the reader knows where it is. */
  lemma {:induction false} PrefixUnique(v: Json, w: Json, s: Text, t: Text)
    requires Valid(v) && Valid(w) && Ends(s) && Ends(t)
    requires Stringify(PlanText, v) + s == Stringify(PlanText, w) + t
    ensures MeaningOf(v) == MeaningOf(w) && s == t
    decreases v
  {
    Starts(PlanText, v, s);
    Starts(PlanText, w, t);
    assert FirstUnit(PlanText, v) == FirstUnit(PlanText, w);
    match v
    case Array(_) => CompoundUnique(v, w, s, t);
    case Object(_) => CompoundUnique(v, w, s, t);
    case Number(a) => NumberUnique(a, w.text, s, t);
    case String(a) => QuoteUnique(a, if w.String? then w.s else w.display, s, t);
    case Other(a) => QuoteUnique(a, if w.String? then w.s else w.display, s, t);
    case _ => SplitAt(Stringify(PlanText, v), s, Stringify(PlanText, w), t);
  }

  lemma {:induction false} CompoundUnique(v: Json, w: Json, s: Text, t: Text)
    requires Valid(v) && Valid(w) && Ends(s) && Ends(t)
    requires (v.Array? && w.Array?) || (v.Object? && w.Object?)
    requires Stringify(PlanText, v) + s == Stringify(PlanText, w) + t
    ensures MeaningOf(v) == MeaningOf(w) && s == t
    decreases v, |Children(v)| + 1
  {
    hide Stringify, MeaningOf, Valid, Part, Parts, Tail, SameChild, Children;
    Unfold(PlanText, v, s);
    Unfold(PlanText, w, t);
    SecondUnit(PlanText, v, s);
    SecondUnit(PlanText, w, t);
    if |Children(v)| == 0 {
      SplitAt([Open(v)], [Close(v)] + s, [Open(v)], [Close(v)] + t);
      SplitAt([Close(v)], s, [Close(v)], t);
    } else {
      var p, q := Tail(Parts(PlanText, v)[1..], Close(v)), Tail(Parts(PlanText, w)[1..], Close(v));
      SplitAt([Open(v)], Part(PlanText, v, 0) + (p + s), [Open(v)], Part(PlanText, w, 0) + (q + t));
      TailEnds(Parts(PlanText, v)[1..], Close(v), s);
      TailEnds(Parts(PlanText, w)[1..], Close(v), t);
      PartUnique(v, w, 0, p + s, q + t);
      TailUnique(v, w, 1, s, t);
    }
    ChildrenDetermineMeaning(v, w);
  }

  lemma TailEnds(parts: seq<Text>, close: Unit, s: Text)
    requires close == 0x5D || close == 0x7D
    ensures Ends(Tail(parts, close) + s)
    ensures (Tail(parts, close) + s)[0] == if |parts| == 0 then close else COMMA
  {
  }

  /** An array or object seen as its opening bracket, its first part and its tail. */
  lemma Unfold(d: Dialect, v: Json, s: Text)
    requires v.Array? || v.Object?
    ensures |Children(v)| == 0 ==> Stringify(d, v) + s == [Open(v)] + ([Close(v)] + s)
    ensures |Children(v)| > 0 ==>
      Stringify(d, v) + s == [Open(v)] + (Part(d, v, 0) + (Tail(Parts(d, v)[1..], Close(v)) + s))
  {
    StringifyParts(d, v);
    JoinTail(Parts(d, v), Close(v));
    hide Stringify, Join, Tail, Children, Part, Parts, Open, Close;
    var o, joined, c := [Open(v)], Join(Parts(d, v), [COMMA]), [Close(v)];
    Reassociate(o + joined, c, s);
    Reassociate(o, joined, c + s);
    Reassociate(joined, c, s);
    if |Children(v)| > 0 {
      Reassociate(Part(d, v, 0), Tail(Parts(d, v)[1..], Close(v)), s);
      FirstPart(d, v);
    }
  }

  lemma FirstPart(d: Dialect, v: Json)
    requires |Children(v)| > 0
    ensures Parts(d, v)[0] == Part(d, v, 0)
  {
  }

  lemma Reassociate(a: Text, b: Text, c: Text)
    ensures (a + b) + c == a + (b + c)
  {
  }

  /** The second unit tells an empty array or object from a full one. */
  lemma SecondUnit(d: Dialect, v: Json, s: Text)
    requires d.PlanText? || NoOther(v)
    requires v.Array? || v.Object?
    ensures |Stringify(d, v) + s| > 1
    ensures (Stringify(d, v) + s)[1] == Close(v) <==> |Children(v)| == 0
  {
    Unfold(d, v, s);
    hide Stringify, Children, Part, Tail, Parts;
    if |Children(v)| > 0 {
      PartStart(d, v, 0);
      var rest := Part(d, v, 0) + (Tail(Parts(d, v)[1..], Close(v)) + s);
      assert ([Open(v)] + rest)[1] == rest[0] == Part(d, v, 0)[0];
    }
  }

  lemma PartStart(d: Dialect, v: Json, i: nat)
    requires d.PlanText? || NoOther(v)
    requires (v.Array? || v.Object?) && i < |Children(v)|
    ensures |Part(d, v, i)| > 0 && Part(d, v, i)[0] != Close(v)
  {
    Child(v, i);
    Starts(d, Children(v)[i].value, []);
  }

  lemma {:induction false} PartUnique(v: Json, w: Json, i: nat, s: Text, t: Text)
    requires Valid(v) && Valid(w) && Ends(s) && Ends(t)
    requires (v.Array? && w.Array?) || (v.Object? && w.Object?)
    requires i < |Children(v)| && i < |Children(w)|
    requires Part(PlanText, v, i) + s == Part(PlanText, w, i) + t
    ensures SameChild(v, w, i) && s == t
    decreases v, 0
  {
    hide Stringify, MeaningOf, Valid, Quote, Children;
    Child(v, i);
    Child(w, i);
    var f, g := Children(v)[i], Children(w)[i];
    if v.Object? {
      assert Part(PlanText, v, i) + s == Quote(f.key) + ([COLON] + (Stringify(PlanText, f.value) + s));
      assert Part(PlanText, w, i) + t == Quote(g.key) + ([COLON] + (Stringify(PlanText, g.value) + t));
      QuoteUnique(f.key, g.key, [COLON] + (Stringify(PlanText, f.value) + s), [COLON] + (Stringify(PlanText, g.value) + t));
      SplitAt([COLON], Stringify(PlanText, f.value) + s, [COLON], Stringify(PlanText, g.value) + t);
    } else {
      assert Part(PlanText, v, i) == Stringify(PlanText, f.value) && Part(PlanText, w, i) == Stringify(PlanText, g.value);
    }
    PrefixUnique(f.value, g.value, s, t);
  }

  lemma {:induction false} TailUnique(v: Json, w: Json, i: nat, s: Text, t: Text)
    requires Valid(v) && Valid(w) && Ends(s) && Ends(t)
    requires (v.Array? && w.Array?) || (v.Object? && w.Object?)
    requires i <= |Children(v)| && i <= |Children(w)|
    requires Tail(Parts(PlanText, v)[i..], Close(v)) + s == Tail(Parts(PlanText, w)[i..], Close(v)) + t
    ensures |Children(v)| == |Children(w)| && s == t
    ensures forall k :: i <= k < |Children(v)| ==> SameChild(v, w, k)
    decreases v, |Children(v)| - i
  {
    hide Stringify, MeaningOf, Valid, Part, Children, SameChild;
    var c := Close(v);
    var p, q := Parts(PlanText, v)[i..], Parts(PlanText, w)[i..];
    TailEnds(p, c, s);
    TailEnds(q, c, t);
    if |p| == 0 {
      SplitAt([c], s, [c], t);
    } else {
      var p', q' := Tail(p[1..], c), Tail(q[1..], c);
      TailEnds(p[1..], c, s);
      TailEnds(q[1..], c, t);
      assert Tail(p, c) + s == [COMMA] + (Part(PlanText, v, i) + (p' + s));
      assert Tail(q, c) + t == [COMMA] + (Part(PlanText, w, i) + (q' + t));
      SplitAt([COMMA], Part(PlanText, v, i) + (p' + s), [COMMA], Part(PlanText, w, i) + (q' + t));
      PartUnique(v, w, i, p' + s, q' + t);
      assert p[1..] == Parts(PlanText, v)[i + 1..] && q[1..] == Parts(PlanText, w)[i + 1..];
      TailUnique(v, w, i + 1, s, t);
    }
  }

  lemma ChildrenDetermineMeaning(v: Json, w: Json)
    requires Valid(v) && Valid(w)
    requires (v.Array? && w.Array?) || (v.Object? && w.Object?)
    requires |Children(v)| == |Children(w)|
    requires forall k :: 0 <= k < |Children(v)| ==> SameChild(v, w, k)
    ensures MeaningOf(v) == MeaningOf(w)
  {
    if v.Array? {
      assert |v.items| == |Children(v)| && |w.items| == |Children(w)|;
      forall k | 0 <= k < |v.items| ensures MeaningOf(v.items[k]) == MeaningOf(w.items[k]) {
        assert SameChild(v, w, k);
      }
    } else {
      SameRecords(v, w);
    }
  }

  lemma SameRecords(v: Json, w: Json)
    requires Valid(v) && Valid(w) && v.Object? && w.Object?
    requires |Children(v)| == |Children(w)|
    requires forall k :: 0 <= k < |Children(v)| ==> SameChild(v, w, k)
    ensures MeaningOf(v) == MeaningOf(w)
  {
    RecordMeaning(v);
    RecordMeaning(w);
    forall k | 0 <= k < |Children(v)| ensures Children(v)[k].key == Children(w)[k].key {
      assert SameChild(v, w, k);
    }
    SameKeys(Children(v), Children(w));
    hide MeaningOf, Valid, Children, KeySet;
    var m, n := MeaningOf(v).fields, MeaningOf(w).fields;
    forall key | key in m.Keys ensures m[key] == n[key] {
      var k := KeyAt(Children(v), key);
      ChildMeaning(v, k);
      ChildMeaning(w, k);
      assert SameChild(v, w, k);
    }
    assert m == n;
  }

  lemma RecordMeaning(v: Json)
    requires v.Object?
    ensures MeaningOf(v).Record? && MeaningOf(v).fields.Keys == KeySet(Children(v))
  {
    SortedKeySet(v.fields);
    assert MeaningOf(v).fields.Keys == KeySet(v.fields);
  }

  lemma SameKeys(fs: seq<Field>, gs: seq<Field>)
    requires |fs| == |gs| && forall k :: 0 <= k < |fs| ==> fs[k].key == gs[k].key
    ensures KeySet(fs) == KeySet(gs)
  {
    assert forall k :: 0 <= k < |fs| ==> fs[k].key in KeySet(gs);
    assert forall k :: 0 <= k < |gs| ==> gs[k].key in KeySet(fs);
  }

  /** The text and the meaning determine each other. */
  lemma CanonicalText(v: Json, w: Json)
    requires Valid(v) && Valid(w)
    ensures Stringify(PlanText, v) == Stringify(PlanText, w) <==> MeaningOf(v) == MeaningOf(w)
  {
    if MeaningOf(v) == MeaningOf(w) {
      MeaningDeterminesText(v, w);
    }
    if Stringify(PlanText, v) == Stringify(PlanText, w) {
      assert Stringify(PlanText, v) + [] == Stringify(PlanText, w) + [];
      PrefixUnique(v, w, [], []);
    }
  }

  // ----- Where the two serializers agree -----

  lemma FiniteChild(v: Json, i: nat)
    requires i < |Children(v)| && AllFinite(v)
    ensures AllFinite(Children(v)[i].value)
  {
    if v.Object? {
      SortedElement(v.fields, i);
      var k :| 0 <= k < |v.fields| && v.fields[k] == Children(v)[i];
    }
  }

  lemma FiniteField(v: Json, i: nat)
    requires v.Object? && i < |v.fields|
    requires forall k :: 0 <= k < |Children(v)| ==> AllFinite(Children(v)[k].value)
    ensures AllFinite(v.fields[i].value)
  {
    hide AllFinite;
    UnsortedElement(v.fields, i);
    var k :| 0 <= k < |Children(v)| && Children(v)[k] == v.fields[i];
  }

  lemma AllFiniteChildren(v: Json)
    requires v.Array? || v.Object?
    ensures AllFinite(v) <==> forall i :: 0 <= i < |Children(v)| ==> AllFinite(Children(v)[i].value)
  {
    if AllFinite(v) {
      forall i | 0 <= i < |Children(v)| ensures AllFinite(Children(v)[i].value) {
        FiniteChild(v, i);
      }
    } else if v.Object? {
      var i :| 0 <= i < |v.fields| && !AllFinite(v.fields[i].value);
      if forall k :: 0 <= k < |Children(v)| ==> AllFinite(Children(v)[k].value) {
        FiniteField(v, i);
      }
    } else {
      var i :| 0 <= i < |v.items| && !AllFinite(v.items[i]);
      assert Children(v)[i].value == v.items[i];
    }
  }

  lemma {:induction false} FiniteTreesAgree(v: Json)
    requires NoOther(v) && AllFinite(v)
    ensures Stringify(PlanText, v) == Stringify(HashText, v)
    decreases v
  {
    if v.Array? || v.Object? {
      AllFiniteChildren(v);
      forall i | 0 <= i < |Children(v)| ensures Part(PlanText, v, i) == Part(HashText, v, i) {
        Child(v, i);
        FiniteTreesAgree(Children(v)[i].value);
      }
      assert Parts(PlanText, v) == Parts(HashText, v);
      StringifyParts(PlanText, v);
      StringifyParts(HashText, v);
    }
  }

  lemma {:induction false} AgreementIsFinite(v: Json, s: Text, t: Text)
    requires NoOther(v) && Ends(s) && Ends(t)
    requires Stringify(PlanText, v) + s == Stringify(HashText, v) + t
    ensures AllFinite(v) && s == t
    decreases v, |Children(v)| + 1
  {
    Starts(PlanText, v, s);
    Starts(HashText, v, t);
    if v.Array? || v.Object? {
      hide Stringify, NoOther, AllFinite, Part, Parts, Tail, Children;
      AllFiniteChildren(v);
      Unfold(PlanText, v, s);
      Unfold(HashText, v, t);
      if |Children(v)| == 0 {
        SplitAt([Open(v)], [Close(v)] + s, [Open(v)], [Close(v)] + t);
        SplitAt([Close(v)], s, [Close(v)], t);
      } else {
        var p, q := Tail(Parts(PlanText, v)[1..], Close(v)), Tail(Parts(HashText, v)[1..], Close(v));
        SplitAt([Open(v)], Part(PlanText, v, 0) + (p + s), [Open(v)], Part(HashText, v, 0) + (q + t));
        TailEnds(Parts(PlanText, v)[1..], Close(v), s);
        TailEnds(Parts(HashText, v)[1..], Close(v), t);
        PartAgreement(v, 0, p + s, q + t);
        TailAgreement(v, 1, s, t);
      }
    } else {
      SplitAt(Stringify(PlanText, v), s, Stringify(HashText, v), t);
    }
  }

  lemma {:induction false} PartAgreement(v: Json, i: nat, s: Text, t: Text)
    requires NoOther(v) && Ends(s) && Ends(t) && i < |Children(v)|
    requires Part(PlanText, v, i) + s == Part(HashText, v, i) + t
    ensures AllFinite(Children(v)[i].value) && s == t
    decreases v, 0
  {
    hide Stringify, NoOther, AllFinite, Quote, Children;
    Child(v, i);
    var f := Children(v)[i];
    var x, y := Stringify(PlanText, f.value), Stringify(HashText, f.value);
    if v.Object? {
      var name := Quote(f.key) + [COLON];
      Reassociate(name, x, s);
      Reassociate(name, y, t);
      SplitAt(name, x + s, name, y + t);
    }
    AgreementIsFinite(f.value, s, t);
  }

  lemma {:induction false} TailAgreement(v: Json, i: nat, s: Text, t: Text)
    requires NoOther(v) && (v.Array? || v.Object?) && Ends(s) && Ends(t) && i <= |Children(v)|
    requires Tail(Parts(PlanText, v)[i..], Close(v)) + s == Tail(Parts(HashText, v)[i..], Close(v)) + t
    ensures forall k :: i <= k < |Children(v)| ==> AllFinite(Children(v)[k].value)
    ensures s == t
    decreases v, |Children(v)| - i
  {
    hide Stringify, NoOther, AllFinite, Part, Children;
    var c := Close(v);
    var p, q := Parts(PlanText, v)[i..], Parts(HashText, v)[i..];
    if |p| == 0 {
      SplitAt([c], s, [c], t);
    } else {
      var p', q' := Tail(p[1..], c), Tail(q[1..], c);
      TailEnds(p[1..], c, s);
      TailEnds(q[1..], c, t);
      assert Tail(p, c) + s == [COMMA] + (p[0] + (p' + s));
      assert Tail(q, c) + t == [COMMA] + (q[0] + (q' + t));
      SplitAt([COMMA], p[0] + (p' + s), [COMMA], q[0] + (q' + t));
      PartAgreement(v, i, p' + s, q' + t);
      assert p[1..] == Parts(PlanText, v)[i + 1..] && q[1..] == Parts(HashText, v)[i + 1..];
      TailAgreement(v, i + 1, s, t);
    }
  }

  /** On JSON-like trees the two serializers agree exactly where every number is finite. */
  lemma SerializersAgree(v: Json)
    requires NoOther(v)
    ensures Stringify(PlanText, v) == Stringify(HashText, v) <==> AllFinite(v)
  {
    if AllFinite(v) {
      FiniteTreesAgree(v);
    }
    if Stringify(PlanText, v) == Stringify(HashText, v) {
      assert Stringify(PlanText, v) + [] == Stringify(HashText, v) + [];
      AgreementIsFinite(v, [], []);
    }
  }

  // ----- The text has no lone surrogates -----

  lemma {:induction false} StringifyWellFormed(v: Json)
    ensures WellFormed(Stringify(PlanText, v))
    decreases v
  {
    match v
    case String(s) => QuoteWellFormed(s);
    case Other(display) => QuoteWellFormed(display);
    case Array(_) => CompoundWellFormed(v);
    case Object(_) => CompoundWellFormed(v);
    case _ => WellFormedWithoutSurrogates(Stringify(PlanText, v));
  }

  lemma {:induction false} CompoundWellFormed(v: Json)
    requires v.Array? || v.Object?
    ensures WellFormed(Stringify(PlanText, v))
    decreases v, 0
  {
    hide Stringify, WellFormed, Quote;
    forall i | 0 <= i < |Children(v)| ensures WellFormed(Parts(PlanText, v)[i]) {
      Child(v, i);
      var f := Children(v)[i];
      StringifyWellFormed(f.value);
      QuoteWellFormed(f.key);
      WellFormedWithoutSurrogates([COLON]);
      WellFormedConcat(Quote(f.key), [COLON]);
      WellFormedConcat(Quote(f.key) + [COLON], Stringify(PlanText, f.value));
    }
    StringifyParts(PlanText, v);
    JoinWellFormed(Parts(PlanText, v));
    WellFormedWithoutSurrogates([Open(v)]);
    WellFormedWithoutSurrogates([Close(v)]);
    WellFormedConcat([Open(v)], Join(Parts(PlanText, v), [COMMA]));
    WellFormedConcat([Open(v)] + Join(Parts(PlanText, v), [COMMA]), [Close(v)]);
  }

  lemma {:induction false} JoinWellFormed(parts: seq<Text>)
    requires forall i :: 0 <= i < |parts| ==> WellFormed(parts[i])
    ensures WellFormed(Join(parts, [COMMA]))
  {
    if |parts| > 1 {
      JoinWellFormed(parts[1..]);
      WellFormedWithoutSurrogates([COMMA]);
      WellFormedConcat(parts[0], [COMMA]);
      WellFormedConcat(parts[0] + [COMMA], Join(parts[1..], [COMMA]));
    }
  }
}
