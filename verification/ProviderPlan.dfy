/**
 * Provider request plans and their fingerprints: what `buildProviderRequestPlan`
 * and `buildStandaloneOperationKey` hash, and what equal hashes therefore mean.
 */
module Fingerprint {
  import opened Words
  import opened JsText
  import opened JsonTree
  import opened StableJson
  import Utf8
  import Sha256Spec
  import Sha256Hex

  /** `sha256Hex(text)`: `None` where it throws because the text is too long. */
  function Sha256Of(t: Text): Option<Text> {
    var bytes := Utf8.Encode(t);
    if |bytes| < Sha256Hex.BYTE_LIMIT then Some(Sha256Hex.HexOf(Sha256Spec.Digest(bytes))) else None
  }

  /** `sha256Hex(stableStringify(tree))`. */
  function HashTree(tree: Json): Option<Text> {
    Sha256Of(Stringify(PlanText, tree))
  }

  /** These two byte strings are not a SHA-256 collision. */
  predicate NoCollision(a: seq<Byte>, b: seq<Byte>)
    requires |a| < 0x2000_0000_0000_0000 && |b| < 0x2000_0000_0000_0000
  {
    Sha256Spec.Digest(a) == Sha256Spec.Digest(b) ==> a == b
  }

  ghost predicate TreesDoNotCollide(v: Json, w: Json) {
    var a, b := Utf8.Encode(Stringify(PlanText, v)), Utf8.Encode(Stringify(PlanText, w));
    |a| < Sha256Hex.BYTE_LIMIT && |b| < Sha256Hex.BYTE_LIMIT ==> NoCollision(a, b)
  }

  lemma SameMeaningSameHash(v: Json, w: Json)
    requires Valid(v) && Valid(w) && MeaningOf(v) == MeaningOf(w)
    ensures HashTree(v) == HashTree(w)
  {
    hide MeaningOf, Valid, Stringify;
    CanonicalText(v, w);
  }

  /** Short of a collision, a fingerprint stands for the meaning of the whole tree. */
  lemma HashIdentifiesTree(v: Json, w: Json)
    requires Valid(v) && Valid(w) && TreesDoNotCollide(v, w)
    requires HashTree(v).Some? && HashTree(w).Some?
    ensures HashTree(v) == HashTree(w) <==> MeaningOf(v) == MeaningOf(w)
  {
    hide MeaningOf, Valid, Stringify, Utf8.Encode, Sha256Spec.Digest, Sha256Hex.HexOf;
    CanonicalText(v, w);
    var s, t := Stringify(PlanText, v), Stringify(PlanText, w);
    if HashTree(v) == HashTree(w) {
      Sha256Hex.HexOfInjective(Sha256Spec.Digest(Utf8.Encode(s)), Sha256Spec.Digest(Utf8.Encode(t)));
      StringifyWellFormed(v);
      StringifyWellFormed(w);
      Utf8.EncodeInjective(s, t);
    }
  }

  /** Objects written with the same keys mean the same only if each property does. */
  lemma SameProperties(fs: seq<Field>, gs: seq<Field>)
    requires DistinctKeys(fs) && DistinctKeys(gs) && |fs| == |gs|
    requires forall i :: 0 <= i < |fs| ==> fs[i].key == gs[i].key
    requires MeaningOf(Object(fs)) == MeaningOf(Object(gs))
    ensures forall i :: 0 <= i < |fs| ==> MeaningOf(fs[i].value) == MeaningOf(gs[i].value)
  {
    forall i | 0 <= i < |fs| ensures MeaningOf(fs[i].value) == MeaningOf(gs[i].value) {
      LookupField(fs, fs[i]);
      LookupField(gs, gs[i]);
      assert MeaningOf(Object(fs)).fields[fs[i].key] == MeaningOf(fs[i].value);
      assert MeaningOf(Object(gs)).fields[gs[i].key] == MeaningOf(gs[i].value);
    }
  }

  lemma SameEntry(fs: seq<Field>, gs: seq<Field>, key: Text)
    requires DistinctKeys(fs) && DistinctKeys(gs) && |fs| == |gs|
    requires forall i :: 0 <= i < |fs| ==> fs[i].key == gs[i].key
    requires forall i :: 0 <= i < |fs| ==> MeaningOf(fs[i].value) == MeaningOf(gs[i].value)
    requires key in KeySet(fs)
    ensures MeaningOf(Object(fs)).Record? && key in MeaningOf(Object(fs)).fields
    ensures MeaningOf(Object(gs)).Record? && key in MeaningOf(Object(gs)).fields
    ensures MeaningOf(Object(fs)).fields[key] == MeaningOf(Object(gs)).fields[key]
  {
    ObjectMeaning(fs);
    ObjectMeaning(gs);
    hide MeaningOf;
    var i := KeyAt(fs, key);
    hide KeySet;
    assert gs[i].key == key;
  }

  lemma SameRecord(fs: seq<Field>, gs: seq<Field>)
    requires DistinctKeys(fs) && DistinctKeys(gs) && |fs| == |gs|
    requires forall i :: 0 <= i < |fs| ==> fs[i].key == gs[i].key
    requires forall i :: 0 <= i < |fs| ==> MeaningOf(fs[i].value) == MeaningOf(gs[i].value)
    ensures MeaningOf(Object(fs)) == MeaningOf(Object(gs))
  {
    hide MeaningOf, KeySet;
    ObjectMeaning(fs);
    ObjectMeaning(gs);
    SameKeys(fs, gs);
    var m, n := MeaningOf(Object(fs)).fields, MeaningOf(Object(gs)).fields;
    forall key | key in KeySet(fs) ensures m[key] == n[key] {
      SameEntry(fs, gs, key);
    }
    assert m == n;
  }

  // ----- Literal objects -----

  /** An object literal: keys with their values. */
  function Literal(keys: seq<string>, values: seq<Json>): (fields: seq<Field>)
    requires |keys| == |values|
    ensures |fields| == |keys|
    ensures forall i :: 0 <= i < |keys| ==> fields[i] == Field(Lit(keys[i]), values[i])
  {
    seq(|keys|, i requires 0 <= i < |keys| => Field(Lit(keys[i]), values[i]))
  }

  /** Length and third character: enough to tell the keys of each literal below apart. */
  function Signature(key: string): int {
    if |key| < 3 then |key| * 0x1_0000 else |key| * 0x1_0000 + (key[2] as int) % 0x1_0000
  }

  lemma LiteralIsValid(keys: seq<string>, values: seq<Json>, signatures: seq<int>)
    requires |keys| == |values| == |signatures|
    requires forall i :: 0 <= i < |keys| ==> Signature(keys[i]) == signatures[i]
    requires forall i, j :: 0 <= i < j < |keys| ==> signatures[i] != signatures[j]
    requires forall i :: 0 <= i < |values| ==> Valid(values[i])
    ensures DistinctKeys(Literal(keys, values)) && Valid(Object(Literal(keys, values)))
  {
    forall i, j | 0 <= i < j < |keys| ensures Lit(keys[i]) != Lit(keys[j]) {
      SignatureOfText(keys[i], keys[j]);
    }
  }

  lemma SignatureOfText(s: string, t: string)
    requires Signature(s) != Signature(t)
    ensures Lit(s) != Lit(t)
  {
    if |s| == |t| {
      assert Lit(s)[2] != Lit(t)[2];
    }
  }
}

module ProviderPlan {
  import opened JsText
  import opened JsonTree
  import opened StableJson
  import opened Fingerprint

  datatype Kind = VacancyAnalysis | CoverLetter

  datatype Message = Message(role: Text, content: Text)

  /** A string-to-string record in insertion order. */
  type StringRecord = seq<(Text, Text)>

  predicate DistinctNames(r: StringRecord) {
    forall i, j :: 0 <= i < j < |r| ==> r[i].0 != r[j].0
  }

  function ToMap(r: StringRecord): map<Text, Text>
    requires DistinctNames(r)
  {
    map i | 0 <= i < |r| :: r[i].0 := r[i].1
  }

  /** Everything the plan hash covers. */
  datatype Request = Request(
    kind: Kind,
    subjectIds: StringRecord,
    provider: Text,
    model: Text,
    messages: seq<Message>,
    options: seq<Field>,
    compilerFingerprint: Text,
    repairFingerprint: Text,
    privacyFingerprint: Text,
    inputFingerprint: Text)

  datatype Plan = Plan(request: Request, providerPlanHash: Text)

  // ----- The hashed tree -----

  function KindText(kind: Kind): Text {
    if kind.VacancyAnalysis? then Lit("vacancy_analysis") else Lit("cover_letter")
  }

  function SchemaText(kind: Kind): Text {
    if kind.VacancyAnalysis? then Lit("vacancy-analysis-v1") else Lit("cover-letter-text-v1")
  }

  function RecordFields(r: StringRecord): (fields: seq<Field>)
    ensures |fields| == |r|
  {
    seq(|r|, i requires 0 <= i < |r| => Field(r[i].0, String(r[i].1)))
  }

  const MESSAGE_KEYS := ["role", "content"]

  function MessageTree(m: Message): Json {
    Object(Literal(MESSAGE_KEYS, [String(m.role), String(m.content)]))
  }

  function MessagesTree(messages: seq<Message>): Json {
    Array(seq(|messages|, i requires 0 <= i < |messages| => MessageTree(messages[i])))
  }

  const PLAN_KEYS := [
    "planVersion", "promptVersion", "operationKind", "subjectIds", "provider", "model", "messages",
    "responseSchemaVersion", "providerAffectingOptions", "compilerFingerprint",
    "repairPolicyFingerprint", "privacyPolicyFingerprint", "authoritativeInputFingerprint"]

  const PLAN_VERSION := "fix3-provider-plan-v1"

  function PlanValues(r: Request): (values: seq<Json>)
    ensures |values| == 13
  {
    [String(Lit(PLAN_VERSION)), String(Lit("1.0.0")), String(KindText(r.kind)),
     Object(RecordFields(r.subjectIds)), String(r.provider), String(r.model), MessagesTree(r.messages),
     String(SchemaText(r.kind)), Object(r.options), String(r.compilerFingerprint),
     String(r.repairFingerprint), String(r.privacyFingerprint), String(r.inputFingerprint)]
  }

  /** `planWithoutHash`. */
  function PlanTree(r: Request): Json {
    Object(Literal(PLAN_KEYS, PlanValues(r)))
  }

  /** JavaScript objects hold each key once. */
  predicate ValidRequest(r: Request) {
    DistinctNames(r.subjectIds) && Valid(Object(r.options))
  }

  const PLAN_SIGNATURES := [
    11 * 0x1_0000 + 0x61, 13 * 0x1_0000 + 0x6F, 13 * 0x1_0000 + 0x65, 10 * 0x1_0000 + 0x62,
    8 * 0x1_0000 + 0x6F, 5 * 0x1_0000 + 0x64, 8 * 0x1_0000 + 0x73, 21 * 0x1_0000 + 0x73,
    24 * 0x1_0000 + 0x6F, 19 * 0x1_0000 + 0x6D, 23 * 0x1_0000 + 0x70, 24 * 0x1_0000 + 0x69,
    29 * 0x1_0000 + 0x74]

  lemma PlanSignatures()
    ensures forall i :: 0 <= i < 13 ==> Signature(PLAN_KEYS[i]) == PLAN_SIGNATURES[i]
    ensures forall i, j :: 0 <= i < j < 13 ==> PLAN_SIGNATURES[i] != PLAN_SIGNATURES[j]
  {
  }

  lemma MessageIsValid(m: Message)
    ensures Valid(MessageTree(m))
  {
    LiteralIsValid(MESSAGE_KEYS, [String(m.role), String(m.content)], [4 * 0x1_0000 + 0x6C, 7 * 0x1_0000 + 0x6E]);
  }

  lemma PlanTreeIsValid(r: Request)
    requires ValidRequest(r)
    ensures Valid(PlanTree(r)) && DistinctKeys(Literal(PLAN_KEYS, PlanValues(r)))
  {
    forall i | 0 <= i < |r.messages| ensures Valid(MessageTree(r.messages[i])) {
      MessageIsValid(r.messages[i]);
    }
    assert Valid(MessagesTree(r.messages));
    assert Valid(Object(RecordFields(r.subjectIds)));
    PlanSignatures();
    var values := PlanValues(r);
    hide Lit, Signature, MessageTree, MessagesTree, RecordFields;
    assert forall i :: 0 <= i < |values| ==> Valid(values[i]);
    hide *;
    LiteralIsValid(PLAN_KEYS, values, PLAN_SIGNATURES);
  }

  // ----- What the hash identifies -----

  /** The same request to the provider: everything equal, object keys in any order. */
  ghost predicate SameRequest(p: Request, q: Request)
    requires ValidRequest(p) && ValidRequest(q)
  {
    p.kind == q.kind && p.provider == q.provider && p.model == q.model && p.messages == q.messages &&
    ToMap(p.subjectIds) == ToMap(q.subjectIds) &&
    MeaningOf(Object(p.options)) == MeaningOf(Object(q.options)) &&
    p.compilerFingerprint == q.compilerFingerprint && p.repairFingerprint == q.repairFingerprint &&
    p.privacyFingerprint == q.privacyFingerprint && p.inputFingerprint == q.inputFingerprint
  }

  lemma RecordKeys(r: StringRecord)
    requires DistinctNames(r)
    ensures KeySet(RecordFields(r)) == ToMap(r).Keys
  {
    var fs := RecordFields(r);
    forall i | 0 <= i < |r| ensures fs[i].key in ToMap(r) && r[i].0 in KeySet(fs) {
      assert fs[i].key == r[i].0;
    }
  }

  lemma EntryMeaning(r: StringRecord, i: nat)
    requires DistinctNames(r) && i < |r|
    ensures MeaningOf(Object(RecordFields(r))).Record?
    ensures r[i].0 in MeaningOf(Object(RecordFields(r))).fields
    ensures MeaningOf(Object(RecordFields(r))).fields[r[i].0] == Words(r[i].1)
  {
    var fs := RecordFields(r);
    assert fs[i] == Field(r[i].0, String(r[i].1));
    ObjectMeaning(fs);
    StringMeaning(r[i].1);
    hide MeaningOf, KeySet, RecordFields;
  }

  lemma RecordMeaning(r: StringRecord)
    requires DistinctNames(r)
    ensures MeaningOf(Object(RecordFields(r))).Record?
    ensures MeaningOf(Object(RecordFields(r))).fields.Keys == ToMap(r).Keys
    ensures forall name :: name in ToMap(r) ==>
      MeaningOf(Object(RecordFields(r))).fields[name] == Words(ToMap(r)[name])
  {
    ObjectMeaning(RecordFields(r));
    RecordKeys(r);
    hide MeaningOf, KeySet, RecordFields;
    forall name | name in ToMap(r)
      ensures MeaningOf(Object(RecordFields(r))).fields[name] == Words(ToMap(r)[name])
    {
      var i :| 0 <= i < |r| && r[i].0 == name && ToMap(r)[name] == r[i].1;
      EntryMeaning(r, i);
    }
  }

  lemma StringMeaning(s: Text)
    ensures MeaningOf(String(s)) == Words(s)
  {
  }

  lemma SameRecordMap(r: StringRecord, s: StringRecord)
    requires DistinctNames(r) && DistinctNames(s)
    ensures MeaningOf(Object(RecordFields(r))) == MeaningOf(Object(RecordFields(s))) <==> ToMap(r) == ToMap(s)
  {
    hide MeaningOf, RecordFields, ToMap;
    RecordMeaning(r);
    RecordMeaning(s);
    SameImage(MeaningOf(Object(RecordFields(r))).fields, MeaningOf(Object(RecordFields(s))).fields, ToMap(r), ToMap(s));
  }

  lemma SameImage(m: map<Text, Meaning>, n: map<Text, Meaning>, r: map<Text, Text>, s: map<Text, Text>)
    requires m.Keys == r.Keys && n.Keys == s.Keys
    requires forall name :: name in m ==> m[name] == Words(r[name])
    requires forall name :: name in n ==> n[name] == Words(s[name])
    ensures m == n <==> r == s
  {
    if m == n {
      forall name | name in r ensures name in s && r[name] == s[name] {
        assert m[name] == n[name];
      }
    }
  }

  lemma SameMessage(a: Message, b: Message)
    requires MeaningOf(MessageTree(a)) == MeaningOf(MessageTree(b))
    ensures a == b
  {
    MessageIsValid(a);
    MessageIsValid(b);
    var fs := Literal(MESSAGE_KEYS, [String(a.role), String(a.content)]);
    var gs := Literal(MESSAGE_KEYS, [String(b.role), String(b.content)]);
    SameProperties(fs, gs);
    assert MeaningOf(fs[0].value) == MeaningOf(gs[0].value) && MeaningOf(fs[1].value) == MeaningOf(gs[1].value);
  }

  lemma SameMessages(a: seq<Message>, b: seq<Message>)
    requires MeaningOf(MessagesTree(a)) == MeaningOf(MessagesTree(b))
    ensures a == b
  {
    var m, n := MeaningOf(MessagesTree(a)).items, MeaningOf(MessagesTree(b)).items;
    assert |m| == |a| && |n| == |b|;
    forall i | 0 <= i < |a| ensures a[i] == b[i] {
      assert m[i] == MeaningOf(MessageTree(a[i])) && n[i] == MeaningOf(MessageTree(b[i]));
      SameMessage(a[i], b[i]);
    }
  }

  lemma KindTextInjective(a: Kind, b: Kind)
    requires KindText(a) == KindText(b)
    ensures a == b
  {
    assert |KindText(VacancyAnalysis)| == 16 && |KindText(CoverLetter)| == 12;
  }

  lemma SameTreeIsSameRequest(p: Request, q: Request)
    requires ValidRequest(p) && ValidRequest(q)
    ensures MeaningOf(PlanTree(p)) == MeaningOf(PlanTree(q)) <==> SameRequest(p, q)
  {
    hide MeaningOf, PlanValues, SameRequest, Valid;
    PlanTreeIsValid(p);
    PlanTreeIsValid(q);
    var v, w := PlanValues(p), PlanValues(q);
    var fs, gs := Literal(PLAN_KEYS, v), Literal(PLAN_KEYS, w);
    if MeaningOf(PlanTree(p)) == MeaningOf(PlanTree(q)) {
      SameProperties(fs, gs);
      forall i | 0 <= i < 13 ensures MeaningOf(v[i]) == MeaningOf(w[i]) {
        assert fs[i].value == v[i] && gs[i].value == w[i];
      }
      SameValues(p, q);
    }
    if SameRequest(p, q) {
      SameRequestSameValues(p, q);
      forall i | 0 <= i < |fs| ensures MeaningOf(fs[i].value) == MeaningOf(gs[i].value) {
        assert fs[i].value == v[i] && gs[i].value == w[i];
      }
      SameRecord(fs, gs);
    }
  }

  lemma SameRequestSameValues(p: Request, q: Request)
    requires ValidRequest(p) && ValidRequest(q) && SameRequest(p, q)
    ensures forall i :: 0 <= i < 13 ==> MeaningOf(PlanValues(p)[i]) == MeaningOf(PlanValues(q)[i])
  {
    hide MeaningOf, MessagesTree, RecordFields, Lit;
    SameRecordMap(p.subjectIds, q.subjectIds);
  }

  lemma SameValues(p: Request, q: Request)
    requires ValidRequest(p) && ValidRequest(q)
    requires forall i :: 0 <= i < 13 ==> MeaningOf(PlanValues(p)[i]) == MeaningOf(PlanValues(q)[i])
    ensures SameRequest(p, q)
  {
    hide MeaningOf, MessagesTree, RecordFields, Lit, KindText;
    var v, w := PlanValues(p), PlanValues(q);
    assert MeaningOf(v[3]) == MeaningOf(w[3]) && MeaningOf(v[6]) == MeaningOf(w[6]) && MeaningOf(v[8]) == MeaningOf(w[8]);
    SameRecordMap(p.subjectIds, q.subjectIds);
    SameMessages(p.messages, q.messages);
    SameString(v[2], w[2]);
    SameString(v[4], w[4]);
    SameString(v[5], w[5]);
    SameString(v[9], w[9]);
    SameString(v[10], w[10]);
    SameString(v[11], w[11]);
    SameString(v[12], w[12]);
    KindTextInjective(p.kind, q.kind);
  }

  lemma SameString(v: Json, w: Json)
    requires v.String? && w.String? && MeaningOf(v) == MeaningOf(w)
    ensures v.s == w.s
  {
  }

  /** Short of a SHA-256 collision, plans hash alike exactly when they are the same request. */
  lemma PlanHashIdentifiesRequest(p: Request, q: Request)
    requires ValidRequest(p) && ValidRequest(q) && TreesDoNotCollide(PlanTree(p), PlanTree(q))
    requires HashTree(PlanTree(p)).Some? && HashTree(PlanTree(q)).Some?
    ensures HashTree(PlanTree(p)) == HashTree(PlanTree(q)) <==> SameRequest(p, q)
  {
    hide MeaningOf, Valid, PlanTree, HashTree, SameRequest;
    PlanTreeIsValid(p);
    PlanTreeIsValid(q);
    HashIdentifiesTree(PlanTree(p), PlanTree(q));
    SameTreeIsSameRequest(p, q);
  }
}
