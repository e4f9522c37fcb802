/** What the cells of the job export hold: the properties of a job, and JSON text where they are no strings. */
module CsvContents {
  import opened JsText
  import opened JsonTree
  import JsonString
  import opened StableJson
  import Csv
  import JobsCsv

  // ----- Columns -----

  /** The columns that show a property of the job as it is. */
  predicate ShowsProperty(c: nat, title: string, key: string) {
    (c, title, key) in [
      (0, "ID", "id"), (1, "Source Vacancy ID", "sourceVacancyId"), (2, "Title", "title"), (3, "Company", "companyName"),
      (4, "Company ID", "companyId"), (5, "Status", "status"), (6, "City", "city"), (7, "Work Mode", "workMode"),
      (8, "Salary (Raw)", "salaryRaw"), (9, "Salary Min", "salaryMin"), (10, "Salary Max", "salaryMax"),
      (11, "Currency", "salaryCurrency"), (12, "Experience", "experienceRaw"), (13, "Employment", "employmentType"),
      (14, "Schedule", "schedule"), (18, "First Seen", "firstSeenAt"), (19, "Last Seen", "lastSeenAt"),
      (20, "Updated", "updatedAt"), (21, "URL", "sourceUrl"), (22, "Profile ID", "selectedProfileId")]
  }

  /** The property is there with this value, or missing and undefined. */
  predicate Holds(job: Json, key: string, value: Json) {
    job.Object? &&
    if exists i :: 0 <= i < |job.fields| && job.fields[i].key == Lit(key) then Field(Lit(key), value) in job.fields
    else value == Undefined
  }

  lemma LabelsOfProperties(c: nat, title: string, key: string)
    requires ShowsProperty(c, title, key)
    ensures c < JobsCsv.COLUMNS && JobsCsv.LABELS[c] == title
  {
  }

  lemma ColumnsOfProperties(c: nat, title: string, key: string)
    requires ShowsProperty(c, title, key)
    ensures c < JobsCsv.COLUMNS
    ensures forall job: Json :: JobsCsv.Extract(job)[c] == JobsCsv.Get(job, key)
  {
    hide JobsCsv.Get, JobsCsv.SkillsText, JobsCsv.OrEmpty;
  }

  lemma PropertyIsHeld(job: Json, key: string, value: Json)
    requires Valid(job) && Holds(job, key, value)
    ensures JobsCsv.Get(job, key) == value
  {
    if exists i :: 0 <= i < |job.fields| && job.fields[i].key == Lit(key) {
      LookupField(job.fields, Field(Lit(key), value));
    }
  }

  /** Under its label stands what the job has under the key, or nothing. */
  lemma CellShowsProperty(job: Json, c: nat, title: string, key: string, value: Json)
    requires ShowsProperty(c, title, key) && Valid(job) && Holds(job, key, value)
    ensures c < JobsCsv.COLUMNS && JobsCsv.LABELS[c] == title && JobsCsv.Extract(job)[c] == value
  {
    hide JobsCsv.Extract, JobsCsv.Get, Holds, ShowsProperty, Valid;
    LabelsOfProperties(c, title, key);
    ColumnsOfProperties(c, title, key);
    PropertyIsHeld(job, key, value);
  }

  lemma ColumnsMadeOfProperties(job: Json)
    ensures JobsCsv.LABELS[15] == "Skills" && JobsCsv.LABELS[16] == "Score (Total)" && JobsCsv.LABELS[17] == "Recommendation"
    ensures JobsCsv.Extract(job)[15] == JobsCsv.SkillsText(JobsCsv.Get(job, "skills"))
    ensures JobsCsv.Extract(job)[16] == JobsCsv.OrEmpty(JobsCsv.Get(JobsCsv.Get(job, "ruleScore"), "total"))
    ensures JobsCsv.Extract(job)[17] == JobsCsv.OrEmpty(JobsCsv.Get(JobsCsv.Get(job, "ruleScore"), "recommendation"))
  {
    hide JobsCsv.Get, JobsCsv.SkillsText, JobsCsv.OrEmpty;
  }

  function Strings(texts: seq<Text>): Json {
    Array(seq(|texts|, i requires 0 <= i < |texts| => String(texts[i])))
  }

  lemma SkillsAreJoined(skills: seq<Text>)
    ensures JobsCsv.SkillsText(Strings(skills)) == String(Join(skills, Lit("; ")))
  {
    hide Join;
    var items := Strings(skills).items;
    assert seq(|items|, i requires 0 <= i < |items| => JobsCsv.ElementText(items[i])) == skills;
    assert Lit("; ") == [0x3B, 0x20];
  }

  /** The other three cells: the skills in one text, and two parts of the score. */
  lemma CellsMadeOfProperties(job: Json, skills: seq<Text>, score: Json, total: Json, recommendation: Json)
    requires Valid(job) && Valid(score) && Holds(job, "skills", Strings(skills)) && Holds(job, "ruleScore", score)
    requires Holds(score, "total", total) && Holds(score, "recommendation", recommendation)
    ensures JobsCsv.Extract(job)[15] == String(Join(skills, Lit("; ")))
    ensures JobsCsv.Extract(job)[16] == if total == Null || total == Undefined then String([]) else total
    ensures JobsCsv.Extract(job)[17] ==
      if recommendation == Null || recommendation == Undefined then String([]) else recommendation
  {
    hide Holds, Valid, JobsCsv.Get, Join, JobsCsv.Extract, JobsCsv.SkillsText, Strings;
    ColumnsMadeOfProperties(job);
    PropertyIsHeld(job, "skills", Strings(skills));
    PropertyIsHeld(job, "ruleScore", score);
    PropertyIsHeld(score, "total", total);
    PropertyIsHeld(score, "recommendation", recommendation);
    SkillsAreJoined(skills);
  }

  // ----- JSON text -----

  /** Keys ascend, and no property is undefined, at any depth. */
  predicate InKeyOrder(v: Json) {
    match v
    case Array(items) => forall i :: 0 <= i < |items| ==> InKeyOrder(items[i])
    case Object(fields) =>
      Ascending(fields) &&
      forall i :: 0 <= i < |fields| ==> !fields[i].value.Undefined? && InKeyOrder(fields[i].value)
    case _ => true
  }

  /** The text exists exactly without a bigint. */
  lemma {:induction false} TextExistsExactly(v: Json)
    ensures JobsCsv.JsonText(v).Some? <==> NoOther(v)
  {
    match v
    case Array(items) => ItemTextsExist(items);
    case Object(fields) => PropertyTextsExist(fields);
    case _ =>
  }

  lemma {:induction false} ItemTextsExist(items: seq<Json>)
    ensures JobsCsv.ItemTexts(items).Some? <==> forall i :: 0 <= i < |items| ==> NoOther(items[i])
  {
    hide NoOther;
    if |items| > 0 {
      TextExistsExactly(items[0]);
      ItemTextsExist(items[1..]);
      assert items == [items[0]] + items[1..];
    }
  }

  lemma {:induction false} PropertyTextsExist(fields: seq<Field>)
    ensures JobsCsv.PropertyTexts(fields).Some? <==> forall i :: 0 <= i < |fields| ==> NoOther(fields[i].value)
  {
    if |fields| > 0 {
      TextExistsExactly(fields[0].value);
      PropertyTextsExist(fields[1..]);
      assert fields == [fields[0]] + fields[1..];
    }
  }

  lemma {:induction false} SortedStays(fields: seq<Field>)
    requires Ascending(fields)
    ensures SortByKey(fields) == fields
  {
    if |fields| > 0 {
      SortedStays(fields[1..]);
    }
  }

  function CanonicalItems(items: seq<Json>): seq<Text> {
    seq(|items|, i requires 0 <= i < |items| => Stringify(PlanText, items[i]))
  }

  lemma {:induction false} ItemTextsAgree(items: seq<Json>)
    requires forall i :: 0 <= i < |items| ==> InKeyOrder(items[i]) && NoOther(items[i])
    ensures JobsCsv.ItemTexts(items) == Some(CanonicalItems(items))
  {
    hide InKeyOrder, NoOther, Stringify, JobsCsv.JsonText;
    if |items| > 0 {
      TextsAgree(items[0]);
      ItemTextsAgree(items[1..]);
      assert CanonicalItems(items) == [Stringify(PlanText, items[0])] + CanonicalItems(items[1..]);
    }
  }

  function CanonicalProperties(fields: seq<Field>): seq<Text> {
    seq(|fields|, i requires 0 <= i < |fields| =>
      JsonString.Quote(fields[i].key) + [0x3A] + Stringify(PlanText, fields[i].value))
  }

  lemma {:induction false} PropertyTextsAgree(fields: seq<Field>)
    requires forall i :: 0 <= i < |fields| ==>
      !fields[i].value.Undefined? && InKeyOrder(fields[i].value) && NoOther(fields[i].value)
    ensures JobsCsv.PropertyTexts(fields) == Some(CanonicalProperties(fields))
  {
    hide InKeyOrder, NoOther, Stringify, JobsCsv.JsonText, JsonString.Quote;
    if |fields| > 0 {
      TextsAgree(fields[0].value);
      PropertyTextsAgree(fields[1..]);
      var first := JsonString.Quote(fields[0].key) + [0x3A] + Stringify(PlanText, fields[0].value);
      assert CanonicalProperties(fields) == [first] + CanonicalProperties(fields[1..]);
    }
  }

  lemma PartsOfArray(items: seq<Json>)
    ensures Stringify(PlanText, Array(items)) == [0x5B] + Join(CanonicalItems(items), [0x2C]) + [0x5D]
  {
    hide JsonString.Quote;
    assert CanonicalItems(items) == seq(|items|, i requires 0 <= i < |items| => Stringify(PlanText, items[i]));
  }

  lemma PartsOfObject(fields: seq<Field>)
    requires Ascending(fields)
    ensures Stringify(PlanText, Object(fields)) == [0x7B] + Join(CanonicalProperties(fields), [0x2C]) + [0x7D]
  {
    hide JsonString.Quote, Stringify, SortByKey, Join;
    SortedStays(fields);
    var v := Object(fields);
    StringifyParts(PlanText, v);
    var parts := Parts(PlanText, v);
    forall i | 0 <= i < |fields| ensures parts[i] == CanonicalProperties(fields)[i] {
      assert parts[i] == Part(PlanText, v, i) && Children(v)[i] == fields[i];
    }
    assert parts == CanonicalProperties(fields);
  }

  /**
   * On a tree whose keys ascend, `JSON.stringify` writes what the canonical serializer
   * writes, so the text determines the tree's meaning.
   */
  lemma {:induction false} TextsAgree(v: Json)
    requires InKeyOrder(v) && NoOther(v)
    ensures JobsCsv.JsonText(v) == Some(Stringify(PlanText, v))
  {
    match v
    case Array(items) =>
      ItemTextsAgree(items);
      PartsOfArray(items);
      hide Stringify, Join, JobsCsv.ItemTexts;
    case Object(fields) =>
      PropertyTextsAgree(fields);
      PartsOfObject(fields);
      hide Stringify, Join, JobsCsv.PropertyTexts;
    case _ => LeafTextsAgree(v);
  }

  lemma LeafTextsAgree(v: Json)
    requires !v.Array? && !v.Object? && !v.Other?
    ensures JobsCsv.JsonText(v) == Some(Stringify(PlanText, v))
  {
    assert Lit("null") == NULL && Lit("true") == TRUE && Lit("false") == FALSE;
    hide JsonString.Quote;
  }

  /** What an object's text has for a property: nothing if it is undefined. */
  function PropertyPart(f: Field): seq<Text>
    requires JobsCsv.JsonText(f.value).Some?
  {
    if f.value.Undefined? then [] else [JsonString.Quote(f.key) + [0x3A] + JobsCsv.JsonText(f.value).value]
  }

  lemma FirstProperty(fields: seq<Field>)
    requires |fields| > 0
    ensures JobsCsv.PropertyTexts(fields).Some? <==>
      JobsCsv.JsonText(fields[0].value).Some? && JobsCsv.PropertyTexts(fields[1..]).Some?
    ensures JobsCsv.PropertyTexts(fields).Some? ==>
      JobsCsv.PropertyTexts(fields).value == PropertyPart(fields[0]) + JobsCsv.PropertyTexts(fields[1..]).value
  {
    UndefinedHasText();
    hide JsonString.Quote, JobsCsv.JsonText;
  }

  lemma UndefinedHasText()
    ensures JobsCsv.JsonText(Undefined).Some?
  {
  }

  /** Properties are written in the order they stand in. */
  lemma {:induction false} PropertiesInTheirOrder(fs: seq<Field>, f: Field, gs: seq<Field>)
    requires JobsCsv.PropertyTexts(fs).Some? && JobsCsv.PropertyTexts(gs).Some? && JobsCsv.JsonText(f.value).Some?
    ensures JobsCsv.PropertyTexts(fs + [f] + gs) ==
      Some(JobsCsv.PropertyTexts(fs).value + PropertyPart(f) + JobsCsv.PropertyTexts(gs).value)
  {
    hide JobsCsv.JsonText, JobsCsv.PropertyTexts, PropertyPart;
    var all := fs + [f] + gs;
    FirstProperty(all);
    if |fs| > 0 {
      assert all[0] == fs[0] && all[1..] == fs[1..] + [f] + gs;
      FirstProperty(fs);
      PropertiesInTheirOrder(fs[1..], f, gs);
      var rest := JobsCsv.PropertyTexts(fs[1..]).value;
      assert PropertyPart(fs[0]) + (rest + PropertyPart(f) + JobsCsv.PropertyTexts(gs).value) ==
        PropertyPart(fs[0]) + rest + PropertyPart(f) + JobsCsv.PropertyTexts(gs).value;
    } else {
      assert all[0] == f && all[1..] == gs && fs == [];
      NoProperties();
      assert JobsCsv.PropertyTexts(all).value == PropertyPart(f) + JobsCsv.PropertyTexts(gs).value;
      assert JobsCsv.PropertyTexts(fs).value + PropertyPart(f) == PropertyPart(f);
    }
  }

  lemma NoProperties()
    ensures JobsCsv.PropertyTexts([]) == Some([])
  {
  }

  // ----- Formulas -----

  /** At most a space, or JavaScript white space. */
  predicate Blank(u: Unit) {
    u <= 0x20 || IsWhiteSpace(u)
  }

  /** `=`, `+`, `-` or `@` follows after blanks only. */
  predicate BeginsWithMarker(s: Text, i: nat) {
    i < |s| && s[i] in {'=' as int, '+' as int, '-' as int, '@' as int} && forall j :: 0 <= j < i ==> Blank(s[j])
  }

  /** A string gets an apostrophe exactly if it is blank or begins, after blanks, with one of the four characters. */
  lemma NeutralExactly(s: Text)
    ensures JobsCsv.FieldText(String(s)) ==
      Some(if (forall i :: 0 <= i < |s| ==> Blank(s[i])) || (exists i: nat :: BeginsWithMarker(s, i)) then [0x27] + s else s)
  {
    var i := Csv.FirstContent(s);
    assert forall j :: 0 <= j < i ==> Blank(s[j]);
    if i < |s| {
      assert !Blank(s[i]);
      assert Csv.IsMarker(s[i]) <==> BeginsWithMarker(s, i);
      forall k: nat | BeginsWithMarker(s, k) ensures k == i {
        assert !Blank(s[k]);
      }
    }
  }

  /** Nothing is written for a missing value, and JSON text for one that is no string. */
  lemma FieldTextOfOthers(v: Json)
    requires !v.String?
    ensures JobsCsv.FieldText(v) == if v == Null || v == Undefined then Some([]) else JobsCsv.JsonText(v)
  {
    hide JobsCsv.JsonText;
  }
}
