/** The export of saved jobs as CSV. */
module JobsCsv {
  import opened JsText
  import opened JsonTree
  import JsonString
  import opened Csv

  // ----- Texts of values -----

  /** `JSON.stringify`; `None` for a bigint, on which it throws. */
  function JsonText(v: Json): Option<Text> {
    match v
    case Null => Some(Lit("null"))
    case Undefined => Some(Lit("null"))
    case NotFinite(_) => Some(Lit("null"))
    case Bool(b) => Some(Lit(if b then "true" else "false"))
    case Number(text) => Some(text)
    case String(s) => Some(JsonString.Quote(s))
    case Other(_) => None
    case Array(items) =>
      var texts :- ItemTexts(items);
      Some([0x5B] + Join(texts, [COMMA]) + [0x5D])
    case Object(fields) =>
      var texts :- PropertyTexts(fields);
      Some([0x7B] + Join(texts, [COMMA]) + [0x7D])
  }

  function ItemTexts(items: seq<Json>): Option<seq<Text>> {
    if |items| == 0 then Some([])
    else
      var first :- JsonText(items[0]);
      var rest :- ItemTexts(items[1..]);
      Some([first] + rest)
  }

  /** Properties that are undefined are left out. */
  function PropertyTexts(fields: seq<Field>): Option<seq<Text>> {
    if |fields| == 0 then Some([])
    else
      var rest :- PropertyTexts(fields[1..]);
      if fields[0].value.Undefined? then Some(rest)
      else
        var value :- JsonText(fields[0].value);
        Some([JsonString.Quote(fields[0].key) + [0x3A] + value] + rest)
  }

  /** What `csvCell` writes, before quoting. */
  function FieldText(v: Json): Option<Text> {
    match v
    case Null => Some([])
    case Undefined => Some([])
    case String(s) => Some(Neutral(s))
    case _ => JsonText(v)
  }

  method CsvCell(v: Json) returns (cell: Option<Text>)
    ensures cell == if FieldText(v).Some? then Some(Escape(FieldText(v).value)) else None
  {
    hide Escape, Neutral, JsonText;
    if v.Null? || v.Undefined? {
      EmptyIsPlain();
      return Some([]);
    }
    if v.String? {
      var c := CellOfString(v.s);
      return Some(c);
    }
    var text := JsonText(v);
    return if text.Some? then Some(Escape(text.value)) else None;
  }

  lemma EmptyIsPlain()
    ensures Escape([]) == []
  {
  }

  // ----- Columns -----

  /** `v.key`; undefined where there is none. */
  function Property(v: Json, key: Text): Json {
    if v.Object? && key in KeySet(v.fields) then v.fields[IndexOf(v.fields, key)].value else Undefined
  }

  /** `v ?? ""`. */
  function OrEmpty(v: Json): Json {
    if v.Null? || v.Undefined? then String([]) else v
  }

  /** An element's text in `Array.prototype.join`. */
  function ElementText(v: Json): Text {
    match v
    case Null => []
    case Undefined => []
    case Bool(b) => Lit(if b then "true" else "false")
    case Number(text) => text
    case NotFinite(kind) =>
      Lit(match kind case NaN => "NaN" case PositiveInfinity => "Infinity" case NegativeInfinity => "-Infinity")
    case String(s) => s
    case Array(items) => Join(seq(|items|, i requires 0 <= i < |items| => ElementText(items[i])), [COMMA])
    case Object(_) => Lit("[object Object]")
    case Other(display) => display
  }

  function SkillsText(skills: Json): Json {
    if skills.Array?
    then String(Join(seq(|skills.items|, i requires 0 <= i < |skills.items| => ElementText(skills.items[i])), [0x3B, 0x20]))
    else String([])
  }

  const LABELS := [
    "ID", "Source Vacancy ID", "Title", "Company", "Company ID", "Status", "City", "Work Mode", "Salary (Raw)",
    "Salary Min", "Salary Max", "Currency", "Experience", "Employment", "Schedule", "Skills", "Score (Total)",
    "Recommendation", "First Seen", "Last Seen", "Updated", "URL", "Profile ID"]

  const COLUMNS: nat := 23

  function Get(job: Json, key: string): Json {
    Property(job, Lit(key))
  }

  function Extract(job: Json): (values: seq<Json>)
    ensures |values| == COLUMNS
  {
    [Get(job, "id"), Get(job, "sourceVacancyId"), Get(job, "title"), Get(job, "companyName"), Get(job, "companyId"),
     Get(job, "status"), Get(job, "city"), Get(job, "workMode"), Get(job, "salaryRaw"), Get(job, "salaryMin"),
     Get(job, "salaryMax"), Get(job, "salaryCurrency"), Get(job, "experienceRaw"), Get(job, "employmentType"),
     Get(job, "schedule"), SkillsText(Get(job, "skills")), OrEmpty(Get(Get(job, "ruleScore"), "total")),
     OrEmpty(Get(Get(job, "ruleScore"), "recommendation")), Get(job, "firstSeenAt"), Get(job, "lastSeenAt"),
     Get(job, "updatedAt"), Get(job, "sourceUrl"), Get(job, "selectedProfileId")]
  }

  function FieldTexts(values: seq<Json>): (r: Option<seq<Text>>)
    ensures r.Some? ==> |r.value| == |values|
    ensures r.Some? ==> forall i :: 0 <= i < |values| ==> FieldText(values[i]) == Some(r.value[i])
  {
    if |values| == 0 then Some([])
    else
      var first :- FieldText(values[0]);
      var rest :- FieldTexts(values[1..]);
      Some([first] + rest)
  }

  function Records(jobs: seq<Json>): (r: Option<seq<seq<Text>>>)
    ensures r.Some? ==> |r.value| == |jobs|
    ensures r.Some? ==> forall i :: 0 <= i < |jobs| ==> FieldTexts(Extract(jobs[i])) == Some(r.value[i])
  {
    if |jobs| == 0 then Some([])
    else
      var first :- FieldTexts(Extract(jobs[0]));
      var rest :- Records(jobs[1..]);
      Some([first] + rest)
  }

  function Header(): (h: seq<Text>)
    ensures |h| == COLUMNS
  {
    seq(COLUMNS, i requires 0 <= i < COLUMNS => Neutral(Lit(LABELS[i])))
  }

  const BOM: Unit := 0xFEFF

  /** `generateJobsCsv`. */
  function GenerateJobsCsv(jobs: seq<Json>): Option<Text> {
    var records :- Records(jobs);
    Some([BOM] + File([Header()] + records))
  }

  lemma LabelsAreNotMarked()
    ensures forall i :: 0 <= i < COLUMNS ==> Header()[i] == Lit(LABELS[i])
  {
    hide Neutral;
    forall i | 0 <= i < COLUMNS ensures Header()[i] == Lit(LABELS[i]) {
      LabelIsCapital(i);
      CapitalIsContent(Lit(LABELS[i]));
    }
  }

  lemma LabelIsCapital(i: nat)
    requires i < COLUMNS
    ensures |LABELS[i]| > 0 && 'A' <= LABELS[i][0] <= 'Z'
  {
  }

  lemma CapitalIsContent(text: Text)
    requires |text| > 0 && 0x41 <= text[0] <= 0x5A
    ensures Neutral(text) == text
  {
    assert FirstContent(text) == 0;
  }

  /** A field that came from a string is no formula to a spreadsheet. */
  predicate Safe(value: Json, field: Text) {
    FieldText(value) == Some(field) && (value.String? ==> !IsFormula(field))
  }

  /**
   * A reader of RFC 4180 gets back, after the byte order mark, the 23 labels and for
   * each job its 23 field texts, with the formulas among its strings neutralised.
   */
  lemma ExportReadsBack(jobs: seq<Json>)
    requires GenerateJobsCsv(jobs).Some?
    ensures var text := GenerateJobsCsv(jobs).value;
      text[0] == BOM && ReadFile(text[1..]).Some? &&
      var read := ReadFile(text[1..]).value;
      |read| == 1 + |jobs| && (forall r :: 0 <= r < |read| ==> |read[r]| == COLUMNS) &&
      (forall c :: 0 <= c < COLUMNS ==> read[0][c] == Lit(LABELS[c])) &&
      forall j, c :: 0 <= j < |jobs| && 0 <= c < COLUMNS ==> Safe(Extract(jobs[j])[c], read[1 + j][c])
  {
    hide Extract, Header, ReadFile, File, Neutral, IsFormula, JsonText;
    var records := Records(jobs).value;
    var all := [Header()] + records;
    FileRoundTrip(all);
    LabelsAreNotMarked();
    assert GenerateJobsCsv(jobs).value[1..] == File(all);
    forall j, c | 0 <= j < |jobs| && 0 <= c < COLUMNS ensures Safe(Extract(jobs[j])[c], all[1 + j][c]) {
      var value := Extract(jobs[j])[c];
      assert FieldTexts(Extract(jobs[j])) == Some(records[j]);
      if value.String? {
        NeutralIsNoFormula(value.s);
      }
    }
  }
}
