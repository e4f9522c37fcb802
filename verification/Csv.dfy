/** The CSV writer of the job export, and a reader that follows section 2 of RFC 4180. */
module Csv {
  import opened JsText

  const COMMA: Unit := 0x2C
  const QUOTE: Unit := 0x22
  const CR: Unit := 0x0D
  const LF: Unit := 0x0A
  const APOSTROPHE: Unit := 0x27
  const CRLF: Text := [CR, LF]

  // ----- Neutralising formulas -----

  /** A control character or JavaScript white space. */
  predicate IsBlank(u: Unit) {
    u <= 0x20 || IsWhiteSpace(u)
  }

  /** `=`, `+`, `-` or `@`. */
  predicate IsMarker(u: Unit) {
    u == 0x3D || u == 0x2B || u == 0x2D || u == 0x40
  }

  /** The position of the first unit that is not blank. */
  function FirstContent(s: Text): (i: nat)
    ensures i <= |s| && (i < |s| ==> !IsBlank(s[i]))
    ensures forall j :: 0 <= j < i ==> IsBlank(s[j])
  {
    if |s| == 0 || !IsBlank(s[0]) then 0 else 1 + FirstContent(s[1..])
  }

  /** The text begins, after blanks, with a formula marker. */
  predicate IsFormula(s: Text) {
    FirstContent(s) < |s| && IsMarker(s[FirstContent(s)])
  }

  /** A blank text counts as well: no character at all is found in every string. */
  predicate IsMarked(s: Text) {
    FirstContent(s) == |s| || IsFormula(s)
  }

  function Neutral(s: Text): Text {
    if IsMarked(s) then [APOSTROPHE] + s else s
  }

  lemma NeutralIsNoFormula(s: Text)
    ensures !IsFormula(Neutral(s))
  {
    if IsMarked(s) {
      assert !IsBlank(Neutral(s)[0]);
      assert FirstContent(Neutral(s)) == 0;
    }
  }

  /** The only texts told apart no longer: one that was marked and the same text already with its apostrophe. */
  lemma NeutralCollision(a: Text, b: Text)
    ensures Neutral(a) == Neutral(b) <==>
      a == b || (IsMarked(a) && b == [APOSTROPHE] + a) || (IsMarked(b) && a == [APOSTROPHE] + b)
  {
    ApostropheIsContent(a);
    ApostropheIsContent(b);
    assert ([APOSTROPHE] + a)[1..] == a && ([APOSTROPHE] + b)[1..] == b;
  }

  lemma ApostropheIsContent(s: Text)
    ensures !IsMarked([APOSTROPHE] + s)
  {
    assert !IsBlank(([APOSTROPHE] + s)[0]);
    assert FirstContent([APOSTROPHE] + s) == 0;
  }

  // ----- Writing a cell -----

  predicate IsSpecial(u: Unit) {
    u == COMMA || u == QUOTE || u == CR || u == LF
  }

  predicate Plain(s: Text) {
    forall i :: 0 <= i < |s| ==> !IsSpecial(s[i])
  }

  /** Each quote twice. */
  function Doubled(s: Text): Text {
    if |s| == 0 then [] else (if s[0] == QUOTE then [QUOTE, QUOTE] else [s[0]]) + Doubled(s[1..])
  }

  function Escape(s: Text): Text {
    if Plain(s) then s else [QUOTE] + Doubled(s) + [QUOTE]
  }

  /** `csvCell` on a string; other values are written as their JSON text. */
  method CellOfString(value: Text) returns (cell: Text)
    ensures cell == Escape(Neutral(value))
  {
    var s := value;
    var firstContentIndex := 0;
    while firstContentIndex < |s| && IsBlank(s[firstContentIndex])
      invariant 0 <= firstContentIndex <= |s| && forall j :: 0 <= j < firstContentIndex ==> IsBlank(s[j])
    {
      firstContentIndex := firstContentIndex + 1;
    }
    assert firstContentIndex == FirstContent(value);
    if firstContentIndex == |s| || IsMarker(s[firstContentIndex]) {
      s := [APOSTROPHE] + s;
    }
    if COMMA in s || QUOTE in s || LF in s || CR in s {
      assert !Plain(s);
      return [QUOTE] + Doubled(s) + [QUOTE];
    }
    return s;
  }

  function Cells(fields: seq<Text>): seq<Text> {
    seq(|fields|, i requires 0 <= i < |fields| => Escape(fields[i]))
  }

  function Row(fields: seq<Text>): Text {
    Join(Cells(fields), [COMMA])
  }

  function Rows(records: seq<seq<Text>>): seq<Text> {
    seq(|records|, i requires 0 <= i < |records| => Row(records[i]))
  }

  /** All rows with a line break after each. */
  function File(records: seq<seq<Text>>): Text {
    Join(Rows(records), CRLF) + CRLF
  }

  // ----- Reading (section 2 of RFC 4180) -----

  /** A field in quotes, after its opening quote, and what follows its closing quote. */
  function ReadQuoted(t: Text): (r: Option<(Text, Text)>)
    ensures r.Some? ==> |r.value.1| < |t|
  {
    if |t| == 0 then None
    else if t[0] != QUOTE then
      var (s, rest) :- ReadQuoted(t[1..]);
      Some(([t[0]] + s, rest))
    else if |t| > 1 && t[1] == QUOTE then
      var (s, rest) :- ReadQuoted(t[2..]);
      Some(([QUOTE] + s, rest))
    else Some(([], t[1..]))
  }

  /** The longest run of plain units; the RFC's ASCII restriction on them is lifted. */
  function ReadBare(t: Text): (r: (Text, Text))
    ensures |r.1| <= |t|
  {
    if |t| == 0 || IsSpecial(t[0]) then ([], t)
    else
      var (s, rest) := ReadBare(t[1..]);
      ([t[0]] + s, rest)
  }

  function ReadField(t: Text): (r: Option<(Text, Text)>)
    ensures r.Some? ==> |r.value.1| <= |t|
  {
    if |t| > 0 && t[0] == QUOTE then ReadQuoted(t[1..]) else Some(ReadBare(t))
  }

  function ReadRecord(t: Text): (r: Option<(seq<Text>, Text)>)
    ensures r.Some? ==> |r.value.1| <= |t|
    decreases |t|
  {
    var (field, rest) :- ReadField(t);
    if |rest| > 0 && rest[0] == COMMA then
      var (fields, end) :- ReadRecord(rest[1..]);
      Some(([field] + fields, end))
    else Some(([field], rest))
  }

  /** Records separated by line breaks; the last one may end with one. */
  function ReadFile(t: Text): Option<seq<seq<Text>>>
    decreases |t|
  {
    var (record, rest) :- ReadRecord(t);
    if |rest| == 0 then Some([record])
    else if |rest| < 2 || rest[0] != CR || rest[1] != LF then None
    else if |rest| == 2 then Some([record])
    else
      var records :- ReadFile(rest[2..]);
      Some([record] + records)
  }

  // ----- Round trip -----

  lemma {:induction false} QuotedRoundTrip(s: Text, rest: Text)
    requires |rest| == 0 || rest[0] != QUOTE
    ensures ReadQuoted(Doubled(s) + [QUOTE] + rest) == Some((s, rest))
  {
    var t := Doubled(s) + [QUOTE] + rest;
    if |s| == 0 {
      assert t == [QUOTE] + rest && t[1..] == rest;
    } else {
      QuotedRoundTrip(s[1..], rest);
      var tail := Doubled(s[1..]) + [QUOTE] + rest;
      assert s == [s[0]] + s[1..];
      if s[0] == QUOTE {
        assert t == [QUOTE, QUOTE] + tail && t[2..] == tail;
      } else {
        assert t == [s[0]] + tail && t[1..] == tail;
      }
    }
  }

  lemma {:induction false} BareRoundTrip(s: Text, rest: Text)
    requires Plain(s) && (|rest| == 0 || IsSpecial(rest[0]))
    ensures ReadBare(s + rest) == (s, rest)
  {
    if |s| == 0 {
      assert s + rest == rest;
    } else {
      assert (s + rest)[1..] == s[1..] + rest;
      BareRoundTrip(s[1..], rest);
      assert s == [s[0]] + s[1..];
    }
  }

  /** A written field reads back, before a comma, a line break or the end. */
  lemma FieldRoundTrip(s: Text, rest: Text)
    requires |rest| == 0 || rest[0] == COMMA || rest[0] == CR
    ensures ReadField(Escape(s) + rest) == Some((s, rest))
  {
    hide Doubled, ReadQuoted, ReadBare;
    if Plain(s) {
      BareRoundTrip(s, rest);
      assert |s| > 0 ==> (s + rest)[0] == s[0];
    } else {
      QuotedRoundTrip(s, rest);
      var t := Escape(s) + rest;
      assert t[1..] == Doubled(s) + [QUOTE] + rest;
    }
  }

  lemma CellsTail(fields: seq<Text>)
    requires |fields| > 0
    ensures Cells(fields)[1..] == Cells(fields[1..])
  {
  }

  lemma {:induction false} RecordRoundTrip(fields: seq<Text>, rest: Text)
    requires |fields| > 0 && (|rest| == 0 || rest[0] == CR)
    ensures ReadRecord(Row(fields) + rest) == Some((fields, rest))
  {
    hide Escape, ReadField;
    if |fields| == 1 {
      assert fields == [fields[0]] && Row(fields) == Escape(fields[0]);
      FieldRoundTrip(fields[0], rest);
    } else {
      CellsTail(fields);
      var tail := [COMMA] + (Row(fields[1..]) + rest);
      assert Row(fields) + rest == Escape(fields[0]) + tail;
      FieldRoundTrip(fields[0], tail);
      assert tail[1..] == Row(fields[1..]) + rest;
      RecordRoundTrip(fields[1..], rest);
      assert fields == [fields[0]] + fields[1..];
    }
  }

  /** Reading what was written gives every record back, field by field. */
  lemma {:induction false} FileRoundTrip(records: seq<seq<Text>>)
    requires |records| > 0
    requires forall i :: 0 <= i < |records| ==> |records[i]| > 0
    ensures ReadFile(File(records)) == Some(records)
  {
    hide Row, ReadRecord;
    if |records| == 1 {
      RecordRoundTrip(records[0], CRLF);
      assert records == [records[0]] && File(records) == Row(records[0]) + CRLF;
    } else {
      assert Rows(records)[1..] == Rows(records[1..]);
      var tail := CRLF + File(records[1..]);
      assert File(records) == Row(records[0]) + tail;
      RecordRoundTrip(records[0], tail);
      assert tail[2..] == File(records[1..]);
      assert |File(records[1..])| >= 2;
      FileRoundTrip(records[1..]);
      assert records == [records[0]] + records[1..];
    }
  }
}
