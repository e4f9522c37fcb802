/** A reader of UTF-8 after section 3 of RFC 3629, and the round trip with the encoder. */
module Utf8Reader {
  import opened Words
  import opened JsText
  import Utf8

  predicate Continues(bytes: seq<Byte>, n: nat) {
    |bytes| >= n && forall i :: 1 <= i < n ==> 0x80 <= bytes[i] < 0xC0
  }

  /** The six bits of a continuation byte. */
  function Bits(b: int): nat
    requires b >= 0x80
  {
    b - 0x80
  }

  /** The first character and its number of bytes. */
  function ReadPoint(bytes: seq<Byte>): (r: Option<(nat, nat)>)
    ensures r.Some? ==> 0 < r.value.1 <= |bytes|
  {
    if |bytes| == 0 then None
    else
      var first: int := bytes[0];
      if first < 0x80 then Some((first, 1))
      else if 0xC0 <= first < 0xE0 && Continues(bytes, 2) then Some(((first - 0xC0) * 64 + Bits(bytes[1]), 2))
      else if 0xE0 <= first < 0xF0 && Continues(bytes, 3) then
        Some((((first - 0xE0) * 64 + Bits(bytes[1])) * 64 + Bits(bytes[2]), 3))
      else if 0xF0 <= first < 0xF8 && Continues(bytes, 4) then
        Some(((((first - 0xF0) * 64 + Bits(bytes[1])) * 64 + Bits(bytes[2])) * 64 + Bits(bytes[3]), 4))
      else None
  }

  function Read(bytes: seq<Byte>): Option<seq<nat>> {
    if |bytes| == 0 then Some([])
    else
      var first :- ReadPoint(bytes);
      var rest :- Read(bytes[first.1..]);
      Some([first.0] + rest)
  }

  /** The characters of a text: pairs of surrogates as one, and U+FFFD for each lone surrogate. */
  function Points(t: Text): seq<nat> {
    if |t| == 0 then []
    else if |t| > 1 && 0xD800 <= t[0] < 0xDC00 && 0xDC00 <= t[1] < 0xE000
    then
      var (high: int, low: int) := (t[0], t[1]);
      [0x1_0000 + (high - 0xD800) * 0x400 + (low - 0xDC00)] + Points(t[2..])
    else [if 0xD800 <= t[0] < 0xE000 then 0xFFFD else t[0]] + Points(t[1..])
  }

  lemma ReadsPoint(c: nat, rest: seq<Byte>)
    requires c < 0x11_0000
    ensures ReadPoint(Utf8.EncodePoint(c) + rest) == Some((c, |Utf8.EncodePoint(c)|))
  {
    var p := Utf8.EncodePoint(c);
    var bytes := p + rest;
    assert forall i :: 0 <= i < |p| ==> bytes[i] == p[i];
    assert c == c / 64 * 64 + c % 64 && c / 64 == c / 64 / 64 * 64 + c / 64 % 64;
    assert c / 64 / 64 == c / 64 / 64 / 64 * 64 + c / 64 / 64 % 64;
  }

  /** What the encoder writes reads back as the characters of the text. */
  lemma {:induction false} EncodedReadsBack(t: Text)
    ensures Read(Utf8.Encode(t)) == Some(Points(t))
  {
    hide ReadPoint, Utf8.EncodePoint, Utf8.EncodeHead, Points, Head;
    if |t| == 0 {
      NoPoints();
    } else {
      var n := |Head(t)|;
      var c := FirstPoint(t);
      var rest := Utf8.Encode(t[n..]);
      ReadsPoint(c, rest);
      EncodedReadsBack(t[n..]);
      var bytes := Utf8.Encode(t);
      assert bytes == Utf8.EncodePoint(c) + rest && bytes[|Utf8.EncodePoint(c)|..] == rest;
    }
  }

  lemma NoPoints()
    ensures Points([]) == []
  {
  }

  lemma FirstPoint(t: Text) returns (c: nat)
    requires |t| > 0
    ensures c < 0x11_0000 && Utf8.EncodeHead(Head(t)) == Utf8.EncodePoint(c) && Points(t) == [c] + Points(t[|Head(t)|..])
  {
    hide Utf8.EncodePoint;
    c := if |Head(t)| == 1 && IsSurrogate(t[0]) then 0xFFFD else Utf8.CodePoint(Head(t));
  }
}

/** A reader of strings after section 7 of RFC 8259, and the round trip with `JSON.stringify`. */
module JsonStringReader {
  import opened JsText
  import JsonString

  function HexValue(u: Unit): (r: Option<nat>)
    ensures r.Some? ==> r.value < 16
  {
    if 0x30 <= u <= 0x39 then Some(u - 0x30)
    else if 0x61 <= u <= 0x66 then Some(u - 0x61 + 10)
    else if 0x41 <= u <= 0x46 then Some(u - 0x41 + 10)
    else None
  }

  /** The unit that four hexadecimal digits stand for. */
  function HexUnit(t: Text): Option<Unit>
    requires |t| >= 4
  {
    var a :- HexValue(t[0]);
    var b :- HexValue(t[1]);
    var c :- HexValue(t[2]);
    var d :- HexValue(t[3]);
    Some(((a * 16 + b) * 16 + c) * 16 + d)
  }

  /** What a backslash and this letter stand for. */
  function Unescaped(u: Unit): Option<Unit> {
    if u == '"' as int || u == '\\' as int || u == '/' as int then Some(u)
    else if u == 'b' as int then Some(0x08)
    else if u == 'f' as int then Some(0x0C)
    else if u == 'n' as int then Some(0x0A)
    else if u == 'r' as int then Some(0x0D)
    else if u == 't' as int then Some(0x09)
    else None
  }

  /** One unit of a string and how many units it is written with; not the closing quote. */
  function ReadUnit(t: Text): (r: Option<(Unit, nat)>)
    requires |t| > 0
    ensures r.Some? ==> 0 < r.value.1 <= |t|
  {
    if t[0] == '"' as int || t[0] < 0x20 then None
    else if t[0] != '\\' as int then Some((t[0], 1))
    else if |t| >= 6 && t[1] == 'u' as int then
      var unit :- HexUnit(t[2..]);
      Some((unit, 6))
    else if |t| >= 2 then
      var unit :- Unescaped(t[1]);
      Some((unit, 2))
    else None
  }

  /** The units up to the closing quote, and what follows it. */
  function ReadUnits(t: Text): Option<(Text, Text)> {
    if |t| == 0 then None
    else if t[0] == '"' as int then Some(([], t[1..]))
    else
      var first :- ReadUnit(t);
      var (units, rest) :- ReadUnits(t[first.1..]);
      Some(([first.0] + units, rest))
  }

  function ReadString(t: Text): Option<(Text, Text)> {
    if |t| == 0 || t[0] != '"' as int then None else ReadUnits(t[1..])
  }

  lemma ReadsEscapedUnit(u: Unit, t: Text)
    ensures HexUnit(JsonString.UnicodeEscape(u)[2..]) == Some(u)
    ensures ReadUnit(JsonString.UnicodeEscape(u) + t) == Some((u, 6))
  {
    var q := JsonString.UnicodeEscape(u);
    HexDigitReads(u / 16 / 16 / 16);
    HexDigitReads(u / 16 / 16 % 16);
    HexDigitReads(u / 16 % 16);
    HexDigitReads(u % 16);
    hide Digit, HexValue;
    assert u == u / 16 * 16 + u % 16 && u / 16 == u / 16 / 16 * 16 + u / 16 % 16;
    assert u / 16 / 16 == u / 16 / 16 / 16 * 16 + u / 16 / 16 % 16;
    assert (q + t)[2..] == q[2..] + t;
  }

  lemma HexDigitReads(d: nat)
    requires d < 16
    ensures HexValue(Digit(d)) == Some(d)
  {
  }

  /** A copied unit, a two-unit escape or a six-unit escape reads back as the unit. */
  lemma ReadsHead(h: Text, t: Text)
    requires IsHead(h) && |h| == 1
    ensures ReadUnit(JsonString.EscapeHead(h) + t) == Some((h[0], |JsonString.EscapeHead(h)|))
  {
    var e := JsonString.EscapeHead(h);
    assert (e + t)[0] == e[0] && (|e| > 1 ==> (e + t)[1] == e[1]);
    if JsonString.ShortEscape(h[0]).None? && (h[0] < 0x20 || IsSurrogate(h[0])) {
      ReadsEscapedUnit(h[0], t);
    }
  }

  lemma {:induction false} EscapedReadsBack(s: Text, rest: Text)
    ensures ReadUnits(JsonString.Escape(s) + [0x22] + rest) == Some((s, rest))
  {
    hide ReadUnit, JsonString.EscapeHead;
    var all := JsonString.Escape(s) + [0x22] + rest;
    if |s| == 0 {
      assert all == [0x22] + rest && all[1..] == rest;
    } else {
      var h := Head(s);
      var later := JsonString.Escape(s[|h|..]) + [0x22] + rest;
      var e := JsonString.EscapeHead(h);
      assert all == e + later;
      EscapedReadsBack(s[|h|..], rest);
      assert s == h + s[|h|..];
      HeadReads(h, later, s[|h|..], rest);
    }
  }

  lemma HeadReads(h: Text, later: Text, s: Text, rest: Text)
    requires IsHead(h) && ReadUnits(later) == Some((s, rest))
    ensures ReadUnits(JsonString.EscapeHead(h) + later) == Some((h + s, rest))
  {
    var e := JsonString.EscapeHead(h);
    if |h| == 1 {
      ReadsHead(h, later);
      NotTheQuote(h);
      hide ReadUnit, JsonString.EscapeHead;
      assert (e + later)[|e|..] == later && (e + later)[0] == e[0];
      assert h + s == [h[0]] + s;
    } else {
      assert e == h && (h + later)[1..] == [h[1]] + later && ([h[1]] + later)[1..] == later;
      assert ReadUnits([h[1]] + later) == Some(([h[1]] + s, rest));
      assert h + s == [h[0]] + ([h[1]] + s);
    }
  }

  lemma NotTheQuote(h: Text)
    requires IsHead(h) && |h| == 1
    ensures JsonString.EscapeHead(h)[0] != 0x22
  {
  }

  /** A quoted string reads back, whatever follows it. */
  lemma QuotedReadsBack(s: Text, rest: Text)
    ensures ReadString(JsonString.Quote(s) + rest) == Some((s, rest))
  {
    EscapedReadsBack(s, rest);
    assert (JsonString.Quote(s) + rest)[1..] == JsonString.Escape(s) + [0x22] + rest;
  }
}
