/** What a cover letter may contain. */
module LetterConstraints {
  import opened JsText

  datatype Constraints = Constraints(noEmoji: bool, noMarkdown: bool, noSpecialChars: bool, maxChars: Option<nat>)
}

/**
 * Fitting a generated letter to its constraints. A letter is a sequence of code points;
 * lengths and positions are counted in UTF-16 units, as JavaScript does.
 */
module LetterSanitizer {
  import opened JsText
  import opened LetterConstraints

  type CodePoint = x: int | 0 <= x < 0x11_0000

  type Letter = seq<CodePoint>

  /** The Unicode properties the expressions ask for. */
  datatype Unicode = Unicode(letter: CodePoint -> bool, number: CodePoint -> bool, pictographic: CodePoint -> bool)

  const ELLIPSIS: CodePoint := 0x2026
  const PERIOD: CodePoint := 0x2E
  const SPACE: CodePoint := 0x20

  /** No lone surrogates. */
  predicate Scalar(t: Letter) {
    forall i :: 0 <= i < |t| ==> !(0xD800 <= t[i] < 0xE000)
  }

  // ----- Lengths in units -----

  function Width(c: CodePoint): (w: nat)
    ensures 1 <= w <= 2
  {
    if c < 0x1_0000 then 1 else 2
  }

  function Units(t: Letter): (n: nat)
    ensures n >= |t|
  {
    if |t| == 0 then 0 else Units(t[..|t| - 1]) + Width(t[|t| - 1])
  }

  lemma {:induction false} UnitsConcat(a: Letter, b: Letter)
    ensures Units(a + b) == Units(a) + Units(b)
  {
    if |b| == 0 {
      assert a + b == a;
    } else {
      assert (a + b)[..|a + b| - 1] == a + b[..|b| - 1];
      UnitsConcat(a, b[..|b| - 1]);
    }
  }

  /** The high half of a character outside the basic plane. */
  function HighHalf(c: CodePoint): (h: CodePoint)
    requires c >= 0x1_0000
    ensures 0xD800 <= h < 0xDC00
  {
    0xD800 + (c - 0x1_0000) / 0x400
  }

  /** `t.slice(0, n)`: a character that does not fit whole leaves its high half. */
  function Slice(t: Letter, n: nat): (r: Letter)
    ensures Units(r) == if Units(t) <= n then Units(t) else n
    ensures |r| <= |t| && forall i :: 0 <= i < |r| ==> r[i] == t[i] || 0xD800 <= r[i] < 0xE000
    ensures |r| > 0 ==> r[..|r| - 1] == t[..|r| - 1]
  {
    if Units(t) <= n then t
    else
      var short, last := t[..|t| - 1], t[|t| - 1];
      if Units(short) + 1 == n then
        assert (short + [HighHalf(last)])[..|short|] == short;
        short + [HighHalf(last)]
      else Slice(short, n)
  }

  // ----- The stages -----

  predicate IsEmoji(u: Unicode, c: CodePoint) {
    u.pictographic(c) || c == 0xFE0F || c == 0x200D
  }

  /** `*`, `_`, `~`, a backquote or `#`. */
  predicate IsMarkup(c: CodePoint) {
    c == 0x2A || c == 0x5F || c == 0x7E || c == 0x60 || c == 0x23
  }

  predicate IsLineEnd(c: CodePoint) {
    c == 0x0A || c == 0x0D || c == 0x2028 || c == 0x2029
  }

  /** `.,!?;:()"'/%@+=-` */
  predicate IsBasicPunctuation(c: CodePoint) {
    c == 0x2E || c == 0x2C || c == 0x21 || c == 0x3F || c == 0x3B || c == 0x3A || c == 0x28 || c == 0x29 ||
    c == 0x22 || c == 0x27 || c == 0x2F || c == 0x25 || c == 0x40 || c == 0x2B || c == 0x3D || c == 0x2D
  }

  /** Guillemets, the em dash and the numero sign besides the basic characters. */
  predicate IsAllowed(u: Unicode, c: CodePoint) {
    c == 0xAB || c == 0xBB || c == 0x2014 || c == 0x2116 ||
    u.letter(c) || u.number(c) || IsWhiteSpace(c) || IsBasicPunctuation(c)
  }

  /** Every character of `r` is one of `t`. */
  predicate From(r: Letter, t: Letter) {
    forall i :: 0 <= i < |r| ==> r[i] in t
  }

  function Keep(t: Letter, p: CodePoint -> bool): (r: Letter)
    ensures From(r, t) && forall i :: 0 <= i < |r| ==> p(r[i])
  {
    if |t| == 0 then [] else (if p(t[0]) then [t[0]] else []) + Keep(t[1..], p)
  }

  function IndexOf(t: Letter, c: CodePoint, start: nat): (i: Option<nat>)
    requires start <= |t|
    ensures i.Some? ==> start <= i.value < |t| && t[i.value] == c
    decreases |t| - start
  {
    if start == |t| then None else if t[start] == c then Some(start) else IndexOf(t, c, start + 1)
  }

  /** The positions of `]` and `)` of a link that starts here: the first `]`, a `(` right after it, the first `)` from there. */
  function LinkHere(t: Letter): (link: Option<(nat, nat)>)
    ensures link.Some? ==> 1 <= link.value.0 < link.value.1 < |t|
  {
    if |t| == 0 || t[0] != 0x5B then None
    else
      var close :- IndexOf(t, 0x5D, 1);
      if close + 1 >= |t| || t[close + 1] != 0x28 then None
      else
        var end :- IndexOf(t, 0x29, close + 2);
        Some((close, end))
  }

  /** Links become their texts. */
  function StripLinks(t: Letter): (r: Letter)
    ensures From(r, t)
  {
    if |t| == 0 then []
    else if LinkHere(t).Some? then
      var (close, end) := LinkHere(t).value;
      t[1..close] + StripLinks(t[end + 1..])
    else [t[0]] + StripLinks(t[1..])
  }

  /** A mark and the space after it go, at the start of a line. */
  function StripLineMarks(t: Letter, marks: set<CodePoint>, lineStart: bool): (r: Letter)
    ensures From(r, t)
  {
    if |t| == 0 then []
    else if lineStart && |t| > 1 && t[0] in marks && IsWhiteSpace(t[1]) then StripLineMarks(t[2..], marks, IsLineEnd(t[1]))
    else [t[0]] + StripLineMarks(t[1..], marks, IsLineEnd(t[0]))
  }

  function StripMarkdown(t: Letter): (r: Letter)
    ensures From(r, t) && forall i :: 0 <= i < |r| ==> !IsMarkup(r[i])
  {
    var unmarked := Keep(t, (c: CodePoint) => !IsMarkup(c));
    var unlinked := StripLinks(unmarked);
    StripLineMarks(StripLineMarks(unlinked, {0x2D, 0x2A, 0x2B}, true), {0x3E}, true)
  }

  /** Emoji, markdown and special characters removed, as far as the constraints ask. */
  function Strip(u: Unicode, t: Letter, c: Constraints): (r: Letter)
    ensures From(r, t)
  {
    var a := if c.noEmoji then Keep(t, (x: CodePoint) => !IsEmoji(u, x)) else t;
    var b := if c.noMarkdown then StripMarkdown(a) else a;
    if c.noSpecialChars then Keep(b, (x: CodePoint) => IsAllowed(u, x)) else b
  }

  function LastIndexOf(t: Letter, c: CodePoint): (i: Option<nat>)
    ensures i.Some? ==> i.value < |t| && t[i.value] == c
  {
    if |t| == 0 then None
    else if t[|t| - 1] == c then Some(|t| - 1)
    else LastIndexOf(t[..|t| - 1], c)
  }

  /** The last occurrence is further along than this share of the limit. */
  predicate LiesBeyond(t: Letter, i: Option<nat>, max: nat, share: real)
    requires i.Some? ==> i.value < |t|
  {
    i.Some? && Units(t[..i.value]) as real > max as real * share
  }

  function TooLong(t: Letter, c: Constraints): bool {
    c.maxChars.Some? && c.maxChars.value > 0 && Units(t) > c.maxChars.value
  }

  /** No sentence ends late enough: the text is cut and an ellipsis appended. */
  predicate HardCut(t: Letter, c: Constraints) {
    TooLong(t, c) &&
    var truncated := Slice(t, c.maxChars.value);
    !LiesBeyond(truncated, LastIndexOf(truncated, PERIOD), c.maxChars.value, 0.6)
  }

  /** A cut at a space that lies late enough. */
  function AtSpace(truncated: Letter, max: nat): Letter {
    var i := LastIndexOf(truncated, SPACE);
    if LiesBeyond(truncated, i, max, 0.8) then truncated[..i.value] else truncated
  }

  function Fit(t: Letter, c: Constraints): Letter {
    if !TooLong(t, c) then t
    else
      var truncated := Slice(t, c.maxChars.value);
      if HardCut(t, c) then AtSpace(truncated, c.maxChars.value) + [ELLIPSIS]
      else truncated[..LastIndexOf(truncated, PERIOD).value + 1]
  }

  function TrimStart(t: Letter): (r: Letter)
    ensures |r| <= |t| && r == t[|t| - |r|..] && (|r| > 0 ==> !IsWhiteSpace(r[0]))
  {
    if |t| > 0 && IsWhiteSpace(t[0]) then TrimStart(t[1..]) else t
  }

  function TrimEnd(t: Letter): (r: Letter)
    ensures |r| <= |t| && r == t[..|r|] && (|r| > 0 ==> !IsWhiteSpace(r[|r| - 1]))
  {
    if |t| > 0 && IsWhiteSpace(t[|t| - 1]) then TrimEnd(t[..|t| - 1]) else t
  }

  function Trim(t: Letter): (r: Letter)
    ensures From(r, t)
  {
    TrimEnd(TrimStart(t))
  }

  function Sanitize(u: Unicode, t: Letter, c: Constraints): Letter {
    Trim(Fit(Strip(u, t, c), c))
  }

  /** `applyConstraints`. */
  method ApplyConstraints(u: Unicode, text: Letter, constraints: Constraints) returns (result: Letter)
    ensures result == Sanitize(u, text, constraints)
  {
    hide Keep, StripMarkdown, Slice, LastIndexOf, Units, Trim;
    result := text;
    if constraints.noEmoji {
      result := Keep(result, (c: CodePoint) => !IsEmoji(u, c));
    }
    if constraints.noMarkdown {
      result := StripMarkdown(result);
    }
    if constraints.noSpecialChars {
      result := Keep(result, (c: CodePoint) => IsAllowed(u, c));
    }
    assert result == Strip(u, text, constraints);
    ghost var stripped := result;
    if constraints.maxChars.Some? && constraints.maxChars.value > 0 && Units(result) > constraints.maxChars.value {
      var maxChars := constraints.maxChars.value;
      var truncated := Slice(result, maxChars);
      var lastPeriod := LastIndexOf(truncated, PERIOD);
      if lastPeriod.Some? && Units(truncated[..lastPeriod.value]) as real > maxChars as real * 0.6 {
        result := truncated[..lastPeriod.value + 1];
      } else {
        var lastSpace := LastIndexOf(truncated, SPACE);
        if lastSpace.Some? && Units(truncated[..lastSpace.value]) as real > maxChars as real * 0.8 {
          result := truncated[..lastSpace.value] + [ELLIPSIS];
        } else {
          result := truncated + [ELLIPSIS];
        }
      }
    }
    assert result == Fit(stripped, constraints);
    result := Trim(result);
  }

  // ----- What the stages leave -----

  lemma StripLeaves(u: Unicode, t: Letter, c: Constraints)
    ensures var r := Strip(u, t, c);
      (Scalar(t) ==> Scalar(r)) &&
      forall i :: 0 <= i < |r| ==>
        (c.noEmoji ==> !IsEmoji(u, r[i])) && (c.noMarkdown ==> !IsMarkup(r[i])) && (c.noSpecialChars ==> IsAllowed(u, r[i]))
  {
    hide IsEmoji, IsMarkup, IsAllowed;
    var a := if c.noEmoji then Keep(t, (x: CodePoint) => !IsEmoji(u, x)) else t;
    var b := if c.noMarkdown then StripMarkdown(a) else a;
    assert From(b, a) && From(Strip(u, t, c), b);
  }

  // ----- What the stages keep -----

  lemma {:induction false} KeepAll(t: Letter, p: CodePoint -> bool)
    requires forall i :: 0 <= i < |t| ==> p(t[i])
    ensures Keep(t, p) == t
  {
    if |t| > 0 {
      KeepAll(t[1..], p);
    }
  }

  lemma {:induction false} FirstIndex(t: Letter, c: CodePoint, start: nat, i: nat)
    requires start <= i < |t| && t[i] == c && forall j :: start <= j < i ==> t[j] != c
    ensures IndexOf(t, c, start) == Some(i)
    decreases i - start
  {
    if start < i {
      FirstIndex(t, c, start + 1, i);
    }
  }

  /** A link gives way to its text, and only to that. */
  lemma LinkBecomesItsText(text: Letter, address: Letter, rest: Letter)
    requires 0x5D !in text && 0x29 !in address
    ensures StripLinks([0x5B] + text + [0x5D, 0x28] + address + [0x29] + rest) == text + StripLinks(rest)
  {
    var t := [0x5B] + text + [0x5D, 0x28] + address + [0x29] + rest;
    var close, end := 1 + |text|, 3 + |text| + |address|;
    assert t[1..close] == text && t[end + 1..] == rest && t[close + 2..end] == address;
    assert t[close + 1] == 0x28;
    FirstIndex(t, 0x5D, 1, close);
    FirstIndex(t, 0x29, close + 2, end);
  }

  lemma {:induction false} NoLinks(t: Letter)
    requires 0x5B !in t
    ensures StripLinks(t) == t
  {
    if |t| > 0 {
      NoLinks(t[1..]);
    }
  }

  /** One of the marks, with a space after it, begins a line here. */
  predicate LineMarkAt(t: Letter, marks: set<CodePoint>, lineStart: bool, i: nat) {
    i + 1 < |t| && (if i == 0 then lineStart else IsLineEnd(t[i - 1])) && t[i] in marks && IsWhiteSpace(t[i + 1])
  }

  lemma {:induction false} NoLineMarks(t: Letter, marks: set<CodePoint>, lineStart: bool)
    requires forall i: nat :: !LineMarkAt(t, marks, lineStart, i)
    ensures StripLineMarks(t, marks, lineStart) == t
  {
    if |t| > 0 {
      assert !LineMarkAt(t, marks, lineStart, 0);
      forall i: nat ensures !LineMarkAt(t[1..], marks, IsLineEnd(t[0]), i) {
        assert !LineMarkAt(t, marks, lineStart, i + 1);
      }
      NoLineMarks(t[1..], marks, IsLineEnd(t[0]));
    }
  }

  /** Nothing in the letter is against the constraints. */
  ghost predicate Acceptable(u: Unicode, t: Letter, c: Constraints) {
    (forall i :: 0 <= i < |t| ==>
      (c.noEmoji ==> !IsEmoji(u, t[i])) && (c.noMarkdown ==> !IsMarkup(t[i])) && (c.noSpecialChars ==> IsAllowed(u, t[i]))) &&
    (c.noMarkdown ==> 0x5B !in t) &&
    (c.noMarkdown ==> forall i: nat :: !LineMarkAt(t, {0x2D, 0x2A, 0x2B}, true, i)) &&
    (c.noMarkdown ==> forall i: nat :: !LineMarkAt(t, {0x3E}, true, i)) &&
    !TooLong(t, c)
  }

  /** An acceptable letter is kept as it is, but for white space around it. */
  lemma AcceptableIsKept(u: Unicode, t: Letter, c: Constraints)
    requires Acceptable(u, t, c)
    ensures Sanitize(u, t, c) == Trim(t)
  {
    hide IsEmoji, IsMarkup, IsAllowed, LineMarkAt, Trim;
    if c.noEmoji {
      KeepAll(t, (x: CodePoint) => !IsEmoji(u, x));
    }
    if c.noMarkdown {
      KeepAll(t, (x: CodePoint) => !IsMarkup(x));
      NoLinks(t);
      NoLineMarks(t, {0x2D, 0x2A, 0x2B}, true);
      NoLineMarks(t, {0x3E}, true);
    }
    if c.noSpecialChars {
      KeepAll(t, (x: CodePoint) => IsAllowed(u, x));
    }
  }

  lemma {:induction false} UnitsOfPrefix(t: Letter, n: nat)
    requires n <= |t|
    ensures Units(t[..n]) <= Units(t) && (n < |t| ==> Units(t[..n]) < Units(t))
  {
    UnitsConcat(t[..n], t[n..]);
    assert t == t[..n] + t[n..];
  }

  /** Up to a period, a cut text is a prefix of the text it was cut from. */
  lemma SentencePrefix(t: Letter, n: nat, k: nat)
    requires k < |Slice(t, n)| && Slice(t, n)[k] == PERIOD
    ensures k < |t| && Slice(t, n)[..k + 1] == t[..k + 1]
  {
    hide Slice;
    var r := Slice(t, n);
    forall i | 0 <= i <= k ensures r[i] == t[i] {
      if i < |r| - 1 {
        assert r[i] == r[..|r| - 1][i] == t[..|r| - 1][i];
      }
    }
  }

  lemma FitWithoutEllipsis(t: Letter, c: Constraints)
    requires !HardCut(t, c)
    ensures From(Fit(t, c), t) && !TooLong(Fit(t, c), c)
  {
    hide Slice, LastIndexOf, Units;
    if TooLong(t, c) {
      var truncated := Slice(t, c.maxChars.value);
      var k := LastIndexOf(truncated, PERIOD).value;
      SentencePrefix(t, c.maxChars.value, k);
      UnitsOfPrefix(truncated, k + 1);
    }
  }

  lemma {:induction false} TrimUnits(t: Letter)
    ensures Units(Trim(t)) <= Units(t)
  {
    hide TrimStart, TrimEnd, Units;
    var a := TrimStart(t);
    UnitsConcat(t[..|t| - |a|], a);
    assert t == t[..|t| - |a|] + a;
    UnitsOfPrefix(a, |TrimEnd(a)|);
  }

  lemma {:induction false} TrimStartBefore(x: Letter, last: CodePoint)
    requires !IsWhiteSpace(last)
    ensures TrimStart(x + [last]) == TrimStart(x) + [last]
  {
    if |x| > 0 && IsWhiteSpace(x[0]) {
      assert (x + [last])[1..] == x[1..] + [last];
      TrimStartBefore(x[1..], last);
    }
  }

  /** An ellipsis at the end stays there. */
  lemma TrimBeforeEllipsis(x: Letter)
    ensures Trim(x + [ELLIPSIS]) == TrimStart(x) + [ELLIPSIS]
  {
    TrimStartBefore(x, ELLIPSIS);
  }

  lemma SuffixUnits(x: Letter, r: Letter)
    requires |r| < |x| && r == x[|x| - |r|..]
    ensures Units(r) < Units(x)
  {
    hide Units;
    var prefix := x[..|x| - |r|];
    UnitsConcat(prefix, r);
    assert x == prefix + r;
    assert Units(prefix) >= |prefix|;
  }

  lemma TrimStartUnits(x: Letter)
    requires |x| > 0
    ensures Units(TrimStart(x)) <= Units(x) && (Units(TrimStart(x)) == Units(x) <==> !IsWhiteSpace(x[0]))
  {
    hide Units;
    var r := TrimStart(x);
    if IsWhiteSpace(x[0]) {
      assert r == TrimStart(x[1..]);
      SuffixUnits(x, r);
    }
  }

  lemma NoUnits()
    ensures Units([]) == 0
  {
  }

  /** The length of a hard cut, and when it is over the limit. */
  lemma HardCutLength(t: Letter, c: Constraints)
    requires HardCut(t, c)
    ensures var max := c.maxChars.value; var truncated := Slice(t, max); var r := Trim(Fit(t, c));
      |truncated| > 0 && |r| > 0 && r[|r| - 1] == ELLIPSIS && Units(r) <= max + 1 &&
      (Units(r) > max <==> !LiesBeyond(truncated, LastIndexOf(truncated, SPACE), max, 0.8) && !IsWhiteSpace(truncated[0]))
  {
    hide Slice, LastIndexOf, Units, TrimStart, TrimEnd;
    var max := c.maxChars.value;
    var truncated := Slice(t, max);
    NoUnits();
    assert truncated != [];
    var kept := AtSpace(truncated, max);
    TrimBeforeEllipsis(kept);
    UnitsConcat(TrimStart(kept), [ELLIPSIS]);
    EllipsisIsOneUnit();
    if LiesBeyond(truncated, LastIndexOf(truncated, SPACE), max, 0.8) {
      UnitsOfPrefix(truncated, |kept|);
      UnitsOfTrimStart(kept);
    } else {
      TrimStartUnits(truncated);
    }
  }

  lemma EllipsisIsOneUnit()
    ensures Units([ELLIPSIS]) == 1
  {
    assert [ELLIPSIS][..0] == [];
  }

  lemma UnitsOfTrimStart(x: Letter)
    ensures Units(TrimStart(x)) <= Units(x)
  {
    if |x| > 0 {
      TrimStartUnits(x);
    }
  }

  /** The fitted text is at most one unit over the limit, and only after a hard cut. */
  lemma SanitizedFits(u: Unicode, t: Letter, c: Constraints)
    requires c.maxChars.Some? && c.maxChars.value > 0
    ensures Units(Sanitize(u, t, c)) <= c.maxChars.value + 1
    ensures !HardCut(Strip(u, t, c), c) ==> Units(Sanitize(u, t, c)) <= c.maxChars.value
  {
    hide Strip, HardCut, Fit, Trim, Units, Slice, LastIndexOf;
    var s := Strip(u, t, c);
    if HardCut(s, c) {
      HardCutLength(s, c);
    } else {
      FitWithoutEllipsis(s, c);
      TrimUnits(Fit(s, c));
    }
  }
}

/** Checking a letter against its constraints. */
module LetterValidation {
  import opened JsText
  import opened LetterConstraints
  import opened LetterSanitizer

  datatype Blocker = Empty | OverLimit | HasEmoji | HasMarkdown | HasSpecialChars

  /** The character that covers a position in units. */
  function CharAt(t: Letter, position: nat): (i: nat)
    requires position <= Units(t)
    ensures i <= |t| && Units(t[..i]) <= position && (i < |t| ==> position < Units(t[..i + 1]))
  {
    if position == Units(t) then
      assert t[..|t|] == t;
      |t|
    else
      var short := t[..|t| - 1];
      if position >= Units(short) then
        assert t[..|t| - 1 + 1] == t;
        |t| - 1
      else
        var i := CharAt(short, position);
        assert short[..i] == t[..i] && (i < |short| ==> short[..i + 1] == t[..i + 1]);
        i
  }

  /** The first emoji from a character on. */
  function EmojiFrom(u: Unicode, t: Letter, start: nat): (i: Option<nat>)
    requires start <= |t|
    ensures i.Some? ==> start <= i.value < |t| && IsEmoji(u, t[i.value])
    ensures i.Some? ==> forall j :: start <= j < i.value ==> !IsEmoji(u, t[j])
    ensures i.None? ==> forall j :: start <= j < |t| ==> !IsEmoji(u, t[j])
    decreases |t| - start
  {
    if start == |t| then None else if IsEmoji(u, t[start]) then Some(start) else EmojiFrom(u, t, start + 1)
  }

  /** One test of a global expression: whether it matches from `lastIndex` on, and the new `lastIndex`. */
  function TestEmoji(u: Unicode, t: Letter, lastIndex: nat): (bool, nat) {
    if lastIndex > Units(t) then (false, 0)
    else
      var found := EmojiFrom(u, t, CharAt(t, lastIndex));
      if found.Some? then (true, Units(t[..found.value + 1])) else (false, 0)
  }

  predicate HasMarkup(t: Letter) {
    exists i :: 0 <= i < |t| && IsMarkup(t[i])
  }

  predicate HasDisallowed(u: Unicode, t: Letter) {
    exists i :: 0 <= i < |t| && !IsAllowed(u, t[i])
  }

  /** The blocker, if the condition holds. */
  function When(condition: bool, b: Blocker): seq<Blocker> {
    if condition then [b] else []
  }

  function Blockers(u: Unicode, t: Letter, c: Constraints, lastIndex: nat): seq<Blocker> {
    if |Trim(t)| == 0 then [Empty]
    else
      When(TooLong(t, c), OverLimit) +
      When(c.noEmoji && TestEmoji(u, t, lastIndex).0, HasEmoji) +
      When(c.noMarkdown && HasMarkup(t), HasMarkdown) +
      When(c.noSpecialChars && HasDisallowed(u, t), HasSpecialChars)
  }

  /** The module's emoji expression is global: it remembers where its last match ended. */
  class Validator {
    var lastIndex: nat

    constructor ()
      ensures lastIndex == 0
    {
      lastIndex := 0;
    }

    method ValidateCoverLetter(u: Unicode, text: Letter, constraints: Constraints) returns (blockers: seq<Blocker>)
      modifies this
      ensures blockers == Blockers(u, text, constraints, old(lastIndex))
      ensures lastIndex == if |Trim(text)| == 0 || !constraints.noEmoji then old(lastIndex)
                           else TestEmoji(u, text, old(lastIndex)).1
    {
      hide Trim, Units, TestEmoji, HasMarkup, HasDisallowed;
      blockers := [];
      var trimmed := Trim(text);
      if |trimmed| == 0 {
        return [Empty];
      }
      if constraints.maxChars.Some? && constraints.maxChars.value > 0 && Units(text) > constraints.maxChars.value {
        blockers := blockers + [OverLimit];
      }
      assert blockers == When(TooLong(text, constraints), OverLimit);
      if constraints.noEmoji {
        var (matched, next) := TestEmoji(u, text, lastIndex);
        lastIndex := next;
        if matched {
          blockers := blockers + [HasEmoji];
        }
      }
      ghost var emoji := When(constraints.noEmoji && TestEmoji(u, text, old(lastIndex)).0, HasEmoji);
      assert blockers == When(TooLong(text, constraints), OverLimit) + emoji;
      if constraints.noMarkdown && HasMarkup(text) {
        blockers := blockers + [HasMarkdown];
      }
      if constraints.noSpecialChars && HasDisallowed(u, text) {
        blockers := blockers + [HasSpecialChars];
      }
    }
  }

  /** Facts of the Unicode database: neither the ellipsis nor a surrogate is a letter, a number or a pictograph. */
  ghost predicate Sensible(u: Unicode) {
    forall c: CodePoint :: c == ELLIPSIS || 0xD800 <= c < 0xE000 ==> !u.letter(c) && !u.number(c) && !u.pictographic(c)
  }

  // ----- Sanitized letters -----

  /** What is left of a letter once it is fitted and trimmed. */
  lemma FittedCharacters(t: Letter, c: Constraints)
    ensures var r := Trim(Fit(t, c));
      if HardCut(t, c) then forall i :: 0 <= i < |r| ==> r[i] in t || r[i] == ELLIPSIS || 0xD800 <= r[i] < 0xE000
      else From(r, t)
  {
    hide Slice, LastIndexOf, Trim, Units;
    var fitted := Fit(t, c);
    assert From(Trim(fitted), fitted);
    if HardCut(t, c) {
      var truncated := Slice(t, c.maxChars.value);
      forall i | 0 <= i < |fitted| ensures fitted[i] in t || fitted[i] == ELLIPSIS || 0xD800 <= fitted[i] < 0xE000 {
        if i < |fitted| - 1 {
          assert fitted[i] == truncated[i];
        }
      }
    } else {
      FitWithoutEllipsis(t, c);
    }
  }

  lemma {:induction false} TrimTwice(t: Letter)
    ensures Trim(Trim(t)) == Trim(t)
  {
    var a := TrimStart(t);
    var r := TrimEnd(a);
    if |r| > 0 {
      assert r[0] == a[0];
    }
  }

  /** With no emoji in it, no test of the global expression matches, wherever it starts. */
  lemma NoEmojiNoMatch(u: Unicode, t: Letter, lastIndex: nat)
    requires forall i :: 0 <= i < |t| ==> !IsEmoji(u, t[i])
    ensures !TestEmoji(u, t, lastIndex).0
  {
    hide IsEmoji;
  }

  /** Nothing the constraints forbid is left, except what a hard cut brings: an ellipsis or half a character. */
  lemma SanitizedCharacters(u: Unicode, t: Letter, c: Constraints, i: nat)
    requires Sensible(u) && Scalar(t) && i < |Sanitize(u, t, c)|
    ensures var x := Sanitize(u, t, c)[i];
      (c.noEmoji ==> !IsEmoji(u, x)) && (c.noMarkdown ==> !IsMarkup(x)) &&
      (c.noSpecialChars && !HardCut(Strip(u, t, c), c) ==> IsAllowed(u, x))
  {
    hide Strip, Fit, HardCut, Trim, IsAllowed;
    StripLeaves(u, t, c);
    FittedCharacters(Strip(u, t, c), c);
  }

  /** The blockers of a text without forbidden emoji and markup. */
  lemma CleanBlockers(u: Unicode, t: Letter, c: Constraints, lastIndex: nat)
    requires forall i :: 0 <= i < |t| ==> (c.noEmoji ==> !IsEmoji(u, t[i])) && (c.noMarkdown ==> !IsMarkup(t[i]))
    ensures Blockers(u, t, c, lastIndex) ==
      if |Trim(t)| == 0 then [Empty]
      else When(TooLong(t, c), OverLimit) + When(c.noSpecialChars && HasDisallowed(u, t), HasSpecialChars)
  {
    hide IsEmoji, IsMarkup, HasDisallowed, TooLong, Trim, TestEmoji;
    if c.noEmoji {
      NoEmojiNoMatch(u, t, lastIndex);
    }
  }

  /**
   * A sanitized letter never has an emoji or markdown blocker. Without an ellipsis it
   * can only be empty. After a hard cut it is not empty, the ellipsis itself is a
   * forbidden special character, and it makes the letter too long exactly when there
   * was no late space to cut at and nothing to trim in front.
   */
  lemma SanitizedBlockers(u: Unicode, t: Letter, c: Constraints, lastIndex: nat)
    requires Sensible(u) && Scalar(t)
    ensures var s := Strip(u, t, c); var found := Blockers(u, Sanitize(u, t, c), c, lastIndex);
      HasEmoji !in found && HasMarkdown !in found &&
      (!HardCut(s, c) ==> found == if |Sanitize(u, t, c)| == 0 then [Empty] else []) &&
      (HardCut(s, c) ==>
        Empty !in found &&
        (HasSpecialChars in found <==> c.noSpecialChars) &&
        (OverLimit in found <==>
          var truncated := Slice(s, c.maxChars.value);
          !LiesBeyond(truncated, LastIndexOf(truncated, SPACE), c.maxChars.value, 0.8) &&
          |truncated| > 0 && !IsWhiteSpace(truncated[0])))
  {
    hide Blockers, Strip, Fit, HardCut, Trim, Slice, LastIndexOf, Units, IsEmoji, IsAllowed, IsMarkup, LiesBeyond;
    var s := Strip(u, t, c);
    var r := Sanitize(u, t, c);
    forall i | 0 <= i < |r|
      ensures (c.noEmoji ==> !IsEmoji(u, r[i])) && (c.noMarkdown ==> !IsMarkup(r[i])) &&
        (c.noSpecialChars && !HardCut(s, c) ==> IsAllowed(u, r[i]))
    {
      SanitizedCharacters(u, t, c, i);
    }
    CleanBlockers(u, r, c, lastIndex);
    TrimTwice(Fit(s, c));
    if HardCut(s, c) {
      CutHasLimit(s, c);
      HardCutLength(s, c);
      EllipsisIsDisallowed(u);
    } else {
      FitWithoutEllipsis(s, c);
      TrimUnits(Fit(s, c));
    }
  }

  lemma CutHasLimit(t: Letter, c: Constraints)
    requires HardCut(t, c)
    ensures c.maxChars.Some? && c.maxChars.value > 0
  {
  }

  lemma EllipsisIsDisallowed(u: Unicode)
    requires Sensible(u)
    ensures !IsAllowed(u, ELLIPSIS)
  {
  }

  lemma StartsAtZero(t: Letter)
    ensures CharAt(t, 0) == 0
  {
    var i := CharAt(t, 0);
    assert Units(t[..i]) >= |t[..i]|;
  }

  lemma PrefixUnitsGrow(t: Letter, m: nat, n: nat)
    requires m <= n <= |t|
    ensures Units(t[..m]) <= Units(t[..n]) && (m < n ==> Units(t[..m]) < Units(t[..n]))
  {
    hide Units;
    UnitsOfPrefix(t[..n], m);
    assert t[..n][..m] == t[..m];
  }

  predicate HasEmojiFrom(u: Unicode, t: Letter, start: nat) {
    exists i :: start <= i < |t| && IsEmoji(u, t[i])
  }

  /**
   * The check from a remembered position says whether the letter has an emoji exactly if
   * it has none, or one lies at or after that position. A check that matches nothing
   * forgets the position.
   */
  lemma LookIsExactFrom(u: Unicode, t: Letter, lastIndex: nat)
    ensures (TestEmoji(u, t, lastIndex).0 <==> HasEmojiFrom(u, t, 0)) <==>
      !HasEmojiFrom(u, t, 0) || (lastIndex <= Units(t) && HasEmojiFrom(u, t, CharAt(t, lastIndex)))
    ensures !TestEmoji(u, t, lastIndex).0 ==> TestEmoji(u, t, lastIndex).1 == 0
  {
    hide IsEmoji, Units;
    if lastIndex <= Units(t) && HasEmojiFrom(u, t, CharAt(t, lastIndex)) {
      var i :| CharAt(t, lastIndex) <= i < |t| && IsEmoji(u, t[i]);
      assert HasEmojiFrom(u, t, 0);
    }
  }

  /** From a fresh expression, and so after a check that matched nothing, the check is exact. */
  lemma FirstLookIsExact(u: Unicode, t: Letter)
    ensures TestEmoji(u, t, 0).0 <==> HasEmojiFrom(u, t, 0)
  {
    hide IsEmoji, Units;
    StartsAtZero(t);
  }

  /** The character that begins where a prefix ends. */
  lemma CharAtPrefix(t: Letter, k: nat)
    requires k <= |t|
    ensures Units(t[..k]) <= Units(t) && CharAt(t, Units(t[..k])) == k
  {
    hide Units;
    UnitsOfPrefix(t, k);
    var i := CharAt(t, Units(t[..k]));
    if i < k {
      PrefixUnitsGrow(t, i + 1, k);
    } else if k < i {
      PrefixUnitsGrow(t, k, i);
    }
  }

  /**
   * A letter whose emoji was just reported is reported again exactly if it has another
   * one: with a single emoji, the second look misses it.
   */
  lemma SecondLookMissesTheOnlyEmoji(u: Unicode, t: Letter)
    requires TestEmoji(u, t, 0).0
    ensures TestEmoji(u, t, TestEmoji(u, t, 0).1).0 <==>
      exists i, j :: 0 <= i < j < |t| && IsEmoji(u, t[i]) && IsEmoji(u, t[j])
  {
    hide IsEmoji, Units;
    StartsAtZero(t);
    var k := EmojiFrom(u, t, 0).value;
    CharAtPrefix(t, k + 1);
    if TestEmoji(u, t, Units(t[..k + 1])).0 {
      assert IsEmoji(u, t[k]);
    }
  }

  // ----- A letter that is too long after all -----

  /** So many `a`. */
  function Letters(n: nat): (t: Letter)
    ensures |t| == n && forall i :: 0 <= i < n ==> t[i] == 0x61
  {
    seq(n, i => 0x61)
  }

  lemma {:induction false} OneUnitEach(t: Letter)
    requires forall i :: 0 <= i < |t| ==> t[i] == 0x61
    ensures Units(t) == |t| && LastIndexOf(t, PERIOD) == None && LastIndexOf(t, SPACE) == None
  {
    if |t| > 0 {
      OneUnitEach(t[..|t| - 1]);
    }
  }

  lemma OneLetterLess(max: nat)
    ensures Slice(Letters(max + 1), max) == Letters(max)
  {
    var t := Letters(max + 1);
    assert t[..max] == Letters(max);
    OneUnitEach(t);
    OneUnitEach(t[..max]);
  }

  /** One letter more than the limit, without a space or a period, is cut to one unit more than the limit. */
  lemma HardCutOverTheLimit(u: Unicode, max: nat, lastIndex: nat)
    requires Sensible(u) && max > 0
    ensures var c := Constraints(false, false, false, Some(max)); var t := Letters(max + 1);
      Units(Sanitize(u, t, c)) == max + 1 && OverLimit in Blockers(u, Sanitize(u, t, c), c, lastIndex)
  {
    hide Units, Slice, LastIndexOf, Trim, Blockers;
    var c := Constraints(false, false, false, Some(max));
    var t := Letters(max + 1);
    OneLetterLess(max);
    OneUnitEach(t);
    OneUnitEach(Letters(max));
    assert Strip(u, t, c) == t && HardCut(t, c);
    assert !IsWhiteSpace(Letters(max)[0]);
    HardCutLength(t, c);
    SanitizedBlockers(u, t, c, lastIndex);
  }
}
