/**
 * Exactly what fitting a letter removes: which characters, links, line marks and blanks,
 * and where a letter that is too long is cut.
 */
module LetterExact {
  import opened JsText
  import opened LetterConstraints
  import opened LetterSanitizer
  import opened LetterValidation

  // ----- Selections -----

  /** Positions of a text, in order. */
  predicate Positions(t: Letter, q: seq<nat>) {
    (forall i :: 0 <= i < |q| ==> q[i] < |t|) && forall i, j :: 0 <= i < j < |q| ==> q[i] < q[j]
  }

  /** The characters at these positions. */
  function Pick(t: Letter, q: seq<nat>): (r: Letter)
    requires Positions(t, q)
    ensures |r| == |q| && forall i :: 0 <= i < |q| ==> r[i] == t[q[i]]
  {
    seq(|q|, i requires 0 <= i < |q| => t[q[i]])
  }

  function Shift(q: seq<nat>, n: nat): (r: seq<nat>)
    ensures |r| == |q| && forall i :: 0 <= i < |q| ==> r[i] == q[i] + n
  {
    seq(|q|, i requires 0 <= i < |q| => q[i] + n)
  }

  lemma InShift(q: seq<nat>, n: nat, k: nat)
    ensures k in Shift(q, n) <==> k >= n && k - n in q
  {
    if k >= n && k - n in q {
      var i :| 0 <= i < |q| && q[i] == k - n;
      assert Shift(q, n)[i] == k;
    }
  }

  lemma PickShifted(t: Letter, n: nat, q: seq<nat>)
    requires n <= |t| && Positions(t[n..], q)
    ensures Positions(t, Shift(q, n)) && Pick(t, Shift(q, n)) == Pick(t[n..], q)
  {
  }

  lemma PickFirst(t: Letter, q: seq<nat>)
    requires |t| > 0 && Positions(t[1..], q)
    ensures Positions(t, [0] + Shift(q, 1)) && Pick(t, [0] + Shift(q, 1)) == [t[0]] + Pick(t[1..], q)
  {
  }

  lemma InFirst(q: seq<nat>, k: nat)
    ensures k in [0] + Shift(q, 1) <==> k == 0 || k - 1 in q
  {
    InShift(q, 1, k);
  }

  // ----- Characters -----

  /** A filter selects every position it is meant to keep, and no other. */
  lemma {:induction false} KeepSelects(t: Letter, p: CodePoint -> bool) returns (q: seq<nat>)
    ensures Positions(t, q) && Keep(t, p) == Pick(t, q)
    ensures forall k: nat :: k < |t| ==> (k in q <==> p(t[k]))
  {
    if |t| == 0 {
      return [];
    }
    var rest := KeepSelects(t[1..], p);
    if p(t[0]) {
      q := [0] + Shift(rest, 1);
      PickFirst(t, rest);
      forall k: nat | k < |t| ensures k in q <==> p(t[k]) {
        InFirst(rest, k);
        assert k > 0 ==> t[1..][k - 1] == t[k];
      }
    } else {
      q := Shift(rest, 1);
      PickShifted(t, 1, rest);
      forall k: nat | k < |t| ensures k in q <==> p(t[k]) {
        InShift(rest, 1, k);
        assert k > 0 ==> t[1..][k - 1] == t[k];
      }
    }
  }

  lemma {:induction false} KeepBoth(t: Letter, p: CodePoint -> bool, p': CodePoint -> bool, both: CodePoint -> bool)
    requires forall c: CodePoint :: both(c) <==> p(c) && p'(c)
    ensures Keep(Keep(t, p), p') == Keep(t, both)
  {
    if |t| > 0 {
      KeepBoth(t[1..], p, p', both);
      var rest := Keep(t[1..], p);
      if p(t[0]) {
        assert Keep(t, p) == [t[0]] + rest;
        assert ([t[0]] + rest)[1..] == rest;
      } else {
        assert Keep(t, p) == rest;
      }
    }
  }

  predicate Permitted(u: Unicode, c: Constraints, x: CodePoint) {
    (c.noEmoji ==> !IsEmoji(u, x)) && (c.noSpecialChars ==> IsAllowed(u, x))
  }

  lemma StripIsFilter(u: Unicode, t: Letter, c: Constraints)
    requires !c.noMarkdown
    ensures Strip(u, t, c) == Keep(t, (x: CodePoint) => Permitted(u, c, x))
  {
    hide Keep, IsEmoji, IsAllowed;
    var all := (x: CodePoint) => Permitted(u, c, x);
    if c.noEmoji && c.noSpecialChars {
      KeepBoth(t, (x: CodePoint) => !IsEmoji(u, x), (x: CodePoint) => IsAllowed(u, x), all);
    } else if c.noEmoji {
      SameFilter(t, (x: CodePoint) => !IsEmoji(u, x), all);
    } else if c.noSpecialChars {
      SameFilter(t, (x: CodePoint) => IsAllowed(u, x), all);
    } else {
      KeepAll(t, all);
    }
  }

  lemma {:induction false} SameFilter(t: Letter, p: CodePoint -> bool, p': CodePoint -> bool)
    requires forall c: CodePoint :: p(c) <==> p'(c)
    ensures Keep(t, p) == Keep(t, p')
  {
    if |t| > 0 {
      SameFilter(t[1..], p, p');
    }
  }

  /** Without `noMarkdown`, just the forbidden characters go, wherever they stand, before the letter is fitted and trimmed. */
  lemma JustForbiddenCharactersGo(u: Unicode, t: Letter, c: Constraints) returns (q: seq<nat>)
    requires !c.noMarkdown
    ensures Positions(t, q)
    ensures forall k: nat :: k < |t| ==>
      (k in q <==> (c.noEmoji ==> !IsEmoji(u, t[k])) && (c.noSpecialChars ==> IsAllowed(u, t[k])))
    ensures Sanitize(u, t, c) == Trim(Fit(Pick(t, q), c))
    ensures c.maxChars == None || c.maxChars == Some(0) ==> Sanitize(u, t, c) == Trim(Pick(t, q))
  {
    hide Keep, Strip, Trim, IsEmoji, IsAllowed;
    StripIsFilter(u, t, c);
    q := KeepSelects(t, (x: CodePoint) => Permitted(u, c, x));
  }

  // ----- Markdown -----

  /** A line mark stands here, or just before: this is the mark or the blank after it. */
  predicate InLineMark(t: Letter, marks: set<CodePoint>, lineStart: bool, k: nat) {
    LineMarkAt(t, marks, lineStart, k) || (k > 0 && LineMarkAt(t, marks, lineStart, k - 1))
  }

  /** Line marks go, each with the blank after it, and nothing else does. */
  lemma {:induction false} LineMarksSelect(t: Letter, marks: set<CodePoint>, lineStart: bool) returns (q: seq<nat>)
    requires forall c :: c in marks ==> !IsWhiteSpace(c)
    ensures Positions(t, q) && StripLineMarks(t, marks, lineStart) == Pick(t, q)
    ensures forall k: nat :: k < |t| ==> (k in q <==> !InLineMark(t, marks, lineStart, k))
  {
    hide InLineMark, Pick, Positions;
    if |t| == 0 {
      q := [];
      NoPositions(t);
    } else if lineStart && |t| > 1 && t[0] in marks && IsWhiteSpace(t[1]) {
      var rest := LineMarksSelect(t[2..], marks, IsLineEnd(t[1]));
      q := Shift(rest, 2);
      PickShifted(t, 2, rest);
      forall k: nat | k < |t| ensures k in q <==> !InLineMark(t, marks, lineStart, k) {
        InShift(rest, 2, k);
        MarkAtStart(t, marks, lineStart, k);
        if k >= 2 {
          MarkInRest(t, marks, lineStart, 2, k);
        }
      }
    } else {
      var rest := LineMarksSelect(t[1..], marks, IsLineEnd(t[0]));
      q := [0] + Shift(rest, 1);
      PickFirst(t, rest);
      forall k: nat | k < |t| ensures k in q <==> !InLineMark(t, marks, lineStart, k) {
        InFirst(rest, k);
        if k >= 1 {
          MarkInRest(t, marks, lineStart, 1, k);
        } else {
          NoMarkAtStart(t, marks, lineStart);
        }
      }
    }
  }

  lemma NoPositions(t: Letter)
    requires |t| == 0
    ensures Positions(t, []) && Pick(t, []) == []
  {
  }

  lemma MarkAtStart(t: Letter, marks: set<CodePoint>, lineStart: bool, k: nat)
    requires lineStart && |t| > 1 && t[0] in marks && IsWhiteSpace(t[1])
    requires forall c :: c in marks ==> !IsWhiteSpace(c)
    ensures !LineMarkAt(t, marks, lineStart, 1) && (k < 2 ==> InLineMark(t, marks, lineStart, k))
  {
  }

  lemma NoMarkAtStart(t: Letter, marks: set<CodePoint>, lineStart: bool)
    requires |t| > 0 && !(lineStart && |t| > 1 && t[0] in marks && IsWhiteSpace(t[1]))
    ensures !InLineMark(t, marks, lineStart, 0) && !LineMarkAt(t, marks, lineStart, 0)
  {
  }

  lemma MarkInRest(t: Letter, marks: set<CodePoint>, lineStart: bool, n: nat, k: nat)
    requires 0 < n <= k < |t| && !LineMarkAt(t, marks, lineStart, n - 1)
    ensures InLineMark(t, marks, lineStart, k) <==> InLineMark(t[n..], marks, IsLineEnd(t[n - 1]), k - n)
  {
  }

  /** `]`, `(` and the next `)` of a link that begins with these positions after its `[`. */
  predicate IsLink(rest: Letter, close: nat, end: nat) {
    close + 1 < end < |rest| && rest[close] == 0x5D && rest[close + 1] == 0x28 && rest[end] == 0x29 &&
    0x5D !in rest[..close] && 0x29 !in rest[close + 2..end]
  }

  lemma {:induction false} IndexIsFirst(t: Letter, c: CodePoint, start: nat)
    requires start <= |t|
    ensures match IndexOf(t, c, start)
      case Some(i) => c !in t[start..i]
      case None => c !in t[start..]
    decreases |t| - start
  {
    if start < |t| && t[start] != c {
      IndexIsFirst(t, c, start + 1);
      var i := IndexOf(t, c, start);
      if i.Some? {
        assert t[start..i.value] == [t[start]] + t[start + 1..i.value];
      } else {
        assert t[start..] == [t[start]] + t[start + 1..];
      }
    }
  }

  /** Links are read from the left. Other text stays. */
  lemma TextBeforeLinksStays(t: Letter)
    requires |t| > 0 && t[0] != 0x5B
    ensures StripLinks(t) == [t[0]] + StripLinks(t[1..])
  {
  }

  /** A link gives way to its text. */
  lemma LinkGivesWay(t: Letter, close: nat, end: nat)
    requires |t| > 0 && t[0] == 0x5B && IsLink(t[1..], close, end)
    ensures StripLinks(t) == t[1..close + 1] + StripLinks(t[end + 2..])
  {
    hide LinkHere, IsLink;
    LinkIsFound(t, close, end);
    EndOfLink(t[1..], close, end);
  }

  lemma EndOfLink(rest: Letter, close: nat, end: nat)
    requires IsLink(rest, close, end)
    ensures close < end < |rest|
  {
  }

  /** A bracket that begins no link stays. */
  lemma BracketWithoutLinkStays(t: Letter)
    requires |t| > 0 && t[0] == 0x5B && forall close: nat, end: nat :: !IsLink(t[1..], close, end)
    ensures StripLinks(t) == [t[0]] + StripLinks(t[1..])
  {
    hide LinkHere, IsLink;
    if LinkHere(t).Some? {
      FoundIsLink(t, LinkHere(t).value.0, LinkHere(t).value.1);
    }
  }

  lemma LinkIsFound(t: Letter, close: nat, end: nat)
    requires |t| > 0 && t[0] == 0x5B && IsLink(t[1..], close, end)
    ensures LinkHere(t) == Some((close + 1, end + 1))
  {
    var rest := t[1..];
    forall j | 1 <= j < close + 1 ensures t[j] != 0x5D {
      assert rest[..close][j - 1] == t[j];
    }
    FirstIndex(t, 0x5D, 1, close + 1);
    forall j | close + 3 <= j < end + 1 ensures t[j] != 0x29 {
      assert rest[close + 2..end][j - close - 3] == t[j];
    }
    FirstIndex(t, 0x29, close + 3, end + 1);
  }

  lemma FoundIsLink(t: Letter, close: nat, end: nat)
    requires LinkHere(t) == Some((close, end))
    ensures |t| > 0 && 1 <= close < end && IsLink(t[1..], close - 1, end - 1)
  {
    IndexIsFirst(t, 0x5D, 1);
    IndexIsFirst(t, 0x29, close + 2);
    var rest := t[1..];
    assert rest[..close - 1] == t[1..close];
    assert rest[close + 1..end - 1] == t[close + 2..end];
  }

  /**
   * With `noMarkdown`, just the emoji and markup characters go first, then links give way
   * to their texts, then just the line marks go, then just the characters not allowed.
   */
  lemma JustMarkdownGoes(u: Unicode, t: Letter, c: Constraints)
    returns (plain: seq<nat>, lists: seq<nat>, quotes: seq<nat>, allowed: seq<nat>)
    requires c.noMarkdown
    ensures Positions(t, plain)
    ensures forall k: nat :: k < |t| ==> (k in plain <==> (c.noEmoji ==> !IsEmoji(u, t[k])) && !IsMarkup(t[k]))
    ensures var unlinked := StripLinks(Pick(t, plain));
      Positions(unlinked, lists) &&
      (forall k: nat :: k < |unlinked| ==> (k in lists <==> !InLineMark(unlinked, {0x2D, 0x2A, 0x2B}, true, k))) &&
      var unlisted := Pick(unlinked, lists);
      Positions(unlisted, quotes) &&
      (forall k: nat :: k < |unlisted| ==> (k in quotes <==> !InLineMark(unlisted, {0x3E}, true, k))) &&
      var unquoted := Pick(unlisted, quotes);
      Positions(unquoted, allowed) &&
      (forall k: nat :: k < |unquoted| ==> (k in allowed <==> (c.noSpecialChars ==> IsAllowed(u, unquoted[k])))) &&
      Sanitize(u, t, c) == Trim(Fit(Pick(unquoted, allowed), c))
  {
    hide Keep, Trim, IsEmoji, IsMarkup, IsAllowed, StripLinks, StripLineMarks, InLineMark, Fit, Pick, Positions;
    plain := PlainSelects(u, t, c);
    var unlinked := StripLinks(Pick(t, plain));
    lists := LineMarksSelect(unlinked, {0x2D, 0x2A, 0x2B}, true);
    var unlisted := Pick(unlinked, lists);
    quotes := LineMarksSelect(unlisted, {0x3E}, true);
    var unquoted := Pick(unlisted, quotes);
    assert StripMarkdown(if c.noEmoji then Keep(t, (x: CodePoint) => !IsEmoji(u, x)) else t) == unquoted;
    if c.noSpecialChars {
      allowed := KeepSelects(unquoted, (x: CodePoint) => IsAllowed(u, x));
    } else {
      allowed := KeepSelects(unquoted, (x: CodePoint) => true);
      KeepAll(unquoted, (x: CodePoint) => true);
    }
  }

  lemma PlainSelects(u: Unicode, t: Letter, c: Constraints) returns (q: seq<nat>)
    ensures Positions(t, q)
    ensures forall k: nat :: k < |t| ==> (k in q <==> (c.noEmoji ==> !IsEmoji(u, t[k])) && !IsMarkup(t[k]))
    ensures var a := if c.noEmoji then Keep(t, (x: CodePoint) => !IsEmoji(u, x)) else t;
      Keep(a, (x: CodePoint) => !IsMarkup(x)) == Pick(t, q)
  {
    hide Keep, IsEmoji, IsMarkup;
    var both := (x: CodePoint) => (c.noEmoji ==> !IsEmoji(u, x)) && !IsMarkup(x);
    q := KeepSelects(t, both);
    if c.noEmoji {
      KeepBoth(t, (x: CodePoint) => !IsEmoji(u, x), (x: CodePoint) => !IsMarkup(x), both);
    } else {
      SameFilter(t, (x: CodePoint) => !IsMarkup(x), both);
    }
  }

  // ----- Trimming -----

  lemma {:induction false} TrimStartExactly(t: Letter)
    ensures forall i :: 0 <= i < |t| - |TrimStart(t)| ==> IsWhiteSpace(t[i])
  {
    if |t| > 0 && IsWhiteSpace(t[0]) {
      TrimStartExactly(t[1..]);
      forall i | 0 <= i < |t| - |TrimStart(t)| ensures IsWhiteSpace(t[i]) {
        assert i > 0 ==> t[i] == t[1..][i - 1];
      }
    }
  }

  lemma {:induction false} TrimEndExactly(t: Letter)
    ensures forall i :: |TrimEnd(t)| <= i < |t| ==> IsWhiteSpace(t[i])
  {
    if |t| > 0 && IsWhiteSpace(t[|t| - 1]) {
      TrimEndExactly(t[..|t| - 1]);
    }
  }

  /** White space goes at both ends, all of it and nothing else. */
  lemma TrimExactly(t: Letter) returns (a: nat, b: nat)
    ensures a <= b <= |t| && Trim(t) == t[a..b]
    ensures forall i :: 0 <= i < a || b <= i < |t| ==> IsWhiteSpace(t[i])
    ensures a < b ==> !IsWhiteSpace(t[a]) && !IsWhiteSpace(t[b - 1])
  {
    hide TrimStart, TrimEnd;
    TrimStartExactly(t);
    var x := TrimStart(t);
    TrimEndExactly(x);
    a, b := |t| - |x|, |t| - |x| + |TrimEnd(x)|;
    forall i | b <= i < |t| ensures IsWhiteSpace(t[i]) {
      assert t[i] == x[i - a];
    }
    if a < b {
      assert TrimEnd(x)[0] == x[0] == t[a];
    }
  }

  // ----- Cutting -----

  /** The index is the last one, and there is none only if the character is absent. */
  lemma {:induction false} LastIndexIsLast(t: Letter, c: CodePoint)
    ensures match LastIndexOf(t, c)
      case Some(i) => i < |t| && t[i] == c && forall j :: i < j < |t| ==> t[j] != c
      case None => c !in t
  {
    if |t| > 0 && t[|t| - 1] != c {
      LastIndexIsLast(t[..|t| - 1], c);
      assert t == t[..|t| - 1] + [t[|t| - 1]];
    }
  }

  /** The character stays if it fits whole; a last one outside the basic plane that does not leaves its high half. */
  predicate CutAt(t: Letter, n: nat, r: Letter, i: nat)
    requires i < |r| <= |t|
  {
    if Units(t[..i + 1]) <= n then r[i] == t[i]
    else i == |r| - 1 && t[i] >= 0x1_0000 && r[i] == 0xD800 + (t[i] - 0x1_0000) / 0x400
  }

  /** Nothing before the cut is changed; at the cut, a character that does not fit whole leaves its high half. */
  lemma {:induction false} SliceExactly(t: Letter, n: nat)
    ensures var r := Slice(t, n);
      Units(r) == (if Units(t) <= n then Units(t) else n) && |r| <= |t| &&
      forall i :: 0 <= i < |r| ==> CutAt(t, n, r, i)
  {
    hide Units, Slice;
    var r := Slice(t, n);
    forall i | 0 <= i < |r|
      ensures CutAt(t, n, r, i)
    {
      if i < |r| - 1 {
        SliceStart(t, n, i);
      } else {
        SliceEnd(t, n);
      }
    }
  }

  lemma SliceStart(t: Letter, n: nat, i: nat)
    requires i < |Slice(t, n)| - 1
    ensures Slice(t, n)[i] == t[i] && Units(t[..i + 1]) <= n
  {
    hide Units, Slice;
    var r := Slice(t, n);
    assert r[..|r| - 1][i] == t[..|r| - 1][i];
    UnitsOfPrefix(t[..|r| - 1], i + 1);
    assert t[..|r| - 1][..i + 1] == t[..i + 1];
    UnitsOfPrefix(r, |r| - 1);
  }

  lemma {:induction false} SliceEnd(t: Letter, n: nat)
    requires |Slice(t, n)| > 0
    ensures var r := Slice(t, n); var k := |r| - 1;
      if Units(t[..k + 1]) <= n then r[k] == t[k] else t[k] >= 0x1_0000 && r[k] == 0xD800 + (t[k] - 0x1_0000) / 0x400
  {
    hide Units;
    assert t[..|t|] == t;
    if Units(t) > n {
      var short, last := t[..|t| - 1], t[|t| - 1];
      WholeUnits(t);
      if Units(short) + 1 == n {
        assert Slice(t, n) == short + [HighHalf(last)];
        assert t[..|short| + 1] == t;
      } else {
        assert Slice(t, n) == Slice(short, n);
        SliceEnd(short, n);
        var k := |Slice(short, n)| - 1;
        assert short[..k + 1] == t[..k + 1];
        assert short[k] == t[k];
      }
    }
  }

  lemma WholeUnits(t: Letter)
    ensures |t| == 0 ==> Units(t) == 0
    ensures |t| > 0 ==> Units(t) == Units(t[..|t| - 1]) + if t[|t| - 1] < 0x1_0000 then 1 else 2
  {
  }

  /** A period that ends a sentence within the limit, and late enough. */
  predicate LateSentence(t: Letter, max: nat, k: nat) {
    k < |t| && t[k] == 0x2E && Units(t[..k + 1]) <= max && Units(t[..k]) as real > max as real * 0.6
  }

  /** So does a space, for words. */
  predicate LateWord(t: Letter, max: nat, k: nat) {
    k < |t| && t[k] == 0x20 && Units(t[..k + 1]) <= max && Units(t[..k]) as real > max as real * 0.8
  }

  lemma CutIsFull(t: Letter, n: nat, k: nat)
    requires |Slice(t, n)| <= k < |t|
    ensures Units(t[..k + 1]) > n
  {
    hide Units, Slice;
    var r := Slice(t, n);
    UnitsOfCut(t, n);
    UnitsOfPrefix(t[..k + 1], |r|);
    assert t[..k + 1][..|r|] == t[..|r|];
  }

  /** What fits whole is in the cut text, at its place. */
  lemma FitsWhole(t: Letter, n: nat, k: nat)
    requires k < |t| && Units(t[..k + 1]) <= n
    ensures k < |Slice(t, n)| && Slice(t, n)[k] == t[k] && Slice(t, n)[..k] == t[..k]
  {
    hide Units, Slice;
    var r := Slice(t, n);
    SliceExactly(t, n);
    if |r| <= k {
      CutIsFull(t, n, k);
    }
    assert CutAt(t, n, r, k);
    assert r[..k] == r[..|r| - 1][..k] && t[..k] == t[..|r| - 1][..k];
  }

  lemma UnitsOfCut(t: Letter, n: nat)
    ensures Units(Slice(t, n)) <= Units(t[..|Slice(t, n)|])
    ensures Units(t) <= n ==> |Slice(t, n)| == |t|
  {
    hide Units;
    var r := Slice(t, n);
    if |r| > 0 {
      WholeUnits(r);
      WholeUnits(t[..|r|]);
      assert t[..|r|][..|r| - 1] == t[..|r| - 1];
    }
  }

  /** A plain character of the cut text stands there in the text, and fits. */
  lemma StandsInText(t: Letter, n: nat, k: nat)
    requires k < |Slice(t, n)| && !(0xD800 <= Slice(t, n)[k] < 0xE000)
    ensures k < |t| && t[k] == Slice(t, n)[k] && Units(t[..k + 1]) <= n && Slice(t, n)[..k] == t[..k]
  {
    hide Units, Slice;
    var r := Slice(t, n);
    SliceExactly(t, n);
    assert CutAt(t, n, r, k);
    HalfIsSurrogate(t[k]);
    assert r[..k] == r[..|r| - 1][..k] && t[..k] == t[..|r| - 1][..k];
  }

  lemma HalfIsSurrogate(c: CodePoint)
    ensures c >= 0x1_0000 ==> 0xD800 <= 0xD800 + (c - 0x1_0000) / 0x400 < 0xE000
  {
  }

  /** A text that is too long ends with its last sentence that fits, if that ends late enough. */
  lemma EndsWithSentence(t: Letter, c: Constraints) returns (k: nat)
    requires TooLong(t, c) && !HardCut(t, c)
    ensures LateSentence(t, c.maxChars.value, k) && Fit(t, c) == t[..k + 1]
    ensures forall j :: k < j < |t| && t[j] == 0x2E ==> Units(t[..j + 1]) > c.maxChars.value
  {
    hide Units, Slice, LastIndexOf;
    var max := c.maxChars.value;
    var r := Slice(t, max);
    LastIndexIsLast(r, PERIOD);
    k := LastIndexOf(r, PERIOD).value;
    StandsInText(t, max, k);
    assert r[..k + 1] == r[..k] + [r[k]] && t[..k + 1] == t[..k] + [t[k]];
    forall j | k < j < |t| && t[j] == 0x2E ensures Units(t[..j + 1]) > max {
      if Units(t[..j + 1]) <= max {
        FitsWhole(t, max, j);
      }
    }
  }

  /** No sentence ends late enough exactly if the cut is hard. */
  lemma HardCutExactly(t: Letter, c: Constraints)
    requires TooLong(t, c)
    ensures HardCut(t, c) <==> forall k: nat :: !LateSentence(t, c.maxChars.value, k)
  {
    hide Units, Slice, LastIndexOf, Fit;
    var max := c.maxChars.value;
    if HardCut(t, c) {
      forall k: nat ensures !LateSentence(t, max, k) {
        if LateSentence(t, max, k) {
          LateIsFound(t, max, k, PERIOD, 0.6);
        }
      }
    } else {
      var k := EndsWithSentence(t, c);
    }
  }

  /** The last of several late characters that fit is late too. */
  lemma LateIsFound(t: Letter, max: nat, k: nat, x: CodePoint, share: real)
    requires k < |t| && t[k] == x && x < 0xD800 && Units(t[..k + 1]) <= max && Units(t[..k]) as real > max as real * share
    ensures var i := LastIndexOf(Slice(t, max), x);
      i.Some? && k <= i.value < |t| && t[i.value] == x && Units(t[..i.value + 1]) <= max &&
      Slice(t, max)[..i.value] == t[..i.value] && LiesBeyond(Slice(t, max), i, max, share)
  {
    hide Units, Slice, LastIndexOf;
    var r := Slice(t, max);
    FitsWhole(t, max, k);
    LastIndexIsLast(r, x);
    var i := LastIndexOf(r, x).value;
    StandsInText(t, max, i);
    UnitsOfPrefix(t[..i], k);
    assert t[..i][..k] == t[..k];
  }

  /** After a hard cut, an ellipsis follows the last word that fits, if that ends late enough, or else all that fits. */
  lemma EndsWithEllipsis(t: Letter, c: Constraints) returns (kept: Letter)
    requires HardCut(t, c)
    ensures Fit(t, c) == kept + [0x2026]
    ensures (forall k: nat :: !LateWord(t, c.maxChars.value, k)) ==> kept == Slice(t, c.maxChars.value)
    ensures (exists k: nat :: LateWord(t, c.maxChars.value, k)) ==>
      |kept| < |t| && kept == t[..|kept|] && LateWord(t, c.maxChars.value, |kept|) &&
      forall j :: |kept| < j < |t| && t[j] == 0x20 ==> Units(t[..j + 1]) > c.maxChars.value
  {
    hide Units, Slice, LastIndexOf;
    var max := c.maxChars.value;
    var r := Slice(t, max);
    kept := AtSpace(r, max);
    LastIndexIsLast(r, SPACE);
    if LiesBeyond(r, LastIndexOf(r, SPACE), max, 0.8) {
      StandsInText(t, max, LastIndexOf(r, SPACE).value);
      assert LateWord(t, max, LastIndexOf(r, SPACE).value);
      NoLaterSpace(t, max, |kept|);
    }
    if exists k: nat :: LateWord(t, max, k) {
      var k: nat :| LateWord(t, max, k);
      LateIsFound(t, max, k, SPACE, 0.8);
    }
  }

  lemma NoLaterSpace(t: Letter, max: nat, i: nat)
    requires LastIndexOf(Slice(t, max), SPACE) == Some(i)
    ensures forall j :: i < j < |t| && t[j] == 0x20 ==> Units(t[..j + 1]) > max
  {
    hide Units, Slice, LastIndexOf;
    LastIndexIsLast(Slice(t, max), SPACE);
    forall j | i < j < |t| && t[j] == 0x20 ensures Units(t[..j + 1]) > max {
      if Units(t[..j + 1]) <= max {
        FitsWhole(t, max, j);
      }
    }
  }

  // ----- Blockers -----

  /** What each blocker of any letter means; a blank letter has no other. */
  lemma BlockersMean(u: Unicode, t: Letter, c: Constraints, lastIndex: nat)
    ensures var found := Blockers(u, t, c, lastIndex);
      if forall i :: 0 <= i < |t| ==> IsWhiteSpace(t[i]) then found == [Empty]
      else
        Empty !in found &&
        (OverLimit in found <==> c.maxChars != None && c.maxChars != Some(0) && Units(t) > c.maxChars.value) &&
        (HasEmoji in found <==> c.noEmoji && TestEmoji(u, t, lastIndex).0) &&
        (HasMarkdown in found <==> c.noMarkdown && exists i :: 0 <= i < |t| && IsMarkup(t[i])) &&
        (HasSpecialChars in found <==> c.noSpecialChars && exists i :: 0 <= i < |t| && !IsAllowed(u, t[i]))
  {
    hide Trim, Units, TestEmoji, IsMarkup, IsAllowed, IsWhiteSpace, When, TooLong, HasMarkup, HasDisallowed;
    var a, b := TrimExactly(t);
    FourWhens(TooLong(t, c), c.noEmoji && TestEmoji(u, t, lastIndex).0, c.noMarkdown && HasMarkup(t),
      c.noSpecialChars && HasDisallowed(u, t));
    ConditionsMean(u, t, c);
    if a < b {
      assert !IsWhiteSpace(t[a]);
    }
  }

  lemma FourWhens(long: bool, emoji: bool, markdown: bool, special: bool)
    ensures var found := When(long, OverLimit) + When(emoji, HasEmoji) + When(markdown, HasMarkdown) + When(special, HasSpecialChars);
      Empty !in found && (OverLimit in found <==> long) && (HasEmoji in found <==> emoji) &&
      (HasMarkdown in found <==> markdown) && (HasSpecialChars in found <==> special)
  {
  }

  lemma ConditionsMean(u: Unicode, t: Letter, c: Constraints)
    ensures TooLong(t, c) <==> c.maxChars != None && c.maxChars != Some(0) && Units(t) > c.maxChars.value
    ensures HasMarkup(t) <==> exists i :: 0 <= i < |t| && IsMarkup(t[i])
    ensures HasDisallowed(u, t) <==> exists i :: 0 <= i < |t| && !IsAllowed(u, t[i])
  {
    hide Units, IsMarkup, IsAllowed;
  }

  // ----- Characters by name -----

  /** Besides letters, digits and white space, these characters are allowed. */
  lemma AllowedByName(u: Unicode, c: CodePoint)
    ensures IsAllowed(u, c) <==>
      u.letter(c) || u.number(c) || IsWhiteSpace(c) ||
      c in {'.' as int, ',' as int, '!' as int, '?' as int, ';' as int, ':' as int, '(' as int, ')' as int, '"' as int,
            '\'' as int, '/' as int, '%' as int, '@' as int, '+' as int, '=' as int, '-' as int} ||
      c in {'\U{AB}' as int, '\U{BB}' as int, '\U{2014}' as int, '\U{2116}' as int}
  {
  }

  lemma MarkupByName(c: CodePoint)
    ensures IsMarkup(c) <==> c in {'*' as int, '_' as int, '~' as int, '`' as int, '#' as int}
  {
  }

  lemma EmojiByProperty(u: Unicode, c: CodePoint)
    ensures IsEmoji(u, c) <==> u.pictographic(c) || c in {0xFE0F, 0x200D}
  {
  }
}
