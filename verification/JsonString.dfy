/** `JSON.stringify` on strings, and why its output can be read back. */
module JsonString {
  import opened JsText

  const QUOTE: Unit := 0x22
  const BACKSLASH: Unit := 0x5C

  function UnicodeEscape(u: Unit): Text {
    [BACKSLASH, 0x75, Digit(u / 16 / 16 / 16), Digit(u / 16 / 16 % 16), Digit(u / 16 % 16), Digit(u % 16)]
  }

  /** The letter of a two-unit escape, if `u` has one. */
  function ShortEscape(u: Unit): Option<Unit> {
    if u == 0x08 then Some(0x62)
    else if u == 0x09 then Some(0x74)
    else if u == 0x0A then Some(0x6E)
    else if u == 0x0C then Some(0x66)
    else if u == 0x0D then Some(0x72)
    else if u == QUOTE || u == BACKSLASH then Some(u)
    else None
  }

  /** Control characters and lone surrogates are escaped; surrogate pairs are copied. */
  function EscapeHead(h: Text): (t: Text)
    requires IsHead(h)
    ensures |t| > 0
  {
    if |h| == 2 then h
    else if ShortEscape(h[0]).Some? then [BACKSLASH, ShortEscape(h[0]).value]
    else if h[0] < 0x20 || IsSurrogate(h[0]) then UnicodeEscape(h[0])
    else h
  }

  function Escape(t: Text): Text {
    if |t| == 0 then [] else EscapeHead(Head(t)) + Escape(t[|Head(t)|..])
  }

  function Quote(t: Text): (q: Text)
    ensures |q| > 0 && q[0] == QUOTE
  {
    [QUOTE] + Escape(t) + [QUOTE]
  }

  // ----- Reading back -----

  lemma DigitInjective(d: nat, e: nat)
    requires d < 16 && e < 16 && Digit(d) == Digit(e)
    ensures d == e
  {
  }

  lemma UnicodeEscapeInjective(u: Unit, v: Unit)
    requires UnicodeEscape(u) == UnicodeEscape(v)
    ensures u == v
  {
    var p, q := UnicodeEscape(u), UnicodeEscape(v);
    assert p[2] == q[2] && p[3] == q[3] && p[4] == q[4] && p[5] == q[5];
    DigitInjective(u / 16 / 16 / 16, v / 16 / 16 / 16);
    DigitInjective(u / 16 / 16 % 16, v / 16 / 16 % 16);
    DigitInjective(u / 16 % 16, v / 16 % 16);
    DigitInjective(u % 16, v % 16);
    hide Digit;
    assert u / 16 / 16 == v / 16 / 16;
    assert u / 16 == v / 16;
  }

  /** The first two units of an escaped head fix its length. */
  lemma SameEscapeLength(h: Text, k: Text, s: Text, t: Text)
    requires IsHead(h) && IsHead(k)
    requires EscapeHead(h) + s == EscapeHead(k) + t
    ensures |EscapeHead(h)| == |EscapeHead(k)| && |h| == |k|
  {
    var p, q := EscapeHead(h), EscapeHead(k);
    assert (p + s)[0] == p[0] && (q + t)[0] == q[0];
    if |p| > 1 && |q| > 1 {
      assert (p + s)[1] == p[1] && (q + t)[1] == q[1];
    }
  }

  lemma EscapeHeadInjective(h: Text, k: Text)
    requires IsHead(h) && IsHead(k) && |h| == |k|
    requires EscapeHead(h) == EscapeHead(k)
    ensures h == k
  {
    if |h| == 1 && |EscapeHead(h)| == 6 {
      UnicodeEscapeInjective(h[0], k[0]);
    } else if |h| == 1 {
      assert EscapeHead(h)[|EscapeHead(h)| - 1] == EscapeHead(k)[|EscapeHead(k)| - 1];
    }
  }

  lemma SplitAt(p: Text, s: Text, q: Text, t: Text)
    requires p + s == q + t && |p| == |q|
    ensures p == q && s == t
  {
    assert p == (p + s)[..|p|] && q == (q + t)[..|q|];
    assert s == (p + s)[|p|..] && t == (q + t)[|q|..];
  }

  lemma EscapeHeadStart(h: Text)
    requires IsHead(h)
    ensures EscapeHead(h)[0] != QUOTE
  {
  }

  lemma EscapeStart(a: Text, s: Text)
    ensures |a| > 0 ==> (Escape(a) + s)[0] == EscapeHead(Head(a))[0] != QUOTE
    ensures |a| == 0 ==> Escape(a) + s == s
  {
    hide EscapeHead;
    if |a| > 0 {
      EscapeHeadStart(Head(a));
      assert Escape(a)[0] == EscapeHead(Head(a))[0];
    }
  }

  /** After an opening quote, the closing quote and the string before it are determined. */
  lemma {:induction false} EscapeUnique(a: Text, b: Text, s: Text, t: Text)
    requires Escape(a) + ([QUOTE] + s) == Escape(b) + ([QUOTE] + t)
    ensures a == b && s == t
  {
    hide EscapeHead, Head;
    EscapeStart(a, [QUOTE] + s);
    EscapeStart(b, [QUOTE] + t);
    if |a| == 0 || |b| == 0 {
      assert ([QUOTE] + s)[0] == QUOTE && ([QUOTE] + t)[0] == QUOTE;
      assert |a| == |b| == 0;
      SplitAt([QUOTE], s, [QUOTE], t);
    } else {
      var h, k := Head(a), Head(b);
      var a', b' := a[|h|..], b[|k|..];
      assert EscapeHead(h) + (Escape(a') + ([QUOTE] + s)) == Escape(a) + ([QUOTE] + s);
      assert EscapeHead(k) + (Escape(b') + ([QUOTE] + t)) == Escape(b) + ([QUOTE] + t);
      SameEscapeLength(h, k, Escape(a') + ([QUOTE] + s), Escape(b') + ([QUOTE] + t));
      SplitAt(EscapeHead(h), Escape(a') + ([QUOTE] + s), EscapeHead(k), Escape(b') + ([QUOTE] + t));
      EscapeHeadInjective(h, k);
      EscapeUnique(a', b', s, t);
      assert a == h + a' && b == k + b';
    }
  }

  lemma QuoteUnique(a: Text, b: Text, s: Text, t: Text)
    requires Quote(a) + s == Quote(b) + t
    ensures a == b && s == t
  {
    hide Escape;
    assert Quote(a) + s == [QUOTE] + (Escape(a) + ([QUOTE] + s));
    assert Quote(b) + t == [QUOTE] + (Escape(b) + ([QUOTE] + t));
    SplitAt([QUOTE], Escape(a) + ([QUOTE] + s), [QUOTE], Escape(b) + ([QUOTE] + t));
    EscapeUnique(a, b, s, t);
  }

  // ----- No lone surrogates come out -----

  lemma EscapeHeadWellFormed(h: Text)
    requires IsHead(h)
    ensures WellFormed(EscapeHead(h))
  {
    if |h| == 2 {
      assert Head(h) == h && h[2..] == [];
    } else {
      WellFormedWithoutSurrogates(EscapeHead(h));
    }
  }

  lemma {:induction false} EscapeWellFormed(t: Text)
    ensures WellFormed(Escape(t))
  {
    if |t| > 0 {
      EscapeHeadWellFormed(Head(t));
      EscapeWellFormed(t[|Head(t)|..]);
      WellFormedConcat(EscapeHead(Head(t)), Escape(t[|Head(t)|..]));
    }
  }

  lemma QuoteWellFormed(t: Text)
    ensures WellFormed(Quote(t))
  {
    EscapeWellFormed(t);
    WellFormedWithoutSurrogates([QUOTE]);
    WellFormedConcat([QUOTE], Escape(t));
    WellFormedConcat([QUOTE] + Escape(t), [QUOTE]);
  }
}
