/** `TextEncoder.encode`: UTF-8, with lone surrogates replaced by U+FFFD. */
module Utf8 {
  import opened Words
  import opened JsText

  function CodePoint(h: Text): (c: nat)
    requires IsHead(h)
    ensures c < 0x11_0000
  {
    var u: int := h[0];
    if |h| == 1 then u else
      var low: int := h[1];
      0x1_0000 + (u - 0xD800) * 0x400 + (low - 0xDC00)
  }

  /** Six more bits of `c` in each continuation byte. */
  function EncodePoint(c: nat): (bytes: seq<Byte>)
    requires c < 0x11_0000
    ensures |bytes| > 0
  {
    if c < 0x80 then [c]
    else if c < 0x800 then [0xC0 + c / 64, 0x80 + c % 64]
    else if c < 0x1_0000 then [0xE0 + c / 64 / 64, 0x80 + c / 64 % 64, 0x80 + c % 64]
    else [0xF0 + c / 64 / 64 / 64, 0x80 + c / 64 / 64 % 64, 0x80 + c / 64 % 64, 0x80 + c % 64]
  }

  function EncodeHead(h: Text): (bytes: seq<Byte>)
    requires IsHead(h)
  {
    EncodePoint(if |h| == 1 && IsSurrogate(h[0]) then 0xFFFD else CodePoint(h))
  }

  function Encode(t: Text): seq<Byte> {
    if |t| == 0 then [] else EncodeHead(Head(t)) + Encode(t[|Head(t)|..])
  }

  predicate Encodable(h: Text) {
    IsHead(h) && (|h| == 1 ==> !IsSurrogate(h[0]))
  }

  lemma CodePointInjective(h: Text, k: Text)
    requires Encodable(h) && Encodable(k) && CodePoint(h) == CodePoint(k)
    ensures h == k
  {
  }

  function Length(c: nat): nat {
    if c < 0x80 then 1 else if c < 0x800 then 2 else if c < 0x1_0000 then 3 else 4
  }

  lemma FirstByteTellsLength(c: nat, d: nat)
    requires c < 0x11_0000 && d < 0x11_0000
    requires EncodePoint(c)[0] == EncodePoint(d)[0]
    ensures Length(c) == Length(d) && |EncodePoint(c)| == |EncodePoint(d)|
  {
    var f, g := EncodePoint(c)[0], EncodePoint(d)[0];
    assert Length(c) == if f < 0x80 then 1 else if f < 0xE0 then 2 else if f < 0xF0 then 3 else 4;
    assert Length(d) == if g < 0x80 then 1 else if g < 0xE0 then 2 else if g < 0xF0 then 3 else 4;
  }

  lemma SameDigits(c: nat, d: nat)
    requires c / 64 == d / 64 && c % 64 == d % 64
    ensures c == d
  {
  }

  lemma PointInjective(c: nat, d: nat)
    requires c < 0x11_0000 && d < 0x11_0000
    requires EncodePoint(c) == EncodePoint(d)
    ensures c == d
  {
    var p, q := EncodePoint(c), EncodePoint(d);
    FirstByteTellsLength(c, d);
    assert p[|p| - 1] == q[|p| - 1];
    if Length(c) == 2 {
      SameDigits(c, d);
    } else if Length(c) == 3 {
      assert p[0] == q[0] && p[1] == q[1];
      SameDigits(c / 64, d / 64);
      SameDigits(c, d);
    } else if Length(c) == 4 {
      assert p[0] == q[0] && p[1] == q[1] && p[2] == q[2];
      SameDigits(c / 64 / 64, d / 64 / 64);
      SameDigits(c / 64, d / 64);
      SameDigits(c, d);
    }
  }

  /** The first byte tells the length, so one character's bytes cannot begin another's. */
  lemma HeadPrefixFree(h: Text, k: Text, s: seq<Byte>, t: seq<Byte>)
    requires Encodable(h) && Encodable(k)
    requires EncodeHead(h) + s == EncodeHead(k) + t
    ensures h == k && s == t
  {
    var c, d := CodePoint(h), CodePoint(k);
    var p, q := EncodePoint(c), EncodePoint(d);
    assert (p + s)[0] == p[0] && (q + t)[0] == q[0];
    FirstByteTellsLength(c, d);
    hide EncodePoint, CodePoint;
    assert p == (p + s)[..|p|] == q;
    assert s == (p + s)[|p|..] == t;
    PointInjective(c, d);
    CodePointInjective(h, k);
  }

  /** Encoding loses nothing on text without lone surrogates. */
  lemma {:induction false} EncodeInjective(a: Text, b: Text)
    requires WellFormed(a) && WellFormed(b)
    requires Encode(a) == Encode(b)
    ensures a == b
  {
    if |a| > 0 && |b| > 0 {
      HeadPrefixFree(Head(a), Head(b), Encode(a[|Head(a)|..]), Encode(b[|Head(b)|..]));
      EncodeInjective(a[|Head(a)|..], b[|Head(b)|..]);
      assert a == Head(a) + a[|Head(a)|..];
      assert b == Head(b) + b[|Head(b)|..];
    }
  }

  /** It does lose lone surrogates: all of them become the same three bytes. */
  lemma LoneSurrogatesCollide()
    ensures Encode([0xD800]) == Encode([0xDC00]) == [0xEF, 0xBF, 0xBD]
  {
    assert Encode([]) == [];
  }

  /** Each lone surrogate replaced by U+FFFD. */
  function Replaced(t: Text): Text {
    if |t| == 0 then []
    else (if Encodable(Head(t)) then Head(t) else [0xFFFD]) + Replaced(t[|Head(t)|..])
  }

  lemma {:induction false} ReplacedEncodesAlike(t: Text)
    ensures WellFormed(Replaced(t)) && Encode(Replaced(t)) == Encode(t)
  {
    if |t| > 0 {
      var n := |Head(t)|;
      ReplacedEncodesAlike(t[n..]);
      var h := if Encodable(Head(t)) then Head(t) else [0xFFFD];
      assert Head(Replaced(t)) == h && Replaced(t)[|h|..] == Replaced(t[n..]);
    }
  }

  /** Texts are encoded alike exactly if they agree once their lone surrogates are replaced. */
  lemma EncodedAlikeExactly(a: Text, b: Text)
    ensures Encode(a) == Encode(b) <==> Replaced(a) == Replaced(b)
  {
    ReplacedEncodesAlike(a);
    ReplacedEncodesAlike(b);
    if Encode(a) == Encode(b) {
      EncodeInjective(Replaced(a), Replaced(b));
    }
  }
}
