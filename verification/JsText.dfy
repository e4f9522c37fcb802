/** JavaScript strings: sequences of 16-bit code units, surrogates included. */
module JsText {

  type Unit = x: int | 0 <= x < 0x1_0000

  type Text = seq<Unit>

  datatype Option<+T> = None | Some(value: T) {
    predicate IsFailure() { None? }

    function PropagateFailure<U>(): Option<U>
      requires None?
    {
      None
    }

    function Extract(): T
      requires Some?
    {
      value
    }
  }

  /** What an operation returns, or the error it throws. */
  datatype Result<+T, +E> = Ok(value: T) | Err(error: E)

  /** JavaScript white space and line ends: what `\s` matches and `trim` removes. */
  predicate IsWhiteSpace(c: int) {
    0x09 <= c <= 0x0D || c == 0x20 || c == 0xA0 || c == 0x1680 || 0x2000 <= c <= 0x200A || c == 0x2028 ||
    c == 0x2029 || c == 0x202F || c == 0x205F || c == 0x3000 || c == 0xFEFF
  }

  /** The text of a literal whose characters are all single code units. */
  function Lit(s: string): (t: Text)
    ensures |t| == |s|
    ensures forall i :: 0 <= i < |s| ==> t[i] == (s[i] as int) % 0x1_0000
  {
    seq(|s|, i requires 0 <= i < |s| => (s[i] as int) % 0x1_0000)
  }

  function Join(parts: seq<Text>, separator: Text): Text {
    if |parts| == 0 then []
    else if |parts| == 1 then parts[0]
    else parts[0] + separator + Join(parts[1..], separator)
  }

  /** A digit in a base up to 36, letters in lower case. */
  function Digit(d: nat): Unit
    requires d < 36
  {
    if d < 10 then 0x30 + d else 0x61 + (d - 10)
  }

  function Repeat(unit: Unit, n: nat): (t: Text)
    ensures |t| == n
    ensures forall i :: 0 <= i < n ==> t[i] == unit
  {
    seq(n, i => unit)
  }

  /** There is always another text: one longer than any of these. */
  lemma {:induction false} LongerText(texts: set<Text>) returns (n: nat)
    ensures forall t :: t in texts ==> |t| < n
  {
    n := 0;
    if texts != {} {
      var t :| t in texts;
      var m := LongerText(texts - {t});
      n := if |t| < m then m else |t| + 1;
    }
  }

  lemma FreshText(texts: set<Text>) returns (another: Text)
    ensures another !in texts
  {
    var n := LongerText(texts);
    another := Repeat(0x61, n);
  }

  // ----- Surrogates -----

  predicate IsHigh(u: Unit) { 0xD800 <= u < 0xDC00 }

  predicate IsLow(u: Unit) { 0xDC00 <= u < 0xE000 }

  predicate IsSurrogate(u: Unit) { 0xD800 <= u < 0xE000 }

  /** One character: a single unit, or a high surrogate followed by a low one. */
  predicate IsHead(h: Text) {
    |h| == 1 || (|h| == 2 && IsHigh(h[0]) && IsLow(h[1]))
  }

  /** The first character of a nonempty text. */
  function Head(t: Text): (h: Text)
    requires |t| > 0
    ensures IsHead(h) && h <= t
    ensures |h| == 1 && IsHigh(t[0]) && |t| > 1 ==> !IsLow(t[1])
  {
    if IsHigh(t[0]) && |t| > 1 && IsLow(t[1]) then t[..2] else t[..1]
  }

  /** No lone surrogates. */
  predicate WellFormed(t: Text) {
    |t| == 0 ||
    ((|Head(t)| == 1 ==> !IsSurrogate(t[0])) && WellFormed(t[|Head(t)|..]))
  }

  lemma {:induction false} WellFormedConcat(a: Text, b: Text)
    requires WellFormed(a) && WellFormed(b)
    ensures WellFormed(a + b)
  {
    if |a| == 0 {
      assert a + b == b;
    } else {
      var n := |Head(a)|;
      assert Head(a + b) == Head(a);
      assert (a + b)[n..] == a[n..] + b;
      WellFormedConcat(a[n..], b);
    }
  }

  lemma {:induction false} WellFormedWithoutSurrogates(t: Text)
    requires forall i :: 0 <= i < |t| ==> !IsSurrogate(t[i])
    ensures WellFormed(t)
  {
    if |t| > 0 {
      WellFormedWithoutSurrogates(t[1..]);
    }
  }
}
