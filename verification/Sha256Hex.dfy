/** `sha256Hex` as the source runs it: a padded byte buffer, a reused schedule array, eight variables. */
module Sha256Hex {
  import opened Words
  import opened JsNumber
  import opened JsText
  import opened Sha256Constants
  import opened Sha256Spec
  import opened Sha256Js

  // ----- Hexadecimal text -----

  /** `n.toString(16)`. */
  function ToHex(n: nat): (t: Text)
    ensures |t| > 0
  {
    if n < 16 then [Digit(n)] else ToHex(n / 16) + [Digit(n % 16)]
  }

  /** `t.padStart(n, "0")`. */
  function PadStart(t: Text, n: nat): Text {
    if |t| >= n then t else Repeat(0x30, n - |t|) + t
  }

  /** Exactly `n` digits, most significant first. */
  function FixedHex(x: nat, n: nat): (t: Text)
    ensures |t| == n
  {
    if n == 0 then [] else FixedHex(x / 16, n - 1) + [Digit(x % 16)]
  }

  function HexOf(s: State): Text {
    FixedHex(s.a, 8) + FixedHex(s.b, 8) + FixedHex(s.c, 8) + FixedHex(s.d, 8)
    + FixedHex(s.e, 8) + FixedHex(s.f, 8) + FixedHex(s.g, 8) + FixedHex(s.h, 8)
  }

  function Pow16(n: nat): nat {
    if n == 0 then 1 else 16 * Pow16(n - 1)
  }

  lemma {:induction false} PaddedHexIsFixed(x: nat, n: nat)
    requires n > 0 && x < Pow16(n)
    ensures PadStart(ToHex(x), n) == FixedHex(x, n)
    ensures |ToHex(x)| <= n
    decreases n
  {
    if n == 1 {
      assert Pow16(1) == 16;
      assert FixedHex(x, 1) == FixedHex(x / 16, 0) + [Digit(x % 16)];
    } else if x < 16 {
      ZeroHex(n - 1);
      assert x / 16 == 0;
    } else {
      PaddedHexIsFixed(x / 16, n - 1);
    }
  }

  lemma {:induction false} ZeroHex(n: nat)
    ensures FixedHex(0, n) == Repeat(0x30, n)
  {
    if n > 0 {
      ZeroHex(n - 1);
    }
  }

  lemma {:induction false} FixedHexInjective(x: nat, y: nat, n: nat)
    requires x < Pow16(n) && y < Pow16(n)
    requires FixedHex(x, n) == FixedHex(y, n)
    ensures x == y
    decreases n
  {
    if n > 0 {
      var p, q := FixedHex(x, n), FixedHex(y, n);
      assert p[n - 1] == Digit(x % 16) && q[n - 1] == Digit(y % 16);
      assert p[..n - 1] == FixedHex(x / 16, n - 1) && q[..n - 1] == FixedHex(y / 16, n - 1);
      FixedHexInjective(x / 16, y / 16, n - 1);
    }
  }

  lemma Pow16Of8()
    ensures Pow16(8) == MODULUS
  {
  }

  /** Two digests print alike only if they are the same digest. */
  lemma HexOfInjective(s: State, r: State)
    requires HexOf(s) == HexOf(r)
    ensures s == r
  {
    Pow16Of8();
    var p, q := HexOf(s), HexOf(r);
    assert p[0..8] == FixedHex(s.a, 8) && q[0..8] == FixedHex(r.a, 8);
    assert p[8..16] == FixedHex(s.b, 8) && q[8..16] == FixedHex(r.b, 8);
    assert p[16..24] == FixedHex(s.c, 8) && q[16..24] == FixedHex(r.c, 8);
    assert p[24..32] == FixedHex(s.d, 8) && q[24..32] == FixedHex(r.d, 8);
    assert p[32..40] == FixedHex(s.e, 8) && q[32..40] == FixedHex(r.e, 8);
    assert p[40..48] == FixedHex(s.f, 8) && q[40..48] == FixedHex(r.f, 8);
    assert p[48..56] == FixedHex(s.g, 8) && q[48..56] == FixedHex(r.g, 8);
    assert p[56..64] == FixedHex(s.h, 8) && q[56..64] == FixedHex(r.h, 8);
    hide HexOf, FixedHex, Pow16;
    FixedHexInjective(s.a, r.a, 8);
    FixedHexInjective(s.b, r.b, 8);
    FixedHexInjective(s.c, r.c, 8);
    FixedHexInjective(s.d, r.d, 8);
    FixedHexInjective(s.e, r.e, 8);
    FixedHexInjective(s.f, r.f, 8);
    FixedHexInjective(s.g, r.g, 8);
    FixedHexInjective(s.h, r.h, 8);
  }

  // ----- The padded buffer -----

  /** Above this many bytes the padded length overflows 31 bits and allocation or `set` throws. */
  const BYTE_LIMIT: int := 0x8000_0000 - 72

  /** `((n + 9 + 63) >> 6) << 6`. */
  function PaddedLength(n: nat): int {
    Shl(Sar(n + 9 + 63, 6), 6)
  }

  lemma DoubleModulo(x: Word, y: int)
    requires x == y % MODULUS
    ensures (2 * x) % MODULUS == (2 * y) % MODULUS
  {
    var q := y / MODULUS;
    assert y == MODULUS * q + x;
    if 2 * x < MODULUS {
      EuclidUnique(2 * y, 2 * q, 2 * x);
    } else {
      EuclidUnique(2 * y, 2 * q + 1, 2 * x - MODULUS);
      EuclidUnique(2 * x, 1, 2 * x - MODULUS);
    }
  }

  lemma EuclidUnique(x: int, q: int, r: int)
    requires 0 <= r < MODULUS && x == MODULUS * q + r
    ensures x % MODULUS == r
  {
    assert MODULUS * (x / MODULUS - q) == r - x % MODULUS;
  }

  lemma ShiftBySix(x: int)
    ensures ShiftLeft(ToUint32(x), 6) == ToUint32(64 * x)
  {
    var x0 := ToUint32(x);
    var x1 := (2 * x0) % MODULUS;
    var x2 := (2 * x1) % MODULUS;
    var x3 := (2 * x2) % MODULUS;
    var x4 := (2 * x3) % MODULUS;
    var x5 := (2 * x4) % MODULUS;
    assert ShiftLeft(x0, 6) == ShiftLeft(x1, 5) == ShiftLeft(x2, 4);
    assert ShiftLeft(x2, 4) == ShiftLeft(x3, 3) == ShiftLeft(x4, 2);
    assert ShiftLeft(x4, 2) == ShiftLeft(x5, 1) == (2 * x5) % MODULUS;
    hide ShiftLeft;
    DoubleModulo(x0, x);
    DoubleModulo(x1, 2 * x);
    DoubleModulo(x2, 4 * x);
    DoubleModulo(x3, 8 * x);
    DoubleModulo(x4, 16 * x);
    DoubleModulo(x5, 32 * x);
  }

  lemma HalveSixTimes(x: int)
    ensures FloorHalve(x, 6) == x / 64
  {
    assert FloorHalve(x, 6) == FloorHalve(x / 2 / 2, 4) == FloorHalve(x / 2 / 2 / 2 / 2, 2);
    assert FloorHalve(x / 2 / 2 / 2 / 2, 2) == x / 2 / 2 / 2 / 2 / 2 / 2;
  }

  lemma Int32RoundTrip(y: int)
    requires -0x8000_0000 <= y < 0x8000_0000
    ensures ToInt32(ToUint32(y)) == y
  {
  }

  lemma RoundDown(s: int)
    ensures (s / 64 * 64) % 64 == 0 && s - 64 < s / 64 * 64 <= s
    ensures s >= -0x8000_0000 ==> s / 64 * 64 >= -0x8000_0000
  {
  }

  lemma PaddedLengthRounds(n: nat)
    ensures PaddedLength(n) == ToInt32(n + 72) / 64 * 64
  {
    hide FloorHalve, ShiftLeft, ToUint32, ToInt32;
    var s := ToInt32(n + 72);
    HalveSixTimes(s);
    ShiftBySix(s / 64);
    RoundDown(s);
    Int32RoundTrip(64 * (s / 64));
  }

  lemma SignedLength(n: nat)
    ensures n < BYTE_LIMIT ==> ToInt32(n + 72) == n + 72
    ensures n >= BYTE_LIMIT ==> ToInt32(n + 72) < n
  {
    if n < BYTE_LIMIT {
      Int32RoundTrip(n + 72);
    } else if n < 0x8000_0000 {
      assert (n + 72) % MODULUS == n + 72;
    }
  }

  lemma SameMultiple(p: int, q: int, n: int)
    requires p % 64 == q % 64 == 0
    requires n <= p < n + 64 && n <= q < n + 64
    ensures p == q
  {
  }

  /**
   * The signed shifts give the standard's padded length exactly below the limit;
   * from the limit on they give a length the buffer calls reject.
   */
  lemma PaddedLengthIsExact(message: seq<Byte>)
    requires |message| < 0x2000_0000_0000_0000
    ensures |message| < BYTE_LIMIT ==> PaddedLength(|message|) == |Pad(message)|
    ensures |message| >= BYTE_LIMIT ==> PaddedLength(|message|) < |message|
  {
    hide PaddedLength, Pad, ToInt32;
    var n := |message|;
    PaddedLengthRounds(n);
    SignedLength(n);
    RoundDown(ToInt32(n + 72));
    PadFillsBlocks(message);
    if n < BYTE_LIMIT {
      SameMultiple(PaddedLength(n), |Pad(message)|, n + 9);
    }
  }

  // ----- The loops -----

  /** `view.setUint32(offset, value, false)`. */
  method SetUint32(data: array<Byte>, offset: nat, value: Word)
    requires offset + 4 <= data.Length
    modifies data
    ensures data[..] == old(data[..offset]) + BigEndian32(value) + old(data[offset + 4..])
  {
    var bytes := BigEndian32(value);
    data[offset] := bytes[0];
    data[offset + 1] := bytes[1];
    data[offset + 2] := bytes[2];
    data[offset + 3] := bytes[3];
  }

  method PadBuffer(bytes: seq<Byte>) returns (data: array<Byte>)
    requires |bytes| < BYTE_LIMIT
    ensures fresh(data) && data[..] == Pad(bytes)
  {
    var n, bitLength := |bytes|, 8 * |bytes|;
    PaddedLengthIsExact(bytes);
    PadFillsBlocks(bytes);
    WriteLength(bytes, PaddedLength(n));
    hide PaddedLength, BigEndian32, Pad, ToUint32;
    var paddedLength := PaddedLength(n);
    data := new Byte[paddedLength](_ => 0);
    for i := 0 to n
      invariant forall j :: 0 <= j < i ==> data[j] == bytes[j]
      invariant forall j :: i <= j < paddedLength ==> data[j] == 0
    {
      data[i] := bytes[i];
    }
    data[n] := 0x80;
    assert data[..paddedLength - 8] == bytes + [0x80] + Zeros(paddedLength - n - 9);
    SetUint32(data, paddedLength - 8, bitLength / MODULUS);
    assert data[..paddedLength - 4] == bytes + [0x80] + Zeros(paddedLength - n - 9) + BigEndian32(bitLength / MODULUS);
    SetUint32(data, paddedLength - 4, ToUint32(bitLength));
  }

  lemma WriteLength(bytes: seq<Byte>, paddedLength: nat)
    requires |bytes| < BYTE_LIMIT && paddedLength == |Pad(bytes)|
    ensures ZeroCount(|bytes|) == paddedLength - |bytes| - 9
    ensures ToUint32(8 * |bytes|) == (8 * |bytes|) % MODULUS
    ensures Pad(bytes) == bytes + [0x80] + Zeros(paddedLength - |bytes| - 9)
      + BigEndian32(8 * |bytes| / MODULUS) + BigEndian32(ToUint32(8 * |bytes|))
  {
  }

  /** Fills the reused schedule array for the block at `offset`. */
  method FillSchedule(data: array<Byte>, offset: nat, w: array<Word>, ghost block: seq<Byte>)
    requires offset + 64 <= data.Length && w.Length == 64
    requires data as object != w as object
    requires block == data[offset..offset + 64]
    modifies w
    ensures forall j :: 0 <= j < 64 ==> w[j] == Schedule(block, j)
  {
    hide ReadWord, Add, SmallSigma0, SmallSigma1, JsScheduleWord;
    for i := 0 to 16
      invariant forall j :: 0 <= j < i ==> w[j] == Schedule(block, j)
    {
      w[i] := ReadWord(data[offset..offset + 64], 4 * i);
    }
    for i := 16 to 64
      invariant forall j :: 0 <= j < i ==> w[j] == Schedule(block, j)
    {
      ScheduleWordRefines(w[i - 16], w[i - 15], w[i - 7], w[i - 2]);
      w[i] := JsScheduleWord(w[i - 16], w[i - 15], w[i - 7], w[i - 2]);
    }
  }

  /** The 64 rounds on eight rotating variables. */
  method RunRounds(s: State, w: array<Word>, ghost block: seq<Byte>) returns (r: State)
    requires w.Length == 64 && |block| == 64
    requires forall j :: 0 <= j < 64 ==> w[j] == Schedule(block, j)
    ensures r == Rounds(s, block, 64)
  {
    hide Schedule, K, Add, BigSigma0, BigSigma1, Ch, Maj, JsTemp1, JsTemp2;
    var a, b, c, d, e, f, g, hh := s.a, s.b, s.c, s.d, s.e, s.f, s.g, s.h;
    for i := 0 to 64
      invariant State(a, b, c, d, e, f, g, hh) == Rounds(s, block, i)
    {
      Temp1Refines(e, f, g, hh, K(i), w[i]);
      Temp2Refines(a, b, c);
      var temp1 := JsTemp1(e, f, g, hh, K(i), w[i]);
      var temp2 := JsTemp2(a, b, c);
      hh := g; g := f; f := e; e := Add32(d, temp1);
      d := c; c := b; b := a; a := Add32(temp1, temp2);
    }
    r := State(a, b, c, d, e, f, g, hh);
  }

  /** `(x + y) >>> 0`. */
  function Add32(x: Word, y: Word): (r: Word)
    ensures r == Add(x, y)
  {
    ToUint32(Plus(x, y))
  }

  lemma FirstBlock(padded: seq<Byte>)
    ensures HashBlocks(padded, 0) == INITIAL
  {
  }

  lemma HashNextBlock(padded: seq<Byte>, n: nat)
    requires 64 * n + 64 <= |padded|
    ensures HashBlocks(padded, n + 1) ==
      AddStates(HashBlocks(padded, n), Rounds(HashBlocks(padded, n), padded[64 * n..64 * n + 64], 64))
  {
    hide Rounds, AddStates;
  }

  /** The loop over 64-byte blocks. */
  method HashBuffer(data: array<Byte>) returns (s: State)
    requires data.Length % 64 == 0
    ensures s == HashBlocks(data[..], data.Length / 64)
  {
    hide Rounds, Add, Add32, HashBlocks;
    FirstBlock(data[..]);
    var w := new Word[64](_ => 0);
    s := INITIAL;
    var offset := 0;
    ghost var n := 0;
    while offset < data.Length
      invariant 0 <= offset == 64 * n <= data.Length
      invariant data[..] == old(data[..])
      invariant s == HashBlocks(data[..], n)
      decreases data.Length - offset
    {
      ghost var block := data[offset..offset + 64];
      FillSchedule(data, offset, w, block);
      var r := RunRounds(s, w, block);
      HashNextBlock(data[..], n);
      assert data[..][64 * n..64 * n + 64] == block;
      s := State(Add32(s.a, r.a), Add32(s.b, r.b), Add32(s.c, r.c), Add32(s.d, r.d),
                 Add32(s.e, r.e), Add32(s.f, r.f), Add32(s.g, r.g), Add32(s.h, r.h));
      offset, n := offset + 64, n + 1;
    }
  }

  /** `sha256Hex` on encoded bytes; `None` where the buffer calls throw a RangeError. */
  method HashToHex(bytes: seq<Byte>) returns (hex: Option<Text>)
    requires |bytes| < 0x2000_0000_0000_0000
    ensures hex == if |bytes| < BYTE_LIMIT then Some(HexOf(Digest(bytes))) else None
  {
    hide PaddedLength, Pad, HexOf, HashBlocks;
    PaddedLengthIsExact(bytes);
    PadFillsBlocks(bytes);
    if PaddedLength(|bytes|) < 0 || PaddedLength(|bytes|) < |bytes| {
      return None;
    }
    var data := PadBuffer(bytes);
    var s := HashBuffer(data);
    hex := Some(ConcatHex(s));
  }

  /** `[h0, ..., h7].map((part) => part.toString(16).padStart(8, "0")).join("")`. */
  function ConcatHex(s: State): (t: Text)
    ensures t == HexOf(s)
  {
    Pow16Of8();
    PaddedHexIsFixed(s.a, 8); PaddedHexIsFixed(s.b, 8); PaddedHexIsFixed(s.c, 8); PaddedHexIsFixed(s.d, 8);
    PaddedHexIsFixed(s.e, 8); PaddedHexIsFixed(s.f, 8); PaddedHexIsFixed(s.g, 8); PaddedHexIsFixed(s.h, 8);
    PadStart(ToHex(s.a), 8) + PadStart(ToHex(s.b), 8) + PadStart(ToHex(s.c), 8) + PadStart(ToHex(s.d), 8)
    + PadStart(ToHex(s.e), 8) + PadStart(ToHex(s.f), 8) + PadStart(ToHex(s.g), 8) + PadStart(ToHex(s.h), 8)
  }
}
