/**
 * SHA-256: the functions of FIPS 180-4, and the padding and block loops of
 * `sha256Hex`, which are proved to compute them.
 */
module Sha256Spec {
  import opened Words
  import opened Sha256Constants

  datatype State = State(a: Word, b: Word, c: Word, d: Word, e: Word, f: Word, g: Word, h: Word)

  const INITIAL := State(H[0], H[1], H[2], H[3], H[4], H[5], H[6], H[7])

  function K(t: nat): Word
    requires t < 64
  {
    ROUND_CONSTANTS[t]
  }

  // ----- Section 4.1.2: functions -----

  function WordXor(x: Word, y: Word): Word { Combine(Gate.Xor, x, y) }

  function WordAnd(x: Word, y: Word): Word { Combine(Gate.And, x, y) }

  function Rotr(x: Word, n: nat): Word
    requires n <= 32
  {
    Combine(Gate.Or, ShiftRight(x, n), ShiftLeft(x, 32 - n))
  }

  function Ch(x: Word, y: Word, z: Word): Word { WordXor(WordAnd(x, y), WordAnd(Complement(x), z)) }

  function Maj(x: Word, y: Word, z: Word): Word { WordXor(WordXor(WordAnd(x, y), WordAnd(x, z)), WordAnd(y, z)) }

  function BigSigma0(x: Word): Word { WordXor(WordXor(Rotr(x, 2), Rotr(x, 13)), Rotr(x, 22)) }

  function BigSigma1(x: Word): Word { WordXor(WordXor(Rotr(x, 6), Rotr(x, 11)), Rotr(x, 25)) }

  function SmallSigma0(x: Word): Word { WordXor(WordXor(Rotr(x, 7), Rotr(x, 18)), ShiftRight(x, 3)) }

  function SmallSigma1(x: Word): Word { WordXor(WordXor(Rotr(x, 17), Rotr(x, 19)), ShiftRight(x, 10)) }

  // ----- Section 5.1.1: padding -----

  function BigEndian32(w: Word): (bytes: seq<Byte>)
    ensures |bytes| == 4
  {
    [w / 0x100_0000, w / 0x1_0000 % 0x100, w / 0x100 % 0x100, w % 0x100]
  }

  function Zeros(n: nat): (z: seq<Byte>)
    ensures |z| == n
  {
    seq(n, i => 0)
  }

  /** The least number of zero bytes after the 0x80 that leaves room for exactly 8 more. */
  function ZeroCount(n: nat): (k: nat)
    ensures k < 64 && (n + 1 + k) % 64 == 56
  {
    (55 - n) % 64
  }

  function Pad(message: seq<Byte>): seq<Byte>
    requires |message| < 0x2000_0000_0000_0000
  {
    var bits := 8 * |message|;
    message + [0x80] + Zeros(ZeroCount(|message|))
    + BigEndian32(bits / MODULUS) + BigEndian32(bits % MODULUS)
  }

  // ----- Section 6.2: the hash computation -----

  function ReadWord(bytes: seq<Byte>, i: nat): Word
    requires i + 4 <= |bytes|
  {
    var b0: int, b1: int, b2: int, b3: int := bytes[i], bytes[i + 1], bytes[i + 2], bytes[i + 3];
    b0 * 0x100_0000 + b1 * 0x1_0000 + b2 * 0x100 + b3
  }

  function Schedule(block: seq<Byte>, t: nat): Word
    requires |block| == 64 && t < 64
  {
    if t < 16 then ReadWord(block, 4 * t)
    else Add(Add(Add(SmallSigma1(Schedule(block, t - 2)), Schedule(block, t - 7)),
                 SmallSigma0(Schedule(block, t - 15))), Schedule(block, t - 16))
  }

  function Round(s: State, k: Word, w: Word): State {
    var t1 := Add(Add(Add(Add(s.h, BigSigma1(s.e)), Ch(s.e, s.f, s.g)), k), w);
    var t2 := Add(BigSigma0(s.a), Maj(s.a, s.b, s.c));
    State(Add(t1, t2), s.a, s.b, s.c, Add(s.d, t1), s.e, s.f, s.g)
  }

  function Rounds(s: State, block: seq<Byte>, t: nat): State
    requires |block| == 64 && t <= 64
  {
    if t == 0 then s else Round(Rounds(s, block, t - 1), K(t - 1), Schedule(block, t - 1))
  }

  function AddStates(s: State, r: State): State {
    State(Add(s.a, r.a), Add(s.b, r.b), Add(s.c, r.c), Add(s.d, r.d),
          Add(s.e, r.e), Add(s.f, r.f), Add(s.g, r.g), Add(s.h, r.h))
  }

  /** The hash value after the first `n` blocks of the padded message. */
  function HashBlocks(padded: seq<Byte>, n: nat): State
    requires 64 * n <= |padded|
  {
    if n == 0 then INITIAL
    else
      var s := HashBlocks(padded, n - 1);
      AddStates(s, Rounds(s, padded[64 * (n - 1)..64 * n], 64))
  }

  function Digest(message: seq<Byte>): State
    requires |message| < 0x2000_0000_0000_0000
  {
    PadFillsBlocks(message);
    HashBlocks(Pad(message), |Pad(message)| / 64)
  }

  /** The padded length is the least multiple of 64 that leaves room for 9 more bytes. */
  lemma PadFillsBlocks(message: seq<Byte>)
    requires |message| < 0x2000_0000_0000_0000
    ensures |Pad(message)| % 64 == 0
    ensures |message| + 9 <= |Pad(message)| < |message| + 9 + 64
  {
    var n, k := |message|, ZeroCount(|message|);
    assert |Pad(message)| == n + 1 + k + 8;
    hide Pad, ZeroCount;
    EightMoreFills(n + 1 + k);
  }

  lemma EightMoreFills(m: nat)
    requires m % 64 == 56
    ensures (m + 8) % 64 == 0
  {
    assert m + 8 == 64 * (m / 64 + 1);
  }
}

/** The arithmetic of one schedule word and one round, as the JavaScript writes it. */
module Sha256Js {
  import opened Words
  import opened JsNumber
  import opened Sha256Spec

  function JsRotr(x: int, n: nat): (r: int)
    requires n <= 32
    ensures -0x8000_0000 <= r < 0x8000_0000
  {
    BitOp(Gate.Or, Ushr(x, n), Shl(x, 32 - n))
  }

  function JsXor3(x: int, y: int, z: int): (r: int)
    ensures -0x8000_0000 <= r < 0x8000_0000
  {
    BitOp(Gate.Xor, BitOp(Gate.Xor, x, y), z)
  }

  lemma JsRotrModulo(x: int, n: nat)
    requires n <= 32
    ensures ToUint32(JsRotr(x, n)) == Rotr(ToUint32(x), n)
  {
    hide Combine, ShiftLeft, ShiftRight, BitOp, Shl;
    BitOpModulo(Gate.Or, Ushr(x, n), Shl(x, 32 - n));
    ShlModulo(x, 32 - n);
  }

  lemma JsXor3Modulo(x: int, y: int, z: int)
    ensures ToUint32(JsXor3(x, y, z)) == WordXor(WordXor(ToUint32(x), ToUint32(y)), ToUint32(z))
  {
    hide Combine, BitOp;
    BitOpModulo(Gate.Xor, x, y);
    BitOpModulo(Gate.Xor, BitOp(Gate.Xor, x, y), z);
  }

  function JsScheduleWord(w16: Word, w15: Word, w7: Word, w2: Word): Word {
    var s0 := JsXor3(JsRotr(w15, 7), JsRotr(w15, 18), Ushr(w15, 3));
    var s1 := JsXor3(JsRotr(w2, 17), JsRotr(w2, 19), Ushr(w2, 10));
    ToUint32(Plus(Plus(Plus(w16, s0), w7), s1))
  }

  function JsTemp1(e: Word, f: Word, g: Word, hh: Word, k: Word, w: Word): Word {
    var S1 := JsXor3(JsRotr(e, 6), JsRotr(e, 11), JsRotr(e, 25));
    var ch := BitOp(Gate.Xor, BitOp(Gate.And, e, f), BitOp(Gate.And, BitNot(e), g));
    ToUint32(Plus(Plus(Plus(Plus(hh, S1), ch), k), w))
  }

  function JsTemp2(a: Word, b: Word, c: Word): Word {
    var S0 := JsXor3(JsRotr(a, 2), JsRotr(a, 13), JsRotr(a, 22));
    var maj := JsXor3(BitOp(Gate.And, a, b), BitOp(Gate.And, a, c), BitOp(Gate.And, b, c));
    ToUint32(Plus(S0, maj))
  }

  lemma WordIsUint32(x: Word)
    ensures ToUint32(x) == x
  {
  }

  /** Signed terms and unsigned terms summed in doubles are the FIPS sum modulo 2^32. */
  lemma Sum4Modulo(p: int, q: int, r: int, s: int)
    ensures ToUint32(p + q + r + s) ==
      Add(Add(Add(ToUint32(s), ToUint32(r)), ToUint32(q)), ToUint32(p))
  {
    hide ToUint32, Add;
    PlusModulo(s + r + q, p);
    PlusModulo(s + r, q);
    PlusModulo(s, r);
    assert p + q + r + s == s + r + q + p;
  }

  lemma Sum5Modulo(p: int, q: int, r: int, s: int, t: int)
    ensures ToUint32(p + q + r + s + t) ==
      Add(Add(Add(Add(ToUint32(p), ToUint32(q)), ToUint32(r)), ToUint32(s)), ToUint32(t))
  {
    hide ToUint32, Add;
    PlusModulo(p + q + r + s, t);
    PlusModulo(p + q + r, s);
    PlusModulo(p + q, r);
    PlusModulo(p, q);
  }

  lemma ScheduleWordRefines(w16: Word, w15: Word, w7: Word, w2: Word)
    ensures JsScheduleWord(w16, w15, w7, w2) ==
      Add(Add(Add(SmallSigma1(w2), w7), SmallSigma0(w15)), w16)
  {
    hide Combine, ShiftRight, JsRotr, JsXor3, Rotr, WordXor, ToUint32, Add;
    JsRotrModulo(w15, 7); JsRotrModulo(w15, 18); JsRotrModulo(w2, 17); JsRotrModulo(w2, 19);
    var s0 := JsXor3(JsRotr(w15, 7), JsRotr(w15, 18), Ushr(w15, 3));
    var s1 := JsXor3(JsRotr(w2, 17), JsRotr(w2, 19), Ushr(w2, 10));
    JsXor3Modulo(JsRotr(w15, 7), JsRotr(w15, 18), Ushr(w15, 3));
    JsXor3Modulo(JsRotr(w2, 17), JsRotr(w2, 19), Ushr(w2, 10));
    Sum4Modulo(w16, s0, w7, s1);
    WordIsUint32(w16); WordIsUint32(w15); WordIsUint32(w7); WordIsUint32(w2);
    WordIsUint32(Ushr(w15, 3)); WordIsUint32(Ushr(w2, 10));
  }

  lemma Temp1Refines(e: Word, f: Word, g: Word, hh: Word, k: Word, w: Word)
    ensures JsTemp1(e, f, g, hh, k, w) ==
      Add(Add(Add(Add(hh, BigSigma1(e)), Ch(e, f, g)), k), w)
  {
    hide Combine, JsRotr, JsXor3, BitOp, BitNot, Complement, Rotr, ToUint32, Add;
    JsRotrModulo(e, 6); JsRotrModulo(e, 11); JsRotrModulo(e, 25);
    JsXor3Modulo(JsRotr(e, 6), JsRotr(e, 11), JsRotr(e, 25));
    BitOpModulo(Gate.And, e, f);
    BitNotModulo(e);
    BitOpModulo(Gate.And, BitNot(e), g);
    var S1 := JsXor3(JsRotr(e, 6), JsRotr(e, 11), JsRotr(e, 25));
    var ch := BitOp(Gate.Xor, BitOp(Gate.And, e, f), BitOp(Gate.And, BitNot(e), g));
    BitOpModulo(Gate.Xor, BitOp(Gate.And, e, f), BitOp(Gate.And, BitNot(e), g));
    Sum5Modulo(hh, S1, ch, k, w);
    WordIsUint32(e); WordIsUint32(f); WordIsUint32(g); WordIsUint32(hh); WordIsUint32(k); WordIsUint32(w);
  }

  lemma Temp2Refines(a: Word, b: Word, c: Word)
    ensures JsTemp2(a, b, c) == Add(BigSigma0(a), Maj(a, b, c))
  {
    hide Combine, JsRotr, JsXor3, BitOp, Rotr, ToUint32, Add;
    JsRotrModulo(a, 2); JsRotrModulo(a, 13); JsRotrModulo(a, 22);
    JsXor3Modulo(JsRotr(a, 2), JsRotr(a, 13), JsRotr(a, 22));
    BitOpModulo(Gate.And, a, b);
    BitOpModulo(Gate.And, a, c);
    BitOpModulo(Gate.And, b, c);
    var S0 := JsXor3(JsRotr(a, 2), JsRotr(a, 13), JsRotr(a, 22));
    var maj := JsXor3(BitOp(Gate.And, a, b), BitOp(Gate.And, a, c), BitOp(Gate.And, b, c));
    JsXor3Modulo(BitOp(Gate.And, a, b), BitOp(Gate.And, a, c), BitOp(Gate.And, b, c));
    PlusModulo(S0, maj);
    WordIsUint32(a); WordIsUint32(b); WordIsUint32(c);
  }
}
