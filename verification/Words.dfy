/** 32-bit words, and the JavaScript number operators that work on them. */
module Words {

  const MODULUS: int := 0x1_0000_0000

  type Word = x: int | 0 <= x < 0x1_0000_0000
  type Byte = x: int | 0 <= x < 256

  datatype Gate = And | Or | Xor

  function Pow2(n: nat): nat {
    if n == 0 then 1 else 2 * Pow2(n - 1)
  }

  function GateBit(g: Gate, p: nat, q: nat): (r: nat)
    ensures r <= 1
  {
    match g
    case And => if p == 1 && q == 1 then 1 else 0
    case Or => if p == 1 || q == 1 then 1 else 0
    case Xor => if p != q then 1 else 0
  }

  /** The gate applied to the lowest `n` bits of both operands. */
  function Bitwise(g: Gate, x: nat, y: nat, n: nat): (r: nat)
    ensures r < Pow2(n)
    decreases n, x, y
  {
    if n == 0 then 0 else 2 * Bitwise(g, x / 2, y / 2, n - 1) + GateBit(g, x % 2, y % 2)
  }

  lemma Pow2Of32()
    ensures Pow2(32) == MODULUS
  {
    assert Pow2(8) == 0x100;
    assert Pow2(16) == 0x1_0000;
    assert Pow2(24) == 0x100_0000;
  }

  function Combine(g: Gate, x: Word, y: Word): Word {
    Pow2Of32();
    Bitwise(g, x, y, 32)
  }

  function Complement(x: Word): Word {
    MODULUS - 1 - x
  }

  function ShiftLeft(x: Word, n: nat): Word
    decreases n, x
  {
    if n == 0 then x else ShiftLeft((2 * x) % MODULUS, n - 1)
  }

  function ShiftRight(x: Word, n: nat): Word
    decreases n, x
  {
    if n == 0 then x else ShiftRight(x / 2, n - 1)
  }

  /** Addition modulo 2^32. */
  function Add(x: Word, y: Word): Word {
    (x + y) % MODULUS
  }

  function Bit(x: Word, i: nat): (b: nat)
    ensures b <= 1
  {
    ShiftRight(x, i) % 2
  }

  /** `Bitwise` really is bit by bit: the gate acts on each position separately. */
  lemma {:induction false} BitwiseIsPointwise(g: Gate, x: Word, y: Word, n: nat, i: nat)
    requires i < n <= 32
    ensures Bitwise(g, x, y, n) < MODULUS
    ensures Bit(Bitwise(g, x, y, n), i) == GateBit(g, Bit(x, i), Bit(y, i))
    decreases n
  {
    BitwiseFits(g, x, y, n);
    var low, high := GateBit(g, x % 2, y % 2), Bitwise(g, x / 2, y / 2, n - 1);
    assert Bitwise(g, x, y, n) == 2 * high + low;
    if i == 0 {
      assert (2 * high + low) % 2 == low;
    } else {
      BitOfHalf(x, i);
      BitOfHalf(y, i);
      BitOfHalf(2 * high + low, i);
      assert (2 * high + low) / 2 == high;
      hide Bitwise, GateBit, Bit;
      BitwiseIsPointwise(g, x / 2, y / 2, n - 1, i - 1);
    }
  }

  lemma BitOfHalf(x: Word, i: nat)
    requires i > 0
    ensures Bit(x, i) == Bit(x / 2, i - 1)
  {
  }

  lemma {:induction false} BitwiseFits(g: Gate, x: nat, y: nat, n: nat)
    requires n <= 32
    ensures Bitwise(g, x, y, n) < MODULUS
    decreases 32 - n
  {
    Pow2Of32();
    if n < 32 {
      Pow2Grows(n, 32);
    }
  }

  lemma {:induction false} Pow2Grows(m: nat, n: nat)
    requires m <= n
    ensures Pow2(m) <= Pow2(n)
    decreases n - m
  {
    if m < n {
      Pow2Grows(m + 1, n);
    }
  }
}

/**
 * JavaScript numbers restricted to integers. A double holds every integer of
 * magnitude at most 2^53 exactly; `Plus` demands that its result is one.
 */
module JsNumber {
  import opened Words

  const MAX_EXACT: int := 0x20_0000_0000_0000

  /** Addition of doubles, where it is exact. */
  function Plus(x: int, y: int): (r: int)
    requires -MAX_EXACT <= x + y <= MAX_EXACT
  {
    x + y
  }

  /** `x >>> 0`. */
  function ToUint32(x: int): Word {
    x % MODULUS
  }

  /** The conversion every bitwise operator except `>>>` ends with. */
  function ToInt32(x: int): (r: int)
    ensures -0x8000_0000 <= r < 0x8000_0000
  {
    var u := x % MODULUS;
    if u >= 0x8000_0000 then u - MODULUS else u
  }

  /** `x & y`, `x | y`, `x ^ y`: signed results. */
  function BitOp(g: Gate, x: int, y: int): (r: int)
    ensures -0x8000_0000 <= r < 0x8000_0000
  {
    ToInt32(Combine(g, ToUint32(x), ToUint32(y)))
  }

  /** `~x`. */
  function BitNot(x: int): (r: int)
    ensures -0x8000_0000 <= r < 0x8000_0000
  {
    ToInt32(Complement(ToUint32(x)))
  }

  /** `x << n`: a signed result. */
  function Shl(x: int, n: nat): (r: int)
    ensures -0x8000_0000 <= r < 0x8000_0000
  {
    ToInt32(ShiftLeft(ToUint32(x), n))
  }

  /** `x >>> n`: an unsigned result. */
  function Ushr(x: int, n: nat): Word {
    ShiftRight(ToUint32(x), n)
  }

  function FloorHalve(x: int, n: nat): int
    decreases n, x
  {
    if n == 0 then x else FloorHalve(x / 2, n - 1)
  }

  /** `x >> n`: shifts in copies of the sign. */
  function Sar(x: int, n: nat): int {
    FloorHalve(ToInt32(x), n)
  }

  lemma SignIsLostModulo(x: int)
    ensures ToUint32(ToInt32(x)) == ToUint32(x)
  {
  }

  lemma BitOpModulo(g: Gate, x: int, y: int)
    ensures ToUint32(BitOp(g, x, y)) == Combine(g, ToUint32(x), ToUint32(y))
  {
    hide Combine;
    SignIsLostModulo(Combine(g, ToUint32(x), ToUint32(y)));
  }

  lemma BitNotModulo(x: int)
    ensures ToUint32(BitNot(x)) == Complement(ToUint32(x))
  {
    SignIsLostModulo(Complement(ToUint32(x)));
  }

  lemma ShlModulo(x: int, n: nat)
    ensures ToUint32(Shl(x, n)) == ShiftLeft(ToUint32(x), n)
  {
    hide ShiftLeft;
    SignIsLostModulo(ShiftLeft(ToUint32(x), n));
  }

  lemma PlusModulo(x: int, y: int)
    ensures ToUint32(x + y) == Add(ToUint32(x), ToUint32(y))
  {
  }
}
