/** The 32-bit input hash of the AI cache (`djb2`). */
module InputHash {
  import opened Words
  import opened JsNumber
  import opened JsText
  import opened JsonTree
  import opened JsonString
  import opened StableJson

  /** `(hash << 5) - hash + c`, cut to 32 signed bits. */
  function Step(hash: int, c: Unit): (r: int)
    requires -0x8000_0000 <= hash < 0x8000_0000
    ensures -0x8000_0000 <= r < 0x8000_0000
  {
    ToInt32(Plus(Plus(Shl(hash, 5), -hash), c))
  }

  /** The polynomial in 31 whose coefficients are the code units, last unit lowest. */
  function Polynomial(s: Text): nat {
    if |s| == 0 then 0 else 31 * Polynomial(s[..|s| - 1]) + s[|s| - 1]
  }

  /** `n.toString(36)`. */
  function ToBase36(n: nat): (t: Text)
    ensures |t| > 0
  {
    if n < 36 then [Digit(n)] else ToBase36(n / 36) + [Digit(n % 36)]
  }

  function Djb2(s: Text): Text {
    ToBase36(ToUint32(Polynomial(s)))
  }

  lemma TimesTwo(x: Word, y: int)
    requires x == ToUint32(y)
    ensures (2 * x) % MODULUS == ToUint32(2 * y)
  {
    PlusModulo(y, y);
  }

  lemma ShiftByFive(x: int)
    ensures ShiftLeft(ToUint32(x), 5) == ToUint32(32 * x)
  {
    var x0 := ToUint32(x);
    var x1 := (2 * x0) % MODULUS;
    var x2 := (2 * x1) % MODULUS;
    var x3 := (2 * x2) % MODULUS;
    var x4 := (2 * x3) % MODULUS;
    assert ShiftLeft(x0, 5) == ShiftLeft(x1, 4) == ShiftLeft(x2, 3);
    assert ShiftLeft(x2, 3) == ShiftLeft(x3, 2) == ShiftLeft(x4, 1) == (2 * x4) % MODULUS;
    hide ShiftLeft, ToUint32;
    TimesTwo(x0, x);
    TimesTwo(x1, 2 * x);
    TimesTwo(x2, 4 * x);
    TimesTwo(x3, 8 * x);
    TimesTwo(x4, 16 * x);
  }

  lemma SameModulo(x: int, y: int, d: int)
    requires ToUint32(x) == ToUint32(y)
    ensures ToUint32(x + d) == ToUint32(y + d)
  {
    PlusModulo(x, d);
    PlusModulo(y, d);
  }

  lemma StepModulo(hash: int, c: Unit, p: nat)
    requires -0x8000_0000 <= hash < 0x8000_0000 && ToUint32(hash) == ToUint32(p)
    ensures ToUint32(Step(hash, c)) == ToUint32(31 * p + c)
  {
    hide ToUint32, ShiftLeft, ToInt32;
    ShlModulo(hash, 5);
    ShiftByFive(hash);
    SameModulo(Shl(hash, 5), 32 * hash, c - hash);
    SignIsLostModulo(Shl(hash, 5) - hash + c);
    TimesThirtyOne(hash, p, c);
  }

  lemma TimesThirtyOne(x: int, y: int, c: int)
    requires ToUint32(x) == ToUint32(y)
    ensures ToUint32(31 * x + c) == ToUint32(31 * y + c)
  {
    var q := (x - y) / MODULUS;
    assert x - y == MODULUS * q;
    assert 31 * x + c == 31 * y + c + MODULUS * (31 * q);
  }

  /** The loop over code units keeps the polynomial modulo 2^32, whatever the signs on the way. */
  method ComputeHash(s: Text) returns (t: Text)
    ensures t == Djb2(s)
  {
    hide ToUint32, Step, ToBase36;
    var hash := 0;
    assert Polynomial(s[..0]) == 0;
    for i := 0 to |s|
      invariant -0x8000_0000 <= hash < 0x8000_0000
      invariant ToUint32(hash) == ToUint32(Polynomial(s[..i]))
    {
      assert s[..i + 1][..i] == s[..i];
      StepModulo(hash, s[i], Polynomial(s[..i]));
      hash := Step(hash, s[i]);
    }
    assert s[..|s|] == s;
    t := ToBase36(ToUint32(hash));
  }

  lemma {:induction false} Base36Injective(m: nat, n: nat)
    requires ToBase36(m) == ToBase36(n)
    ensures m == n
  {
    var p, q := ToBase36(m), ToBase36(n);
    assert p[|p| - 1] == Digit(m % 36) && q[|q| - 1] == Digit(n % 36);
    if m >= 36 && n >= 36 {
      assert p[..|p| - 1] == ToBase36(m / 36) && q[..|q| - 1] == ToBase36(n / 36);
      Base36Injective(m / 36, n / 36);
    }
  }

  /** Two inputs share a hash exactly when their polynomials agree modulo 2^32. */
  lemma SameHash(a: Text, b: Text)
    ensures Djb2(a) == Djb2(b) <==> Polynomial(a) % MODULUS == Polynomial(b) % MODULUS
  {
    if Djb2(a) == Djb2(b) {
      Base36Injective(ToUint32(Polynomial(a)), ToUint32(Polynomial(b)));
    }
  }

  /** The hash of an input tree, as the cache computes it. */
  function InputHashOf(input: Json): Text {
    Djb2(Stringify(HashText, input))
  }

  lemma QuoteTwo(x: Unit, y: Unit)
    requires 0x40 < x < 0x5B && 0x40 < y < 0x7B && y != 0x5C
    ensures Quote([x, y]) == [0x22, x, y, 0x22]
  {
    assert [x, y][1..] == [y] && [y][1..] == [];
    assert Escape([y]) == [y] + Escape([]);
    assert Escape([x, y]) == [x] + Escape([y]);
  }

  lemma PolynomialOfFour(a: Unit, b: Unit, c: Unit, d: Unit)
    ensures Polynomial([a, b, c, d]) == 31 * (31 * (31 * a + b) + c) + d
  {
    assert [a][..0] == [] && [a, b][..1] == [a];
    assert [a, b, c][..2] == [a, b] && [a, b, c, d][..3] == [a, b, c];
    assert Polynomial([a]) == 31 * Polynomial([]) + a;
    assert Polynomial([a, b]) == 31 * Polynomial([a]) + b;
    assert Polynomial([a, b, c]) == 31 * Polynomial([a, b]) + c;
  }

  /** So inputs with different meanings can share a hash, and the cache cannot rely on it alone. */
  lemma DifferentInputsShareAHash()
    ensures InputHashOf(String([0x41, 0x61])) == InputHashOf(String([0x42, 0x42]))
    ensures MeaningOf(String([0x41, 0x61])) != MeaningOf(String([0x42, 0x42]))
  {
    QuoteTwo(0x41, 0x61);
    QuoteTwo(0x42, 0x42);
    PolynomialOfFour(0x22, 0x41, 0x61, 0x22);
    PolynomialOfFour(0x22, 0x42, 0x42, 0x22);
    assert [0x41, 0x61][0] != [0x42, 0x42][0];
  }
}
