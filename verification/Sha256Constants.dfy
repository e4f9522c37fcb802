/** The constants of SHA-256, checked against the primes FIPS 180-4 derives them from. */
module Sha256Constants {
  import opened Words

  // FIPS 180-4, section 4.2.2, eight constants a row.
  const K0: seq<Word> := [
    0x428a2f98, 0x71374491, 0xb5c0fbcf, 0xe9b5dba5,
    0x3956c25b, 0x59f111f1, 0x923f82a4, 0xab1c5ed5]
  const K1: seq<Word> := [
    0xd807aa98, 0x12835b01, 0x243185be, 0x550c7dc3,
    0x72be5d74, 0x80deb1fe, 0x9bdc06a7, 0xc19bf174]
  const K2: seq<Word> := [
    0xe49b69c1, 0xefbe4786, 0x0fc19dc6, 0x240ca1cc,
    0x2de92c6f, 0x4a7484aa, 0x5cb0a9dc, 0x76f988da]
  const K3: seq<Word> := [
    0x983e5152, 0xa831c66d, 0xb00327c8, 0xbf597fc7,
    0xc6e00bf3, 0xd5a79147, 0x06ca6351, 0x14292967]
  const K4: seq<Word> := [
    0x27b70a85, 0x2e1b2138, 0x4d2c6dfc, 0x53380d13,
    0x650a7354, 0x766a0abb, 0x81c2c92e, 0x92722c85]
  const K5: seq<Word> := [
    0xa2bfe8a1, 0xa81a664b, 0xc24b8b70, 0xc76c51a3,
    0xd192e819, 0xd6990624, 0xf40e3585, 0x106aa070]
  const K6: seq<Word> := [
    0x19a4c116, 0x1e376c08, 0x2748774c, 0x34b0bcb5,
    0x391c0cb3, 0x4ed8aa4a, 0x5b9cca4f, 0x682e6ff3]
  const K7: seq<Word> := [
    0x748f82ee, 0x78a5636f, 0x84c87814, 0x8cc70208,
    0x90befffa, 0xa4506ceb, 0xbef9a3f7, 0xc67178f2]

  const ROUND_CONSTANTS: seq<Word> := K0 + K1 + K2 + K3 + K4 + K5 + K6 + K7

  const P0: seq<nat> := [2, 3, 5, 7, 11, 13, 17, 19]
  const P1: seq<nat> := [23, 29, 31, 37, 41, 43, 47, 53]
  const P2: seq<nat> := [59, 61, 67, 71, 73, 79, 83, 89]
  const P3: seq<nat> := [97, 101, 103, 107, 109, 113, 127, 131]
  const P4: seq<nat> := [137, 139, 149, 151, 157, 163, 167, 173]
  const P5: seq<nat> := [179, 181, 191, 193, 197, 199, 211, 223]
  const P6: seq<nat> := [227, 229, 233, 239, 241, 251, 257, 263]
  const P7: seq<nat> := [269, 271, 277, 281, 283, 293, 307, 311]

  const FIRST_PRIMES: seq<nat> := P0 + P1 + P2 + P3 + P4 + P5 + P6 + P7

  function Cube(x: nat): nat { x * x * x }

  function CubeRootFloor(p: nat): nat {
    if p < 8 then 1 else if p < 27 then 2 else if p < 64 then 3
    else if p < 125 then 4 else if p < 216 then 5 else 6
  }

  /** `k` is the first 32 bits of the fractional part of the cube root of `p`. */
  predicate IsCubeRootFraction(k: Word, p: nat) {
    var r := CubeRootFloor(p) * MODULUS + k;
    Cube(CubeRootFloor(p)) <= p < Cube(CubeRootFloor(p) + 1) &&
    Cube(r) <= p * Cube(MODULUS) < Cube(r + 1)
  }

  /** Checked one by one, so that literal rows are evaluated. */
  predicate RowHolds(ks: seq<Word>, ps: seq<nat>)
    ensures RowHolds(ks, ps) ==> AreCubeRootFractions(ks, ps)
  {
    |ks| == |ps| && (|ks| == 0 || (IsCubeRootFraction(ks[0], ps[0]) && RowHolds(ks[1..], ps[1..])))
  }

  predicate AreCubeRootFractions(ks: seq<Word>, ps: seq<nat>) {
    |ks| == |ps| && forall i :: 0 <= i < |ks| ==> IsCubeRootFraction(ks[i], ps[i])
  }

  lemma Row0() ensures RowHolds(K0, P0) {}
  lemma Row1() ensures RowHolds(K1, P1) {}
  lemma Row2() ensures RowHolds(K2, P2) {}
  lemma Row3() ensures RowHolds(K3, P3) {}
  lemma Row4() ensures RowHolds(K4, P4) {}
  lemma Row5() ensures RowHolds(K5, P5) {}
  lemma Row6() ensures RowHolds(K6, P6) {}
  lemma Row7() ensures RowHolds(K7, P7) {}

  lemma AppendRow(ks: seq<Word>, ps: seq<nat>, ks': seq<Word>, ps': seq<nat>)
    requires AreCubeRootFractions(ks, ps) && RowHolds(ks', ps')
    ensures AreCubeRootFractions(ks + ks', ps + ps')
  {
    hide IsCubeRootFraction, RowHolds;
  }

  /** The 64 round constants are the ones section 4.2.2 derives from the first 64 primes. */
  lemma RoundConstantsAreCubeRoots()
    ensures |ROUND_CONSTANTS| == 64
    ensures AreCubeRootFractions(ROUND_CONSTANTS, FIRST_PRIMES)
  {
    hide AreCubeRootFractions, RowHolds;
    Row0(); Row1(); Row2(); Row3(); Row4(); Row5(); Row6(); Row7();
    AppendRow(K0, P0, K1, P1);
    AppendRow(K0 + K1, P0 + P1, K2, P2);
    AppendRow(K0 + K1 + K2, P0 + P1 + P2, K3, P3);
    AppendRow(K0 + K1 + K2 + K3, P0 + P1 + P2 + P3, K4, P4);
    AppendRow(K0 + K1 + K2 + K3 + K4, P0 + P1 + P2 + P3 + P4, K5, P5);
    AppendRow(K0 + K1 + K2 + K3 + K4 + K5, P0 + P1 + P2 + P3 + P4 + P5, K6, P6);
    AppendRow(K0 + K1 + K2 + K3 + K4 + K5 + K6, P0 + P1 + P2 + P3 + P4 + P5 + P6, K7, P7);
  }

  // FIPS 180-4, section 5.3.3.
  const H: seq<Word> := [
    0x6a09e667, 0xbb67ae85, 0x3c6ef372, 0xa54ff53a,
    0x510e527f, 0x9b05688c, 0x1f83d9ab, 0x5be0cd19]

  function SquareRootFloor(p: nat): nat {
    if p < 4 then 1 else if p < 9 then 2 else if p < 16 then 3 else 4
  }

  /** `k` is the first 32 bits of the fractional part of the square root of `p`. */
  predicate IsSquareRootFraction(k: Word, p: nat) {
    var r := SquareRootFloor(p) * MODULUS + k;
    SquareRootFloor(p) * SquareRootFloor(p) <= p < (SquareRootFloor(p) + 1) * (SquareRootFloor(p) + 1) &&
    r * r <= p * MODULUS * MODULUS < (r + 1) * (r + 1)
  }

  predicate AreSquareRootFractions(ks: seq<Word>, ps: seq<nat>)
    ensures AreSquareRootFractions(ks, ps) ==>
      |ks| == |ps| && forall i :: 0 <= i < |ks| ==> IsSquareRootFraction(ks[i], ps[i])
  {
    |ks| == |ps| &&
    (|ks| == 0 || (IsSquareRootFraction(ks[0], ps[0]) && AreSquareRootFractions(ks[1..], ps[1..])))
  }

  /** The initial state is the one section 5.3.3 derives from the first eight primes. */
  lemma InitialStateIsSquareRoots()
    ensures AreSquareRootFractions(H, P0)
  {
  }
}
