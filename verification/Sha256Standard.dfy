/** The functions and constants of FIPS 180-4, sections 4.1.2, 4.2.2 and 5.3.3,
    by what they must satisfy. */
module Sha256Standard {
  import opened Sha256

  // ---- Logical functions ----

  /** Each bit of the selector takes the bit of one of the two words. */
  lemma {:induction false} ChooseSelects(e: bv32, f: bv32, g: bv32)
    ensures Choose(e, f, g) & e == f & e
    ensures Choose(e, f, g) & !e == g & !e
  {
  }

  /** Wherever two words agree, the majority has their bit. */
  lemma {:induction false} MajorityAgrees(a: bv32, b: bv32, c: bv32)
    ensures Majority(a, b, c) & !(a ^ b) == a & !(a ^ b)
  {
  }

  lemma {:induction false} MajorityIgnoresOrder(a: bv32, b: bv32, c: bv32)
    ensures Majority(a, b, c) == Majority(b, a, c) && Majority(a, b, c) == Majority(a, c, b)
  {
  }

  /** The lowest bits of a word, `x % low`, moved to its front. */
  function LowToFront(x: bv32, low: bv32, front: bv32): bv32
    requires low != 0
  {
    x / low + (x % low) * front
  }

  /** A left rotation undoes the right rotation. */
  lemma {:induction false} RotrUndone(x: bv32, n: bv6)
    requires 0 < n < 32
    ensures (Rotr(x, n) << n) | (Rotr(x, n) >> (32 - n)) == x
  {
  }

  lemma {:induction false} Turn2(x: bv32)
    ensures Rotr(x, 2) == LowToFront(x, 0x4, 0x40000000)
  {
  }

  lemma {:induction false} Turn13(x: bv32)
    ensures Rotr(x, 13) == LowToFront(x, 0x2000, 0x80000)
  {
  }

  lemma {:induction false} Turn22(x: bv32)
    ensures Rotr(x, 22) == LowToFront(x, 0x400000, 0x400)
  {
  }

  lemma {:induction false} BigSigma0Turns(x: bv32)
    ensures BigSigma0(x) == LowToFront(x, 0x4, 0x40000000) ^ LowToFront(x, 0x2000, 0x80000) ^ LowToFront(x, 0x400000, 0x400)
  {
    hide Rotr, LowToFront;
    Turn2(x);
    Turn13(x);
    Turn22(x);
  }

  lemma {:induction false} Turn6(x: bv32)
    ensures Rotr(x, 6) == LowToFront(x, 0x40, 0x4000000)
  {
  }

  lemma {:induction false} Turn11(x: bv32)
    ensures Rotr(x, 11) == LowToFront(x, 0x800, 0x200000)
  {
  }

  lemma {:induction false} Turn25(x: bv32)
    ensures Rotr(x, 25) == LowToFront(x, 0x2000000, 0x80)
  {
  }

  lemma {:induction false} BigSigma1Turns(x: bv32)
    ensures BigSigma1(x) == LowToFront(x, 0x40, 0x4000000) ^ LowToFront(x, 0x800, 0x200000) ^ LowToFront(x, 0x2000000, 0x80)
  {
    hide Rotr, LowToFront;
    Turn6(x);
    Turn11(x);
    Turn25(x);
  }

  lemma {:induction false} Turn7(x: bv32)
    ensures Rotr(x, 7) == LowToFront(x, 0x80, 0x2000000)
  {
  }

  lemma {:induction false} Turn18(x: bv32)
    ensures Rotr(x, 18) == LowToFront(x, 0x40000, 0x4000)
  {
  }

  lemma {:induction false} Drop3(x: bv32)
    ensures x >> 3 == x / 0x8
  {
  }

  lemma {:induction false} SmallSigma0Turns(x: bv32)
    ensures SmallSigma0(x) == LowToFront(x, 0x80, 0x2000000) ^ LowToFront(x, 0x40000, 0x4000) ^ (x / 0x8)
  {
    hide Rotr, LowToFront;
    Turn7(x);
    Turn18(x);
    Drop3(x);
  }

  lemma {:induction false} Turn17(x: bv32)
    ensures Rotr(x, 17) == LowToFront(x, 0x20000, 0x8000)
  {
  }

  lemma {:induction false} Turn19(x: bv32)
    ensures Rotr(x, 19) == LowToFront(x, 0x80000, 0x2000)
  {
  }

  lemma {:induction false} Drop10(x: bv32)
    ensures x >> 10 == x / 0x400
  {
  }

  lemma {:induction false} SmallSigma1Turns(x: bv32)
    ensures SmallSigma1(x) == LowToFront(x, 0x20000, 0x8000) ^ LowToFront(x, 0x80000, 0x2000) ^ (x / 0x400)
  {
    hide Rotr, LowToFront;
    Turn17(x);
    Turn19(x);
    Drop10(x);
  }

  // ---- Constants ----

  /** The first 64 primes, eight to a row. */
  function PrimeRow(i: nat): (r: seq<nat>)
    requires i < 8
    ensures |r| == 8
  {
    match i
    case 0 => [2, 3, 5, 7, 11, 13, 17, 19]
    case 1 => [23, 29, 31, 37, 41, 43, 47, 53]
    case 2 => [59, 61, 67, 71, 73, 79, 83, 89]
    case 3 => [97, 101, 103, 107, 109, 113, 127, 131]
    case 4 => [137, 139, 149, 151, 157, 163, 167, 173]
    case 5 => [179, 181, 191, 193, 197, 199, 211, 223]
    case 6 => [227, 229, 233, 239, 241, 251, 257, 263]
    case _ => [269, 271, 277, 281, 283, 293, 307, 311]
  }

  function Prime(t: nat): nat
    requires t < 64
  {
    PrimeRow(t / 8)[t % 8]
  }

  /** No prime up to 17 other than the number divides it: below 361, a prime. */
  predicate Sieved(n: nat)
  {
    && 2 <= n < 361
    && (n == 2 || n % 2 != 0) && (n == 3 || n % 3 != 0) && (n == 5 || n % 5 != 0) && (n == 7 || n % 7 != 0)
    && (n == 11 || n % 11 != 0) && (n == 13 || n % 13 != 0) && (n == 17 || n % 17 != 0)
  }

  /** `k` is the first 32 bits of the fraction of the cube root of `p`. */
  ghost predicate CubeRootFraction(p: nat, k: bv32)
  {
    var root := if p < 8 then 1 else if p < 27 then 2 else if p < 64 then 3 else if p < 125 then 4 else if p < 216 then 5 else 6;
    var n := root * 0x1_0000_0000 + k as int;
    n * n * n <= p * 0x1_0000_0000_0000_0000_0000_0000 < (n + 1) * (n + 1) * (n + 1)
  }

  /** `h` is the first 32 bits of the fraction of the square root of `p`. */
  ghost predicate SquareRootFraction(p: nat, h: bv32)
  {
    var root := if p < 4 then 1 else if p < 9 then 2 else if p < 16 then 3 else 4;
    var n := root * 0x1_0000_0000 + h as int;
    n * n <= p * 0x1_0000_0000_0000_0000 < (n + 1) * (n + 1)
  }

  /** Entry `j` of row `i` is prime, and its constant its cube root's fraction. */
  ghost predicate EntryHolds(i: nat, j: nat)
    requires i < 8 && j < 8
  {
    Sieved(PrimeRow(i)[j]) && CubeRootFraction(PrimeRow(i)[j], ConstantRow(i)[j])
  }

  ghost predicate FrontHolds(i: nat)
    requires i < 8
  {
    EntryHolds(i, 0) && EntryHolds(i, 1) && EntryHolds(i, 2) && EntryHolds(i, 3)
  }

  ghost predicate BackHolds(i: nat)
    requires i < 8
  {
    EntryHolds(i, 4) && EntryHolds(i, 5) && EntryHolds(i, 6) && EntryHolds(i, 7)
  }

  lemma {:induction false} Front0()
    ensures FrontHolds(0)
  {
  }

  lemma {:induction false} Back0()
    ensures BackHolds(0)
  {
  }

  lemma {:induction false} Front1()
    ensures FrontHolds(1)
  {
  }

  lemma {:induction false} Back1()
    ensures BackHolds(1)
  {
  }

  lemma {:induction false} Front2()
    ensures FrontHolds(2)
  {
  }

  lemma {:induction false} Back2()
    ensures BackHolds(2)
  {
  }

  lemma {:induction false} Front3()
    ensures FrontHolds(3)
  {
  }

  lemma {:induction false} Back3()
    ensures BackHolds(3)
  {
  }

  lemma {:induction false} Front4()
    ensures FrontHolds(4)
  {
  }

  lemma {:induction false} Back4()
    ensures BackHolds(4)
  {
  }

  lemma {:induction false} Front5()
    ensures FrontHolds(5)
  {
  }

  lemma {:induction false} Back5()
    ensures BackHolds(5)
  {
  }

  lemma {:induction false} Front6()
    ensures FrontHolds(6)
  {
  }

  lemma {:induction false} Back6()
    ensures BackHolds(6)
  {
  }

  lemma {:induction false} Front7()
    ensures FrontHolds(7)
  {
  }

  lemma {:induction false} Back7()
    ensures BackHolds(7)
  {
  }

  lemma {:induction false} EveryRowHolds(i: nat)
    requires i < 8
    ensures FrontHolds(i) && BackHolds(i)
  {
    hide FrontHolds, BackHolds;
    match i {
      case 0 => Front0(); Back0();
      case 1 => Front1(); Back1();
      case 2 => Front2(); Back2();
      case 3 => Front3(); Back3();
      case 4 => Front4(); Back4();
      case 5 => Front5(); Back5();
      case 6 => Front6(); Back6();
      case _ => Front7(); Back7();
    }
  }

  lemma {:induction false} EveryEntryHolds(t: nat)
    requires t < 64
    ensures EntryHolds(t / 8, t % 8)
  {
    hide EntryHolds;
    EveryRowHolds(t / 8);
    var j := t % 8;
    assert j == 0 || j == 1 || j == 2 || j == 3 || j == 4 || j == 5 || j == 6 || j == 7;
  }

  lemma {:induction false} RowsAscend(i: nat)
    requires i < 8
    ensures forall j :: 0 <= j < 7 ==> PrimeRow(i)[j] < PrimeRow(i)[j + 1]
    ensures i < 7 ==> PrimeRow(i)[7] < PrimeRow(i + 1)[0]
  {
  }

  /** The list is ascending and holds only primes, from 2 to 311. */
  lemma {:induction false} PrimesAscend(t: nat)
    requires t < 64
    ensures Prime(0) == 2 && Prime(63) == 311
    ensures Sieved(Prime(t)) && (t < 63 ==> Prime(t) < Prime(t + 1))
  {
    hide Sieved, CubeRootFraction;
    var i, j := t / 8, t % 8;
    EveryEntryHolds(t);
    RowsAscend(i);
    assert if j < 7 then (t + 1) / 8 == i && (t + 1) % 8 == j + 1 else (t + 1) / 8 == i + 1 && (t + 1) % 8 == 0;
  }

  /** Round constant `t` is the fraction of the cube root of the prime `t`. */
  lemma {:induction false} ConstantsAreCubeRoots(t: nat)
    requires t < 64
    ensures CubeRootFraction(Prime(t), Constant(t))
  {
    hide Sieved, CubeRootFraction, PrimeRow, ConstantRow;
    EveryEntryHolds(t);
  }

  /** The initial hash value is the fractions of the first eight square roots. */
  lemma {:induction false} InitialIsSquareRoots()
    ensures forall j :: 0 <= j < 8 ==> SquareRootFraction(PrimeRow(0)[j], Initial()[j])
  {
  }
}
