/** Mulberry32, the seeded pseudo-random generator that drives the roguelite
    encounter (class SeededRandom in roguelite.js).

    JavaScript's bit operators read their operands modulo 2^32 and Math.imul
    multiplies modulo 2^32, so the generator is 32-bit wrap-around arithmetic:
    the seed is kept as bv32 and the mixing rounds run on bv32. next()
    returns a 32-bit unsigned value u divided by 2^32; the model keeps the
    integer u and derives exactly the two ways the game reads it: the
    comparison with 0.5 and nextInt. */
module Mulberry32 {

  /** 2^32, the divisor next() applies to its 32-bit result. */
  const Modulus: nat := 0x1_0000_0000

  /** A value of next() times 2^32: a 32-bit unsigned integer. */
  type Word = x: int | 0 <= x < Modulus

  /** The odd constant every draw adds to the seed. */
  const Increment: bv32 := 0x6D2B79F5

  /** The 32 bits a generator built from an integer seed holds: ToUint32,
      the Euclidean remainder modulo 2^32, which Dafny's % computes. */
  function Reduce(seed: int): bv32 {
    (seed % Modulus) as bv32
  }

  /** `this.seed += 0x6D2B79F5`, as the bit operators read it: the seed
      moves by the increment modulo 2^32, so a draw never leaves it put. */
  function Advance(seed: bv32): (r: bv32)
    ensures r - seed == Increment && r != seed
  {
    seed + Increment
  }

  /** The two xor-shift/multiply rounds and the final xor-shift of next(),
      applied to the advanced seed. Math.imul is a bv32 product. */
  function Mix(t: bv32): bv32 {
    var t1 := (t ^ (t >> 15)) * (t | 1);
    var t2 := t1 ^ (t1 + (t1 ^ (t1 >> 7)) * (t1 | 61));
    t2 ^ (t2 >> 14)
  }

  function Pow2(k: nat): nat {
    if k == 0 then 1 else 2 * Pow2(k - 1)
  }

  lemma {:induction false} Pow2Adds(a: nat, b: nat)
    ensures Pow2(a + b) == Pow2(a) * Pow2(b)
  {
    if b != 0 {
      Pow2Adds(a, b - 1);
    }
  }

  lemma Pow2Is32Bits()
    ensures Pow2(32) == Modulus
  {
    assert Pow2(8) == 0x100;
    Pow2Adds(8, 8);
    Pow2Adds(16, 16);
  }

  /** The value of the low `k` bits of `b` read as an unsigned integer;
      with k = 32 it is `b >>> 0`. */
  function Unsigned(b: bv32, k: nat): (v: nat)
    ensures v < Pow2(k)
    decreases k
  {
    if k == 0 then 0 else (if b & 1 == 1 then 1 else 0) + 2 * Unsigned(b >> 1, k - 1)
  }

  /** The value next() returns from a generator holding `seed`, times 2^32:
      a Word, so the float next() returns lies in [0, 1). */
  function Draw(seed: bv32): Word {
    Pow2Is32Bits();
    Unsigned(Mix(Advance(seed)), 32)
  }

  /** The seed after `k` draws; read from the other end, the first draw
      followed by the remaining k - 1. */
  function Advanced(seed: bv32, k: nat): (r: bv32)
    ensures k > 0 ==> r == Advanced(Advance(seed), k - 1)
    decreases k
  {
    if k == 0 then seed else Advance(Advanced(seed, k - 1))
  }

  /** nextInt(min, max) on a draw u: floor(u / 2^32 * (max - min + 1)) + min.
      The divisor is positive, so Dafny's Euclidean division is the floor. */
  function Scale(u: nat, min: int, max: int): (r: int)
    requires u < Modulus
    ensures min <= max ==> min <= r <= max
  {
    var width := max - min + 1;
    if width >= 1 then
      ScaledBelowWidth(u, width);
      min + (u * width) / Modulus
    else
      min + (u * width) / Modulus
  }

  lemma ScaledBelowWidth(u: nat, width: nat)
    requires u < Modulus && 1 <= width
    ensures 0 <= (u * width) / Modulus < width
  {
    var q := (u * width) / Modulus;
    assert u * width < Modulus * width by {
      assert (Modulus - u) * width > 0;
    }
    assert Modulus * q <= u * width;
  }

  /** Advancing by `a` and then by `b` draws is advancing by `a + b` draws. */
  lemma {:induction false} AdvancedAdds(seed: bv32, a: nat, b: nat)
    ensures Advanced(Advanced(seed, a), b) == Advanced(seed, a + b)
  {
    if b != 0 {
      AdvancedAdds(seed, a, b - 1);
    }
  }

  /** Integer seeds that agree modulo 2^32 give the same generator, hence
      the same sequence of draws. */
  lemma SameGenerator(a: int, b: int)
    requires a % Modulus == b % Modulus
    ensures Reduce(a) == Reduce(b)
  {
  }

  /** next() returns u / 2^32 for a 32-bit unsigned u, a number in [0, 1). */
  lemma UnitInterval(u: nat)
    requires u < Modulus
    ensures 0.0 <= (u as real) / (Modulus as real) < 1.0
  {
  }

  /** `next() > 0.5` is the integer test u > 2^31 (u / 2^32 is exact). */
  lemma AboveHalf(u: nat)
    requires u < Modulus
    ensures (u as real) / (Modulus as real) > 0.5 <==> u > Modulus / 2
  {
  }

  /** Scale is Math.floor(next() * (max - min + 1)) + min read over the
      reals; the double arithmetic agrees with it while u * (max - min + 1)
      stays below 2^53, as it does for every range the game uses. */
  lemma ScaleIsFloor(u: nat, min: int, max: int)
    requires u < Modulus
    ensures Scale(u, min, max)
         == ((u as real) / (Modulus as real) * ((max - min + 1) as real)).Floor + min
  {
    var w := max - min + 1;
    var x := (u as real) / (Modulus as real) * (w as real);
    var q := (u * w) / Modulus;
    var rem := (u * w) % Modulus;
    assert u * w == q * Modulus + rem && 0 <= rem < Modulus;
    assert x == ((u * w) as real) / (Modulus as real);
    assert x == (q as real) + (rem as real) / (Modulus as real);
    assert (q as real) <= x < (q as real) + 1.0;
  }

  /** The first three values next() returns from a generator seeded with 42,
      times 2^32. */
  lemma DrawsFromSeed42()
    ensures Draw(Advanced(Reduce(42), 0)) == 2581720956
    ensures Draw(Advanced(Reduce(42), 1)) == 1925393290
    ensures Draw(Advanced(Reduce(42), 2)) == 3661312704
  {
    assert Reduce(42) == 42;
    assert Advanced(42, 1) == 1831565855;
    assert Advanced(42, 2) == 3663131668;
    FirstDrawOfSeed42();
    SecondDrawOfSeed42();
    ThirdDrawOfSeed42();
  }

  /** Draw number 1 of seed 42, through the mixing rounds and then bit
      by bit through the unsigned read. */
  lemma FirstDrawOfSeed42()
    ensures Draw(42) == 2581720956
  {
    var t: bv32 := Advance(42);
    assert t == 1831565855;
    var t1: bv32 := (t ^ (t >> 15)) * (t | 1);
    assert t1 == 65942231;
    var t2: bv32 := t1 ^ (t1 + (t1 ^ (t1 >> 7)) * (t1 | 61));
    assert t2 == 2581825778;
    assert Mix(t) == 2581720956;
    assert Unsigned(9, 4) == 9;
    assert Unsigned(153, 8) == 153;
    assert Unsigned(2462, 12) == 2462;
    assert Unsigned(39393, 16) == 39393;
    assert Unsigned(630302, 20) == 630302;
    assert Unsigned(10084847, 24) == 10084847;
    assert Unsigned(161357559, 28) == 161357559;
    assert Unsigned(2581720956, 32) == 2581720956;
  }

  /** Draw number 2 of seed 42, through the mixing rounds and then bit
      by bit through the unsigned read. */
  lemma SecondDrawOfSeed42()
    ensures Draw(1831565855) == 1925393290
  {
    var t: bv32 := Advance(1831565855);
    assert t == 3663131668;
    var t1: bv32 := (t ^ (t >> 15)) * (t | 1);
    assert t1 == 1526637357;
    var t2: bv32 := t1 ^ (t1 + (t1 ^ (t1 >> 7)) * (t1 | 61));
    assert t2 == 1925374081;
    assert Mix(t) == 1925393290;
    assert Unsigned(7, 4) == 7;
    assert Unsigned(114, 8) == 114;
    assert Unsigned(1836, 12) == 1836;
    assert Unsigned(29379, 16) == 29379;
    assert Unsigned(470066, 20) == 470066;
    assert Unsigned(7521067, 24) == 7521067;
    assert Unsigned(120337080, 28) == 120337080;
    assert Unsigned(1925393290, 32) == 1925393290;
  }

  /** Draw number 3 of seed 42, through the mixing rounds and then bit
      by bit through the unsigned read. */
  lemma ThirdDrawOfSeed42()
    ensures Draw(3663131668) == 3661312704
  {
    var t: bv32 := Advance(3663131668);
    assert t == 1199730185;
    var t1: bv32 := (t ^ (t >> 15)) * (t | 1);
    assert t1 == 2749857653;
    var t2: bv32 := t1 ^ (t1 + (t1 ^ (t1 >> 7)) * (t1 | 61));
    assert t2 == 3661126177;
    assert Mix(t) == 3661312704;
    assert Unsigned(13, 4) == 13;
    assert Unsigned(218, 8) == 218;
    assert Unsigned(3491, 12) == 3491;
    assert Unsigned(55867, 16) == 55867;
    assert Unsigned(893875, 20) == 893875;
    assert Unsigned(14302002, 24) == 14302002;
    assert Unsigned(228832044, 28) == 228832044;
    assert Unsigned(3661312704, 32) == 3661312704;
  }

  /** The generator of roguelite.js. The source keeps the seed field as an
      unbounded Number; every use of it goes through a bit operator, so only
      its value modulo 2^32 matters and that is what the field holds here. */
  class SeededRandom {
    var seed: bv32

    constructor (seed: int)
      ensures this.seed == Reduce(seed)
    {
      this.seed := Reduce(seed);
    }

    /** next(): advance the seed, mix it and return the 32-bit result (the
        source divides it by 2^32). */
    method Next() returns (u: nat)
      modifies this
      ensures seed == Advance(old(seed))
      ensures u == Draw(old(seed)) && u < Modulus
    {
      seed := Advance(seed);
      u := Unsigned(Mix(seed), 32);
    }

    /** nextInt(min, max): exactly one draw, scaled into [min, max]. */
    method NextInt(min: int, max: int) returns (r: int)
      modifies this
      ensures seed == Advance(old(seed))
      ensures r == Scale(Draw(old(seed)), min, max)
      ensures min <= max ==> min <= r <= max
    {
      var u := Next();
      r := Scale(u, min, max);
    }
  }
}
