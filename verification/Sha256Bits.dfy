/** The word functions of section 4.1.2 of FIPS 180-4 bit by bit. */
module Sha256Bits {
  import opened Sha256

  function Half(x: Word): Word {
    x >> 1
  }

  predicate Odd(x: Word) {
    x & 1 == 1
  }

  function Xor(x: Word, y: Word): Word {
    x ^ y
  }

  /** Bit `i` of a word, counted from the least significant. */
  predicate Bit(x: Word, i: nat)
    decreases i
  {
    if i == 0 then Odd(x) else Bit(Half(x), i - 1)
  }

  /** Where `x` has a one, `Ch` takes the bit of `y`, elsewhere that of `z`. */
  lemma {:induction false} ChBit(x: Word, y: Word, z: Word, i: nat)
    ensures Bit(Ch(x, y, z), i) == if Bit(x, i) then Bit(y, i) else Bit(z, i)
    decreases i
  {
    hide Ch, Half, Odd;
    HalfCh(x, y, z);
    if i > 0 {
      ChBit(Half(x), Half(y), Half(z), i - 1);
    }
  }

  lemma HalfCh(x: Word, y: Word, z: Word)
    ensures Half(Ch(x, y, z)) == Ch(Half(x), Half(y), Half(z))
    ensures Odd(Ch(x, y, z)) == if Odd(x) then Odd(y) else Odd(z)
  {
  }

  /** `Maj` takes the bit that at least two of the three words have. */
  lemma {:induction false} MajBit(x: Word, y: Word, z: Word, i: nat)
    ensures Bit(Maj(x, y, z), i) == if Bit(x, i) == Bit(y, i) then Bit(x, i) else Bit(z, i)
    decreases i
  {
    hide Maj, Half, Odd;
    HalfMaj(x, y, z);
    if i > 0 {
      MajBit(Half(x), Half(y), Half(z), i - 1);
    }
  }

  lemma HalfMaj(x: Word, y: Word, z: Word)
    ensures Half(Maj(x, y, z)) == Maj(Half(x), Half(y), Half(z))
    ensures Odd(Maj(x, y, z)) == if Odd(x) == Odd(y) then Odd(x) else Odd(z)
  {
  }

  lemma {:induction false} XorBit(x: Word, y: Word, i: nat)
    ensures Bit(Xor(x, y), i) == (Bit(x, i) != Bit(y, i))
    decreases i
  {
    hide Xor, Half, Odd;
    HalfXor(x, y);
    if i > 0 {
      XorBit(Half(x), Half(y), i - 1);
    }
  }

  lemma HalfXor(x: Word, y: Word)
    ensures Half(Xor(x, y)) == Xor(Half(x), Half(y))
    ensures Odd(Xor(x, y)) == (Odd(x) != Odd(y))
  {
  }

  lemma {:induction false} NoBits(i: nat)
    ensures !Bit(0, i)
    decreases i
  {
    if i > 0 {
      assert Half(0) == 0;
      NoBits(i - 1);
    }
  }

  lemma BitDown(x: Word, i: nat)
    ensures Bit(x, i + 1) == Bit(Half(x), i)
  {
  }

  lemma ShiftSteps(x: Word)
    ensures Shr(x, 3) == Half(Half(Half(x)))
    ensures Shr(x, 10) == Half(Half(Shr(x, 8)))
    ensures Shr(Shr(Shr(Shr(x, 8), 8), 8), 8) == 0
  {
  }

  lemma ShiftEight(x: Word, i: nat)
    ensures Bit(Shr(x, 8), i) == Bit(x, i + 8)
  {
    var h1 := Half(x);
    var h2 := Half(h1);
    var h3 := Half(h2);
    var h4 := Half(h3);
    var h5 := Half(h4);
    var h6 := Half(h5);
    var h7 := Half(h6);
    assert Shr(x, 8) == Half(h7);
    hide Half, Shr, Bit;
    BitDown(x, i + 7);
    BitDown(h1, i + 6);
    BitDown(h2, i + 5);
    BitDown(h3, i + 4);
    BitDown(h4, i + 3);
    BitDown(h5, i + 2);
    BitDown(h6, i + 1);
    BitDown(h7, i);
  }

  /** Shifting right moves the bits down. */
  lemma ShiftBit(x: Word, i: nat)
    ensures Bit(Shr(x, 3), i) == Bit(x, i + 3)
    ensures Bit(Shr(x, 10), i) == Bit(x, i + 10)
  {
    hide Bit, Half, Shr;
    ShiftSteps(x);
    BitDown(x, i + 2);
    BitDown(Half(x), i + 1);
    BitDown(Half(Half(x)), i);
    ShiftEight(x, i + 2);
    BitDown(Shr(x, 8), i + 1);
    BitDown(Half(Shr(x, 8)), i);
  }

  /** There are no bits above the topmost. */
  lemma NoHighBits(x: Word, i: nat)
    requires i >= 32
    ensures !Bit(x, i)
  {
    hide Bit, Half, Shr;
    ShiftSteps(x);
    ShiftEight(x, i - 8);
    ShiftEight(Shr(x, 8), i - 16);
    ShiftEight(Shr(Shr(x, 8), 8), i - 24);
    ShiftEight(Shr(Shr(Shr(x, 8), 8), 8), i - 32);
    NoBits(i - 32);
  }

  /** The word whose only one is bit `j`. */
  function Single(j: nat): Word {
    if j < 16 then SingleLow(j) else SingleHigh(j)
  }

  function SingleLow(j: nat): Word {
    match j
    case 0 => 0x1 case 1 => 0x2 case 2 => 0x4 case 3 => 0x8 case 4 => 0x10 case 5 => 0x20 case 6 => 0x40 case 7 => 0x80
    case 8 => 0x100 case 9 => 0x200 case 10 => 0x400 case 11 => 0x800 case 12 => 0x1000 case 13 => 0x2000 case 14 => 0x4000 case _ => 0x8000
  }

  function SingleHigh(j: nat): Word {
    match j
    case 16 => 0x10000 case 17 => 0x20000 case 18 => 0x40000 case 19 => 0x80000 case 20 => 0x100000 case 21 => 0x200000 case 22 => 0x400000 case 23 => 0x800000
    case 24 => 0x1000000 case 25 => 0x2000000 case 26 => 0x4000000 case 27 => 0x8000000 case 28 => 0x10000000 case 29 => 0x20000000 case 30 => 0x40000000 case _ => 0x80000000
  }

  lemma {:induction false} SingleBit(j: nat, i: nat)
    requires j < 32
    ensures Bit(Single(j), i) <==> i == j
    decreases i
  {
    hide Half, Odd, Single;
    HalfSingle(j);
    if i > 0 && j > 0 {
      SingleBit(j - 1, i - 1);
    } else if i > 0 {
      NoBits(i - 1);
    }
  }

  lemma HalfSingle(j: nat)
    requires j < 32
    ensures Half(Single(j)) == if j == 0 then 0 else Single(j - 1)
    ensures Odd(Single(j)) <==> j == 0
  {
    hide Half, Odd, SingleLow, SingleHigh;
    if j < 16 {
      HalfLow(j);
    } else {
      HalfHigh(j);
    }
  }

  lemma HalfLow(j: nat)
    requires j < 16
    ensures Half(SingleLow(j)) == if j == 0 then 0 else SingleLow(j - 1)
    ensures Odd(SingleLow(j)) <==> j == 0
  {
  }

  lemma HalfHigh(j: nat)
    requires 16 <= j < 32
    ensures Half(SingleHigh(j)) == if j == 16 then SingleLow(15) else SingleHigh(j - 1)
    ensures !Odd(SingleHigh(j))
  {
  }

  /** The place `n` further up, counted around the word. */
  function Up(i: nat, n: nat): (k: nat)
    ensures k < 32
  {
    (i + n) % 32
  }

  lemma UpUp(i: nat, n: nat, m: nat)
    ensures Up(Up(i, n), m) == Up(i, n + m)
  {
  }

  /** Rotating right by `n` brings the bit `n` further up to bit `i`. */
  lemma Rotr1Bit(x: Word, i: nat)
    requires i < 32
    ensures Bit(Rotr(x, 1), i) == Bit(x, Up(i, 1))
  {
    hide Half, Xor, Single, Rotr, Bit, Odd;
    RotrOne(x);
    XorBit(Half(x), if Odd(x) then Single(31) else 0, i);
    SingleBit(31, i);
    NoBits(i);
    BitDown(x, i);
    NoHighBits(x, 32);
    BitZero(x);
  }

  lemma BitZero(x: Word)
    ensures Bit(x, 0) == Odd(x)
  {
  }

  lemma RotrOne(x: Word)
    ensures Rotr(x, 1) == Xor(Half(x), if Odd(x) then Single(31) else 0)
  {
  }

  lemma Rotr2(x: Word)
    ensures Rotr(x, 2) == Rotr(Rotr(x, 1), 1)
  {
  }

  lemma Rotr2Bit(x: Word, i: nat)
    requires i < 32
    ensures Bit(Rotr(x, 2), i) == Bit(x, Up(i, 2))
  {
    hide Rotr, Bit, Up;
    Rotr2(x);
    Rotr1Bit(Rotr(x, 1), i);
    Rotr1Bit(x, Up(i, 1));
    UpUp(i, 1, 1);
  }

  lemma Rotr4(x: Word)
    ensures Rotr(x, 4) == Rotr(Rotr(x, 2), 2)
  {
  }

  lemma Rotr4Bit(x: Word, i: nat)
    requires i < 32
    ensures Bit(Rotr(x, 4), i) == Bit(x, Up(i, 4))
  {
    hide Rotr, Bit, Up;
    Rotr4(x);
    Rotr2Bit(Rotr(x, 2), i);
    Rotr2Bit(x, Up(i, 2));
    UpUp(i, 2, 2);
  }

  lemma Rotr6(x: Word)
    ensures Rotr(x, 6) == Rotr(Rotr(x, 4), 2)
  {
  }

  lemma Rotr6Bit(x: Word, i: nat)
    requires i < 32
    ensures Bit(Rotr(x, 6), i) == Bit(x, Up(i, 6))
  {
    hide Rotr, Bit, Up;
    Rotr6(x);
    Rotr2Bit(Rotr(x, 4), i);
    Rotr4Bit(x, Up(i, 2));
    UpUp(i, 2, 4);
  }

  lemma Rotr7(x: Word)
    ensures Rotr(x, 7) == Rotr(Rotr(x, 6), 1)
  {
  }

  lemma Rotr7Bit(x: Word, i: nat)
    requires i < 32
    ensures Bit(Rotr(x, 7), i) == Bit(x, Up(i, 7))
  {
    hide Rotr, Bit, Up;
    Rotr7(x);
    Rotr1Bit(Rotr(x, 6), i);
    Rotr6Bit(x, Up(i, 1));
    UpUp(i, 1, 6);
  }

  lemma Rotr11(x: Word)
    ensures Rotr(x, 11) == Rotr(Rotr(x, 7), 4)
  {
  }

  lemma Rotr11Bit(x: Word, i: nat)
    requires i < 32
    ensures Bit(Rotr(x, 11), i) == Bit(x, Up(i, 11))
  {
    hide Rotr, Bit, Up;
    Rotr11(x);
    Rotr4Bit(Rotr(x, 7), i);
    Rotr7Bit(x, Up(i, 4));
    UpUp(i, 4, 7);
  }

  lemma Rotr13(x: Word)
    ensures Rotr(x, 13) == Rotr(Rotr(x, 11), 2)
  {
  }

  lemma Rotr13Bit(x: Word, i: nat)
    requires i < 32
    ensures Bit(Rotr(x, 13), i) == Bit(x, Up(i, 13))
  {
    hide Rotr, Bit, Up;
    Rotr13(x);
    Rotr2Bit(Rotr(x, 11), i);
    Rotr11Bit(x, Up(i, 2));
    UpUp(i, 2, 11);
  }

  lemma Rotr17(x: Word)
    ensures Rotr(x, 17) == Rotr(Rotr(x, 13), 4)
  {
  }

  lemma Rotr17Bit(x: Word, i: nat)
    requires i < 32
    ensures Bit(Rotr(x, 17), i) == Bit(x, Up(i, 17))
  {
    hide Rotr, Bit, Up;
    Rotr17(x);
    Rotr4Bit(Rotr(x, 13), i);
    Rotr13Bit(x, Up(i, 4));
    UpUp(i, 4, 13);
  }

  lemma Rotr18(x: Word)
    ensures Rotr(x, 18) == Rotr(Rotr(x, 17), 1)
  {
  }

  lemma Rotr18Bit(x: Word, i: nat)
    requires i < 32
    ensures Bit(Rotr(x, 18), i) == Bit(x, Up(i, 18))
  {
    hide Rotr, Bit, Up;
    Rotr18(x);
    Rotr1Bit(Rotr(x, 17), i);
    Rotr17Bit(x, Up(i, 1));
    UpUp(i, 1, 17);
  }

  lemma Rotr19(x: Word)
    ensures Rotr(x, 19) == Rotr(Rotr(x, 18), 1)
  {
  }

  lemma Rotr19Bit(x: Word, i: nat)
    requires i < 32
    ensures Bit(Rotr(x, 19), i) == Bit(x, Up(i, 19))
  {
    hide Rotr, Bit, Up;
    Rotr19(x);
    Rotr1Bit(Rotr(x, 18), i);
    Rotr18Bit(x, Up(i, 1));
    UpUp(i, 1, 18);
  }

  lemma Rotr22(x: Word)
    ensures Rotr(x, 22) == Rotr(Rotr(x, 18), 4)
  {
  }

  lemma Rotr22Bit(x: Word, i: nat)
    requires i < 32
    ensures Bit(Rotr(x, 22), i) == Bit(x, Up(i, 22))
  {
    hide Rotr, Bit, Up;
    Rotr22(x);
    Rotr4Bit(Rotr(x, 18), i);
    Rotr18Bit(x, Up(i, 4));
    UpUp(i, 4, 18);
  }

  lemma Rotr25(x: Word)
    ensures Rotr(x, 25) == Rotr(Rotr(x, 18), 7)
  {
  }

  lemma Rotr25Bit(x: Word, i: nat)
    requires i < 32
    ensures Bit(Rotr(x, 25), i) == Bit(x, Up(i, 25))
  {
    hide Rotr, Bit, Up;
    Rotr25(x);
    Rotr7Bit(Rotr(x, 18), i);
    Rotr18Bit(x, Up(i, 7));
    UpUp(i, 7, 18);
  }

  /** An odd number of the three. */
  predicate Odd3(p: bool, q: bool, r: bool) {
    (p != q) != r
  }

  lemma SigmaParts(x: Word)
    ensures BigSigma0(x) == Xor(Xor(Rotr(x, 2), Rotr(x, 13)), Rotr(x, 22))
    ensures BigSigma1(x) == Xor(Xor(Rotr(x, 6), Rotr(x, 11)), Rotr(x, 25))
    ensures SmallSigma0(x) == Xor(Xor(Rotr(x, 7), Rotr(x, 18)), Shr(x, 3))
    ensures SmallSigma1(x) == Xor(Xor(Rotr(x, 17), Rotr(x, 19)), Shr(x, 10))
  {
    hide Rotr, Shr;
  }

  /** Each sigma is the exclusive or of the bits at its three distances; a shift, unlike a rotation,
      brings in zeros (`NoHighBits`). */
  lemma BigSigma0Bit(x: Word, i: nat)
    requires i < 32
    ensures Bit(BigSigma0(x), i) == Odd3(Bit(x, Up(i, 2)), Bit(x, Up(i, 13)), Bit(x, Up(i, 22)))
  {
    hide Rotr, Shr, Bit, Xor, Up, BigSigma0;
    SigmaParts(x);
    var p, q, r := Rotr(x, 2), Rotr(x, 13), Rotr(x, 22);
    XorBit(Xor(p, q), r, i);
    XorBit(p, q, i);
    Rotr2Bit(x, i);
    Rotr13Bit(x, i);
    Rotr22Bit(x, i);
  }

  lemma BigSigma1Bit(x: Word, i: nat)
    requires i < 32
    ensures Bit(BigSigma1(x), i) == Odd3(Bit(x, Up(i, 6)), Bit(x, Up(i, 11)), Bit(x, Up(i, 25)))
  {
    hide Rotr, Shr, Bit, Xor, Up, BigSigma1;
    SigmaParts(x);
    var p, q, r := Rotr(x, 6), Rotr(x, 11), Rotr(x, 25);
    XorBit(Xor(p, q), r, i);
    XorBit(p, q, i);
    Rotr6Bit(x, i);
    Rotr11Bit(x, i);
    Rotr25Bit(x, i);
  }

  lemma SmallSigma0Bit(x: Word, i: nat)
    requires i < 32
    ensures Bit(SmallSigma0(x), i) == Odd3(Bit(x, Up(i, 7)), Bit(x, Up(i, 18)), Bit(x, i + 3))
  {
    hide Rotr, Shr, Bit, Xor, Up, SmallSigma0;
    SigmaParts(x);
    var p, q, r := Rotr(x, 7), Rotr(x, 18), Shr(x, 3);
    XorBit(Xor(p, q), r, i);
    XorBit(p, q, i);
    Rotr7Bit(x, i);
    Rotr18Bit(x, i);
    ShiftBit(x, i);
  }

  lemma SmallSigma1Bit(x: Word, i: nat)
    requires i < 32
    ensures Bit(SmallSigma1(x), i) == Odd3(Bit(x, Up(i, 17)), Bit(x, Up(i, 19)), Bit(x, i + 10))
  {
    hide Rotr, Shr, Bit, Xor, Up, SmallSigma1;
    SigmaParts(x);
    var p, q, r := Rotr(x, 17), Rotr(x, 19), Shr(x, 10);
    XorBit(Xor(p, q), r, i);
    XorBit(p, q, i);
    Rotr17Bit(x, i);
    Rotr19Bit(x, i);
    ShiftBit(x, i);
  }
}
