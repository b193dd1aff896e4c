/** SHA-256 (src/common/checksum.cpp) against FIPS 180-4. */
module Sha256 {
  import opened Bytes

  // ---- Section 5.1.1 of FIPS 180-4: padding ----

  /** The number of zero bytes that leaves room for the length field. */
  function ZeroCount(len: nat): (k: nat)
    ensures k < 64 && (len + 1 + k) % 64 == 56
  {
    (119 - len % 64) % 64
  }

  /** It is the smallest such number. */
  lemma ZeroCountIsLeast(len: nat, k: nat)
    requires (len + 1 + k) % 64 == 56
    ensures ZeroCount(len) <= k
  {
  }

  /** The length in bits, in 64 bits. */
  function BitLength(len: nat): (bits: nat)
    ensures bits < U64_LIMIT
    ensures len < 0x2000_0000_0000_0000 ==> bits == 8 * len
  {
    8 * len % U64_LIMIT
  }

  function Pad(msg: Bytes): (padded: Bytes)
    ensures |padded| == |msg| + 1 + ZeroCount(|msg|) + 8 && |padded| % 64 == 0
  {
    PadLength(|msg|);
    msg + [0x80] + Zeros(ZeroCount(|msg|)) + BigEndian(BitLength(|msg|), 8)
  }

  lemma PadLength(len: nat)
    ensures (len + 1 + ZeroCount(len) + 8) % 64 == 0
  {
  }

  /** The padding is the shortest: one bit, then as few zeros as reach the length field's place. */
  lemma PadIsShortest(msg: Bytes, k: nat)
    requires (|msg| + 1 + k + 8) % 64 == 0
    ensures |Pad(msg)| <= |msg| + 1 + k + 8
  {
    hide Pad;
    ZeroCountIsLeast(|msg|, k);
  }

  /** The padding ends in the length and begins with the message. */
  lemma PadParts(msg: Bytes)
    ensures |Pad(msg)| >= |msg| + 8 && Pad(msg)[..|msg|] == msg
    ensures Pad(msg)[|Pad(msg)| - 8..] == BigEndian(BitLength(|msg|), 8)
  {
    hide ZeroCount, BitLength;
  }

  /** Messages of fewer than 2^61 bytes have different paddings. */
  lemma PadInjective(a: Bytes, b: Bytes)
    requires |a| < 0x2000_0000_0000_0000 && |b| < 0x2000_0000_0000_0000
    requires Pad(a) == Pad(b)
    ensures a == b
  {
    hide Pad, BitLength, ZeroCount;
    PadParts(a);
    PadParts(b);
    Pow256Values();
    ValueOfBigEndian(BitLength(|a|), 8);
    ValueOfBigEndian(BitLength(|b|), 8);
  }

  method PadMessage(data: Bytes) returns (msg: Bytes)
    ensures msg == Pad(data)
  {
    hide ZeroCount, BitLength;
    var bitLen := |data| * 8 % U64_LIMIT;
    assert bitLen == BitLength(|data|) by { BitLengthIs(|data|); }
    msg := data + [0x80];
    msg := AppendZeros(data, msg);
    msg := AppendLength(msg, bitLen);
  }

  lemma BitLengthIs(len: nat)
    ensures BitLength(len) == len * 8 % U64_LIMIT
  {
  }

  method AppendZeros(ghost data: Bytes, start: Bytes) returns (msg: Bytes)
    requires start == data + [0x80]
    ensures msg == data + [0x80] + Zeros(ZeroCount(|data|))
  {
    hide ZeroCount;
    msg := start;
    ghost var n := 0;
    while |msg| % 64 != 56
      invariant n <= ZeroCount(|data|)
      invariant msg == data + [0x80] + Zeros(n)
      decreases ZeroCount(|data|) - n
    {
      msg := msg + [0];
      assert Zeros(n + 1) == Zeros(n) + [0];
      n := n + 1;
    }
    ZeroCountIsLeast(|data|, n);
  }

  method AppendLength(start: Bytes, bitLen: nat) returns (msg: Bytes)
    ensures msg == start + BigEndian(bitLen, 8)
  {
    hide BigEndian, Pow256;
    msg := start;
    for i := 8 downto 0
      invariant msg == start + BigEndian(bitLen, 8)[..8 - i]
    {
      BigEndianAt(bitLen, 8, 7 - i);
      msg := msg + [bitLen / Pow256(i) % 256];
    }
    assert BigEndian(bitLen, 8)[..8] == BigEndian(bitLen, 8);
  }

  // ---- Sections 4.1.2, 4.2.2 and 5.3.3: functions and constants ----

  type Word = bv32

  /** Addition modulo 2^32. */
  function Plus(x: Word, y: Word): Word {
    x + y
  }

  function Sum4(a: Word, b: Word, c: Word, d: Word): Word {
    a + b + c + d
  }

  function Rotr(x: Word, n: Word): Word
    requires 0 < n < 32
  {
    (x >> n) | (x << (32 - n))
  }

  function Shr(x: Word, n: Word): Word
    requires n < 32
  {
    x >> n
  }

  function Ch(x: Word, y: Word, z: Word): Word {
    (x & y) ^ (!x & z)
  }

  function Maj(x: Word, y: Word, z: Word): Word {
    (x & y) ^ (x & z) ^ (y & z)
  }

  function BigSigma0(x: Word): Word {
    Rotr(x, 2) ^ Rotr(x, 13) ^ Rotr(x, 22)
  }

  function BigSigma1(x: Word): Word {
    Rotr(x, 6) ^ Rotr(x, 11) ^ Rotr(x, 25)
  }

  function SmallSigma0(x: Word): Word {
    Rotr(x, 7) ^ Rotr(x, 18) ^ Shr(x, 3)
  }

  function SmallSigma1(x: Word): Word {
    Rotr(x, 17) ^ Rotr(x, 19) ^ Shr(x, 10)
  }

  /** The round constants, in four rows of sixteen. */
  function K(t: nat): Word {
    if t < 16 then K0(t) else if t < 32 then K16(t) else if t < 48 then K32(t) else K48(t)
  }

  function K0(t: nat): Word {
    match t
    case 0 => 0x428a2f98 case 1 => 0x71374491 case 2 => 0xb5c0fbcf case 3 => 0xe9b5dba5
    case 4 => 0x3956c25b case 5 => 0x59f111f1 case 6 => 0x923f82a4 case 7 => 0xab1c5ed5
    case 8 => 0xd807aa98 case 9 => 0x12835b01 case 10 => 0x243185be case 11 => 0x550c7dc3
    case 12 => 0x72be5d74 case 13 => 0x80deb1fe case 14 => 0x9bdc06a7 case _ => 0xc19bf174
  }

  function K16(t: nat): Word {
    match t
    case 16 => 0xe49b69c1 case 17 => 0xefbe4786 case 18 => 0x0fc19dc6 case 19 => 0x240ca1cc
    case 20 => 0x2de92c6f case 21 => 0x4a7484aa case 22 => 0x5cb0a9dc case 23 => 0x76f988da
    case 24 => 0x983e5152 case 25 => 0xa831c66d case 26 => 0xb00327c8 case 27 => 0xbf597fc7
    case 28 => 0xc6e00bf3 case 29 => 0xd5a79147 case 30 => 0x06ca6351 case _ => 0x14292967
  }

  function K32(t: nat): Word {
    match t
    case 32 => 0x27b70a85 case 33 => 0x2e1b2138 case 34 => 0x4d2c6dfc case 35 => 0x53380d13
    case 36 => 0x650a7354 case 37 => 0x766a0abb case 38 => 0x81c2c92e case 39 => 0x92722c85
    case 40 => 0xa2bfe8a1 case 41 => 0xa81a664b case 42 => 0xc24b8b70 case 43 => 0xc76c51a3
    case 44 => 0xd192e819 case 45 => 0xd6990624 case 46 => 0xf40e3585 case _ => 0x106aa070
  }

  function K48(t: nat): Word {
    match t
    case 48 => 0x19a4c116 case 49 => 0x1e376c08 case 50 => 0x2748774c case 51 => 0x34b0bcb5
    case 52 => 0x391c0cb3 case 53 => 0x4ed8aa4a case 54 => 0x5b9cca4f case 55 => 0x682e6ff3
    case 56 => 0x748f82ee case 57 => 0x78a5636f case 58 => 0x84c87814 case 59 => 0x8cc70208
    case 60 => 0x90befffa case 61 => 0xa4506ceb case 62 => 0xbef9a3f7 case _ => 0xc67178f2
  }

  /** The initial hash value. */
  function H(t: nat): Word {
    match t
    case 0 => 0x6a09e667 case 1 => 0xbb67ae85 case 2 => 0x3c6ef372 case 3 => 0xa54ff53a
    case 4 => 0x510e527f case 5 => 0x9b05688c case 6 => 0x1f83d9ab case _ => 0x5be0cd19
  }

  /** The first 64 primes. */
  function Prime(t: nat): nat {
    match t
    case 0 => 2 case 1 => 3 case 2 => 5 case 3 => 7 case 4 => 11 case 5 => 13 case 6 => 17 case 7 => 19
    case 8 => 23 case 9 => 29 case 10 => 31 case 11 => 37 case 12 => 41 case 13 => 43 case 14 => 47 case 15 => 53
    case 16 => 59 case 17 => 61 case 18 => 67 case 19 => 71 case 20 => 73 case 21 => 79 case 22 => 83 case 23 => 89
    case 24 => 97 case 25 => 101 case 26 => 103 case 27 => 107 case 28 => 109 case 29 => 113 case 30 => 127 case 31 => 131
    case 32 => 137 case 33 => 139 case 34 => 149 case 35 => 151 case 36 => 157 case 37 => 163 case 38 => 167 case 39 => 173
    case 40 => 179 case 41 => 181 case 42 => 191 case 43 => 193 case 44 => 197 case 45 => 199 case 46 => 211 case 47 => 223
    case 48 => 227 case 49 => 229 case 50 => 233 case 51 => 239 case 52 => 241 case 53 => 251 case 54 => 257 case 55 => 263
    case 56 => 269 case 57 => 271 case 58 => 277 case 59 => 281 case 60 => 283 case 61 => 293 case 62 => 307 case _ => 311
  }

  /** The whole parts of the cube and square roots of these primes. */
  function Cbrt(p: nat): nat {
    if p < 8 then 1 else if p < 27 then 2 else if p < 64 then 3 else if p < 125 then 4
    else if p < 216 then 5 else 6
  }

  function Sqrt(p: nat): nat {
    if p < 4 then 1 else if p < 9 then 2 else if p < 16 then 3 else 4
  }

  /** `x` is the whole part of the root of `p`, both taken with 32 more bits of fraction. */
  ghost predicate IsCubeRoot(x: nat, p: nat) {
    x * x * x <= p * U32_LIMIT * U32_LIMIT * U32_LIMIT < (x + 1) * (x + 1) * (x + 1)
  }

  ghost predicate IsSquareRoot(x: nat, p: nat) {
    x * x <= p * U32_LIMIT * U32_LIMIT < (x + 1) * (x + 1)
  }

  /** The round constants are the first 32 bits of the fractional parts of the cube roots of the
      first 64 primes, and the initial hash value those of the square roots of the first 8. */
  lemma ConstantsAreRoots(t: nat)
    requires t < 64
    ensures var x, p := Cbrt(Prime(t)) * U32_LIMIT + K(t) as nat, Prime(t);
            IsCubeRoot(x, p)
    ensures t < 8 ==>
              var x, p := Sqrt(Prime(t)) * U32_LIMIT + H(t) as nat, Prime(t);
              IsSquareRoot(x, p)
  {
    hide K0, K16, K32, K48, Prime, Cbrt, H, Sqrt, IsCubeRoot, IsSquareRoot;
    if t < 16 {
      Roots0(t);
    } else if t < 32 {
      Roots16(t);
    } else if t < 48 {
      Roots32(t);
    } else {
      Roots48(t);
    }
    if t < 8 {
      SquareRoots(t);
    }
  }

  lemma SquareRoots(t: nat)
    requires t < 8
    ensures var x, p := Sqrt(Prime(t)) * U32_LIMIT + H(t) as nat, Prime(t);
            IsSquareRoot(x, p)
  {
  }

  lemma Roots0(t: nat)
    requires t < 16
    ensures var x, p := Cbrt(Prime(t)) * U32_LIMIT + K0(t) as nat, Prime(t);
            IsCubeRoot(x, p)
  {
  }

  lemma Roots16(t: nat)
    requires 16 <= t < 32
    ensures var x, p := Cbrt(Prime(t)) * U32_LIMIT + K16(t) as nat, Prime(t);
            IsCubeRoot(x, p)
  {
  }

  lemma Roots32(t: nat)
    requires 32 <= t < 48
    ensures var x, p := Cbrt(Prime(t)) * U32_LIMIT + K32(t) as nat, Prime(t);
            IsCubeRoot(x, p)
  {
  }

  lemma Roots48(t: nat)
    requires 48 <= t < 64
    ensures var x, p := Cbrt(Prime(t)) * U32_LIMIT + K48(t) as nat, Prime(t);
            IsCubeRoot(x, p)
  {
  }

  // ---- Section 6.2.2: the hash computation ----

  /** The eight working variables, and also the eight words of a hash value. */
  datatype Regs = Regs(a: Word, b: Word, c: Word, d: Word, e: Word, f: Word, g: Word, h: Word)

  function Initial(): Regs {
    Regs(H(0), H(1), H(2), H(3), H(4), H(5), H(6), H(7))
  }

  /** Four bytes as a word, most significant byte first. */
  function WordOf(b0: Byte, b1: Byte, b2: Byte, b3: Byte): Word {
    ((b0 as Word) << 24) | ((b1 as Word) << 16) | ((b2 as Word) << 8) | (b3 as Word)
  }

  /** Word `t` of block `n` of a padded message. */
  function BlockWord(msg: Bytes, n: nat, t: nat): Word
    requires 64 * n + 64 <= |msg| && t < 16
  {
    var i := 64 * n + 4 * t;
    WordOf(msg[i], msg[i + 1], msg[i + 2], msg[i + 3])
  }

  /** The message schedule. */
  function W(msg: Bytes, n: nat, t: nat): Word
    requires 64 * n + 64 <= |msg| && t < 64
  {
    if t < 16 then BlockWord(msg, n, t)
    else Sum4(SmallSigma1(W(msg, n, t - 2)), W(msg, n, t - 7), SmallSigma0(W(msg, n, t - 15)),
              W(msg, n, t - 16))
  }

  /** One round. */
  function Round(r: Regs, k: Word, w: Word): Regs {
    var t1 := Plus(Plus(Plus(Plus(r.h, BigSigma1(r.e)), Ch(r.e, r.f, r.g)), k), w);
    var t2 := Plus(BigSigma0(r.a), Maj(r.a, r.b, r.c));
    Regs(Plus(t1, t2), r.a, r.b, r.c, Plus(r.d, t1), r.e, r.f, r.g)
  }

  /** The working variables after the first `t` rounds on block `n`. */
  function Rounds(hash: Regs, msg: Bytes, n: nat, t: nat): Regs
    requires 64 * n + 64 <= |msg| && t <= 64
  {
    if t == 0 then hash
    else Round(Rounds(hash, msg, n, t - 1), K(t - 1), W(msg, n, t - 1))
  }

  function AddWords(x: Regs, y: Regs): Regs {
    Regs(Plus(x.a, y.a), Plus(x.b, y.b), Plus(x.c, y.c), Plus(x.d, y.d),
         Plus(x.e, y.e), Plus(x.f, y.f), Plus(x.g, y.g), Plus(x.h, y.h))
  }

  /** The hash value after the first `n` blocks. */
  function HashBlocks(msg: Bytes, n: nat): Regs
    requires 64 * n <= |msg|
  {
    if n == 0 then Initial()
    else
      var before := HashBlocks(msg, n - 1);
      AddWords(before, Rounds(before, msg, n - 1, 64))
  }

  function Digest(data: Bytes): Regs {
    var msg := Pad(data);
    HashBlocks(msg, |msg| / 64)
  }

  // ---- The loops ----

  /** The source adds the four terms of the schedule in the opposite order. */
  lemma SumOrder(a: Word, b: Word, c: Word, d: Word)
    ensures Sum4(a, b, c, d) == Sum4(d, c, b, a)
  {
  }

  method PrepareSchedule(msg: Bytes, ghost n: nat, offset: nat) returns (w: array<Word>)
    requires offset == 64 * n && offset + 64 <= |msg|
    ensures fresh(w) && w.Length == 64
    ensures forall t :: 0 <= t < 64 ==> w[t] == W(msg, n, t)
  {
    hide Sum4, SmallSigma0, SmallSigma1, WordOf;
    w := new Word[64];
    for i := 0 to 16
      invariant forall t :: 0 <= t < i ==> w[t] == W(msg, n, t)
    {
      w[i] := WordOf(msg[offset + i * 4], msg[offset + i * 4 + 1], msg[offset + i * 4 + 2],
                     msg[offset + i * 4 + 3]);
    }
    ExtendSchedule(msg, n, w);
  }

  method ExtendSchedule(ghost msg: Bytes, ghost n: nat, w: array<Word>)
    requires 64 * n + 64 <= |msg| && w.Length == 64
    requires forall t :: 0 <= t < 16 ==> w[t] == W(msg, n, t)
    modifies w
    ensures forall t :: 0 <= t < 64 ==> w[t] == W(msg, n, t)
  {
    hide Sum4, SmallSigma0, SmallSigma1, BlockWord;
    for i := 16 to 64
      invariant forall t :: 0 <= t < i ==> w[t] == W(msg, n, t)
    {
      var s0, s1 := SmallSigma0(w[i - 15]), SmallSigma1(w[i - 2]);
      SumOrder(w[i - 16], s0, w[i - 7], s1);
      w[i] := Sum4(w[i - 16], s0, w[i - 7], s1);
    }
  }

  method Compress(hash: Regs, w: array<Word>, ghost msg: Bytes, ghost n: nat) returns (out: Regs)
    requires 64 * n + 64 <= |msg| && w.Length == 64
    requires forall t :: 0 <= t < 64 ==> w[t] == W(msg, n, t)
    ensures out == AddWords(hash, Rounds(hash, msg, n, 64))
  {
    hide W, Plus, BigSigma0, BigSigma1, Ch, Maj, K;
    var a, b, c, d := hash.a, hash.b, hash.c, hash.d;
    var e, f, g, hh := hash.e, hash.f, hash.g, hash.h;
    for i := 0 to 64
      invariant Regs(a, b, c, d, e, f, g, hh) == Rounds(hash, msg, n, i)
    {
      var temp1 := Plus(Plus(Plus(Plus(hh, BigSigma1(e)), Ch(e, f, g)), K(i)), w[i]);
      var temp2 := Plus(BigSigma0(a), Maj(a, b, c));
      hh := g; g := f; f := e; e := Plus(d, temp1);
      d := c; c := b; b := a; a := Plus(temp1, temp2);
    }
    return Regs(Plus(hash.a, a), Plus(hash.b, b), Plus(hash.c, c), Plus(hash.d, d),
                Plus(hash.e, e), Plus(hash.f, f), Plus(hash.g, g), Plus(hash.h, hh));
  }

  /** All blocks of the padded message, 64 bytes at a time. */
  method HashMessage(data: Bytes) returns (digest: Regs)
    ensures digest == Digest(data)
  {
    hide Rounds, Pad, AddWords, W, Initial;
    var msg := PadMessage(data);
    digest := Initial();
    var offset := 0;
    ghost var n := 0;
    while offset < |msg|
      invariant offset == 64 * n <= |msg|
      invariant digest == HashBlocks(msg, n)
    {
      var w := PrepareSchedule(msg, n, offset);
      digest := Compress(digest, w, msg, n);
      offset := offset + 64;
      n := n + 1;
    }
  }

  // ---- The text form: 64 hexadecimal digits ----

  /** The ASCII code of the digit of a number below 16. */
  function HexDigit(x: Word): Byte {
    match x
    case 0 => 48 case 1 => 49 case 2 => 50 case 3 => 51 case 4 => 52
    case 5 => 53 case 6 => 54 case 7 => 55 case 8 => 56 case 9 => 57
    case 10 => 97 case 11 => 98 case 12 => 99 case 13 => 100 case 14 => 101
    case _ => 102
  }

  /** Group `i` of four bits, counted from the most significant. */
  function Nibble(x: Word, i: nat): Word
    requires i < 8
  {
    match i
    case 0 => x >> 28
    case 1 => (x >> 24) & 15
    case 2 => (x >> 20) & 15
    case 3 => (x >> 16) & 15
    case 4 => (x >> 12) & 15
    case 5 => (x >> 8) & 15
    case 6 => (x >> 4) & 15
    case _ => x & 15
  }

  /** A word in eight digits, filled up with zeros in front. */
  function HexWord(x: Word): (text: Bytes)
    ensures |text| == 8
  {
    seq(8, i requires 0 <= i < 8 => HexDigit(Nibble(x, i)))
  }

  function HexWords(words: seq<Word>): (text: Bytes)
    ensures |text| == 8 * |words|
  {
    if words == [] then [] else HexWords(words[..|words| - 1]) + HexWord(words[|words| - 1])
  }

  function Words(d: Regs): (words: seq<Word>)
    ensures |words| == 8
  {
    [d.a, d.b, d.c, d.d, d.e, d.f, d.g, d.h]
  }

  function Hex(d: Regs): (text: Bytes)
    ensures |text| == 64
  {
    HexWords(Words(d))
  }

  lemma HexDigitInjective(x: Word, y: Word)
    requires x < 16 && y < 16 && HexDigit(x) == HexDigit(y)
    ensures x == y
  {
  }

  lemma NibbleSmall(x: Word, i: nat)
    requires i < 8
    ensures Nibble(x, i) < 16
  {
  }

  /** A word is determined by its eight groups of four bits. */
  lemma NibblesDetermine(x: Word, y: Word)
    requires forall i :: 0 <= i < 8 ==> Nibble(x, i) == Nibble(y, i)
    ensures x == y
  {
    assert Nibble(x, 0) == Nibble(y, 0) && Nibble(x, 1) == Nibble(y, 1);
    assert Nibble(x, 2) == Nibble(y, 2) && Nibble(x, 3) == Nibble(y, 3);
    assert Nibble(x, 4) == Nibble(y, 4) && Nibble(x, 5) == Nibble(y, 5);
    assert Nibble(x, 6) == Nibble(y, 6) && Nibble(x, 7) == Nibble(y, 7);
  }

  lemma HexWordInjective(x: Word, y: Word)
    requires HexWord(x) == HexWord(y)
    ensures x == y
  {
    hide HexDigit, Nibble;
    forall i | 0 <= i < 8 ensures Nibble(x, i) == Nibble(y, i) {
      assert HexWord(x)[i] == HexWord(y)[i];
      NibbleSmall(x, i);
      NibbleSmall(y, i);
      HexDigitInjective(Nibble(x, i), Nibble(y, i));
    }
    NibblesDetermine(x, y);
  }

  lemma {:induction false} HexWordsInjective(s: seq<Word>, t: seq<Word>)
    requires |s| == |t| && HexWords(s) == HexWords(t)
    ensures s == t
  {
    hide HexWord;
    if s != [] {
      var n := |s| - 1;
      var x, y := HexWords(s), HexWords(t);
      assert x[..8 * n] == HexWords(s[..n]) && y[..8 * n] == HexWords(t[..n]);
      assert x[8 * n..] == HexWord(s[n]) && y[8 * n..] == HexWord(t[n]);
      HexWordsInjective(s[..n], t[..n]);
      HexWordInjective(s[n], t[n]);
      assert s == s[..n] + [s[n]] && t == t[..n] + [t[n]];
    }
  }

  /** Different hash values have different texts. */
  lemma HexInjective(d: Regs, e: Regs)
    requires Hex(d) == Hex(e)
    ensures d == e
  {
    hide HexWords;
    HexWordsInjective(Words(d), Words(e));
    var s, t := Words(d), Words(e);
    assert s[0] == t[0] && s[1] == t[1] && s[2] == t[2] && s[3] == t[3];
    assert s[4] == t[4] && s[5] == t[5] && s[6] == t[6] && s[7] == t[7];
  }

  function Checksum(data: Bytes): (text: Bytes)
    ensures |text| == 64
  {
    Hex(Digest(data))
  }

  method Sha256(data: Bytes) returns (text: Bytes)
    ensures text == Checksum(data)
  {
    hide HexWord, Digest;
    var d := HashMessage(data);
    var words := Words(d);
    text := [];
    for i := 0 to 8
      invariant text == HexWords(words[..i])
    {
      assert words[..i + 1][..i] == words[..i];
      text := text + HexWord(words[i]);
    }
    assert words[..8] == words;
  }

  /** Verifying data against a checksum that was computed from `original` compares the two hash
      values; nothing else is a checksum of anything. */
  method Verify(data: Bytes, expected: Bytes) returns (ok: bool)
    ensures ok <==> expected == Checksum(data)
    ensures forall original :: expected == Checksum(original) ==>
              (ok <==> Digest(data) == Digest(original))
  {
    hide Digest, Hex;
    var text := Sha256(data);
    ok := text == expected;
    forall original | expected == Checksum(original)
      ensures ok <==> Digest(data) == Digest(original)
    {
      if ok {
        HexInjective(Digest(data), Digest(original));
      }
    }
  }
}
