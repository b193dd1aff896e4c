/** The known answer that the system's own tests ask for (tests/test_checksum.cpp): the checksum of
    "hello", word by word and round by round. It fixes what no law of `Sha256` mentions: the places
    of the schedule, the order of the working variables, and the order and case of the digits. */
module KnownAnswer {
  import opened Bytes
  import opened Sha256

  // ---- The message schedule ----

  /** The one padded block of "hello", as words. */
  ghost predicate FirstWords(msg: Bytes) {
    && |msg| == 64
    && W(msg, 0, 0) == 0x68656c6c && W(msg, 0, 1) == 0x6f800000
    && (forall t :: 2 <= t < 15 ==> W(msg, 0, t) == 0)
    && W(msg, 0, 15) == 0x28
  }

  /** One more word of the schedule. */
  lemma Extend(msg: Bytes, t: nat, w2: Word, w7: Word, w15: Word, w16: Word, w: Word)
    requires |msg| == 64 && 16 <= t < 64
    requires W(msg, 0, t - 2) == w2 && W(msg, 0, t - 7) == w7
    requires W(msg, 0, t - 15) == w15 && W(msg, 0, t - 16) == w16
    requires Sum4(SmallSigma1(w2), w7, SmallSigma0(w15), w16) == w
    ensures W(msg, 0, t) == w
  {
    hide Sum4, SmallSigma0, SmallSigma1, BlockWord;
  }

  lemma Words16(msg: Bytes)
    requires FirstWords(msg)
    ensures W(msg, 0, 16) == 0x7594884c && W(msg, 0, 17) == 0x6f910000
    ensures W(msg, 0, 18) == 0xd532d15a && W(msg, 0, 19) == 0xa01bde7a
    ensures W(msg, 0, 20) == 0x32b37c8b && W(msg, 0, 21) == 0x94da02f9
    ensures W(msg, 0, 22) == 0xd1d853f8 && W(msg, 0, 23) == 0xb69b56c2
  {
    hide W;
    Extend(msg, 16, 0x00000000, 0x00000000, 0x6f800000, 0x68656c6c, 0x7594884c);
    Extend(msg, 17, 0x00000028, 0x00000000, 0x00000000, 0x6f800000, 0x6f910000);
    Extend(msg, 18, 0x7594884c, 0x00000000, 0x00000000, 0x00000000, 0xd532d15a);
    Extend(msg, 19, 0x6f910000, 0x00000000, 0x00000000, 0x00000000, 0xa01bde7a);
    Extend(msg, 20, 0xd532d15a, 0x00000000, 0x00000000, 0x00000000, 0x32b37c8b);
    Extend(msg, 21, 0xa01bde7a, 0x00000000, 0x00000000, 0x00000000, 0x94da02f9);
    Extend(msg, 22, 0x32b37c8b, 0x00000028, 0x00000000, 0x00000000, 0xd1d853f8);
    Extend(msg, 23, 0x94da02f9, 0x7594884c, 0x00000000, 0x00000000, 0xb69b56c2);
  }

  lemma Words24(msg: Bytes)
    requires FirstWords(msg)
    ensures W(msg, 0, 24) == 0x934804c3 && W(msg, 0, 25) == 0x96c77ca5
    ensures W(msg, 0, 26) == 0xa2f94846 && W(msg, 0, 27) == 0x849744ef
    ensures W(msg, 0, 28) == 0x21dd3e6a && W(msg, 0, 29) == 0x1ca36b00
    ensures W(msg, 0, 30) == 0x3f957a61 && W(msg, 0, 31) == 0x2079cf86
  {
    hide W;
    Words16(msg);
    Extend(msg, 24, 0xd1d853f8, 0x6f910000, 0x00000000, 0x00000000, 0x934804c3);
    Extend(msg, 25, 0xb69b56c2, 0xd532d15a, 0x00000000, 0x00000000, 0x96c77ca5);
    Extend(msg, 26, 0x934804c3, 0xa01bde7a, 0x00000000, 0x00000000, 0xa2f94846);
    Extend(msg, 27, 0x96c77ca5, 0x32b37c8b, 0x00000000, 0x00000000, 0x849744ef);
    Extend(msg, 28, 0xa2f94846, 0x94da02f9, 0x00000000, 0x00000000, 0x21dd3e6a);
    Extend(msg, 29, 0x849744ef, 0xd1d853f8, 0x00000000, 0x00000000, 0x1ca36b00);
    Extend(msg, 30, 0x21dd3e6a, 0xb69b56c2, 0x00000028, 0x00000000, 0x3f957a61);
    Extend(msg, 31, 0x1ca36b00, 0x934804c3, 0x7594884c, 0x00000028, 0x2079cf86);
  }

  lemma Words32(msg: Bytes)
    requires FirstWords(msg)
    ensures W(msg, 0, 32) == 0x6bfc7c3b && W(msg, 0, 33) == 0x0c209d4b
    ensures W(msg, 0, 34) == 0x2228225c && W(msg, 0, 35) == 0xee1ad25b
    ensures W(msg, 0, 36) == 0xc5d09850 && W(msg, 0, 37) == 0x07331882
    ensures W(msg, 0, 38) == 0x977423c5 && W(msg, 0, 39) == 0xa667d6f9
  {
    hide W;
    Words16(msg);
    Words24(msg);
    Extend(msg, 32, 0x3f957a61, 0x96c77ca5, 0x6f910000, 0x7594884c, 0x6bfc7c3b);
    Extend(msg, 33, 0x2079cf86, 0xa2f94846, 0xd532d15a, 0x6f910000, 0x0c209d4b);
    Extend(msg, 34, 0x6bfc7c3b, 0x849744ef, 0xa01bde7a, 0xd532d15a, 0x2228225c);
    Extend(msg, 35, 0x0c209d4b, 0x21dd3e6a, 0x32b37c8b, 0xa01bde7a, 0xee1ad25b);
    Extend(msg, 36, 0x2228225c, 0x1ca36b00, 0x94da02f9, 0x32b37c8b, 0xc5d09850);
    Extend(msg, 37, 0xee1ad25b, 0x3f957a61, 0xd1d853f8, 0x94da02f9, 0x07331882);
    Extend(msg, 38, 0xc5d09850, 0x2079cf86, 0xb69b56c2, 0xd1d853f8, 0x977423c5);
    Extend(msg, 39, 0x07331882, 0x6bfc7c3b, 0x934804c3, 0xb69b56c2, 0xa667d6f9);
  }

  lemma Words40(msg: Bytes)
    requires FirstWords(msg)
    ensures W(msg, 0, 40) == 0xbc044b46 && W(msg, 0, 41) == 0x95859031
    ensures W(msg, 0, 42) == 0x5c98ca62 && W(msg, 0, 43) == 0x64860c1b
    ensures W(msg, 0, 44) == 0x7ee7c777 && W(msg, 0, 45) == 0x16c55872
    ensures W(msg, 0, 46) == 0x7cf67d29 && W(msg, 0, 47) == 0x4857c138
  {
    hide W;
    Words24(msg);
    Words32(msg);
    Extend(msg, 40, 0x977423c5, 0x0c209d4b, 0x96c77ca5, 0x934804c3, 0xbc044b46);
    Extend(msg, 41, 0xa667d6f9, 0x2228225c, 0xa2f94846, 0x96c77ca5, 0x95859031);
    Extend(msg, 42, 0xbc044b46, 0xee1ad25b, 0x849744ef, 0xa2f94846, 0x5c98ca62);
    Extend(msg, 43, 0x95859031, 0xc5d09850, 0x21dd3e6a, 0x849744ef, 0x64860c1b);
    Extend(msg, 44, 0x5c98ca62, 0x07331882, 0x1ca36b00, 0x21dd3e6a, 0x7ee7c777);
    Extend(msg, 45, 0x64860c1b, 0x977423c5, 0x3f957a61, 0x1ca36b00, 0x16c55872);
    Extend(msg, 46, 0x7ee7c777, 0xa667d6f9, 0x2079cf86, 0x3f957a61, 0x7cf67d29);
    Extend(msg, 47, 0x16c55872, 0xbc044b46, 0x6bfc7c3b, 0x2079cf86, 0x4857c138);
  }

  lemma Words48(msg: Bytes)
    requires FirstWords(msg)
    ensures W(msg, 0, 48) == 0xa37f4a81 && W(msg, 0, 49) == 0x35f8fd03
    ensures W(msg, 0, 50) == 0xf16ffce2 && W(msg, 0, 51) == 0x6d549f9c
    ensures W(msg, 0, 52) == 0xa12ff314 && W(msg, 0, 53) == 0xf1818db4
    ensures W(msg, 0, 54) == 0xf9cad136 && W(msg, 0, 55) == 0xc960d70c
  {
    hide W;
    Words32(msg);
    Words40(msg);
    Extend(msg, 48, 0x7cf67d29, 0x95859031, 0x0c209d4b, 0x6bfc7c3b, 0xa37f4a81);
    Extend(msg, 49, 0x4857c138, 0x5c98ca62, 0x2228225c, 0x0c209d4b, 0x35f8fd03);
    Extend(msg, 50, 0xa37f4a81, 0x64860c1b, 0xee1ad25b, 0x2228225c, 0xf16ffce2);
    Extend(msg, 51, 0x35f8fd03, 0x7ee7c777, 0xc5d09850, 0xee1ad25b, 0x6d549f9c);
    Extend(msg, 52, 0xf16ffce2, 0x16c55872, 0x07331882, 0xc5d09850, 0xa12ff314);
    Extend(msg, 53, 0x6d549f9c, 0x7cf67d29, 0x977423c5, 0x07331882, 0xf1818db4);
    Extend(msg, 54, 0xa12ff314, 0x4857c138, 0xa667d6f9, 0x977423c5, 0xf9cad136);
    Extend(msg, 55, 0xf1818db4, 0xa37f4a81, 0xbc044b46, 0xa667d6f9, 0xc960d70c);
  }

  lemma Words56(msg: Bytes)
    requires FirstWords(msg)
    ensures W(msg, 0, 56) == 0x3a18f5f8 && W(msg, 0, 57) == 0xf5fdf2ba
    ensures W(msg, 0, 58) == 0xe79a1b2a && W(msg, 0, 59) == 0x5dea4345
    ensures W(msg, 0, 60) == 0x701cc2f2 && W(msg, 0, 61) == 0x3c9b25e2
    ensures W(msg, 0, 62) == 0xc9670b22 && W(msg, 0, 63) == 0x3e3cb561
  {
    hide W;
    Words40(msg);
    Words48(msg);
    Extend(msg, 56, 0xf9cad136, 0x35f8fd03, 0x95859031, 0xbc044b46, 0x3a18f5f8);
    Extend(msg, 57, 0xc960d70c, 0xf16ffce2, 0x5c98ca62, 0x95859031, 0xf5fdf2ba);
    Extend(msg, 58, 0x3a18f5f8, 0x6d549f9c, 0x64860c1b, 0x5c98ca62, 0xe79a1b2a);
    Extend(msg, 59, 0xf5fdf2ba, 0xa12ff314, 0x7ee7c777, 0x64860c1b, 0x5dea4345);
    Extend(msg, 60, 0xe79a1b2a, 0xf1818db4, 0x16c55872, 0x7ee7c777, 0x701cc2f2);
    Extend(msg, 61, 0x5dea4345, 0xf9cad136, 0x7cf67d29, 0x16c55872, 0x3c9b25e2);
    Extend(msg, 62, 0x701cc2f2, 0xc960d70c, 0x4857c138, 0x7cf67d29, 0xc9670b22);
    Extend(msg, 63, 0x3c9b25e2, 0x3a18f5f8, 0xa37f4a81, 0x4857c138, 0x3e3cb561);
  }

  // ---- The rounds ----

  /** One more round: the two new words, and six that move on. */
  lemma Go(msg: Bytes, t: nat, a: Word, b: Word, c: Word, d: Word, e: Word, f: Word, g: Word,
           h: Word, k: Word, w: Word, a': Word, e': Word)
    requires |msg| == 64 && t < 64
    requires Rounds(Initial(), msg, 0, t) == Regs(a, b, c, d, e, f, g, h)
    requires K(t) == k && W(msg, 0, t) == w
    requires Round(Regs(a, b, c, d, e, f, g, h), k, w) == Regs(a', a, b, c, e', e, f, g)
    ensures Rounds(Initial(), msg, 0, t + 1) == Regs(a', a, b, c, e', e, f, g)
  {
    hide Round, K, W, Initial;
  }

  lemma Constants0()
    ensures K(0) == 0x428a2f98 && K(1) == 0x71374491
    ensures K(2) == 0xb5c0fbcf && K(3) == 0xe9b5dba5
    ensures K(4) == 0x3956c25b && K(5) == 0x59f111f1
    ensures K(6) == 0x923f82a4 && K(7) == 0xab1c5ed5
  {
  }

  lemma Constants8()
    ensures K(8) == 0xd807aa98 && K(9) == 0x12835b01
    ensures K(10) == 0x243185be && K(11) == 0x550c7dc3
    ensures K(12) == 0x72be5d74 && K(13) == 0x80deb1fe
    ensures K(14) == 0x9bdc06a7 && K(15) == 0xc19bf174
  {
  }

  lemma Constants16()
    ensures K(16) == 0xe49b69c1 && K(17) == 0xefbe4786
    ensures K(18) == 0x0fc19dc6 && K(19) == 0x240ca1cc
    ensures K(20) == 0x2de92c6f && K(21) == 0x4a7484aa
    ensures K(22) == 0x5cb0a9dc && K(23) == 0x76f988da
  {
  }

  lemma Constants24()
    ensures K(24) == 0x983e5152 && K(25) == 0xa831c66d
    ensures K(26) == 0xb00327c8 && K(27) == 0xbf597fc7
    ensures K(28) == 0xc6e00bf3 && K(29) == 0xd5a79147
    ensures K(30) == 0x06ca6351 && K(31) == 0x14292967
  {
  }

  lemma Constants32()
    ensures K(32) == 0x27b70a85 && K(33) == 0x2e1b2138
    ensures K(34) == 0x4d2c6dfc && K(35) == 0x53380d13
    ensures K(36) == 0x650a7354 && K(37) == 0x766a0abb
    ensures K(38) == 0x81c2c92e && K(39) == 0x92722c85
  {
  }

  lemma Constants40()
    ensures K(40) == 0xa2bfe8a1 && K(41) == 0xa81a664b
    ensures K(42) == 0xc24b8b70 && K(43) == 0xc76c51a3
    ensures K(44) == 0xd192e819 && K(45) == 0xd6990624
    ensures K(46) == 0xf40e3585 && K(47) == 0x106aa070
  {
  }

  lemma Constants48()
    ensures K(48) == 0x19a4c116 && K(49) == 0x1e376c08
    ensures K(50) == 0x2748774c && K(51) == 0x34b0bcb5
    ensures K(52) == 0x391c0cb3 && K(53) == 0x4ed8aa4a
    ensures K(54) == 0x5b9cca4f && K(55) == 0x682e6ff3
  {
  }

  lemma Constants56()
    ensures K(56) == 0x748f82ee && K(57) == 0x78a5636f
    ensures K(58) == 0x84c87814 && K(59) == 0x8cc70208
    ensures K(60) == 0x90befffa && K(61) == 0xa4506ceb
    ensures K(62) == 0xbef9a3f7 && K(63) == 0xc67178f2
  {
  }

  lemma Rounds8(msg: Bytes)
    requires FirstWords(msg)
    ensures Rounds(Initial(), msg, 0, 8) == Regs(0x5619fea2, 0x42d8c3cf, 0x3b4760cd, 0xcbfa8346,
                                                  0x05cf37fe, 0x88f04d94, 0xcca93710, 0xaadd34e3)
  {
    hide Rounds, W, K, Initial;
    NoRound(msg);
    Constants0();
    var a0, e0 := 0xa54ff53a, 0x5be0cd19;
    var a1, e1 := 0x3c6ef372, 0x1f83d9ab;
    var a2, e2 := 0xbb67ae85, 0x9b05688c;
    var a3, e3 := 0x6a09e667, 0x510e527f;
    var a4, e4 := 0x646df4b9, 0x012d4f0e;
    Go(msg, 0, a3, a2, a1, a0, e3, e2, e1, e0, 0x428a2f98, 0x68656c6c, a4, e4);
    var a5, e5 := 0xa01b3ad4, 0x27198bd1;
    Go(msg, 1, a4, a3, a2, a1, e4, e3, e2, e1, 0x71374491, 0x6f800000, a5, e5);
    var a6, e6 := 0x46a5c0f7, 0x0fbadb9b;
    Go(msg, 2, a5, a4, a3, a2, e5, e4, e3, e2, 0xb5c0fbcf, 0x00000000, a6, e6);
    var a7, e7 := 0xa9531869, 0x6e1e75d2;
    Go(msg, 3, a6, a5, a4, a3, e6, e5, e4, e3, 0xe9b5dba5, 0x00000000, a7, e7);
    var a8, e8 := 0xcbfa8346, 0xaadd34e3;
    Go(msg, 4, a7, a6, a5, a4, e7, e6, e5, e4, 0x3956c25b, 0x00000000, a8, e8);
    var a9, e9 := 0x3b4760cd, 0xcca93710;
    Go(msg, 5, a8, a7, a6, a5, e8, e7, e6, e5, 0x59f111f1, 0x00000000, a9, e9);
    var a10, e10 := 0x42d8c3cf, 0x88f04d94;
    Go(msg, 6, a9, a8, a7, a6, e9, e8, e7, e6, 0x923f82a4, 0x00000000, a10, e10);
    var a11, e11 := 0x5619fea2, 0x05cf37fe;
    Go(msg, 7, a10, a9, a8, a7, e10, e9, e8, e7, 0xab1c5ed5, 0x00000000, a11, e11);
  }

  lemma Rounds16(msg: Bytes)
    requires FirstWords(msg)
    ensures Rounds(Initial(), msg, 0, 16) == Regs(0x55bd9162, 0x8d786e86, 0x99449713, 0x38f5bce3,
                                                  0xede948a5, 0x87538883, 0x611ea7ce, 0xbc76d585)
  {
    hide Rounds, W, K, Initial;
    Rounds8(msg);
    Constants8();
    var a8, e8 := 0xcbfa8346, 0xaadd34e3;
    var a9, e9 := 0x3b4760cd, 0xcca93710;
    var a10, e10 := 0x42d8c3cf, 0x88f04d94;
    var a11, e11 := 0x5619fea2, 0x05cf37fe;
    var a12, e12 := 0x85d98858, 0xf80be290;
    Go(msg, 8, a11, a10, a9, a8, e11, e10, e9, e8, 0xd807aa98, 0x00000000, a12, e12);
    var a13, e13 := 0x40a321c6, 0x2f7d88fc;
    Go(msg, 9, a12, a11, a10, a9, e12, e11, e10, e9, 0x12835b01, 0x00000000, a13, e13);
    var a14, e14 := 0x7ee16f95, 0x6a82b638;
    Go(msg, 10, a13, a12, a11, a10, e13, e12, e11, e10, 0x243185be, 0x00000000, a14, e14);
    var a15, e15 := 0x6870e01d, 0xd2fbbbd6;
    Go(msg, 11, a14, a13, a12, a11, e14, e13, e12, e11, 0x550c7dc3, 0x00000000, a15, e15);
    var a16, e16 := 0x38f5bce3, 0xbc76d585;
    Go(msg, 12, a15, a14, a13, a12, e15, e14, e13, e12, 0x72be5d74, 0x00000000, a16, e16);
    var a17, e17 := 0x99449713, 0x611ea7ce;
    Go(msg, 13, a16, a15, a14, a13, e16, e15, e14, e13, 0x80deb1fe, 0x00000000, a17, e17);
    var a18, e18 := 0x8d786e86, 0x87538883;
    Go(msg, 14, a17, a16, a15, a14, e17, e16, e15, e14, 0x9bdc06a7, 0x00000000, a18, e18);
    var a19, e19 := 0x55bd9162, 0xede948a5;
    Go(msg, 15, a18, a17, a16, a15, e18, e17, e16, e15, 0xc19bf174, 0x00000028, a19, e19);
  }

  lemma Rounds24(msg: Bytes)
    requires FirstWords(msg)
    ensures Rounds(Initial(), msg, 0, 24) == Regs(0x159a7e81, 0xbdf9ec82, 0xb5e00e53, 0xa00f40bf,
                                                  0x29ae19ff, 0x59db6c49, 0x579fcc6d, 0xafc7fe0b)
  {
    hide Rounds, W, K, Initial;
    Rounds16(msg);
    Constants16();
    Words16(msg);
    var a16, e16 := 0x38f5bce3, 0xbc76d585;
    var a17, e17 := 0x99449713, 0x611ea7ce;
    var a18, e18 := 0x8d786e86, 0x87538883;
    var a19, e19 := 0x55bd9162, 0xede948a5;
    var a20, e20 := 0x99619a3e, 0x4ca27f3d;
    Go(msg, 16, a19, a18, a17, a16, e19, e18, e17, e16, 0xe49b69c1, 0x7594884c, a20, e20);
    var a21, e21 := 0x63422d1c, 0x6d48d223;
    Go(msg, 17, a20, a19, a18, a17, e20, e19, e18, e17, 0xefbe4786, 0x6f910000, a21, e21);
    var a22, e22 := 0x70846845, 0x34135cb2;
    Go(msg, 18, a21, a20, a19, a18, e21, e20, e19, e18, 0x0fc19dc6, 0xd532d15a, a22, e22);
    var a23, e23 := 0xf6d68629, 0xcba8637f;
    Go(msg, 19, a22, a21, a20, a19, e22, e21, e20, e19, 0x240ca1cc, 0xa01bde7a, a23, e23);
    var a24, e24 := 0xa00f40bf, 0xafc7fe0b;
    Go(msg, 20, a23, a22, a21, a20, e23, e22, e21, e20, 0x2de92c6f, 0x32b37c8b, a24, e24);
    var a25, e25 := 0xb5e00e53, 0x579fcc6d;
    Go(msg, 21, a24, a23, a22, a21, e24, e23, e22, e21, 0x4a7484aa, 0x94da02f9, a25, e25);
    var a26, e26 := 0xbdf9ec82, 0x59db6c49;
    Go(msg, 22, a25, a24, a23, a22, e25, e24, e23, e22, 0x5cb0a9dc, 0xd1d853f8, a26, e26);
    var a27, e27 := 0x159a7e81, 0x29ae19ff;
    Go(msg, 23, a26, a25, a24, a23, e26, e25, e24, e23, 0x76f988da, 0xb69b56c2, a27, e27);
  }

  lemma Rounds32(msg: Bytes)
    requires FirstWords(msg)
    ensures Rounds(Initial(), msg, 0, 32) == Regs(0x033c17ef, 0xc44c9f98, 0x0d94f00c, 0xc4b9f5b9,
                                                  0x3fb4bb4e, 0xae95a0dc, 0x163acf8e, 0x9a0b4446)
  {
    hide Rounds, W, K, Initial;
    Rounds24(msg);
    Constants24();
    Words24(msg);
    var a24, e24 := 0xa00f40bf, 0xafc7fe0b;
    var a25, e25 := 0xb5e00e53, 0x579fcc6d;
    var a26, e26 := 0xbdf9ec82, 0x59db6c49;
    var a27, e27 := 0x159a7e81, 0x29ae19ff;
    var a28, e28 := 0xddc63841, 0xef48d358;
    Go(msg, 24, a27, a26, a25, a24, e27, e26, e25, e24, 0x983e5152, 0x934804c3, a28, e28);
    var a29, e29 := 0xc87696cf, 0x32ddc14b;
    Go(msg, 25, a28, a27, a26, a25, e28, e27, e26, e25, 0xa831c66d, 0x96c77ca5, a29, e29);
    var a30, e30 := 0xbf9f575e, 0x018a2bf9;
    Go(msg, 26, a29, a28, a27, a26, e29, e28, e27, e26, 0xb00327c8, 0xa2f94846, a30, e30);
    var a31, e31 := 0x00c0ff8a, 0xd03613e9;
    Go(msg, 27, a30, a29, a28, a27, e30, e29, e28, e27, 0xbf597fc7, 0x849744ef, a31, e31);
    var a32, e32 := 0xc4b9f5b9, 0x9a0b4446;
    Go(msg, 28, a31, a30, a29, a28, e31, e30, e29, e28, 0xc6e00bf3, 0x21dd3e6a, a32, e32);
    var a33, e33 := 0x0d94f00c, 0x163acf8e;
    Go(msg, 29, a32, a31, a30, a29, e32, e31, e30, e29, 0xd5a79147, 0x1ca36b00, a33, e33);
    var a34, e34 := 0xc44c9f98, 0xae95a0dc;
    Go(msg, 30, a33, a32, a31, a30, e33, e32, e31, e30, 0x06ca6351, 0x3f957a61, a34, e34);
    var a35, e35 := 0x033c17ef, 0x3fb4bb4e;
    Go(msg, 31, a34, a33, a32, a31, e34, e33, e32, e31, 0x14292967, 0x2079cf86, a35, e35);
  }

  lemma Rounds40(msg: Bytes)
    requires FirstWords(msg)
    ensures Rounds(Initial(), msg, 0, 40) == Regs(0x4b80a310, 0xa3c3854f, 0xcccf6cff, 0x9b547889,
                                                  0xef774739, 0x5ac4daea, 0x976eecaf, 0xaa2c9ad1)
  {
    hide Rounds, W, K, Initial;
    Rounds32(msg);
    Constants32();
    Words32(msg);
    var a32, e32 := 0xc4b9f5b9, 0x9a0b4446;
    var a33, e33 := 0x0d94f00c, 0x163acf8e;
    var a34, e34 := 0xc44c9f98, 0xae95a0dc;
    var a35, e35 := 0x033c17ef, 0x3fb4bb4e;
    var a36, e36 := 0x7cc76ada, 0xac7c28f0;
    Go(msg, 32, a35, a34, a33, a32, e35, e34, e33, e32, 0x27b70a85, 0x6bfc7c3b, a36, e36);
    var a37, e37 := 0x7a71b325, 0x6f712dd9;
    Go(msg, 33, a36, a35, a34, a33, e36, e35, e34, e33, 0x2e1b2138, 0x0c209d4b, a37, e37);
    var a38, e38 := 0x3cd610cb, 0x853251c7;
    Go(msg, 34, a37, a36, a35, a34, e37, e36, e35, e34, 0x4d2c6dfc, 0x2228225c, a38, e38);
    var a39, e39 := 0xfc56d2b8, 0x718c696b;
    Go(msg, 35, a38, a37, a36, a35, e38, e37, e36, e35, 0x53380d13, 0xee1ad25b, a39, e39);
    var a40, e40 := 0x9b547889, 0xaa2c9ad1;
    Go(msg, 36, a39, a38, a37, a36, e39, e38, e37, e36, 0x650a7354, 0xc5d09850, a40, e40);
    var a41, e41 := 0xcccf6cff, 0x976eecaf;
    Go(msg, 37, a40, a39, a38, a37, e40, e39, e38, e37, 0x766a0abb, 0x07331882, a41, e41);
    var a42, e42 := 0xa3c3854f, 0x5ac4daea;
    Go(msg, 38, a41, a40, a39, a38, e41, e40, e39, e38, 0x81c2c92e, 0x977423c5, a42, e42);
    var a43, e43 := 0x4b80a310, 0xef774739;
    Go(msg, 39, a42, a41, a40, a39, e42, e41, e40, e39, 0x92722c85, 0xa667d6f9, a43, e43);
  }

  lemma Rounds48(msg: Bytes)
    requires FirstWords(msg)
    ensures Rounds(Initial(), msg, 0, 48) == Regs(0x92aaef10, 0xf5e75fc1, 0xb7182ef2, 0xda1b95a3,
                                                  0x88ea2409, 0x6042168a, 0x15ac92b5, 0x3050bcb4)
  {
    hide Rounds, W, K, Initial;
    Rounds40(msg);
    Constants40();
    Words40(msg);
    var a40, e40 := 0x9b547889, 0xaa2c9ad1;
    var a41, e41 := 0xcccf6cff, 0x976eecaf;
    var a42, e42 := 0xa3c3854f, 0x5ac4daea;
    var a43, e43 := 0x4b80a310, 0xef774739;
    var a44, e44 := 0xf31343b7, 0xb9b5e0f2;
    Go(msg, 40, a43, a42, a41, a40, e43, e42, e41, e40, 0xa2bfe8a1, 0xbc044b46, a44, e44);
    var a45, e45 := 0x5ebef098, 0x9b9542c5;
    Go(msg, 41, a44, a43, a42, a41, e44, e43, e42, e41, 0xa81a664b, 0x95859031, a45, e45);
    var a46, e46 := 0xc05ec85d, 0x9fe04171;
    Go(msg, 42, a45, a44, a43, a42, e45, e44, e43, e42, 0xc24b8b70, 0x5c98ca62, a46, e46);
    var a47, e47 := 0x0b63d3f9, 0x3aecee8c;
    Go(msg, 43, a46, a45, a44, a43, e46, e45, e44, e43, 0xc76c51a3, 0x64860c1b, a47, e47);
    var a48, e48 := 0xda1b95a3, 0x3050bcb4;
    Go(msg, 44, a47, a46, a45, a44, e47, e46, e45, e44, 0xd192e819, 0x7ee7c777, a48, e48);
    var a49, e49 := 0xb7182ef2, 0x15ac92b5;
    Go(msg, 45, a48, a47, a46, a45, e48, e47, e46, e45, 0xd6990624, 0x16c55872, a49, e49);
    var a50, e50 := 0xf5e75fc1, 0x6042168a;
    Go(msg, 46, a49, a48, a47, a46, e49, e48, e47, e46, 0xf40e3585, 0x7cf67d29, a50, e50);
    var a51, e51 := 0x92aaef10, 0x88ea2409;
    Go(msg, 47, a50, a49, a48, a47, e50, e49, e48, e47, 0x106aa070, 0x4857c138, a51, e51);
  }

  lemma Rounds56(msg: Bytes)
    requires FirstWords(msg)
    ensures Rounds(Initial(), msg, 0, 56) == Regs(0x335e273d, 0xa87fa1ef, 0x5ae0dba6, 0x952fe02e,
                                                  0x4da8becd, 0x5f5572ee, 0x0301100e, 0xcc6948ea)
  {
    hide Rounds, W, K, Initial;
    Rounds48(msg);
    Constants48();
    Words48(msg);
    var a48, e48 := 0xda1b95a3, 0x3050bcb4;
    var a49, e49 := 0xb7182ef2, 0x15ac92b5;
    var a50, e50 := 0xf5e75fc1, 0x6042168a;
    var a51, e51 := 0x92aaef10, 0x88ea2409;
    var a52, e52 := 0x83f8ecc0, 0xaed7a5ba;
    Go(msg, 48, a51, a50, a49, a48, e51, e50, e49, e48, 0x19a4c116, 0xa37f4a81, a52, e52);
    var a53, e53 := 0xa20fa1b5, 0x1ff3b9ef;
    Go(msg, 49, a52, a51, a50, a49, e52, e51, e50, e49, 0x1e376c08, 0x35f8fd03, a53, e53);
    var a54, e54 := 0x5e6a13a9, 0x75fe5742;
    Go(msg, 50, a53, a52, a51, a50, e53, e52, e51, e50, 0x2748774c, 0xf16ffce2, a54, e54);
    var a55, e55 := 0xce9f8e65, 0x7c410911;
    Go(msg, 51, a54, a53, a52, a51, e54, e53, e52, e51, 0x34b0bcb5, 0x6d549f9c, a55, e55);
    var a56, e56 := 0x952fe02e, 0xcc6948ea;
    Go(msg, 52, a55, a54, a53, a52, e55, e54, e53, e52, 0x391c0cb3, 0xa12ff314, a56, e56);
    var a57, e57 := 0x5ae0dba6, 0x0301100e;
    Go(msg, 53, a56, a55, a54, a53, e56, e55, e54, e53, 0x4ed8aa4a, 0xf1818db4, a57, e57);
    var a58, e58 := 0xa87fa1ef, 0x5f5572ee;
    Go(msg, 54, a57, a56, a55, a54, e57, e56, e55, e54, 0x5b9cca4f, 0xf9cad136, a58, e58);
    var a59, e59 := 0x335e273d, 0x4da8becd;
    Go(msg, 55, a58, a57, a56, a55, e58, e57, e56, e55, 0x682e6ff3, 0xc960d70c, a59, e59);
  }

  lemma Rounds64(msg: Bytes)
    requires FirstWords(msg)
    ensures Rounds(Initial(), msg, 0, 64) == Regs(0xc2e86753, 0xa448f489, 0xea7947b8, 0x2069ed64,
                                                  0xca07cbdd, 0x84a1d9d2, 0x538059b7, 0x37aacb0b)
  {
    hide Rounds, W, K, Initial;
    Rounds56(msg);
    Constants56();
    Words56(msg);
    var a56, e56 := 0x952fe02e, 0xcc6948ea;
    var a57, e57 := 0x5ae0dba6, 0x0301100e;
    var a58, e58 := 0xa87fa1ef, 0x5f5572ee;
    var a59, e59 := 0x335e273d, 0x4da8becd;
    var a60, e60 := 0x4af4f18a, 0x98034616;
    Go(msg, 56, a59, a58, a57, a56, e59, e58, e57, e56, 0x748f82ee, 0x3a18f5f8, a60, e60);
    var a61, e61 := 0x51b087fc, 0xb4e97f05;
    Go(msg, 57, a60, a59, a58, a57, e60, e59, e58, e57, 0x78a5636f, 0xf5fdf2ba, a61, e61);
    var a62, e62 := 0x651a8bfa, 0xd01428f0;
    Go(msg, 58, a61, a60, a59, a58, e61, e60, e59, e58, 0x84c87814, 0xe79a1b2a, a62, e62);
    var a63, e63 := 0x96168426, 0xdb09c3ab;
    Go(msg, 59, a62, a61, a60, a59, e62, e61, e60, e59, 0x8cc70208, 0x5dea4345, a63, e63);
    var a64, e64 := 0x2069ed64, 0x37aacb0b;
    Go(msg, 60, a63, a62, a61, a60, e63, e62, e61, e60, 0x90befffa, 0x701cc2f2, a64, e64);
    var a65, e65 := 0xea7947b8, 0x538059b7;
    Go(msg, 61, a64, a63, a62, a61, e64, e63, e62, e61, 0xa4506ceb, 0x3c9b25e2, a65, e65);
    var a66, e66 := 0xa448f489, 0x84a1d9d2;
    Go(msg, 62, a65, a64, a63, a62, e65, e64, e63, e62, 0xbef9a3f7, 0xc9670b22, a66, e66);
    var a67, e67 := 0xc2e86753, 0xca07cbdd;
    Go(msg, 63, a66, a65, a64, a63, e66, e65, e64, e63, 0xc67178f2, 0x3e3cb561, a67, e67);
  }

  lemma NoRound(msg: Bytes)
    requires |msg| == 64
    ensures Initial() == Regs(0x6a09e667, 0xbb67ae85, 0x3c6ef372, 0xa54ff53a,
                             0x510e527f, 0x9b05688c, 0x1f83d9ab, 0x5be0cd19)
    ensures Rounds(Initial(), msg, 0, 0) == Initial()
  {
  }

  // ---- The whole ----

  const HELLO: Bytes := [104, 101, 108, 108, 111]

  lemma PaddedHello(msg: Bytes)
    requires msg == Pad(HELLO)
    ensures FirstWords(msg)
  {
    hide Pad;
    PadOf(msg);
    hide WordOf;
    SomeWords();
    assert W(msg, 0, 0) == WordOf(104, 101, 108, 108);
    assert W(msg, 0, 1) == WordOf(111, 0x80, 0, 0);
    assert W(msg, 0, 15) == WordOf(0, 0, 0, 40);
    forall t | 2 <= t < 15 ensures W(msg, 0, t) == 0 {
      assert W(msg, 0, t) == WordOf(0, 0, 0, 0);
    }
  }

  lemma PadOf(msg: Bytes)
    requires msg == Pad(HELLO)
    ensures |msg| == 64
    ensures msg[..8] == [104, 101, 108, 108, 111, 0x80, 0, 0]
    ensures forall k :: 8 <= k < 63 ==> msg[k] == 0
    ensures msg[63] == 40
  {
    hide BigEndian;
    assert ZeroCount(5) == 50 && BitLength(5) == 40;
    forall k | 0 <= k < 8 ensures BigEndian(40, 8)[k] == if k < 7 then 0 else 40 {
      BigEndianAt(40, 8, k);
      SmallQuotient(7 - k);
    }
  }

  lemma SmallQuotient(n: nat)
    ensures 40 / Pow256(n) == if n == 0 then 40 else 0
  {
    if n > 0 {
      LargePower(n);
      QuotientUnique(40, Pow256(n), 0, 40);
    }
  }

  lemma {:induction false} LargePower(n: nat)
    requires n > 0
    ensures Pow256(n) >= 256
  {
    if n > 1 {
      LargePower(n - 1);
    }
  }

  lemma SomeWords()
    ensures WordOf(104, 101, 108, 108) == 0x68656c6c
    ensures WordOf(111, 0x80, 0, 0) == 0x6f800000
    ensures WordOf(0, 0, 0, 40) == 0x28
    ensures WordOf(0, 0, 0, 0) == 0
  {
  }

  lemma DigestOfHello()
    ensures Digest(HELLO) == Regs(0x2cf24dba, 0x5fb0a30e, 0x26e83b2a, 0xc5b9e29e,
                                  0x1b161e5c, 0x1fa7425e, 0x73043362, 0x938b9824)
  {
    hide Pad, Rounds, Initial, AddWords, FirstWords;
    var msg := Pad(HELLO);
    PaddedHello(msg);
    SixtyFour(msg);
    Rounds64(msg);
    NoRound(msg);
    assert HashBlocks(msg, 1) == AddWords(HashBlocks(msg, 0), Rounds(HashBlocks(msg, 0), msg, 0, 64));
    LastSum();
  }

  lemma SixtyFour(msg: Bytes)
    requires FirstWords(msg)
    ensures |msg| == 64
  {
    hide W;
  }

  lemma LastSum()
    ensures AddWords(Regs(0x6a09e667, 0xbb67ae85, 0x3c6ef372, 0xa54ff53a,
                          0x510e527f, 0x9b05688c, 0x1f83d9ab, 0x5be0cd19),
                     Regs(0xc2e86753, 0xa448f489, 0xea7947b8, 0x2069ed64,
                          0xca07cbdd, 0x84a1d9d2, 0x538059b7, 0x37aacb0b)) ==
            Regs(0x2cf24dba, 0x5fb0a30e, 0x26e83b2a, 0xc5b9e29e,
                 0x1b161e5c, 0x1fa7425e, 0x73043362, 0x938b9824)
  {
  }

  lemma Text0()
    ensures HexWord(0x2cf24dba) == [50, 99, 102, 50, 52, 100, 98, 97]
  {
  }

  lemma Text1()
    ensures HexWord(0x5fb0a30e) == [53, 102, 98, 48, 97, 51, 48, 101]
  {
  }

  lemma Text2()
    ensures HexWord(0x26e83b2a) == [50, 54, 101, 56, 51, 98, 50, 97]
  {
  }

  lemma Text3()
    ensures HexWord(0xc5b9e29e) == [99, 53, 98, 57, 101, 50, 57, 101]
  {
  }

  lemma Text4()
    ensures HexWord(0x1b161e5c) == [49, 98, 49, 54, 49, 101, 53, 99]
  {
  }

  lemma Text5()
    ensures HexWord(0x1fa7425e) == [49, 102, 97, 55, 52, 50, 53, 101]
  {
  }

  lemma Text6()
    ensures HexWord(0x73043362) == [55, 51, 48, 52, 51, 51, 54, 50]
  {
  }

  lemma Text7()
    ensures HexWord(0x938b9824) == [57, 51, 56, 98, 57, 56, 50, 52]
  {
  }

  lemma EightWords(d: Regs)
    ensures Hex(d) == HexWord(d.a) + HexWord(d.b) + HexWord(d.c) + HexWord(d.d) +
                      HexWord(d.e) + HexWord(d.f) + HexWord(d.g) + HexWord(d.h)
  {
    hide HexWord;
    var s := Words(d);
    assert s[..8] == s && HexWords(s[..0]) == [];
    assert forall n :: 0 <= n < 8 ==> s[..n + 1][..n] == s[..n];
    assert HexWords(s[..1]) == HexWord(d.a);
    assert HexWords(s[..2]) == HexWords(s[..1]) + HexWord(d.b);
    assert HexWords(s[..3]) == HexWords(s[..2]) + HexWord(d.c);
    assert HexWords(s[..4]) == HexWords(s[..3]) + HexWord(d.d);
    assert HexWords(s[..5]) == HexWords(s[..4]) + HexWord(d.e);
    assert HexWords(s[..6]) == HexWords(s[..5]) + HexWord(d.f);
    assert HexWords(s[..7]) == HexWords(s[..6]) + HexWord(d.g);
  }

  /** The checksum of "hello", as tests/test_checksum.cpp writes it. */
  lemma ChecksumOfHello()
    ensures Checksum(HELLO) ==
            // 2cf24dba5fb0a30e26e83b2ac5b9e29e1b161e5c1fa7425e73043362938b9824
            [50, 99, 102, 50, 52, 100, 98, 97] + [53, 102, 98, 48, 97, 51, 48, 101] +
            [50, 54, 101, 56, 51, 98, 50, 97] + [99, 53, 98, 57, 101, 50, 57, 101] +
            [49, 98, 49, 54, 49, 101, 53, 99] + [49, 102, 97, 55, 52, 50, 53, 101] +
            [55, 51, 48, 52, 51, 51, 54, 50] + [57, 51, 56, 98, 57, 56, 50, 52]
  {
    hide HexWord, Digest, HexWords;
    DigestOfHello();
    EightWords(Digest(HELLO));
    Text0(); Text1(); Text2(); Text3(); Text4(); Text5(); Text6(); Text7();
  }
}
