/** Known answers from appendix A.5 of RFC 1321: they fix the table, the shifts, the schedule and the byte
    orders of Md5Spec by numbers that do not come from it. */
module Md5KnownAnswers {
  import opened Bytes
  import opened Md5Spec

  /** Step i, with its words given: from a, b, c, d it makes w. */
  lemma Next(x: seq<bv32>, i: nat, n: nat, a: bv32, b: bv32, c: bv32, d: bv32, xk: bv32, s: bv32, t: bv32, w: bv32)
    requires |x| == 16 && s <= 32 && x[WordIndex(i)] == xk && Shift(i) == s && T(i) == t
    requires NewWord(a, b, Aux(i / 16, b, c, d), xk, s, t) == w
    ensures Iterate(Rounds(x), Regs(a, b, c, d), i, n + 1) == Iterate(Rounds(x), Regs(d, w, b, c), i + 1, n)
  {
    hide NewWord;
    hide Aux;
  }

  lemma NoSteps(x: seq<bv32>, r: Regs, i: nat)
    requires |x| == 16
    ensures Iterate(Rounds(x), r, i, 0) == r
  {
  }

  lemma Numbers0()
    ensures WordIndex(0) == 0 && Shift(0) == 7 && T(0) == 0xd76aa478
    ensures WordIndex(1) == 1 && Shift(1) == 12 && T(1) == 0xe8c7b756
    ensures WordIndex(2) == 2 && Shift(2) == 17 && T(2) == 0x242070db
    ensures WordIndex(3) == 3 && Shift(3) == 22 && T(3) == 0xc1bdceee
    ensures WordIndex(4) == 4 && Shift(4) == 7 && T(4) == 0xf57c0faf
    ensures WordIndex(5) == 5 && Shift(5) == 12 && T(5) == 0x4787c62a
    ensures WordIndex(6) == 6 && Shift(6) == 17 && T(6) == 0xa8304613
    ensures WordIndex(7) == 7 && Shift(7) == 22 && T(7) == 0xfd469501
  {
  }

  lemma Numbers8()
    ensures WordIndex(8) == 8 && Shift(8) == 7 && T(8) == 0x698098d8
    ensures WordIndex(9) == 9 && Shift(9) == 12 && T(9) == 0x8b44f7af
    ensures WordIndex(10) == 10 && Shift(10) == 17 && T(10) == 0xffff5bb1
    ensures WordIndex(11) == 11 && Shift(11) == 22 && T(11) == 0x895cd7be
    ensures WordIndex(12) == 12 && Shift(12) == 7 && T(12) == 0x6b901122
    ensures WordIndex(13) == 13 && Shift(13) == 12 && T(13) == 0xfd987193
    ensures WordIndex(14) == 14 && Shift(14) == 17 && T(14) == 0xa679438e
    ensures WordIndex(15) == 15 && Shift(15) == 22 && T(15) == 0x49b40821
  {
  }

  lemma Numbers16()
    ensures WordIndex(16) == 1 && Shift(16) == 5 && T(16) == 0xf61e2562
    ensures WordIndex(17) == 6 && Shift(17) == 9 && T(17) == 0xc040b340
    ensures WordIndex(18) == 11 && Shift(18) == 14 && T(18) == 0x265e5a51
    ensures WordIndex(19) == 0 && Shift(19) == 20 && T(19) == 0xe9b6c7aa
    ensures WordIndex(20) == 5 && Shift(20) == 5 && T(20) == 0xd62f105d
    ensures WordIndex(21) == 10 && Shift(21) == 9 && T(21) == 0x02441453
    ensures WordIndex(22) == 15 && Shift(22) == 14 && T(22) == 0xd8a1e681
    ensures WordIndex(23) == 4 && Shift(23) == 20 && T(23) == 0xe7d3fbc8
  {
  }

  lemma Numbers24()
    ensures WordIndex(24) == 9 && Shift(24) == 5 && T(24) == 0x21e1cde6
    ensures WordIndex(25) == 14 && Shift(25) == 9 && T(25) == 0xc33707d6
    ensures WordIndex(26) == 3 && Shift(26) == 14 && T(26) == 0xf4d50d87
    ensures WordIndex(27) == 8 && Shift(27) == 20 && T(27) == 0x455a14ed
    ensures WordIndex(28) == 13 && Shift(28) == 5 && T(28) == 0xa9e3e905
    ensures WordIndex(29) == 2 && Shift(29) == 9 && T(29) == 0xfcefa3f8
    ensures WordIndex(30) == 7 && Shift(30) == 14 && T(30) == 0x676f02d9
    ensures WordIndex(31) == 12 && Shift(31) == 20 && T(31) == 0x8d2a4c8a
  {
  }

  lemma Numbers32()
    ensures WordIndex(32) == 5 && Shift(32) == 4 && T(32) == 0xfffa3942
    ensures WordIndex(33) == 8 && Shift(33) == 11 && T(33) == 0x8771f681
    ensures WordIndex(34) == 11 && Shift(34) == 16 && T(34) == 0x6d9d6122
    ensures WordIndex(35) == 14 && Shift(35) == 23 && T(35) == 0xfde5380c
    ensures WordIndex(36) == 1 && Shift(36) == 4 && T(36) == 0xa4beea44
    ensures WordIndex(37) == 4 && Shift(37) == 11 && T(37) == 0x4bdecfa9
    ensures WordIndex(38) == 7 && Shift(38) == 16 && T(38) == 0xf6bb4b60
    ensures WordIndex(39) == 10 && Shift(39) == 23 && T(39) == 0xbebfbc70
  {
  }

  lemma Numbers40()
    ensures WordIndex(40) == 13 && Shift(40) == 4 && T(40) == 0x289b7ec6
    ensures WordIndex(41) == 0 && Shift(41) == 11 && T(41) == 0xeaa127fa
    ensures WordIndex(42) == 3 && Shift(42) == 16 && T(42) == 0xd4ef3085
    ensures WordIndex(43) == 6 && Shift(43) == 23 && T(43) == 0x04881d05
    ensures WordIndex(44) == 9 && Shift(44) == 4 && T(44) == 0xd9d4d039
    ensures WordIndex(45) == 12 && Shift(45) == 11 && T(45) == 0xe6db99e5
    ensures WordIndex(46) == 15 && Shift(46) == 16 && T(46) == 0x1fa27cf8
    ensures WordIndex(47) == 2 && Shift(47) == 23 && T(47) == 0xc4ac5665
  {
  }

  lemma Numbers48()
    ensures WordIndex(48) == 0 && Shift(48) == 6 && T(48) == 0xf4292244
    ensures WordIndex(49) == 7 && Shift(49) == 10 && T(49) == 0x432aff97
    ensures WordIndex(50) == 14 && Shift(50) == 15 && T(50) == 0xab9423a7
    ensures WordIndex(51) == 5 && Shift(51) == 21 && T(51) == 0xfc93a039
    ensures WordIndex(52) == 12 && Shift(52) == 6 && T(52) == 0x655b59c3
    ensures WordIndex(53) == 3 && Shift(53) == 10 && T(53) == 0x8f0ccc92
    ensures WordIndex(54) == 10 && Shift(54) == 15 && T(54) == 0xffeff47d
    ensures WordIndex(55) == 1 && Shift(55) == 21 && T(55) == 0x85845dd1
  {
  }

  lemma Numbers56()
    ensures WordIndex(56) == 8 && Shift(56) == 6 && T(56) == 0x6fa87e4f
    ensures WordIndex(57) == 15 && Shift(57) == 10 && T(57) == 0xfe2ce6e0
    ensures WordIndex(58) == 6 && Shift(58) == 15 && T(58) == 0xa3014314
    ensures WordIndex(59) == 13 && Shift(59) == 21 && T(59) == 0x4e0811a1
    ensures WordIndex(60) == 4 && Shift(60) == 6 && T(60) == 0xf7537e82
    ensures WordIndex(61) == 11 && Shift(61) == 10 && T(61) == 0xbd3af235
    ensures WordIndex(62) == 2 && Shift(62) == 15 && T(62) == 0x2ad7d2bb
    ensures WordIndex(63) == 9 && Shift(63) == 21 && T(63) == 0xeb86d391
  {
  }

  predicate EmptyWords(x: seq<bv32>) {
    && |x| == 16
    && x[0] == 0x00000080 && x[1] == 0x00000000 && x[2] == 0x00000000 && x[3] == 0x00000000
    && x[4] == 0x00000000 && x[5] == 0x00000000 && x[6] == 0x00000000 && x[7] == 0x00000000
    && x[8] == 0x00000000 && x[9] == 0x00000000 && x[10] == 0x00000000 && x[11] == 0x00000000
    && x[12] == 0x00000000 && x[13] == 0x00000000 && x[14] == 0x00000000 && x[15] == 0x00000000
  }

  lemma EmptySteps0(x: seq<bv32>)
    requires EmptyWords(x)
    ensures Iterate(Rounds(x), Regs(0x67452301, 0xefcdab89, 0x98badcfe, 0x10325476), 0, 8) ==
              Regs(0x32033344, 0x9bc13ce9, 0xf5b158db, 0x2f35d494)
  {
    hide T;
    hide Shift;
    hide WordIndex;
    hide Iterate;
    hide Rounds;
    Numbers0();
    Next(x, 0, 7, 0x67452301, 0xefcdab89, 0x98badcfe, 0x10325476, 0x00000080, 7, 0xd76aa478, 0xa5202774);
    Next(x, 1, 6, 0x10325476, 0xa5202774, 0xefcdab89, 0x98badcfe, 0x00000000, 12, 0xe8c7b756, 0xf59592dd);
    Next(x, 2, 5, 0x98badcfe, 0xf59592dd, 0xa5202774, 0xefcdab89, 0x00000000, 17, 0x242070db, 0xe7f06b23);
    Next(x, 3, 4, 0xefcdab89, 0xe7f06b23, 0xf59592dd, 0xa5202774, 0x00000000, 22, 0xc1bdceee, 0x1b163203);
    Next(x, 4, 3, 0xa5202774, 0x1b163203, 0xe7f06b23, 0xf59592dd, 0x00000000, 7, 0xf57c0faf, 0x32033344);
    Next(x, 5, 2, 0xf59592dd, 0x32033344, 0x1b163203, 0xe7f06b23, 0x00000000, 12, 0x4787c62a, 0x2f35d494);
    Next(x, 6, 1, 0xe7f06b23, 0x2f35d494, 0x32033344, 0x1b163203, 0x00000000, 17, 0xa8304613, 0xf5b158db);
    Next(x, 7, 0, 0x1b163203, 0xf5b158db, 0x2f35d494, 0x32033344, 0x00000000, 22, 0xfd469501, 0x9bc13ce9);
    NoSteps(x, Regs(0x32033344, 0x9bc13ce9, 0xf5b158db, 0x2f35d494), 8);
  }

  lemma EmptySteps8(x: seq<bv32>)
    requires EmptyWords(x)
    ensures Iterate(Rounds(x), Regs(0x32033344, 0x9bc13ce9, 0xf5b158db, 0x2f35d494), 8, 8) ==
              Regs(0xf56c7cf1, 0xd6819c6a, 0x5aa53f75, 0x374943a7)
  {
    hide T;
    hide Shift;
    hide WordIndex;
    hide Iterate;
    hide Rounds;
    Numbers8();
    Next(x, 8, 7, 0x32033344, 0x9bc13ce9, 0xf5b158db, 0x2f35d494, 0x00000000, 7, 0x698098d8, 0x3893b991);
    Next(x, 9, 6, 0x2f35d494, 0x3893b991, 0x9bc13ce9, 0xf5b158db, 0x00000000, 12, 0x8b44f7af, 0xfce4a312);
    Next(x, 10, 5, 0xf5b158db, 0xfce4a312, 0x3893b991, 0x9bc13ce9, 0x00000000, 17, 0xffff5bb1, 0xe1ef0576);
    Next(x, 11, 4, 0x9bc13ce9, 0xe1ef0576, 0xfce4a312, 0x3893b991, 0x00000000, 22, 0x895cd7be, 0x70768a29);
    Next(x, 12, 3, 0x3893b991, 0x70768a29, 0xe1ef0576, 0xfce4a312, 0x00000000, 7, 0x6b901122, 0xf56c7cf1);
    Next(x, 13, 2, 0xfce4a312, 0xf56c7cf1, 0x70768a29, 0xe1ef0576, 0x00000000, 12, 0xfd987193, 0x374943a7);
    Next(x, 14, 1, 0xe1ef0576, 0x374943a7, 0xf56c7cf1, 0x70768a29, 0x00000000, 17, 0xa679438e, 0x5aa53f75);
    Next(x, 15, 0, 0x70768a29, 0x5aa53f75, 0x374943a7, 0xf56c7cf1, 0x00000000, 22, 0x49b40821, 0xd6819c6a);
    NoSteps(x, Regs(0xf56c7cf1, 0xd6819c6a, 0x5aa53f75, 0x374943a7), 16);
  }

  lemma EmptySteps16(x: seq<bv32>)
    requires EmptyWords(x)
    ensures Iterate(Rounds(x), Regs(0xf56c7cf1, 0xd6819c6a, 0x5aa53f75, 0x374943a7), 16, 8) ==
              Regs(0x3d1e3e6c, 0xe422531a, 0xeb41643e, 0x68b7b3e3)
  {
    hide T;
    hide Shift;
    hide WordIndex;
    hide Iterate;
    hide Rounds;
    Numbers16();
    Next(x, 16, 7, 0xf56c7cf1, 0xd6819c6a, 0x5aa53f75, 0x374943a7, 0x00000000, 5, 0xf61e2562, 0x1c7d7513);
    Next(x, 17, 6, 0x374943a7, 0x1c7d7513, 0xd6819c6a, 0x5aa53f75, 0x00000000, 9, 0xc040b340, 0x7bd57a3a);
    Next(x, 18, 5, 0x5aa53f75, 0x7bd57a3a, 0x1c7d7513, 0xd6819c6a, 0x00000000, 14, 0x265e5a51, 0xc095f13a);
    Next(x, 19, 4, 0xd6819c6a, 0xc095f13a, 0x7bd57a3a, 0x1c7d7513, 0x00000080, 20, 0xe9b6c7aa, 0xbd782e17);
    Next(x, 20, 3, 0x1c7d7513, 0xbd782e17, 0xc095f13a, 0x7bd57a3a, 0x00000000, 5, 0xd62f105d, 0x3d1e3e6c);
    Next(x, 21, 2, 0x7bd57a3a, 0x3d1e3e6c, 0xbd782e17, 0xc095f13a, 0x00000000, 9, 0x02441453, 0x68b7b3e3);
    Next(x, 22, 1, 0xc095f13a, 0x68b7b3e3, 0x3d1e3e6c, 0xbd782e17, 0x00000000, 14, 0xd8a1e681, 0xeb41643e);
    Next(x, 23, 0, 0xbd782e17, 0xeb41643e, 0x68b7b3e3, 0x3d1e3e6c, 0x00000000, 20, 0xe7d3fbc8, 0xe422531a);
    NoSteps(x, Regs(0x3d1e3e6c, 0xe422531a, 0xeb41643e, 0x68b7b3e3), 24);
  }

  lemma EmptySteps24(x: seq<bv32>)
    requires EmptyWords(x)
    ensures Iterate(Rounds(x), Regs(0x3d1e3e6c, 0xe422531a, 0xeb41643e, 0x68b7b3e3), 24, 8) ==
              Regs(0x13707036, 0xa2205f1f, 0x1c31c384, 0xae7813db)
  {
    hide T;
    hide Shift;
    hide WordIndex;
    hide Iterate;
    hide Rounds;
    Numbers24();
    Next(x, 24, 7, 0x3d1e3e6c, 0xe422531a, 0xeb41643e, 0x68b7b3e3, 0x00000000, 5, 0x21e1cde6, 0x306ec122);
    Next(x, 25, 6, 0x68b7b3e3, 0x306ec122, 0xe422531a, 0xeb41643e, 0x00000000, 9, 0xc33707d6, 0xd28c77c2);
    Next(x, 26, 5, 0xeb41643e, 0xd28c77c2, 0x306ec122, 0xe422531a, 0x00000000, 14, 0xf4d50d87, 0xa3c663da);
    Next(x, 27, 4, 0xe422531a, 0xa3c663da, 0xd28c77c2, 0x306ec122, 0x00000000, 20, 0x455a14ed, 0xa0572807);
    Next(x, 28, 3, 0x306ec122, 0xa0572807, 0xa3c663da, 0xd28c77c2, 0x00000000, 5, 0xa9e3e905, 0x13707036);
    Next(x, 29, 2, 0xd28c77c2, 0x13707036, 0xa0572807, 0xa3c663da, 0x00000000, 9, 0xfcefa3f8, 0xae7813db);
    Next(x, 30, 1, 0xa3c663da, 0xae7813db, 0x13707036, 0xa0572807, 0x00000000, 14, 0x676f02d9, 0x1c31c384);
    Next(x, 31, 0, 0xa0572807, 0x1c31c384, 0xae7813db, 0x13707036, 0x00000000, 20, 0x8d2a4c8a, 0xa2205f1f);
    NoSteps(x, Regs(0x13707036, 0xa2205f1f, 0x1c31c384, 0xae7813db), 32);
  }

  lemma EmptySteps32(x: seq<bv32>)
    requires EmptyWords(x)
    ensures Iterate(Rounds(x), Regs(0x13707036, 0xa2205f1f, 0x1c31c384, 0xae7813db), 32, 8) ==
              Regs(0x5f7a9b2e, 0xc5dc8c15, 0x91ca4cb7, 0xabc34e16)
  {
    hide T;
    hide Shift;
    hide WordIndex;
    hide Iterate;
    hide Rounds;
    Numbers32();
    Next(x, 32, 7, 0x13707036, 0xa2205f1f, 0x1c31c384, 0xae7813db, 0x00000000, 4, 0xfffa3942, 0xdf63eaa1);
    Next(x, 33, 6, 0xae7813db, 0xdf63eaa1, 0xa2205f1f, 0x1c31c384, 0x00000000, 11, 0x8771f681, 0xc3689f5b);
    Next(x, 34, 5, 0x1c31c384, 0xc3689f5b, 0xdf63eaa1, 0xa2205f1f, 0x00000000, 16, 0x6d9d6122, 0x12f3e755);
    Next(x, 35, 4, 0xa2205f1f, 0x12f3e755, 0xc3689f5b, 0xdf63eaa1, 0x00000000, 23, 0xfde5380c, 0x004b6669);
    Next(x, 36, 3, 0xdf63eaa1, 0x004b6669, 0x12f3e755, 0xc3689f5b, 0x00000000, 4, 0xa4beea44, 0x5f7a9b2e);
    Next(x, 37, 2, 0xc3689f5b, 0x5f7a9b2e, 0x004b6669, 0x12f3e755, 0x00000000, 11, 0x4bdecfa9, 0xabc34e16);
    Next(x, 38, 1, 0x12f3e755, 0xabc34e16, 0x5f7a9b2e, 0x004b6669, 0x00000000, 16, 0xf6bb4b60, 0x91ca4cb7);
    Next(x, 39, 0, 0x004b6669, 0x91ca4cb7, 0xabc34e16, 0x5f7a9b2e, 0x00000000, 23, 0xbebfbc70, 0xc5dc8c15);
    NoSteps(x, Regs(0x5f7a9b2e, 0xc5dc8c15, 0x91ca4cb7, 0xabc34e16), 40);
  }

  lemma EmptySteps40(x: seq<bv32>)
    requires EmptyWords(x)
    ensures Iterate(Rounds(x), Regs(0x5f7a9b2e, 0xc5dc8c15, 0x91ca4cb7, 0xabc34e16), 40, 8) ==
              Regs(0x3f55edfd, 0xca7d2dbd, 0x68d84ea2, 0x22a31f54)
  {
    hide T;
    hide Shift;
    hide WordIndex;
    hide Iterate;
    hide Rounds;
    Numbers40();
    Next(x, 40, 7, 0x5f7a9b2e, 0xc5dc8c15, 0x91ca4cb7, 0xabc34e16, 0x00000000, 4, 0x289b7ec6, 0x4497169d);
    Next(x, 41, 6, 0xabc34e16, 0x4497169d, 0xc5dc8c15, 0x91ca4cb7, 0x00000080, 11, 0xeaa127fa, 0x76fd93d4);
    Next(x, 42, 5, 0x91ca4cb7, 0x76fd93d4, 0x4497169d, 0xc5dc8c15, 0x00000000, 16, 0xd4ef3085, 0xfd95f243);
    Next(x, 43, 4, 0xc5dc8c15, 0xfd95f243, 0x76fd93d4, 0x4497169d, 0x00000000, 23, 0x04881d05, 0x0fe32453);
    Next(x, 44, 3, 0x4497169d, 0x0fe32453, 0xfd95f243, 0x76fd93d4, 0x00000000, 4, 0xd9d4d039, 0x3f55edfd);
    Next(x, 45, 2, 0x76fd93d4, 0x3f55edfd, 0x0fe32453, 0xfd95f243, 0x00000000, 11, 0xe6db99e5, 0x22a31f54);
    Next(x, 46, 1, 0xfd95f243, 0x22a31f54, 0x3f55edfd, 0x0fe32453, 0x00000000, 16, 0x1fa27cf8, 0x68d84ea2);
    Next(x, 47, 0, 0x0fe32453, 0x68d84ea2, 0x22a31f54, 0x3f55edfd, 0x00000000, 23, 0xc4ac5665, 0xca7d2dbd);
    NoSteps(x, Regs(0x3f55edfd, 0xca7d2dbd, 0x68d84ea2, 0x22a31f54), 48);
  }

  lemma EmptySteps48(x: seq<bv32>)
    requires EmptyWords(x)
    ensures Iterate(Rounds(x), Regs(0x3f55edfd, 0xca7d2dbd, 0x68d84ea2, 0x22a31f54), 48, 8) ==
              Regs(0x5625a114, 0x1e77fa61, 0x392ad0d0, 0x3450f42b)
  {
    hide T;
    hide Shift;
    hide WordIndex;
    hide Iterate;
    hide Rounds;
    Numbers48();
    Next(x, 48, 7, 0x3f55edfd, 0xca7d2dbd, 0x68d84ea2, 0x22a31f54, 0x00000080, 6, 0xf4292244, 0x93aa2577);
    Next(x, 49, 6, 0x22a31f54, 0x93aa2577, 0xca7d2dbd, 0x68d84ea2, 0x00000000, 10, 0x432aff97, 0x1688dc85);
    Next(x, 50, 5, 0x68d84ea2, 0x1688dc85, 0x93aa2577, 0xca7d2dbd, 0x00000000, 15, 0xab9423a7, 0xcd85b8cb);
    Next(x, 51, 4, 0xca7d2dbd, 0xcd85b8cb, 0x1688dc85, 0x93aa2577, 0x00000000, 21, 0xfc93a039, 0x561e0689);
    Next(x, 52, 3, 0x93aa2577, 0x561e0689, 0xcd85b8cb, 0x1688dc85, 0x00000000, 6, 0x655b59c3, 0x5625a114);
    Next(x, 53, 2, 0x1688dc85, 0x5625a114, 0x561e0689, 0xcd85b8cb, 0x00000000, 10, 0x8f0ccc92, 0x3450f42b);
    Next(x, 54, 1, 0xcd85b8cb, 0x3450f42b, 0x5625a114, 0x561e0689, 0x00000000, 15, 0xffeff47d, 0x392ad0d0);
    Next(x, 55, 0, 0x561e0689, 0x392ad0d0, 0x3450f42b, 0x5625a114, 0x00000000, 21, 0x85845dd1, 0x1e77fa61);
    NoSteps(x, Regs(0x5625a114, 0x1e77fa61, 0x392ad0d0, 0x3450f42b), 56);
  }

  lemma EmptySteps56(x: seq<bv32>)
    requires EmptyWords(x)
    ensures Iterate(Rounds(x), Regs(0x5625a114, 0x1e77fa61, 0x392ad0d0, 0x3450f42b), 56, 8) ==
              Regs(0x7246fad3, 0x14e45506, 0xff4ea3eb, 0x6e10a476)
  {
    hide T;
    hide Shift;
    hide WordIndex;
    hide Iterate;
    hide Rounds;
    Numbers56();
    Next(x, 56, 7, 0x5625a114, 0x1e77fa61, 0x392ad0d0, 0x3450f42b, 0x00000000, 6, 0x6fa87e4f, 0x474a9c8c);
    Next(x, 57, 6, 0x3450f42b, 0x474a9c8c, 0x1e77fa61, 0x392ad0d0, 0x00000000, 10, 0xfe2ce6e0, 0xdfce00bc);
    Next(x, 58, 5, 0x392ad0d0, 0xdfce00bc, 0x474a9c8c, 0x1e77fa61, 0x00000000, 15, 0xa3014314, 0x36594b14);
    Next(x, 59, 4, 0x1e77fa61, 0x36594b14, 0xdfce00bc, 0x474a9c8c, 0x00000000, 21, 0x4e0811a1, 0x30130182);
    Next(x, 60, 3, 0x474a9c8c, 0x30130182, 0x36594b14, 0xdfce00bc, 0x00000000, 6, 0xf7537e82, 0x7246fad3);
    Next(x, 61, 2, 0xdfce00bc, 0x7246fad3, 0x30130182, 0x36594b14, 0x00000000, 10, 0xbd3af235, 0x6e10a476);
    Next(x, 62, 1, 0x36594b14, 0x6e10a476, 0x7246fad3, 0x30130182, 0x00000000, 15, 0x2ad7d2bb, 0xff4ea3eb);
    Next(x, 63, 0, 0x30130182, 0xff4ea3eb, 0x6e10a476, 0x7246fad3, 0x00000000, 21, 0xeb86d391, 0x14e45506);
    NoSteps(x, Regs(0x7246fad3, 0x14e45506, 0xff4ea3eb, 0x6e10a476), 64);
  }

  lemma EmptyBlock(block: seq<byte>)
    requires |block| == 64 && EmptyWords(Words(block))
    ensures Compress(Regs(0x67452301, 0xefcdab89, 0x98badcfe, 0x10325476), block) ==
              Regs(0xd98c1dd4, 0x04b2008f, 0x980980e9, 0x7e42f8ec)
  {
    hide Iterate;
    hide Rounds;
    hide Words;
    var x := Words(block);
    EmptySteps0(x);
    EmptySteps8(x);
    EmptySteps16(x);
    EmptySteps24(x);
    EmptySteps32(x);
    EmptySteps40(x);
    EmptySteps48(x);
    EmptySteps56(x);
    IterateAppend(Rounds(x), Regs(0x67452301, 0xefcdab89, 0x98badcfe, 0x10325476), 0, 8, 8);
    IterateAppend(Rounds(x), Regs(0x67452301, 0xefcdab89, 0x98badcfe, 0x10325476), 0, 16, 8);
    IterateAppend(Rounds(x), Regs(0x67452301, 0xefcdab89, 0x98badcfe, 0x10325476), 0, 24, 8);
    IterateAppend(Rounds(x), Regs(0x67452301, 0xefcdab89, 0x98badcfe, 0x10325476), 0, 32, 8);
    IterateAppend(Rounds(x), Regs(0x67452301, 0xefcdab89, 0x98badcfe, 0x10325476), 0, 40, 8);
    IterateAppend(Rounds(x), Regs(0x67452301, 0xefcdab89, 0x98badcfe, 0x10325476), 0, 48, 8);
    IterateAppend(Rounds(x), Regs(0x67452301, 0xefcdab89, 0x98badcfe, 0x10325476), 0, 56, 8);
    EmptySum();
  }

  lemma EmptySum()
    ensures AddRegs(Regs(0x67452301, 0xefcdab89, 0x98badcfe, 0x10325476),
                    Regs(0x7246fad3, 0x14e45506, 0xff4ea3eb, 0x6e10a476)) ==
              Regs(0xd98c1dd4, 0x04b2008f, 0x980980e9, 0x7e42f8ec)
  {
  }

  predicate FirstWords(x: seq<bv32>) {
    && |x| == 16
    && x[0] == 0x44434241 && x[1] == 0x48474645 && x[2] == 0x4c4b4a49 && x[3] == 0x504f4e4d
    && x[4] == 0x54535251 && x[5] == 0x58575655 && x[6] == 0x62615a59 && x[7] == 0x66656463
    && x[8] == 0x6a696867 && x[9] == 0x6e6d6c6b && x[10] == 0x7271706f && x[11] == 0x76757473
    && x[12] == 0x7a797877 && x[13] == 0x33323130 && x[14] == 0x37363534 && x[15] == 0x00803938
  }

  lemma FirstSteps0(x: seq<bv32>)
    requires FirstWords(x)
    ensures Iterate(Rounds(x), Regs(0x67452301, 0xefcdab89, 0x98badcfe, 0x10325476), 0, 8) ==
              Regs(0xf22e6c4e, 0xa4799506, 0xa95a2fc0, 0xb4ac9218)
  {
    hide T;
    hide Shift;
    hide WordIndex;
    hide Iterate;
    hide Rounds;
    Numbers0();
    Next(x, 0, 7, 0x67452301, 0xefcdab89, 0x98badcfe, 0x10325476, 0x44434241, 7, 0xd76aa478, 0xc6c10796);
    Next(x, 1, 6, 0x10325476, 0xc6c10796, 0xefcdab89, 0x98badcfe, 0x48474645, 12, 0xe8c7b756, 0x99a09999);
    Next(x, 2, 5, 0x98badcfe, 0x99a09999, 0xc6c10796, 0xefcdab89, 0x4c4b4a49, 17, 0x242070db, 0x11067980);
    Next(x, 3, 4, 0xefcdab89, 0x11067980, 0x99a09999, 0xc6c10796, 0x504f4e4d, 22, 0xc1bdceee, 0x27bce07a);
    Next(x, 4, 3, 0xc6c10796, 0x27bce07a, 0x11067980, 0x99a09999, 0x54535251, 7, 0xf57c0faf, 0xf22e6c4e);
    Next(x, 5, 2, 0x99a09999, 0xf22e6c4e, 0x27bce07a, 0x11067980, 0x58575655, 12, 0x4787c62a, 0xb4ac9218);
    Next(x, 6, 1, 0x11067980, 0xb4ac9218, 0xf22e6c4e, 0x27bce07a, 0x62615a59, 17, 0xa8304613, 0xa95a2fc0);
    Next(x, 7, 0, 0x27bce07a, 0xa95a2fc0, 0xb4ac9218, 0xf22e6c4e, 0x66656463, 22, 0xfd469501, 0xa4799506);
    NoSteps(x, Regs(0xf22e6c4e, 0xa4799506, 0xa95a2fc0, 0xb4ac9218), 8);
  }

  lemma FirstSteps8(x: seq<bv32>)
    requires FirstWords(x)
    ensures Iterate(Rounds(x), Regs(0xf22e6c4e, 0xa4799506, 0xa95a2fc0, 0xb4ac9218), 8, 8) ==
              Regs(0x3cbdcd45, 0x5d38e690, 0xfa148c8a, 0xb8dec763)
  {
    hide T;
    hide Shift;
    hide WordIndex;
    hide Iterate;
    hide Rounds;
    Numbers8();
    Next(x, 8, 7, 0xf22e6c4e, 0xa4799506, 0xa95a2fc0, 0xb4ac9218, 0x6a696867, 7, 0x698098d8, 0x1eb3e7c1);
    Next(x, 9, 6, 0xb4ac9218, 0x1eb3e7c1, 0xa4799506, 0xa95a2fc0, 0x6e6d6c6b, 12, 0x8b44f7af, 0xa6e70cfe);
    Next(x, 10, 5, 0xa95a2fc0, 0xa6e70cfe, 0x1eb3e7c1, 0xa4799506, 0x7271706f, 17, 0xffff5bb1, 0xca27520b);
    Next(x, 11, 4, 0xa4799506, 0xca27520b, 0xa6e70cfe, 0x1eb3e7c1, 0x76757473, 22, 0x895cd7be, 0x8a7612ec);
    Next(x, 12, 3, 0x1eb3e7c1, 0x8a7612ec, 0xca27520b, 0xa6e70cfe, 0x7a797877, 7, 0x6b901122, 0x3cbdcd45);
    Next(x, 13, 2, 0xa6e70cfe, 0x3cbdcd45, 0x8a7612ec, 0xca27520b, 0x33323130, 12, 0xfd987193, 0xb8dec763);
    Next(x, 14, 1, 0xca27520b, 0xb8dec763, 0x3cbdcd45, 0x8a7612ec, 0x37363534, 17, 0xa679438e, 0xfa148c8a);
    Next(x, 15, 0, 0x8a7612ec, 0xfa148c8a, 0xb8dec763, 0x3cbdcd45, 0x00803938, 22, 0x49b40821, 0x5d38e690);
    NoSteps(x, Regs(0x3cbdcd45, 0x5d38e690, 0xfa148c8a, 0xb8dec763), 16);
  }

  lemma FirstSteps16(x: seq<bv32>)
    requires FirstWords(x)
    ensures Iterate(Rounds(x), Regs(0x3cbdcd45, 0x5d38e690, 0xfa148c8a, 0xb8dec763), 16, 8) ==
              Regs(0x2d7d8a3f, 0x75292030, 0x4b534dc3, 0xd1210823)
  {
    hide T;
    hide Shift;
    hide WordIndex;
    hide Iterate;
    hide Rounds;
    Numbers16();
    Next(x, 16, 7, 0x3cbdcd45, 0x5d38e690, 0xfa148c8a, 0xb8dec763, 0x48474645, 5, 0xf61e2562, 0x04b9d52a);
    Next(x, 17, 6, 0xb8dec763, 0x04b9d52a, 0x5d38e690, 0xfa148c8a, 0x62615a59, 9, 0xc040b340, 0x783002eb);
    Next(x, 18, 5, 0xfa148c8a, 0x783002eb, 0x04b9d52a, 0x5d38e690, 0x76757473, 14, 0x265e5a51, 0xd3ee3ed1);
    Next(x, 19, 4, 0x5d38e690, 0xd3ee3ed1, 0x783002eb, 0x04b9d52a, 0x44434241, 20, 0xe9b6c7aa, 0x47ae7c81);
    Next(x, 20, 3, 0x04b9d52a, 0x47ae7c81, 0xd3ee3ed1, 0x783002eb, 0x58575655, 5, 0xd62f105d, 0x2d7d8a3f);
    Next(x, 21, 2, 0x783002eb, 0x2d7d8a3f, 0x47ae7c81, 0xd3ee3ed1, 0x7271706f, 9, 0x02441453, 0xd1210823);
    Next(x, 22, 1, 0xd3ee3ed1, 0xd1210823, 0x2d7d8a3f, 0x47ae7c81, 0x00803938, 14, 0xd8a1e681, 0x4b534dc3);
    Next(x, 23, 0, 0x47ae7c81, 0x4b534dc3, 0xd1210823, 0x2d7d8a3f, 0x54535251, 20, 0xe7d3fbc8, 0x75292030);
    NoSteps(x, Regs(0x2d7d8a3f, 0x75292030, 0x4b534dc3, 0xd1210823), 24);
  }

  lemma FirstSteps24(x: seq<bv32>)
    requires FirstWords(x)
    ensures Iterate(Rounds(x), Regs(0x2d7d8a3f, 0x75292030, 0x4b534dc3, 0xd1210823), 24, 8) ==
              Regs(0x9b085fa9, 0xdd789ecc, 0x5993248f, 0x4400a9bd)
  {
    hide T;
    hide Shift;
    hide WordIndex;
    hide Iterate;
    hide Rounds;
    Numbers24();
    Next(x, 24, 7, 0x2d7d8a3f, 0x75292030, 0x4b534dc3, 0xd1210823, 0x6e6d6c6b, 5, 0x21e1cde6, 0x9d2a6e33);
    Next(x, 25, 6, 0xd1210823, 0x9d2a6e33, 0x75292030, 0x4b534dc3, 0x37363534, 9, 0xc33707d6, 0x0e8d2e44);
    Next(x, 26, 5, 0x4b534dc3, 0x0e8d2e44, 0x9d2a6e33, 0x75292030, 0x504f4e4d, 14, 0xf4d50d87, 0xd473b564);
    Next(x, 27, 4, 0x75292030, 0xd473b564, 0x0e8d2e44, 0x9d2a6e33, 0x6a696867, 20, 0x455a14ed, 0xf2ff6ea0);
    Next(x, 28, 3, 0x9d2a6e33, 0xf2ff6ea0, 0xd473b564, 0x0e8d2e44, 0x33323130, 5, 0xa9e3e905, 0x9b085fa9);
    Next(x, 29, 2, 0x0e8d2e44, 0x9b085fa9, 0xf2ff6ea0, 0xd473b564, 0x4c4b4a49, 9, 0xfcefa3f8, 0x4400a9bd);
    Next(x, 30, 1, 0xd473b564, 0x4400a9bd, 0x9b085fa9, 0xf2ff6ea0, 0x66656463, 14, 0x676f02d9, 0x5993248f);
    Next(x, 31, 0, 0xf2ff6ea0, 0x5993248f, 0x4400a9bd, 0x9b085fa9, 0x7a797877, 20, 0x8d2a4c8a, 0xdd789ecc);
    NoSteps(x, Regs(0x9b085fa9, 0xdd789ecc, 0x5993248f, 0x4400a9bd), 32);
  }

  lemma FirstSteps32(x: seq<bv32>)
    requires FirstWords(x)
    ensures Iterate(Rounds(x), Regs(0x9b085fa9, 0xdd789ecc, 0x5993248f, 0x4400a9bd), 32, 8) ==
              Regs(0x436b7fe9, 0xcf0341ed, 0xf404c2f6, 0x075800c1)
  {
    hide T;
    hide Shift;
    hide WordIndex;
    hide Iterate;
    hide Rounds;
    Numbers32();
    Next(x, 32, 7, 0x9b085fa9, 0xdd789ecc, 0x5993248f, 0x4400a9bd, 0x58575655, 4, 0xfffa3942, 0x21c8d2b7);
    Next(x, 33, 6, 0x4400a9bd, 0x21c8d2b7, 0xdd789ecc, 0x5993248f, 0x6a696867, 11, 0x8771f681, 0x1d55a18e);
    Next(x, 34, 5, 0x5993248f, 0x1d55a18e, 0x21c8d2b7, 0xdd789ecc, 0x76757473, 16, 0x6d9d6122, 0x056ec119);
    Next(x, 35, 4, 0xdd789ecc, 0x056ec119, 0x1d55a18e, 0x21c8d2b7, 0x37363534, 23, 0xfde5380c, 0x1b9504f8);
    Next(x, 36, 3, 0x21c8d2b7, 0x1b9504f8, 0x056ec119, 0x1d55a18e, 0x48474645, 4, 0xa4beea44, 0x436b7fe9);
    Next(x, 37, 2, 0x1d55a18e, 0x436b7fe9, 0x1b9504f8, 0x056ec119, 0x54535251, 11, 0x4bdecfa9, 0x075800c1);
    Next(x, 38, 1, 0x056ec119, 0x075800c1, 0x436b7fe9, 0x1b9504f8, 0x66656463, 16, 0xf6bb4b60, 0xf404c2f6);
    Next(x, 39, 0, 0x1b9504f8, 0xf404c2f6, 0x075800c1, 0x436b7fe9, 0x7271706f, 23, 0xbebfbc70, 0xcf0341ed);
    NoSteps(x, Regs(0x436b7fe9, 0xcf0341ed, 0xf404c2f6, 0x075800c1), 40);
  }

  lemma FirstSteps40(x: seq<bv32>)
    requires FirstWords(x)
    ensures Iterate(Rounds(x), Regs(0x436b7fe9, 0xcf0341ed, 0xf404c2f6, 0x075800c1), 40, 8) ==
              Regs(0x2dbee21d, 0xf166f514, 0xee46e961, 0xe95c3a43)
  {
    hide T;
    hide Shift;
    hide WordIndex;
    hide Iterate;
    hide Rounds;
    Numbers40();
    Next(x, 40, 7, 0x436b7fe9, 0xcf0341ed, 0xf404c2f6, 0x075800c1, 0x33323130, 4, 0x289b7ec6, 0x888e7d8a);
    Next(x, 41, 6, 0x075800c1, 0x888e7d8a, 0xcf0341ed, 0xf404c2f6, 0x44434241, 11, 0xeaa127fa, 0xbbdaecd8);
    Next(x, 42, 5, 0xf404c2f6, 0xbbdaecd8, 0x888e7d8a, 0xcf0341ed, 0x504f4e4d, 16, 0xd4ef3085, 0xce620273);
    Next(x, 43, 4, 0xcf0341ed, 0xce620273, 0xbbdaecd8, 0x888e7d8a, 0x62615a59, 23, 0x04881d05, 0x047b9419);
    Next(x, 44, 3, 0x888e7d8a, 0x047b9419, 0xce620273, 0xbbdaecd8, 0x6e6d6c6b, 4, 0xd9d4d039, 0x2dbee21d);
    Next(x, 45, 2, 0xbbdaecd8, 0x2dbee21d, 0x047b9419, 0xce620273, 0x7a797877, 11, 0xe6db99e5, 0xe95c3a43);
    Next(x, 46, 1, 0xce620273, 0xe95c3a43, 0x2dbee21d, 0x047b9419, 0x00803938, 16, 0x1fa27cf8, 0xee46e961);
    Next(x, 47, 0, 0x047b9419, 0xee46e961, 0xe95c3a43, 0x2dbee21d, 0x4c4b4a49, 23, 0xc4ac5665, 0xf166f514);
    NoSteps(x, Regs(0x2dbee21d, 0xf166f514, 0xee46e961, 0xe95c3a43), 48);
  }

  lemma FirstSteps48(x: seq<bv32>)
    requires FirstWords(x)
    ensures Iterate(Rounds(x), Regs(0x2dbee21d, 0xf166f514, 0xee46e961, 0xe95c3a43), 48, 8) ==
              Regs(0xa691d430, 0xefb0e72f, 0x3fc23df6, 0x528452f2)
  {
    hide T;
    hide Shift;
    hide WordIndex;
    hide Iterate;
    hide Rounds;
    Numbers48();
    Next(x, 48, 7, 0x2dbee21d, 0xf166f514, 0xee46e961, 0xe95c3a43, 0x44434241, 6, 0xf4292244, 0xe47fd4f3);
    Next(x, 49, 6, 0xe95c3a43, 0xe47fd4f3, 0xf166f514, 0xee46e961, 0x66656463, 10, 0x432aff97, 0xfb887751);
    Next(x, 50, 5, 0xee46e961, 0xfb887751, 0xe47fd4f3, 0xf166f514, 0x37363534, 15, 0xab9423a7, 0xf22aedcc);
    Next(x, 51, 4, 0xf166f514, 0xf22aedcc, 0xfb887751, 0xe47fd4f3, 0x58575655, 21, 0xfc93a039, 0x7a13bc5c);
    Next(x, 52, 3, 0xe47fd4f3, 0x7a13bc5c, 0xf22aedcc, 0xfb887751, 0x7a797877, 6, 0x655b59c3, 0xa691d430);
    Next(x, 53, 2, 0xfb887751, 0xa691d430, 0x7a13bc5c, 0xf22aedcc, 0x504f4e4d, 10, 0x8f0ccc92, 0x528452f2);
    Next(x, 54, 1, 0xf22aedcc, 0x528452f2, 0xa691d430, 0x7a13bc5c, 0x7271706f, 15, 0xffeff47d, 0x3fc23df6);
    Next(x, 55, 0, 0x7a13bc5c, 0x3fc23df6, 0x528452f2, 0xa691d430, 0x48474645, 21, 0x85845dd1, 0xefb0e72f);
    NoSteps(x, Regs(0xa691d430, 0xefb0e72f, 0x3fc23df6, 0x528452f2), 56);
  }

  lemma FirstSteps56(x: seq<bv32>)
    requires FirstWords(x)
    ensures Iterate(Rounds(x), Regs(0xa691d430, 0xefb0e72f, 0x3fc23df6, 0x528452f2), 56, 8) ==
              Regs(0x1cb80f0a, 0xef2e3a46, 0x10f68731, 0xea3d3eb4)
  {
    hide T;
    hide Shift;
    hide WordIndex;
    hide Iterate;
    hide Rounds;
    Numbers56();
    Next(x, 56, 7, 0xa691d430, 0xefb0e72f, 0x3fc23df6, 0x528452f2, 0x6a696867, 6, 0x6fa87e4f, 0x27145703);
    Next(x, 57, 6, 0x528452f2, 0x27145703, 0xefb0e72f, 0x3fc23df6, 0x00803938, 10, 0xfe2ce6e0, 0x21a11069);
    Next(x, 58, 5, 0x3fc23df6, 0x21a11069, 0x27145703, 0xefb0e72f, 0x62615a59, 15, 0xa3014314, 0x374fbe79);
    Next(x, 59, 4, 0xefb0e72f, 0x374fbe79, 0x21a11069, 0x27145703, 0x33323130, 21, 0x4e0811a1, 0x49d9a5b4);
    Next(x, 60, 3, 0x27145703, 0x49d9a5b4, 0x374fbe79, 0x21a11069, 0x54535251, 6, 0xf7537e82, 0x1cb80f0a);
    Next(x, 61, 2, 0x21a11069, 0x1cb80f0a, 0x49d9a5b4, 0x374fbe79, 0x76757473, 10, 0xbd3af235, 0xea3d3eb4);
    Next(x, 62, 1, 0x374fbe79, 0xea3d3eb4, 0x1cb80f0a, 0x49d9a5b4, 0x4c4b4a49, 15, 0x2ad7d2bb, 0x10f68731);
    Next(x, 63, 0, 0x49d9a5b4, 0x10f68731, 0xea3d3eb4, 0x1cb80f0a, 0x6e6d6c6b, 21, 0xeb86d391, 0xef2e3a46);
    NoSteps(x, Regs(0x1cb80f0a, 0xef2e3a46, 0x10f68731, 0xea3d3eb4), 64);
  }

  lemma FirstBlock(block: seq<byte>)
    requires |block| == 64 && FirstWords(Words(block))
    ensures Compress(Regs(0x67452301, 0xefcdab89, 0x98badcfe, 0x10325476), block) ==
              Regs(0x83fd320b, 0xdefbe5cf, 0xa9b1642f, 0xfa6f932a)
  {
    hide Iterate;
    hide Rounds;
    hide Words;
    var x := Words(block);
    FirstSteps0(x);
    FirstSteps8(x);
    FirstSteps16(x);
    FirstSteps24(x);
    FirstSteps32(x);
    FirstSteps40(x);
    FirstSteps48(x);
    FirstSteps56(x);
    IterateAppend(Rounds(x), Regs(0x67452301, 0xefcdab89, 0x98badcfe, 0x10325476), 0, 8, 8);
    IterateAppend(Rounds(x), Regs(0x67452301, 0xefcdab89, 0x98badcfe, 0x10325476), 0, 16, 8);
    IterateAppend(Rounds(x), Regs(0x67452301, 0xefcdab89, 0x98badcfe, 0x10325476), 0, 24, 8);
    IterateAppend(Rounds(x), Regs(0x67452301, 0xefcdab89, 0x98badcfe, 0x10325476), 0, 32, 8);
    IterateAppend(Rounds(x), Regs(0x67452301, 0xefcdab89, 0x98badcfe, 0x10325476), 0, 40, 8);
    IterateAppend(Rounds(x), Regs(0x67452301, 0xefcdab89, 0x98badcfe, 0x10325476), 0, 48, 8);
    IterateAppend(Rounds(x), Regs(0x67452301, 0xefcdab89, 0x98badcfe, 0x10325476), 0, 56, 8);
    FirstSum();
  }

  lemma FirstSum()
    ensures AddRegs(Regs(0x67452301, 0xefcdab89, 0x98badcfe, 0x10325476),
                    Regs(0x1cb80f0a, 0xef2e3a46, 0x10f68731, 0xea3d3eb4)) ==
              Regs(0x83fd320b, 0xdefbe5cf, 0xa9b1642f, 0xfa6f932a)
  {
  }

  predicate SecondWords(x: seq<bv32>) {
    && |x| == 16
    && x[0] == 0x00000000 && x[1] == 0x00000000 && x[2] == 0x00000000 && x[3] == 0x00000000
    && x[4] == 0x00000000 && x[5] == 0x00000000 && x[6] == 0x00000000 && x[7] == 0x00000000
    && x[8] == 0x00000000 && x[9] == 0x00000000 && x[10] == 0x00000000 && x[11] == 0x00000000
    && x[12] == 0x00000000 && x[13] == 0x00000000 && x[14] == 0x000001f0 && x[15] == 0x00000000
  }

  lemma SecondSteps0(x: seq<bv32>)
    requires SecondWords(x)
    ensures Iterate(Rounds(x), Regs(0x83fd320b, 0xdefbe5cf, 0xa9b1642f, 0xfa6f932a), 0, 8) ==
              Regs(0x75144433, 0x99b6b699, 0xc783cb60, 0xc8875807)
  {
    hide T;
    hide Shift;
    hide WordIndex;
    hide Iterate;
    hide Rounds;
    Numbers0();
    Next(x, 0, 7, 0x83fd320b, 0xdefbe5cf, 0xa9b1642f, 0xfa6f932a, 0x00000000, 7, 0xd76aa478, 0xeda23ed1);
    Next(x, 1, 6, 0xfa6f932a, 0xeda23ed1, 0xdefbe5cf, 0xa9b1642f, 0x00000000, 12, 0xe8c7b756, 0x989939cf);
    Next(x, 2, 5, 0xa9b1642f, 0x989939cf, 0xeda23ed1, 0xdefbe5cf, 0x00000000, 17, 0x242070db, 0x3c307338);
    Next(x, 3, 4, 0xdefbe5cf, 0x3c307338, 0x989939cf, 0xeda23ed1, 0x00000000, 22, 0xc1bdceee, 0xddcf0634);
    Next(x, 4, 3, 0xeda23ed1, 0xddcf0634, 0x3c307338, 0x989939cf, 0x00000000, 7, 0xf57c0faf, 0x75144433);
    Next(x, 5, 2, 0x989939cf, 0x75144433, 0xddcf0634, 0x3c307338, 0x00000000, 12, 0x4787c62a, 0xc8875807);
    Next(x, 6, 1, 0x3c307338, 0xc8875807, 0x75144433, 0xddcf0634, 0x00000000, 17, 0xa8304613, 0xc783cb60);
    Next(x, 7, 0, 0xddcf0634, 0xc783cb60, 0xc8875807, 0x75144433, 0x00000000, 22, 0xfd469501, 0x99b6b699);
    NoSteps(x, Regs(0x75144433, 0x99b6b699, 0xc783cb60, 0xc8875807), 8);
  }

  lemma SecondSteps8(x: seq<bv32>)
    requires SecondWords(x)
    ensures Iterate(Rounds(x), Regs(0x75144433, 0x99b6b699, 0xc783cb60, 0xc8875807), 8, 8) ==
              Regs(0xa70737da, 0xa36f556f, 0x96f6586e, 0x5473f8a7)
  {
    hide T;
    hide Shift;
    hide WordIndex;
    hide Iterate;
    hide Rounds;
    Numbers8();
    Next(x, 8, 7, 0x75144433, 0x99b6b699, 0xc783cb60, 0xc8875807, 0x00000000, 7, 0x698098d8, 0xa60a3f69);
    Next(x, 9, 6, 0xc8875807, 0xa60a3f69, 0x99b6b699, 0xc783cb60, 0x00000000, 12, 0x8b44f7af, 0xaa6630be);
    Next(x, 10, 5, 0xc783cb60, 0xaa6630be, 0xa60a3f69, 0x99b6b699, 0x00000000, 17, 0xffff5bb1, 0x64db26e9);
    Next(x, 11, 4, 0x99b6b699, 0x64db26e9, 0xaa6630be, 0xa60a3f69, 0x00000000, 22, 0x895cd7be, 0x64cc7c5a);
    Next(x, 12, 3, 0xa60a3f69, 0x64cc7c5a, 0x64db26e9, 0xaa6630be, 0x00000000, 7, 0x6b901122, 0xa70737da);
    Next(x, 13, 2, 0xaa6630be, 0xa70737da, 0x64cc7c5a, 0x64db26e9, 0x00000000, 12, 0xfd987193, 0x5473f8a7);
    Next(x, 14, 1, 0x64db26e9, 0x5473f8a7, 0xa70737da, 0x64cc7c5a, 0x000001f0, 17, 0xa679438e, 0x96f6586e);
    Next(x, 15, 0, 0x64cc7c5a, 0x96f6586e, 0x5473f8a7, 0xa70737da, 0x00000000, 22, 0x49b40821, 0xa36f556f);
    NoSteps(x, Regs(0xa70737da, 0xa36f556f, 0x96f6586e, 0x5473f8a7), 16);
  }

  lemma SecondSteps16(x: seq<bv32>)
    requires SecondWords(x)
    ensures Iterate(Rounds(x), Regs(0xa70737da, 0xa36f556f, 0x96f6586e, 0x5473f8a7), 16, 8) ==
              Regs(0xe04f070c, 0xdf35cb56, 0xc0d22b61, 0x2f3cd2a2)
  {
    hide T;
    hide Shift;
    hide WordIndex;
    hide Iterate;
    hide Rounds;
    Numbers16();
    Next(x, 16, 7, 0xa70737da, 0xa36f556f, 0x96f6586e, 0x5473f8a7, 0x00000000, 5, 0xf61e2562, 0xa5050ad3);
    Next(x, 17, 6, 0x5473f8a7, 0xa5050ad3, 0xa36f556f, 0x96f6586e, 0x00000000, 9, 0xc040b340, 0x28776046);
    Next(x, 18, 5, 0x96f6586e, 0x28776046, 0xa5050ad3, 0xa36f556f, 0x00000000, 14, 0x265e5a51, 0x27dcd8b4);
    Next(x, 19, 4, 0xa36f556f, 0x27dcd8b4, 0x28776046, 0xa5050ad3, 0x00000000, 20, 0xe9b6c7aa, 0x82b8827c);
    Next(x, 20, 3, 0xa5050ad3, 0x82b8827c, 0x27dcd8b4, 0x28776046, 0x00000000, 5, 0xd62f105d, 0xe04f070c);
    Next(x, 21, 2, 0x28776046, 0xe04f070c, 0x82b8827c, 0x27dcd8b4, 0x00000000, 9, 0x02441453, 0x2f3cd2a2);
    Next(x, 22, 1, 0x27dcd8b4, 0x2f3cd2a2, 0xe04f070c, 0x82b8827c, 0x00000000, 14, 0xd8a1e681, 0xc0d22b61);
    Next(x, 23, 0, 0x82b8827c, 0xc0d22b61, 0x2f3cd2a2, 0xe04f070c, 0x00000000, 20, 0xe7d3fbc8, 0xdf35cb56);
    NoSteps(x, Regs(0xe04f070c, 0xdf35cb56, 0xc0d22b61, 0x2f3cd2a2), 24);
  }

  lemma SecondSteps24(x: seq<bv32>)
    requires SecondWords(x)
    ensures Iterate(Rounds(x), Regs(0xe04f070c, 0xdf35cb56, 0xc0d22b61, 0x2f3cd2a2), 24, 8) ==
              Regs(0x24eba695, 0x9c03e2e8, 0x10c42a2f, 0x4bd0378b)
  {
    hide T;
    hide Shift;
    hide WordIndex;
    hide Iterate;
    hide Rounds;
    Numbers24();
    Next(x, 24, 7, 0xe04f070c, 0xdf35cb56, 0xc0d22b61, 0x2f3cd2a2, 0x00000000, 5, 0x21e1cde6, 0x242dd210);
    Next(x, 25, 6, 0x2f3cd2a2, 0x242dd210, 0xdf35cb56, 0xc0d22b61, 0x000001f0, 9, 0xc33707d6, 0x576ace33);
    Next(x, 26, 5, 0xc0d22b61, 0x576ace33, 0x242dd210, 0xdf35cb56, 0x00000000, 14, 0xf4d50d87, 0x5c295967);
    Next(x, 27, 4, 0xdf35cb56, 0x5c295967, 0x576ace33, 0x242dd210, 0x00000000, 20, 0x455a14ed, 0x2291191a);
    Next(x, 28, 3, 0x242dd210, 0x2291191a, 0x5c295967, 0x576ace33, 0x00000000, 5, 0xa9e3e905, 0x24eba695);
    Next(x, 29, 2, 0x576ace33, 0x24eba695, 0x2291191a, 0x5c295967, 0x00000000, 9, 0xfcefa3f8, 0x4bd0378b);
    Next(x, 30, 1, 0x5c295967, 0x4bd0378b, 0x24eba695, 0x2291191a, 0x00000000, 14, 0x676f02d9, 0x10c42a2f);
    Next(x, 31, 0, 0x2291191a, 0x10c42a2f, 0x4bd0378b, 0x24eba695, 0x00000000, 20, 0x8d2a4c8a, 0x9c03e2e8);
    NoSteps(x, Regs(0x24eba695, 0x9c03e2e8, 0x10c42a2f, 0x4bd0378b), 32);
  }

  lemma SecondSteps32(x: seq<bv32>)
    requires SecondWords(x)
    ensures Iterate(Rounds(x), Regs(0x24eba695, 0x9c03e2e8, 0x10c42a2f, 0x4bd0378b), 32, 8) ==
              Regs(0xe14e403d, 0xfe314121, 0x60cc183a, 0xe8cfd670)
  {
    hide T;
    hide Shift;
    hide WordIndex;
    hide Iterate;
    hide Rounds;
    Numbers32();
    Next(x, 32, 7, 0x24eba695, 0x9c03e2e8, 0x10c42a2f, 0x4bd0378b, 0x00000000, 4, 0xfffa3942, 0x5be1d526);
    Next(x, 33, 6, 0x4bd0378b, 0x5be1d526, 0x9c03e2e8, 0x10c42a2f, 0x00000000, 11, 0x8771f681, 0x9e414279);
    Next(x, 34, 5, 0x10c42a2f, 0x9e414279, 0x5be1d526, 0x9c03e2e8, 0x00000000, 16, 0x6d9d6122, 0x9f4a1a7e);
    Next(x, 35, 4, 0x9c03e2e8, 0x9f4a1a7e, 0x9e414279, 0x5be1d526, 0x000001f0, 23, 0xfde5380c, 0xa2448453);
    Next(x, 36, 3, 0x5be1d526, 0xa2448453, 0x9f4a1a7e, 0x9e414279, 0x00000000, 4, 0xa4beea44, 0xe14e403d);
    Next(x, 37, 2, 0x9e414279, 0xe14e403d, 0xa2448453, 0x9f4a1a7e, 0x00000000, 11, 0x4bdecfa9, 0xe8cfd670);
    Next(x, 38, 1, 0x9f4a1a7e, 0xe8cfd670, 0xe14e403d, 0xa2448453, 0x00000000, 16, 0xf6bb4b60, 0x60cc183a);
    Next(x, 39, 0, 0xa2448453, 0x60cc183a, 0xe8cfd670, 0xe14e403d, 0x00000000, 23, 0xbebfbc70, 0xfe314121);
    NoSteps(x, Regs(0xe14e403d, 0xfe314121, 0x60cc183a, 0xe8cfd670), 40);
  }

  lemma SecondSteps40(x: seq<bv32>)
    requires SecondWords(x)
    ensures Iterate(Rounds(x), Regs(0xe14e403d, 0xfe314121, 0x60cc183a, 0xe8cfd670), 40, 8) ==
              Regs(0x54c9eb3a, 0x79c0710a, 0x2ec86f72, 0xd4d9c6ac)
  {
    hide T;
    hide Shift;
    hide WordIndex;
    hide Iterate;
    hide Rounds;
    Numbers40();
    Next(x, 40, 7, 0xe14e403d, 0xfe314121, 0x60cc183a, 0xe8cfd670, 0x00000000, 4, 0x289b7ec6, 0xfff62809);
    Next(x, 41, 6, 0xe8cfd670, 0xfff62809, 0xfe314121, 0x60cc183a, 0x00000000, 11, 0xeaa127fa, 0xe37209ac);
    Next(x, 42, 5, 0x60cc183a, 0xe37209ac, 0xfff62809, 0xfe314121, 0x00000000, 16, 0xd4ef3085, 0x8cb5221c);
    Next(x, 43, 4, 0xfe314121, 0x8cb5221c, 0xe37209ac, 0xfff62809, 0x00000000, 23, 0x04881d05, 0x7c7e974c);
    Next(x, 44, 3, 0xfff62809, 0x7c7e974c, 0x8cb5221c, 0xe37209ac, 0x00000000, 4, 0xd9d4d039, 0x54c9eb3a);
    Next(x, 45, 2, 0xe37209ac, 0x54c9eb3a, 0x7c7e974c, 0x8cb5221c, 0x00000000, 11, 0xe6db99e5, 0xd4d9c6ac);
    Next(x, 46, 1, 0x8cb5221c, 0xd4d9c6ac, 0x54c9eb3a, 0x7c7e974c, 0x00000000, 16, 0x1fa27cf8, 0x2ec86f72);
    Next(x, 47, 0, 0x7c7e974c, 0x2ec86f72, 0xd4d9c6ac, 0x54c9eb3a, 0x00000000, 23, 0xc4ac5665, 0x79c0710a);
    NoSteps(x, Regs(0x54c9eb3a, 0x79c0710a, 0x2ec86f72, 0xd4d9c6ac), 48);
  }

  lemma SecondSteps48(x: seq<bv32>)
    requires SecondWords(x)
    ensures Iterate(Rounds(x), Regs(0x54c9eb3a, 0x79c0710a, 0x2ec86f72, 0xd4d9c6ac), 48, 8) ==
              Regs(0xe126c1aa, 0xfb7bcee0, 0x6f287ff5, 0x96b00fa7)
  {
    hide T;
    hide Shift;
    hide WordIndex;
    hide Iterate;
    hide Rounds;
    Numbers48();
    Next(x, 48, 7, 0x54c9eb3a, 0x79c0710a, 0x2ec86f72, 0xd4d9c6ac, 0x00000000, 6, 0xf4292244, 0x02095af1);
    Next(x, 49, 6, 0xd4d9c6ac, 0x02095af1, 0x79c0710a, 0x2ec86f72, 0x00000000, 10, 0x432aff97, 0x13d245fd);
    Next(x, 50, 5, 0x2ec86f72, 0x13d245fd, 0x02095af1, 0x79c0710a, 0x000001f0, 15, 0xab9423a7, 0xa8dcfe26);
    Next(x, 51, 4, 0x79c0710a, 0xa8dcfe26, 0x13d245fd, 0x02095af1, 0x00000000, 21, 0xfc93a039, 0x2ba98e3f);
    Next(x, 52, 3, 0x02095af1, 0x2ba98e3f, 0xa8dcfe26, 0x13d245fd, 0x00000000, 6, 0x655b59c3, 0xe126c1aa);
    Next(x, 53, 2, 0x13d245fd, 0xe126c1aa, 0x2ba98e3f, 0xa8dcfe26, 0x00000000, 10, 0x8f0ccc92, 0x96b00fa7);
    Next(x, 54, 1, 0xa8dcfe26, 0x96b00fa7, 0xe126c1aa, 0x2ba98e3f, 0x00000000, 15, 0xffeff47d, 0x6f287ff5);
    Next(x, 55, 0, 0x2ba98e3f, 0x6f287ff5, 0x96b00fa7, 0xe126c1aa, 0x00000000, 21, 0x85845dd1, 0xfb7bcee0);
    NoSteps(x, Regs(0xe126c1aa, 0xfb7bcee0, 0x6f287ff5, 0x96b00fa7), 56);
  }

  lemma SecondSteps56(x: seq<bv32>)
    requires SecondWords(x)
    ensures Iterate(Rounds(x), Regs(0xe126c1aa, 0xfb7bcee0, 0x6f287ff5, 0x96b00fa7), 56, 8) ==
              Regs(0x14ae42c6, 0x16dd9203, 0x826afd76, 0xa52dae75)
  {
    hide T;
    hide Shift;
    hide WordIndex;
    hide Iterate;
    hide Rounds;
    Numbers56();
    Next(x, 56, 7, 0xe126c1aa, 0xfb7bcee0, 0x6f287ff5, 0x96b00fa7, 0x00000000, 6, 0x6fa87e4f, 0x452c1099);
    Next(x, 57, 6, 0x96b00fa7, 0x452c1099, 0xfb7bcee0, 0x6f287ff5, 0x00000000, 10, 0xfe2ce6e0, 0xca801ba6);
    Next(x, 58, 5, 0x6f287ff5, 0xca801ba6, 0x452c1099, 0xfb7bcee0, 0x00000000, 15, 0xa3014314, 0xc197ea8e);
    Next(x, 59, 4, 0xfb7bcee0, 0xc197ea8e, 0xca801ba6, 0x452c1099, 0x00000000, 21, 0x4e0811a1, 0x5ac74608);
    Next(x, 60, 3, 0x452c1099, 0x5ac74608, 0xc197ea8e, 0xca801ba6, 0x00000000, 6, 0xf7537e82, 0x14ae42c6);
    Next(x, 61, 2, 0xca801ba6, 0x14ae42c6, 0x5ac74608, 0xc197ea8e, 0x00000000, 10, 0xbd3af235, 0xa52dae75);
    Next(x, 62, 1, 0xc197ea8e, 0xa52dae75, 0x14ae42c6, 0x5ac74608, 0x00000000, 15, 0x2ad7d2bb, 0x826afd76);
    Next(x, 63, 0, 0x5ac74608, 0x826afd76, 0xa52dae75, 0x14ae42c6, 0x00000000, 21, 0xeb86d391, 0x16dd9203);
    NoSteps(x, Regs(0x14ae42c6, 0x16dd9203, 0x826afd76, 0xa52dae75), 64);
  }

  lemma SecondBlock(block: seq<byte>)
    requires |block| == 64 && SecondWords(Words(block))
    ensures Compress(Regs(0x83fd320b, 0xdefbe5cf, 0xa9b1642f, 0xfa6f932a), block) ==
              Regs(0x98ab74d1, 0xf5d977d2, 0x2c1c61a5, 0x9f9d419f)
  {
    hide Iterate;
    hide Rounds;
    hide Words;
    var x := Words(block);
    SecondSteps0(x);
    SecondSteps8(x);
    SecondSteps16(x);
    SecondSteps24(x);
    SecondSteps32(x);
    SecondSteps40(x);
    SecondSteps48(x);
    SecondSteps56(x);
    IterateAppend(Rounds(x), Regs(0x83fd320b, 0xdefbe5cf, 0xa9b1642f, 0xfa6f932a), 0, 8, 8);
    IterateAppend(Rounds(x), Regs(0x83fd320b, 0xdefbe5cf, 0xa9b1642f, 0xfa6f932a), 0, 16, 8);
    IterateAppend(Rounds(x), Regs(0x83fd320b, 0xdefbe5cf, 0xa9b1642f, 0xfa6f932a), 0, 24, 8);
    IterateAppend(Rounds(x), Regs(0x83fd320b, 0xdefbe5cf, 0xa9b1642f, 0xfa6f932a), 0, 32, 8);
    IterateAppend(Rounds(x), Regs(0x83fd320b, 0xdefbe5cf, 0xa9b1642f, 0xfa6f932a), 0, 40, 8);
    IterateAppend(Rounds(x), Regs(0x83fd320b, 0xdefbe5cf, 0xa9b1642f, 0xfa6f932a), 0, 48, 8);
    IterateAppend(Rounds(x), Regs(0x83fd320b, 0xdefbe5cf, 0xa9b1642f, 0xfa6f932a), 0, 56, 8);
    SecondSum();
  }

  lemma SecondSum()
    ensures AddRegs(Regs(0x83fd320b, 0xdefbe5cf, 0xa9b1642f, 0xfa6f932a),
                    Regs(0x14ae42c6, 0x16dd9203, 0x826afd76, 0xa52dae75)) ==
              Regs(0x98ab74d1, 0xf5d977d2, 0x2c1c61a5, 0x9f9d419f)
  {
  }

  // ----- words and bytes -----

  lemma AsWord(block: seq<byte>, k: nat, b0: byte, b1: byte, b2: byte, b3: byte, w: bv32)
    requires |block| == 64 && k < 16
    requires block[4 * k] == b0 && block[4 * k + 1] == b1 && block[4 * k + 2] == b2 && block[4 * k + 3] == b3
    requires w as nat == 0x100_0000 * b3 + 0x1_0000 * b2 + 0x100 * b1 + b0
    ensures Words(block)[k] == w
  {
    hide FromLe32;
    assert block[4 * k..4 * k + 4] == [b0, b1, b2, b3];
    FourBytes(b0, b1, b2, b3);
    ThereAndBack(FromLe32([b0, b1, b2, b3]), w);
  }

  lemma FourBytes(b0: byte, b1: byte, b2: byte, b3: byte)
    ensures FromLe32([b0, b1, b2, b3]) == 0x100_0000 * b3 + 0x1_0000 * b2 + 0x100 * b1 + b0
  {
  }

  lemma ThereAndBack(x: nat, w: bv32)
    requires x < TWO32 && w as nat == x
    ensures x as bv32 == w
  {
  }

  lemma EmptyBytes()
    ensures var p := Pad([]);
            |p| == 64 && p[0] == 0x80 && forall i :: 1 <= i < 64 ==> p[i] == 0
  {
    assert LengthBytes(0) == [0, 0, 0, 0, 0, 0, 0, 0];
  }

  lemma EmptyPadded()
    ensures |Pad([])| == 64 && EmptyWords(Words(Pad([])))
  {
    hide Pad;
    hide Words;
    var p := Pad([]);
    EmptyBytes();
    AsWord(p, 0, 0x80, 0, 0, 0, 0x80);
    forall k | 1 <= k < 16 ensures Words(p)[k] == 0 {
      AsWord(p, k, 0, 0, 0, 0, 0);
    }
  }

  lemma OneBlock(p: seq<byte>)
    requires |p| == 64
    ensures Fold(Compress, Iv(), p) == Compress(Iv(), p)
  {
    hide Compress;
    assert p[..64] == p && p[64..] == [];
  }

  /** MD5 ("") = d41d8cd98f00b204e9800998ecf8427e. */
  lemma DigestOfNothing()
    ensures Digest([]) ==
              [0xd4, 0x1d, 0x8c, 0xd9, 0x8f, 0x00, 0xb2, 0x04, 0xe9, 0x80, 0x09, 0x98, 0xec, 0xf8, 0x42, 0x7e]
  {
    hide Words;
    hide Compress;
    hide Pad;
    hide Output;
    EmptyPadded();
    EmptyBlock(Pad([]));
    OneBlock(Pad([]));
    OutputOfNothing();
  }

  lemma LowFirst(w: bv32, b0: byte, b1: byte, b2: byte, b3: byte)
    requires w as nat == 0x100_0000 * b3 + 0x1_0000 * b2 + 0x100 * b1 + b0
    ensures Le32(w as nat) == [b0, b1, b2, b3]
  {
    hide Le32;
    hide FromLe32;
    FourBytes(b0, b1, b2, b3);
    Le32Back([b0, b1, b2, b3]);
  }

  lemma Le32Back(b: seq<byte>)
    requires |b| == 4
    ensures Le32(FromLe32(b)) == b
  {
    var x := FromLe32(b);
    var z := 0x100 * (b[3] as int) + b[2] as int;
    var y := 0x100 * z + b[1] as int;
    QuotientRemainder(x, y, 0x100, b[0]);
    QuotientRemainder(y, z, 0x100, b[1]);
    QuotientRemainder(z, b[3], 0x100, b[2]);
    QuotientRemainder(x, z, 0x1_0000, 0x100 * (b[1] as int) + b[0]);
    QuotientRemainder(x, b[3], 0x100_0000, 0x1_0000 * (b[2] as int) + 0x100 * (b[1] as int) + b[0]);
  }

  lemma OutputOfNothing()
    ensures Output(Regs(0xd98c1dd4, 0x04b2008f, 0x980980e9, 0x7e42f8ec)) ==
              [0xd4, 0x1d, 0x8c, 0xd9, 0x8f, 0x00, 0xb2, 0x04, 0xe9, 0x80, 0x09, 0x98, 0xec, 0xf8, 0x42, 0x7e]
  {
    hide Le32;
    LowFirst(0xd98c1dd4, 0xd4, 0x1d, 0x8c, 0xd9);
    LowFirst(0x04b2008f, 0x8f, 0x00, 0xb2, 0x04);
    LowFirst(0x980980e9, 0xe9, 0x80, 0x09, 0x98);
    LowFirst(0x7e42f8ec, 0xec, 0xf8, 0x42, 0x7e);
  }

  /** The capital letters, the small letters and the digits. */
  function Alphanumeric(): (m: seq<byte>)
    ensures |m| == 62
  {
    seq(62, i => if i < 26 then 'A' as int + i else if i < 52 then 'a' as int + (i - 26) else '0' as int + (i - 52))
  }

  lemma Length496()
    ensures LengthBytes(496) == [0xf0, 0x01, 0, 0, 0, 0, 0, 0]
  {
  }

  lemma LongPadded(m: seq<byte>)
    requires |m| == 62
    ensures Pad(m) == m + ([0x80] + Zeros(57)) + [0xf0, 0x01, 0, 0, 0, 0, 0, 0]
  {
    hide LengthBytes;
    Length496();
  }

  lemma AlphanumericBytes()
    ensures var m, p := Alphanumeric(), Pad(Alphanumeric());
            && |p| == 128
            && (forall i :: 0 <= i < 62 ==> p[i] == m[i]) && p[62] == 0x80
            && (forall i :: 63 <= i < 120 ==> p[i] == 0)
            && p[120] == 0xf0 && p[121] == 0x01 && forall i :: 122 <= i < 128 ==> p[i] == 0
  {
    hide Alphanumeric;
    hide Pad;
    LongPadded(Alphanumeric());
  }

  lemma FirstBytes0(p: seq<byte>)
    requires |p| == 64 && p[62] == 0x80 && p[63] == 0
    requires forall i :: 0 <= i < 62 ==> p[i] == Alphanumeric()[i]
    ensures Words(p)[0] == 0x44434241
    ensures Words(p)[1] == 0x48474645
    ensures Words(p)[2] == 0x4c4b4a49
    ensures Words(p)[3] == 0x504f4e4d
  {
    hide Words;
    AsWord(p, 0, 0x41, 0x42, 0x43, 0x44, 0x44434241);
    AsWord(p, 1, 0x45, 0x46, 0x47, 0x48, 0x48474645);
    AsWord(p, 2, 0x49, 0x4a, 0x4b, 0x4c, 0x4c4b4a49);
    AsWord(p, 3, 0x4d, 0x4e, 0x4f, 0x50, 0x504f4e4d);
  }

  lemma FirstBytes4(p: seq<byte>)
    requires |p| == 64 && p[62] == 0x80 && p[63] == 0
    requires forall i :: 0 <= i < 62 ==> p[i] == Alphanumeric()[i]
    ensures Words(p)[4] == 0x54535251
    ensures Words(p)[5] == 0x58575655
    ensures Words(p)[6] == 0x62615a59
    ensures Words(p)[7] == 0x66656463
  {
    hide Words;
    AsWord(p, 4, 0x51, 0x52, 0x53, 0x54, 0x54535251);
    AsWord(p, 5, 0x55, 0x56, 0x57, 0x58, 0x58575655);
    AsWord(p, 6, 0x59, 0x5a, 0x61, 0x62, 0x62615a59);
    AsWord(p, 7, 0x63, 0x64, 0x65, 0x66, 0x66656463);
  }

  lemma FirstBytes8(p: seq<byte>)
    requires |p| == 64 && p[62] == 0x80 && p[63] == 0
    requires forall i :: 0 <= i < 62 ==> p[i] == Alphanumeric()[i]
    ensures Words(p)[8] == 0x6a696867
    ensures Words(p)[9] == 0x6e6d6c6b
    ensures Words(p)[10] == 0x7271706f
    ensures Words(p)[11] == 0x76757473
  {
    hide Words;
    AsWord(p, 8, 0x67, 0x68, 0x69, 0x6a, 0x6a696867);
    AsWord(p, 9, 0x6b, 0x6c, 0x6d, 0x6e, 0x6e6d6c6b);
    AsWord(p, 10, 0x6f, 0x70, 0x71, 0x72, 0x7271706f);
    AsWord(p, 11, 0x73, 0x74, 0x75, 0x76, 0x76757473);
  }

  lemma FirstBytes12(p: seq<byte>)
    requires |p| == 64 && p[62] == 0x80 && p[63] == 0
    requires forall i :: 0 <= i < 62 ==> p[i] == Alphanumeric()[i]
    ensures Words(p)[12] == 0x7a797877
    ensures Words(p)[13] == 0x33323130
    ensures Words(p)[14] == 0x37363534
    ensures Words(p)[15] == 0x00803938
  {
    hide Words;
    AsWord(p, 12, 0x77, 0x78, 0x79, 0x7a, 0x7a797877);
    AsWord(p, 13, 0x30, 0x31, 0x32, 0x33, 0x33323130);
    AsWord(p, 14, 0x34, 0x35, 0x36, 0x37, 0x37363534);
    AsWord(p, 15, 0x38, 0x39, 0x80, 0x00, 0x00803938);
  }

  lemma FirstPadded()
    ensures |Pad(Alphanumeric())| == 128 && FirstWords(Words(Pad(Alphanumeric())[..64]))
  {
    hide Pad;
    hide Words;
    AlphanumericBytes();
    var p := Pad(Alphanumeric())[..64];
    hide Alphanumeric;
    FirstBytes0(p);
    FirstBytes4(p);
    FirstBytes8(p);
    FirstBytes12(p);
  }

  lemma SecondPadded()
    ensures |Pad(Alphanumeric())| == 128 && SecondWords(Words(Pad(Alphanumeric())[64..]))
  {
    hide Pad;
    hide Words;
    AlphanumericBytes();
    var p := Pad(Alphanumeric())[64..];
    AsWord(p, 14, 0xf0, 0x01, 0, 0, 0x1f0);
    forall k | 0 <= k < 16 && k != 14 ensures Words(p)[k] == 0 {
      AsWord(p, k, 0, 0, 0, 0, 0);
    }
  }

  lemma TwoBlocks(f: (Regs, seq<byte>) --> Regs, r: Regs, p: seq<byte>)
    requires Compresses(f) && |p| == 128
    ensures Fold(f, r, p) == f(f(r, p[..64]), p[64..])
  {
    var q, s := p[64..], f(r, p[..64]);
    assert q[..64] == q && q[64..] == [];
    assert Fold(f, f(s, q), []) == f(s, q);
    assert Fold(f, s, q) == f(s, q);
  }

  /** MD5 ("ABCDEFGHIJKLMNOPQRSTUVWXYZabcdefghijklmnopqrstuvwxyz0123456789") =
      d174ab98d277d9f5a5611c2c9f419d9f: a second block, because the length does not fit in the first. */
  lemma DigestOfAlphanumeric()
    ensures Digest(Alphanumeric()) ==
              [0xd1, 0x74, 0xab, 0x98, 0xd2, 0x77, 0xd9, 0xf5, 0xa5, 0x61, 0x1c, 0x2c, 0x9f, 0x41, 0x9d, 0x9f]
  {
    hide Words;
    hide Compress;
    hide Pad;
    hide Output;
    var p := Pad(Alphanumeric());
    FirstPadded();
    SecondPadded();
    FirstBlock(p[..64]);
    SecondBlock(p[64..]);
    TwoBlocks(Compress, Iv(), p);
    OutputOfAlphanumeric();
    DigestIs(Alphanumeric(), Regs(0x98ab74d1, 0xf5d977d2, 0x2c1c61a5, 0x9f9d419f),
             [0xd1, 0x74, 0xab, 0x98, 0xd2, 0x77, 0xd9, 0xf5, 0xa5, 0x61, 0x1c, 0x2c, 0x9f, 0x41, 0x9d, 0x9f]);
  }

  lemma DigestIs(msg: seq<byte>, r: Regs, digest: seq<byte>)
    requires Fold(Compress, Iv(), Pad(msg)) == r && Output(r) == digest
    ensures Digest(msg) == digest
  {
  }

  lemma OutputOfAlphanumeric()
    ensures Output(Regs(0x98ab74d1, 0xf5d977d2, 0x2c1c61a5, 0x9f9d419f)) ==
              [0xd1, 0x74, 0xab, 0x98, 0xd2, 0x77, 0xd9, 0xf5, 0xa5, 0x61, 0x1c, 0x2c, 0x9f, 0x41, 0x9d, 0x9f]
  {
    hide Le32;
    LowFirst(0x98ab74d1, 0xd1, 0x74, 0xab, 0x98);
    LowFirst(0xf5d977d2, 0xd2, 0x77, 0xd9, 0xf5);
    LowFirst(0x2c1c61a5, 0xa5, 0x61, 0x1c, 0x2c);
    LowFirst(0x9f9d419f, 0x9f, 0x41, 0x9d, 0x9f);
  }
}
