/** The unrolled compression of md5sum.c, and its agreement with section 3.4 of RFC 1321. */
module Md5Transform {
  import opened Bytes
  import opened Md5Spec

  // The macros as the code writes them.
  function FF(b: bv32, c: bv32, d: bv32): bv32 { d ^ (b & (c ^ d)) }
  function FG(b: bv32, c: bv32, d: bv32): bv32 { FF(d, b, c) }
  function FH(b: bv32, c: bv32, d: bv32): bv32 { b ^ c ^ d }
  function FI(b: bv32, c: bv32, d: bv32): bv32 { c ^ (b | !d) }

  // Bit-level facts, stated on bare words.
  lemma SelectBits(b: bv32, c: bv32, d: bv32)
    ensures d ^ (b & (c ^ d)) == (b & c) | (!b & d)
  {
  }

  lemma SelectBitsSwapped(b: bv32, c: bv32, d: bv32)
    ensures c ^ (d & (b ^ c)) == (b & d) | (c & !d)
  {
  }

  lemma SumAssociates(a: bv32, b: bv32, c: bv32)
    ensures a + (b + c) == a + b + c
  {
  }

  lemma PlusAssociates(a: bv32, b: bv32, c: bv32)
    ensures Plus(a, Plus(b, c)) == Plus(Plus(a, b), c)
  {
    calc {
      Plus(a, Plus(b, c));
      Plus(a, b + c);
      { SumAssociates(a, b, c); }
      Plus(a + b, c);
      Plus(Plus(a, b), c);
    }
  }

  lemma SumOfTwo(a: bv32, b: bv32)
    ensures a + b == b + a
  {
  }

  lemma PlusCommutes(a: bv32, b: bv32)
    ensures Plus(a, b) == Plus(b, a)
  {
    SumOfTwo(a, b);
  }

  /** The optimised macro is the first function of the RFC. */
  lemma FFIsF(b: bv32, c: bv32, d: bv32)
    ensures FF(b, c, d) == F(b, c, d)
  {
    SelectBits(b, c, d);
  }

  /** With its arguments rotated it is the second. */
  lemma FGIsG(b: bv32, c: bv32, d: bv32)
    ensures FG(b, c, d) == G(b, c, d)
  {
    SelectBitsSwapped(b, c, d);
  }

  /** The macro OP, given the value f of its boolean function:
      "a += f + x + t; a = rol(a, s); a += b". */
  method Op(a: bv32, b: bv32, f: bv32, x: bv32, s: bv32, t: bv32) returns (r: bv32)
    requires s <= 32
    ensures r == NewWord(a, b, f, x, s, t)
  {
    hide Plus;
    hide RotateLeft;
    r := a;
    r := Plus(r, Plus(Plus(f, x), t));
    r := RotateLeft(r, s);
    r := Plus(r, b);
    PlusAssociates(a, Plus(f, x), t);
    PlusAssociates(a, f, x);
    PlusCommutes(b, RotateLeft(Plus(Plus(Plus(a, f), x), t), s));
  }

  /** OP with FF, as step i. */
  method OpFF(a: bv32, b: bv32, c: bv32, d: bv32, x: seq<bv32>, k: nat, s: bv32, t: bv32, ghost i: nat)
    returns (r: bv32)
    requires |x| == 16 && i / 16 == 0
    requires k == WordIndex(i) && s == Shift(i) && t == T(i)
    ensures Regs(d, r, b, c) == Rounds(x)(Regs(a, b, c, d), i)
  {
    FFIsF(b, c, d);
    hide NewWord;
    hide F;
    hide G;
    hide H;
    hide I;
    hide T;
    hide Shift;
    hide WordIndex;
    r := Op(a, b, FF(b, c, d), x[k], s, t);
  }

  /** OP with FG, as step i. */
  method OpFG(a: bv32, b: bv32, c: bv32, d: bv32, x: seq<bv32>, k: nat, s: bv32, t: bv32, ghost i: nat)
    returns (r: bv32)
    requires |x| == 16 && i / 16 == 1
    requires k == WordIndex(i) && s == Shift(i) && t == T(i)
    ensures Regs(d, r, b, c) == Rounds(x)(Regs(a, b, c, d), i)
  {
    FGIsG(b, c, d);
    hide NewWord;
    hide F;
    hide G;
    hide H;
    hide I;
    hide T;
    hide Shift;
    hide WordIndex;
    r := Op(a, b, FG(b, c, d), x[k], s, t);
  }

  /** OP with FH, as step i. */
  method OpFH(a: bv32, b: bv32, c: bv32, d: bv32, x: seq<bv32>, k: nat, s: bv32, t: bv32, ghost i: nat)
    returns (r: bv32)
    requires |x| == 16 && i / 16 == 2
    requires k == WordIndex(i) && s == Shift(i) && t == T(i)
    ensures Regs(d, r, b, c) == Rounds(x)(Regs(a, b, c, d), i)
  {
    hide NewWord;
    hide F;
    hide G;
    hide I;
    hide T;
    hide Shift;
    hide WordIndex;
    r := Op(a, b, FH(b, c, d), x[k], s, t);
  }

  /** OP with FI, as step i. */
  method OpFI(a: bv32, b: bv32, c: bv32, d: bv32, x: seq<bv32>, k: nat, s: bv32, t: bv32, ghost i: nat)
    returns (r: bv32)
    requires |x| == 16 && i / 16 == 3
    requires k == WordIndex(i) && s == Shift(i) && t == T(i)
    ensures Regs(d, r, b, c) == Rounds(x)(Regs(a, b, c, d), i)
  {
    hide NewWord;
    hide F;
    hide G;
    hide H;
    hide T;
    hide Shift;
    hide WordIndex;
    r := Op(a, b, FI(b, c, d), x[k], s, t);
  }

  /** Four steps bring the registers back to their places. */
  lemma IterateFour<S>(step: (S, nat) -> S, r: S, i: nat)
    ensures Iterate(step, r, i, 4) == step(step(step(step(r, i), i + 1), i + 2), i + 3)
  {
    IterateAppend(step, r, i, 2, 2);
  }

  /** Four equal runs of steps in a row are one run. */
  lemma IterateQuarters<S>(step: (S, nat) -> S, r: S, i: nat, n: nat, r1: S, r2: S, r3: S)
    requires r1 == Iterate(step, r, i, n)
    requires r2 == Iterate(step, r1, i + n, n)
    requires r3 == Iterate(step, r2, i + 2 * n, n)
    ensures Iterate(step, r3, i + 3 * n, n) == Iterate(step, r, i, 4 * n)
  {
    IterateAppend(step, r, i, n, 3 * n);
    IterateAppend(step, r1, i + n, n, 2 * n);
    IterateAppend(step, r2, i + 2 * n, n, n);
  }

  /** Four lines of round 1, starting with step i. */
  method FourFF(r: Regs, x: seq<bv32>, k: (nat, nat, nat, nat), t: (bv32, bv32, bv32, bv32), ghost i: nat)
    returns (q: Regs)
    requires |x| == 16 && i / 16 == 0 && i % 4 == 0
    requires k == (WordIndex(i), WordIndex(i + 1), WordIndex(i + 2), WordIndex(i + 3))
    requires t == TRow(i / 4)
    ensures q == Iterate(Rounds(x), r, i, 4)
  {
    hide TRow;
    hide WordIndex;
    hide Rounds;
    var A, B, C, D := r.a, r.b, r.c, r.d;
    A := OpFF(A, B, C, D, x, k.0, 7, t.0, i);
    D := OpFF(D, A, B, C, x, k.1, 12, t.1, i + 1);
    C := OpFF(C, D, A, B, x, k.2, 17, t.2, i + 2);
    B := OpFF(B, C, D, A, x, k.3, 22, t.3, i + 3);
    q := Regs(A, B, C, D);
    IterateFour(Rounds(x), r, i);
  }

  /** Four lines of round 2, starting with step i. */
  method FourFG(r: Regs, x: seq<bv32>, k: (nat, nat, nat, nat), t: (bv32, bv32, bv32, bv32), ghost i: nat)
    returns (q: Regs)
    requires |x| == 16 && i / 16 == 1 && i % 4 == 0
    requires k == (WordIndex(i), WordIndex(i + 1), WordIndex(i + 2), WordIndex(i + 3))
    requires t == TRow(i / 4)
    ensures q == Iterate(Rounds(x), r, i, 4)
  {
    hide TRow;
    hide WordIndex;
    hide Rounds;
    var A, B, C, D := r.a, r.b, r.c, r.d;
    A := OpFG(A, B, C, D, x, k.0, 5, t.0, i);
    D := OpFG(D, A, B, C, x, k.1, 9, t.1, i + 1);
    C := OpFG(C, D, A, B, x, k.2, 14, t.2, i + 2);
    B := OpFG(B, C, D, A, x, k.3, 20, t.3, i + 3);
    q := Regs(A, B, C, D);
    IterateFour(Rounds(x), r, i);
  }

  /** Four lines of round 3, starting with step i. */
  method FourFH(r: Regs, x: seq<bv32>, k: (nat, nat, nat, nat), t: (bv32, bv32, bv32, bv32), ghost i: nat)
    returns (q: Regs)
    requires |x| == 16 && i / 16 == 2 && i % 4 == 0
    requires k == (WordIndex(i), WordIndex(i + 1), WordIndex(i + 2), WordIndex(i + 3))
    requires t == TRow(i / 4)
    ensures q == Iterate(Rounds(x), r, i, 4)
  {
    hide TRow;
    hide WordIndex;
    hide Rounds;
    var A, B, C, D := r.a, r.b, r.c, r.d;
    A := OpFH(A, B, C, D, x, k.0, 4, t.0, i);
    D := OpFH(D, A, B, C, x, k.1, 11, t.1, i + 1);
    C := OpFH(C, D, A, B, x, k.2, 16, t.2, i + 2);
    B := OpFH(B, C, D, A, x, k.3, 23, t.3, i + 3);
    q := Regs(A, B, C, D);
    IterateFour(Rounds(x), r, i);
  }

  /** Four lines of round 4, starting with step i. */
  method FourFI(r: Regs, x: seq<bv32>, k: (nat, nat, nat, nat), t: (bv32, bv32, bv32, bv32), ghost i: nat)
    returns (q: Regs)
    requires |x| == 16 && i / 16 == 3 && i % 4 == 0
    requires k == (WordIndex(i), WordIndex(i + 1), WordIndex(i + 2), WordIndex(i + 3))
    requires t == TRow(i / 4)
    ensures q == Iterate(Rounds(x), r, i, 4)
  {
    hide TRow;
    hide WordIndex;
    hide Rounds;
    var A, B, C, D := r.a, r.b, r.c, r.d;
    A := OpFI(A, B, C, D, x, k.0, 6, t.0, i);
    D := OpFI(D, A, B, C, x, k.1, 10, t.1, i + 1);
    C := OpFI(C, D, A, B, x, k.2, 15, t.2, i + 2);
    B := OpFI(B, C, D, A, x, k.3, 21, t.3, i + 3);
    q := Regs(A, B, C, D);
    IterateFour(Rounds(x), r, i);
  }

  method Round1(r: Regs, x: seq<bv32>) returns (q: Regs)
    requires |x| == 16
    ensures q == Iterate(Rounds(x), r, 0, |x|)
  {
    hide Rounds;
    var r1 := FourFF(r, x, (0, 1, 2, 3), (0xd76aa478, 0xe8c7b756, 0x242070db, 0xc1bdceee), 0);
    var r2 := FourFF(r1, x, (4, 5, 6, 7), (0xf57c0faf, 0x4787c62a, 0xa8304613, 0xfd469501), 4);
    var r3 := FourFF(r2, x, (8, 9, 10, 11), (0x698098d8, 0x8b44f7af, 0xffff5bb1, 0x895cd7be), 8);
    q := FourFF(r3, x, (12, 13, 14, 15), (0x6b901122, 0xfd987193, 0xa679438e, 0x49b40821), 12);
    IterateQuarters(Rounds(x), r, 0, 4, r1, r2, r3);
  }

  method Round2(r: Regs, x: seq<bv32>) returns (q: Regs)
    requires |x| == 16
    ensures q == Iterate(Rounds(x), r, 16, |x|)
  {
    hide Rounds;
    var r1 := FourFG(r, x, (1, 6, 11, 0), (0xf61e2562, 0xc040b340, 0x265e5a51, 0xe9b6c7aa), 16);
    var r2 := FourFG(r1, x, (5, 10, 15, 4), (0xd62f105d, 0x02441453, 0xd8a1e681, 0xe7d3fbc8), 20);
    var r3 := FourFG(r2, x, (9, 14, 3, 8), (0x21e1cde6, 0xc33707d6, 0xf4d50d87, 0x455a14ed), 24);
    q := FourFG(r3, x, (13, 2, 7, 12), (0xa9e3e905, 0xfcefa3f8, 0x676f02d9, 0x8d2a4c8a), 28);
    IterateQuarters(Rounds(x), r, 16, 4, r1, r2, r3);
  }

  method Round3(r: Regs, x: seq<bv32>) returns (q: Regs)
    requires |x| == 16
    ensures q == Iterate(Rounds(x), r, 32, |x|)
  {
    hide Rounds;
    var r1 := FourFH(r, x, (5, 8, 11, 14), (0xfffa3942, 0x8771f681, 0x6d9d6122, 0xfde5380c), 32);
    var r2 := FourFH(r1, x, (1, 4, 7, 10), (0xa4beea44, 0x4bdecfa9, 0xf6bb4b60, 0xbebfbc70), 36);
    var r3 := FourFH(r2, x, (13, 0, 3, 6), (0x289b7ec6, 0xeaa127fa, 0xd4ef3085, 0x04881d05), 40);
    q := FourFH(r3, x, (9, 12, 15, 2), (0xd9d4d039, 0xe6db99e5, 0x1fa27cf8, 0xc4ac5665), 44);
    IterateQuarters(Rounds(x), r, 32, 4, r1, r2, r3);
  }

  method Round4(r: Regs, x: seq<bv32>) returns (q: Regs)
    requires |x| == 16
    ensures q == Iterate(Rounds(x), r, 48, |x|)
  {
    hide Rounds;
    var r1 := FourFI(r, x, (0, 7, 14, 5), (0xf4292244, 0x432aff97, 0xab9423a7, 0xfc93a039), 48);
    var r2 := FourFI(r1, x, (12, 3, 10, 1), (0x655b59c3, 0x8f0ccc92, 0xffeff47d, 0x85845dd1), 52);
    var r3 := FourFI(r2, x, (8, 15, 6, 13), (0x6fa87e4f, 0xfe2ce6e0, 0xa3014314, 0x4e0811a1), 56);
    q := FourFI(r3, x, (4, 11, 2, 9), (0xf7537e82, 0xbd3af235, 0x2ad7d2bb, 0xeb86d391), 60);
    IterateQuarters(Rounds(x), r, 48, 4, r1, r2, r3);
  }

  /** All sixty-four steps. */
  method AllRounds(r: Regs, x: seq<bv32>) returns (q: Regs)
    requires |x| == 16
    ensures q == Iterate(Rounds(x), r, 0, 4 * |x|)
  {
    hide *;
    var r1 := Round1(r, x);
    var r2 := Round2(r1, x);
    var r3 := Round3(r2, x);
    q := Round4(r3, x);
    IterateQuarters(Rounds(x), r, 0, |x|, r1, r2, r3);
  }

  /** The whole of transform on a copy of the registers. */
  method TransformBlock(r: Regs, data: seq<byte>) returns (q: Regs)
    requires |data| == 64
    ensures q == Compress(r, data)
  {
    hide Words;
    hide Rounds;
    hide Plus;
    var words := Words(data);
    var s := AllRounds(r, words);
    q := Regs(Plus(r.a, s.a), Plus(r.b, s.b), Plus(r.c, s.c), Plus(r.d, s.d));
  }
}
