/** The MD5 message-digest algorithm as RFC 1321 describes it (sections 3.1 to 3.5). */
module Md5Spec {
  import opened Bytes

  datatype Regs = Regs(a: bv32, b: bv32, c: bv32, d: bv32)

  // Section 3.4: the four auxiliary functions.
  function F(x: bv32, y: bv32, z: bv32): bv32 { (x & y) | (!x & z) }
  function G(x: bv32, y: bv32, z: bv32): bv32 { (x & z) | (y & !z) }
  function H(x: bv32, y: bv32, z: bv32): bv32 { x ^ y ^ z }
  function I(x: bv32, y: bv32, z: bv32): bv32 { y ^ (x | !z) }

  function Aux(round: nat, x: bv32, y: bv32, z: bv32): bv32 {
    if round == 0 then F(x, y, z)
    else if round == 1 then G(x, y, z)
    else if round == 2 then H(x, y, z)
    else I(x, y, z)
  }

  function RotateLeft(x: bv32, s: bv32): bv32
    requires s <= 32
  {
    (x << s) | (x >> (32 - s))
  }

  /** The word that step i of the schedule reads: i, 1+5i, 5+3i, 7i modulo 16. */
  function WordIndex(i: nat): (k: nat)
    ensures k < 16
  {
    if i < 16 then i % 16
    else if i < 32 then (1 + 5 * i) % 16
    else if i < 48 then (5 + 3 * i) % 16
    else (7 * i) % 16
  }

  function Pick(j: nat, a: bv32, b: bv32, c: bv32, d: bv32): bv32 {
    if j == 0 then a else if j == 1 then b else if j == 2 then c else d
  }

  /** The shift amount of step i: four amounts per round, used in turn. */
  function Shift(i: nat): (s: bv32)
    ensures s <= 32
  {
    var j := i % 4;
    if i < 16 then Pick(j, 7, 12, 17, 22)
    else if i < 32 then Pick(j, 5, 9, 14, 20)
    else if i < 48 then Pick(j, 4, 11, 16, 23)
    else Pick(j, 6, 10, 15, 21)
  }

  /** The table T, by rows of four: entry i is the integer part of 4294967296 times abs(sin(i + 1)). */
  function TRow(n: nat): (bv32, bv32, bv32, bv32) {
    match n
    case 0 => (0xd76aa478, 0xe8c7b756, 0x242070db, 0xc1bdceee)
    case 1 => (0xf57c0faf, 0x4787c62a, 0xa8304613, 0xfd469501)
    case 2 => (0x698098d8, 0x8b44f7af, 0xffff5bb1, 0x895cd7be)
    case 3 => (0x6b901122, 0xfd987193, 0xa679438e, 0x49b40821)
    case 4 => (0xf61e2562, 0xc040b340, 0x265e5a51, 0xe9b6c7aa)
    case 5 => (0xd62f105d, 0x02441453, 0xd8a1e681, 0xe7d3fbc8)
    case 6 => (0x21e1cde6, 0xc33707d6, 0xf4d50d87, 0x455a14ed)
    case 7 => (0xa9e3e905, 0xfcefa3f8, 0x676f02d9, 0x8d2a4c8a)
    case 8 => (0xfffa3942, 0x8771f681, 0x6d9d6122, 0xfde5380c)
    case 9 => (0xa4beea44, 0x4bdecfa9, 0xf6bb4b60, 0xbebfbc70)
    case 10 => (0x289b7ec6, 0xeaa127fa, 0xd4ef3085, 0x04881d05)
    case 11 => (0xd9d4d039, 0xe6db99e5, 0x1fa27cf8, 0xc4ac5665)
    case 12 => (0xf4292244, 0x432aff97, 0xab9423a7, 0xfc93a039)
    case 13 => (0x655b59c3, 0x8f0ccc92, 0xffeff47d, 0x85845dd1)
    case 14 => (0x6fa87e4f, 0xfe2ce6e0, 0xa3014314, 0x4e0811a1)
    case _ => (0xf7537e82, 0xbd3af235, 0x2ad7d2bb, 0xeb86d391)
  }

  function T(i: nat): bv32 {
    var row := TRow(i / 4);
    Pick(i % 4, row.0, row.1, row.2, row.3)
  }

  /** Addition of words, that is, modulo 2^32. */
  function Plus(x: bv32, y: bv32): bv32 { x + y }

  /** "a = b + ((a + f(b,c,d) + X[k] + T[i]) <<< s)", with the value of f(b,c,d) given. */
  function NewWord(a: bv32, b: bv32, f: bv32, x: bv32, s: bv32, t: bv32): bv32
    requires s <= 32
  {
    Plus(b, RotateLeft(Plus(Plus(Plus(a, f), x), t), s))
  }

  /** One step; the registers are renamed so that the next step again updates `a`
      (the RFC writes the same thing as ABCD, DABC, CDAB, BCDA). */
  function Step(r: Regs, x: seq<bv32>, i: nat): Regs
    requires |x| == 16
  {
    var f := Aux(i / 16, r.b, r.c, r.d);
    Regs(r.d, NewWord(r.a, r.b, f, x[WordIndex(i)], Shift(i), T(i)), r.b, r.c)
  }

  /** The numbered steps on the words x, as a function of the registers and the step number. */
  function Rounds(x: seq<bv32>): (Regs, nat) -> Regs
    requires |x| == 16
  {
    (r: Regs, i: nat) => Step(r, x, i)
  }

  /** n applications of a numbered step: step i, step i+1, ..., step i+n-1. */
  function Iterate<S>(step: (S, nat) -> S, start: S, i: nat, n: nat): S
    decreases n
  {
    if n == 0 then start else Iterate(step, step(start, i), i + 1, n - 1)
  }

  lemma {:induction false} IterateAppend<S>(step: (S, nat) -> S, start: S, i: nat, m: nat, n: nat)
    ensures Iterate(step, start, i, m + n) == Iterate(step, Iterate(step, start, i, m), i + m, n)
    decreases m
  {
    if m > 0 {
      IterateAppend(step, step(start, i), i + 1, m - 1, n);
    }
  }

  function Words(block: seq<byte>): (x: seq<bv32>)
    requires |block| == 64
    ensures |x| == 16
  {
    seq(16, k requires 0 <= k < 16 => FromLe32(block[4 * k..4 * k + 4]) as bv32)
  }

  function AddRegs(r: Regs, q: Regs): Regs {
    Regs(Plus(r.a, q.a), Plus(r.b, q.b), Plus(r.c, q.c), Plus(r.d, q.d))
  }

  /** Section 3.4: four rounds of sixteen steps, then add the old registers. */
  function Compress(r: Regs, block: seq<byte>): Regs
    requires |block| == 64
  {
    var x := Words(block);
    AddRegs(r, Iterate(Rounds(x), r, 0, 4 * |x|))
  }

  /** A compression function: it takes whole 64-byte blocks. */
  ghost predicate Compresses(f: (Regs, seq<byte>) --> Regs) {
    forall r: Regs, block: seq<byte> :: |block| == 64 ==> f.requires(r, block)
  }

  /** Compress every whole 64-byte block in turn. */
  function Fold(f: (Regs, seq<byte>) --> Regs, r: Regs, data: seq<byte>): Regs
    requires Compresses(f)
    decreases |data|
  {
    if |data| < 64 then r else Fold(f, f(r, data[..64]), data[64..])
  }

  lemma {:induction false} FoldAppend(f: (Regs, seq<byte>) --> Regs, r: Regs, a: seq<byte>, b: seq<byte>)
    requires Compresses(f)
    requires |a| % 64 == 0
    ensures Fold(f, r, a + b) == Fold(f, Fold(f, r, a), b)
    decreases |a|
  {
    if a == [] {
      assert a + b == b;
    } else {
      assert (a + b)[..64] == a[..64];
      assert (a + b)[64..] == a[64..] + b;
      FoldAppend(f, f(r, a[..64]), a[64..], b);
    }
  }

  const TWO64: int := 0x1_0000_0000_0000_0000

  // Section 3.3.
  function Iv(): Regs { Regs(0x67452301, 0xefcdab89, 0x98badcfe, 0x10325476) }

  function Zeros(n: nat): (z: seq<byte>)
    ensures |z| == n
  {
    seq(n, _ => 0)
  }

  /** Section 3.1: a one bit, then zero bits up to 56 bytes modulo 64. */
  function PadTo56(n: nat): (p: seq<byte>)
    ensures (n + |p|) % 64 == 56 && 1 <= |p| <= 64
  {
    [0x80] + Zeros((119 - n % 64) % 64)
  }

  /** Section 3.2: the bit count, as two words, low-order word first. */
  function LengthBytes(bits: nat): seq<byte> {
    Le32(bits % TWO32) + Le32(bits / TWO32 % TWO32)
  }

  function PadWith(msg: seq<byte>, bits: nat): (p: seq<byte>)
    ensures |p| % 64 == 0
  {
    msg + PadTo56(|msg|) + LengthBytes(bits)
  }

  function Pad(msg: seq<byte>): seq<byte> {
    PadWith(msg, 8 * |msg| % TWO64)
  }

  // Section 3.5.
  function Output(r: Regs): seq<byte> {
    Le32(r.a as nat) + Le32(r.b as nat) + Le32(r.c as nat) + Le32(r.d as nat)
  }

  /** The digest of a whole message. */
  function Digest(msg: seq<byte>): seq<byte> {
    Output(Fold(Compress, Iv(), Pad(msg)))
  }
}
