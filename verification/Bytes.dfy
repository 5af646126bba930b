/** Bytes as small integers, and the two byte orders the back end uses. */
module Bytes {
  type byte = x: int | 0 <= x < 256

  const TWO32: int := 0x1_0000_0000

  /** A 32-bit value, low-order byte first. */
  function Le32(x: nat): (b: seq<byte>)
    ensures |b| == 4
  {
    [x % 256, x / 0x100 % 256, x / 0x1_0000 % 256, x / 0x100_0000 % 256]
  }

  function FromLe32(b: seq<byte>): (x: nat)
    requires |b| == 4
    ensures x < TWO32
  {
    0x100_0000 * (b[3] as int) + 0x1_0000 * (b[2] as int) + 0x100 * (b[1] as int) + (b[0] as int)
  }

  /** A 32-bit value, high-order byte first (network order). */
  function Be32(x: nat): (b: seq<byte>)
    ensures |b| == 4
  {
    [x / 0x100_0000 % 256, x / 0x1_0000 % 256, x / 0x100 % 256, x % 256]
  }

  function FromBe32(b: seq<byte>): (x: nat)
    requires |b| == 4
    ensures x < TWO32
  {
    0x100_0000 * (b[0] as int) + 0x1_0000 * (b[1] as int) + 0x100 * (b[2] as int) + (b[3] as int)
  }

  lemma MultipleAtLeast(d: int, m: nat)
    requires d >= 1
    ensures d * m >= m
  {
    assert d * m == (d - 1) * m + m;
  }

  /** Division has one quotient and one remainder. */
  lemma QuotientRemainder(x: int, q: int, m: nat, r: nat)
    requires x == q * m + r && r < m
    ensures x / m == q && x % m == r
  {
    var d := x / m - q;
    assert d * m == r - x % m;
    if d > 0 {
      MultipleAtLeast(d, m);
    } else if d < 0 {
      MultipleAtLeast(-d, m);
    }
  }

  lemma Base256Digits(x: nat)
    requires x < TWO32
    ensures x == x % 256 + 0x100 * (x / 0x100 % 256) + 0x1_0000 * (x / 0x1_0000 % 256)
                 + 0x100_0000 * (x / 0x100_0000 % 256)
  {
    var h := x / 0x100_0000;
    var m := x / 0x1_0000;
    var l := x / 0x100;
    QuotientRemainder(l, m, 0x100, l % 0x100) by {
      QuotientRemainder(l, l / 0x100, 0x100, l % 0x100);
      QuotientRemainder(x, l / 0x100, 0x1_0000, l % 0x100 * 0x100 + x % 0x100);
    }
    QuotientRemainder(m, h, 0x100, m % 0x100) by {
      QuotientRemainder(x, m / 0x100, 0x100_0000, m % 0x100 * 0x1_0000 + x % 0x1_0000);
    }
  }

  lemma Be32RoundTrip(x: nat)
    requires x < TWO32
    ensures FromBe32(Be32(x)) == x
  {
    Base256Digits(x);
  }

  lemma Le32Injective(x: nat, y: nat)
    requires x < TWO32 && y < TWO32 && Le32(x) == Le32(y)
    ensures x == y
  {
    Le32RoundTrip(x);
    Le32RoundTrip(y);
    hide Le32;
    hide FromLe32;
  }

  lemma Le32RoundTrip(x: nat)
    requires x < TWO32
    ensures FromLe32(Le32(x)) == x
  {
    Base256Digits(x);
  }

  /** Concatenation of a list of byte strings. */
  function Flat(chunks: seq<seq<byte>>): seq<byte> {
    if chunks == [] then [] else Flat(chunks[..|chunks| - 1]) + chunks[|chunks| - 1]
  }

  lemma {:induction false} FlatAppend(a: seq<seq<byte>>, b: seq<seq<byte>>)
    ensures Flat(a + b) == Flat(a) + Flat(b)
  {
    if b == [] {
      assert a + b == a;
    } else {
      var front := b[..|b| - 1];
      FlatAppend(a, front);
      assert (a + b)[..|a + b| - 1] == a + front;
    }
  }
}
