/** The streaming MD5 context of md5sum.c: it buffers arbitrary chunks of a message. */
module Md5Stream {
  import opened Bytes
  import opened Md5Spec
  import Md5Transform

  /** What a context holds once it has absorbed msg with the bytes `tail` still buffered:
      the fold over everything before the tail, and the number of blocks modulo 2^32. */
  ghost predicate Absorbed(f: (Regs, seq<byte>) --> Regs, msg: seq<byte>, regs: Regs, nblocks: nat, tail: seq<byte>)
    requires Compresses(f)
  {
    var done := |msg| - |tail|;
    && done >= 0
    && done % 64 == 0
    && regs == Fold(f, Iv(), msg[..done])
    && nblocks == done / 64 % TWO32
    && tail == msg[done..]
  }

  lemma AbsorbByte(f: (Regs, seq<byte>) --> Regs, msg: seq<byte>, regs: Regs, nblocks: nat, tail: seq<byte>, b: byte)
    requires Compresses(f) && Absorbed(f, msg, regs, nblocks, tail)
    ensures Absorbed(f, msg + [b], regs, nblocks, tail + [b])
  {
    var done := |msg| - |tail|;
    assert (msg + [b])[..done] == msg[..done];
  }

  lemma FoldOneBlock(f: (Regs, seq<byte>) --> Regs, r: Regs, block: seq<byte>)
    requires Compresses(f) && |block| == 64
    ensures Fold(f, r, block) == f(r, block)
  {
    assert block[..64] == block && block[64..] == [];
  }

  /** Compressing one more block: either the full buffer or 64 bytes straight from the input. */
  lemma AbsorbBlock(f: (Regs, seq<byte>) --> Regs, msg: seq<byte>, regs: Regs, nblocks: nat, block: seq<byte>)
    requires Compresses(f) && |block| == 64 && Absorbed(f, msg, regs, nblocks, [])
    ensures Absorbed(f, msg + block, f(regs, block), (nblocks + 1) % TWO32, [])
  {
    hide Fold;
    assert msg[..|msg|] == msg;
    assert (msg + block)[..|msg + block|] == msg + block;
    FoldAppend(f, Iv(), msg, block);
    FoldOneBlock(f, regs, block);
    assert |msg + block| / 64 == |msg| / 64 + 1;
  }

  lemma AbsorbFlush(f: (Regs, seq<byte>) --> Regs, msg: seq<byte>, regs: Regs, nblocks: nat, tail: seq<byte>)
    requires Compresses(f) && |tail| == 64 && Absorbed(f, msg, regs, nblocks, tail)
    ensures Absorbed(f, msg, f(regs, tail), (nblocks + 1) % TWO32, [])
  {
    var done := |msg| - 64;
    assert msg[..done] + tail == msg;
    assert msg[..done][..done] == msg[..done];
    AbsorbBlock(f, msg[..done], regs, nblocks, tail);
  }

  lemma AbsorbBytes(f: (Regs, seq<byte>) --> Regs, msg: seq<byte>, regs: Regs, nblocks: nat,
                    tail: seq<byte>, more: seq<byte>)
    requires Compresses(f) && Absorbed(f, msg, regs, nblocks, tail)
    ensures Absorbed(f, msg + more, regs, nblocks, tail + more)
  {
    var done := |msg| - |tail|;
    assert (msg + more)[..done] == msg[..done];
  }

  lemma CountIsTail(f: (Regs, seq<byte>) --> Regs, msg: seq<byte>, regs: Regs, nblocks: nat, tail: seq<byte>)
    requires Compresses(f) && |tail| < 64 && Absorbed(f, msg, regs, nblocks, tail)
    ensures |tail| == |msg| % 64 && nblocks < TWO32
  {
  }

  const TWO38: int := 0x40_0000_0000

  /** The bit count a 32-bit block counter can know: the length is only kept modulo 2^38 bytes. */
  function CountedBits(len: nat): nat {
    8 * (len % TWO38)
  }

  /** The digest the code computes: RFC 1321 with that bit count in the length field. */
  function CountedDigest(msg: seq<byte>): seq<byte> {
    Output(Fold(Compress, Iv(), PadWith(msg, CountedBits(|msg|))))
  }

  const TWO61: int := 0x2000_0000_0000_0000

  /** The length field is the one of the RFC exactly when bits 38 to 60 of the length are zero. */
  lemma PaddingIsRfcIff(msg: seq<byte>)
    ensures PadWith(msg, CountedBits(|msg|)) == Pad(msg) <==> |msg| % TWO61 < TWO38
  {
    hide Le32;
    hide PadTo56;
    var len, front := |msg|, msg + PadTo56(|msg|);
    var counted, full := CountedBits(len), 8 * len % TWO64;
    RemainderOfRemainder(len);
    RemainderTimesEight(len);
    if PadWith(msg, counted) == Pad(msg) {
      assert PadWith(msg, counted)[|front|..] == LengthBytes(counted);
      assert Pad(msg)[|front|..] == LengthBytes(full);
      LengthBytesInjective(counted, full);
    }
  }

  /** The shortest message for which it is not: 2^38 zero bytes get the length field of the empty message. */
  lemma LongMessagePaddedWrong()
    ensures PadWith(Zeros(TWO38), CountedBits(TWO38)) == PadWith(Zeros(TWO38), 0) != Pad(Zeros(TWO38))
  {
    PaddingIsRfcIff(Zeros(TWO38));
  }

  lemma RemainderOfRemainder(len: nat)
    ensures len % TWO38 == len % TWO61 % TWO38
  {
    var q, r := len / TWO61, len % TWO61;
    QuotientRemainder(len, 0x80_0000 * q + r / TWO38, TWO38, r % TWO38);
  }

  lemma RemainderTimesEight(len: nat)
    ensures 8 * len % TWO64 == 8 * (len % TWO61)
  {
    QuotientRemainder(8 * len, len / TWO61, TWO64, 8 * (len % TWO61));
  }

  lemma LengthBytesInjective(a: nat, b: nat)
    requires a < TWO64 && b < TWO64 && LengthBytes(a) == LengthBytes(b)
    ensures a == b
  {
    hide Le32;
    assert Le32(a % TWO32) == LengthBytes(a)[..4] == LengthBytes(b)[..4] == Le32(b % TWO32);
    assert Le32(a / TWO32 % TWO32) == LengthBytes(a)[4..] == LengthBytes(b)[4..] == Le32(b / TWO32 % TWO32);
    Le32Injective(a % TWO32, b % TWO32);
    Le32Injective(a / TWO32 % TWO32, b / TWO32 % TWO32);
  }

  /** Below 2^38 bytes (256 GiB) the code computes the digest of RFC 1321. */
  lemma CountedDigestIsRfc(msg: seq<byte>)
    requires |msg| % TWO61 < TWO38
    ensures CountedDigest(msg) == Digest(msg)
  {
    hide Compress;
    hide Output;
    hide PadWith;
    PaddingIsRfcIff(msg);
  }

  lemma CountedBitsOfContext(f: (Regs, seq<byte>) --> Regs, msg: seq<byte>, regs: Regs, nblocks: nat, tail: seq<byte>)
    requires Compresses(f) && |tail| < 64 && Absorbed(f, msg, regs, nblocks, tail)
    ensures CountedBits(|msg|) == 8 * (64 * nblocks + |tail|)
  {
    var blocks := (|msg| - |tail|) / 64;
    QuotientRemainder(|msg|, blocks / TWO32, TWO38, 64 * nblocks + |tail|);
  }

  // 32-bit arithmetic as md5_final uses it.

  /** Bitwise or of two naturals. */
  function Or(x: nat, y: nat): nat {
    if x == 0 && y == 0 then 0
    else 2 * Or(x / 2, y / 2) + (if x % 2 == 1 || y % 2 == 1 then 1 else 0)
  }

  lemma OrZero(x: nat)
    ensures Or(x, 0) == x
  {
  }

  lemma OrEven(h: nat, y: nat)
    ensures Or(2 * h, y) == 2 * Or(h, y / 2) + y % 2
  {
  }

  /** Or-ing three low bits into a number that has none there is addition. */
  lemma OrLowBits(h: nat, y: nat)
    requires y < 8
    ensures Or(8 * h, y) == 8 * h + y
  {
    hide Or;
    OrEven(4 * h, y);
    OrEven(2 * h, y / 2);
    OrEven(h, y / 4);
    OrZero(h);
  }

  /** Shifting left by 6 and right by 26 splits 64 * t into two words... */
  lemma ShiftBySix(t: nat)
    ensures t / 0x400_0000 * TWO32 + t * 0x40 % TWO32 == t * 0x40
  {
    QuotientRemainder(t * 0x40, t / 0x400_0000, TWO32, t % 0x400_0000 * 0x40);
  }

  /** ...and shifting left by 3 and right by 29 splits 8 * t. */
  lemma ShiftByThree(t: nat)
    ensures t / 0x2000_0000 * TWO32 + t * 8 % TWO32 == t * 8
  {
    QuotientRemainder(t * 8, t / 0x2000_0000, TWO32, t % 0x2000_0000 * 8);
  }

  /** "if ((lsb += n) < t) msb++": adding to a two-word number. */
  method AddToLow(lsb0: nat, msb0: nat, n: nat) returns (lsb: nat, msb: nat)
    requires lsb0 < TWO32 && msb0 < TWO32 - 1 && n < TWO32
    ensures lsb < TWO32 && msb < TWO32
    ensures msb * TWO32 + lsb == msb0 * TWO32 + lsb0 + n
  {
    msb := msb0;
    lsb := (lsb0 + n) % TWO32;
    if lsb < lsb0 {
      msb := (msb + 1) % TWO32;
    }
  }

  /** The shifts, the carry and the or of md5_final: msb:lsb is the bit count, exactly. */
  method BitCount(nblocks: nat, count: nat) returns (lsb: nat, msb: nat)
    requires nblocks < TWO32 && count < 64
    ensures lsb < TWO32 && msb < TWO32
    ensures msb * TWO32 + lsb == 8 * (64 * nblocks + count)
  {
    hide Or;
    ShiftBySix(nblocks);
    var t := nblocks;
    lsb := t * 0x40 % TWO32;
    msb := t / 0x400_0000;
    lsb, msb := AddToLow(lsb, msb, count);
    assert msb <= 64;
    ghost var high := msb;
    t := lsb;
    ShiftByThree(t);
    OrLowBits(high, t / 0x2000_0000);
    lsb := t * 8 % TWO32;
    msb := msb * 8 % TWO32;
    msb := Or(msb, t / 0x2000_0000);
  }

  lemma AbsorbLast(f: (Regs, seq<byte>) --> Regs, msg: seq<byte>, regs: Regs, nblocks: nat, tail: seq<byte>)
    requires Compresses(f) && |tail| == 64 && Absorbed(f, msg, regs, nblocks, tail)
    ensures f(regs, tail) == Fold(f, Iv(), msg)
  {
    AbsorbFlush(f, msg, regs, nblocks, tail);
    assert msg[..|msg|] == msg;
  }

  /** The two words, stored one after the other, are the length field of the padded message. */
  lemma PaddedMessage(msg: seq<byte>, lsb: nat, msb: nat)
    requires lsb < TWO32 && msb < TWO32
    ensures msg + PadTo56(|msg|) + Le32(lsb) + Le32(msb) == PadWith(msg, msb * TWO32 + lsb)
  {
    hide Le32;
    hide PadTo56;
    var bits := msb * TWO32 + lsb;
    assert bits % TWO32 == lsb && bits / TWO32 == msb;
    var m := msg + PadTo56(|msg|);
    assert m + Le32(lsb) + Le32(msb) == m + (Le32(lsb) + Le32(msb));
  }

  class Md5Context {
    var A: bv32
    var B: bv32
    var C: bv32
    var D: bv32
    var nblocks: nat
    var count: nat
    const buf: array<byte>
    ghost var msg: seq<byte>

    function State(): Regs
      reads this
    {
      Regs(A, B, C, D)
    }

    ghost predicate Valid()
      reads this, buf
    {
      && buf.Length == 64
      && count <= 64
      && Absorbed(Compress, msg, State(), nblocks, buf[..count])
    }

    /** md5_init. */
    constructor ()
      ensures Valid() && fresh(buf)
      ensures msg == [] && count == 0
    {
      hide Compress;
      buf := new byte[64];
      A, B, C, D := 0x67452301, 0xefcdab89, 0x98badcfe, 0x10325476;
      nblocks, count := 0, 0;
      msg := [];
    }

    /** transform: compress the 64 bytes of data that start at offset p. */
    method Transform(data: array<byte>, p: nat)
      requires p + 64 <= data.Length
      modifies this`A, this`B, this`C, this`D
      ensures State() == Compress(old(State()), data[p..p + 64])
    {
      hide Compress;
      var q := Md5Transform.TransformBlock(Regs(A, B, C, D), data[p..p + 64]);
      A, B, C, D := q.a, q.b, q.c, q.d;
    }

    /** md5_write: absorb inlen bytes of inbuf; with a null inbuf, only flush a full buffer. */
    method Write(inbuf: array?<byte>, inlen: nat)
      requires Valid()
      requires inbuf != null ==> inbuf != buf && inlen <= inbuf.Length
      modifies this, buf
      ensures Valid() && count < 64
      ensures msg == old(msg) + (if inbuf == null then [] else inbuf[..inlen])
      ensures inbuf == null ==> count == old(count) % 64 && buf[..] == old(buf[..])
      decreases inbuf != null
    {
      hide Compress;
      hide Absorbed;
      assert count <= 64;
      hide Valid;
      if count == 64 {
        CompressBuffer();
      }
      if inbuf == null {
        return;
      }
      var p := 0;
      if count != 0 {
        p := Fill(inbuf, 0, inlen);
        Write(null, 0);
        if p == inlen {
          return;
        }
      }
      WriteRest(inbuf, p, inlen);
      assert inbuf[..p] + inbuf[p..inlen] == inbuf[..inlen];
    }

    /** The second half of md5_write, with an empty buffer: whole blocks, then the remainder. */
    method WriteRest(inbuf: array<byte>, p0: nat, inlen: nat)
      requires Valid() && count == 0
      requires inbuf != buf && p0 <= inlen <= inbuf.Length
      modifies this, buf
      ensures Valid() && count < 64
      ensures msg == old(msg) + inbuf[p0..inlen]
    {
      hide Valid;
      var p := WholeBlocks(inbuf, p0, inlen);
      var q := Fill(inbuf, p, inlen);
      assert inbuf[p0..p] + inbuf[p..q] == inbuf[p0..q];
    }

    /** The loop that compresses whole blocks straight from the input. */
    method WholeBlocks(inbuf: array<byte>, p0: nat, inlen: nat) returns (p: nat)
      requires Valid() && count == 0
      requires inbuf != buf && p0 <= inlen <= inbuf.Length
      modifies this
      ensures Valid() && count == 0
      ensures p0 <= p <= inlen < p + 64
      ensures msg == old(msg) + inbuf[p0..p]
    {
      hide Compress;
      hide Absorbed;
      hide Valid;
      p := p0;
      while inlen - p >= 64
        invariant p0 <= p <= inlen && count == 0
        invariant Valid()
        invariant msg == old(msg) + inbuf[p0..p]
      {
        CompressInput(inbuf, p);
        assert inbuf[p0..p] + inbuf[p..p + 64] == inbuf[p0..p + 64];
        p := p + 64;
      }
    }

    /** The loop that moves input bytes into the buffer until either runs out. */
    method Fill(inbuf: array<byte>, p0: nat, inlen: nat) returns (p: nat)
      requires Valid()
      requires inbuf != buf && p0 <= inlen <= inbuf.Length
      modifies this`count, this`msg, buf
      ensures Valid() && p0 <= p <= inlen
      ensures count == old(count) + (p - p0) && (p == inlen || count == 64)
      ensures msg == old(msg) + inbuf[p0..p]
    {
      hide Compress;
      hide Absorbed;
      p := p0;
      while p < inlen && count < 64
        invariant p0 <= p <= inlen && count == old(count) + (p - p0)
        invariant Valid()
        invariant msg == old(msg) + inbuf[p0..p]
      {
        Put(inbuf[p]);
        p := p + 1;
      }
    }

    /** Compress the full buffer and count the block. */
    method CompressBuffer()
      requires Valid() && count == 64
      modifies this
      ensures Valid() && count == 0 && msg == old(msg)
    {
      hide Compress;
      assert buf[0..64] == buf[..64];
      AbsorbFlush(Compress, msg, State(), nblocks, buf[..64]);
      Transform(buf, 0);
      count := 0;
      nblocks := (nblocks + 1) % TWO32;
    }

    /** Compress 64 bytes straight from the input and count the block. */
    method CompressInput(inbuf: array<byte>, p: nat)
      requires Valid() && count == 0
      requires inbuf != buf && p + 64 <= inbuf.Length
      modifies this
      ensures Valid() && count == 0
      ensures msg == old(msg) + inbuf[p..p + 64]
    {
      hide Compress;
      AbsorbBlock(Compress, msg, State(), nblocks, inbuf[p..p + 64]);
      Transform(inbuf, p);
      count := 0;
      nblocks := (nblocks + 1) % TWO32;
      msg := msg + inbuf[p..p + 64];
    }

    /** "hd->buf[hd->count++] = b". */
    method Put(b: byte)
      requires Valid() && count < 64
      modifies this`count, this`msg, buf
      ensures Valid() && count == old(count) + 1
      ensures msg == old(msg) + [b]
    {
      hide Compress;
      AbsorbByte(Compress, msg, State(), nblocks, buf[..count], b);
      buf[count] := b;
      count := count + 1;
      msg := msg + [b];
      assert buf[..count] == old(buf[..count]) + [b];
    }

    /** md5_final: pad, append the length, and leave the digest in the first sixteen bytes.
        For a message of any length the bit count is the one the 32-bit block counter knows. */
    method Final()
      requires Valid()
      modifies this, buf
      ensures buf.Length == 64 && buf[..16] == CountedDigest(old(msg))
    {
      hide Compress;
      hide Absorbed;
      hide CountedBits;
      hide PadTo56;
      hide PadWith;
      hide Output;
      hide Le32;
      Write(null, 0);
      assert msg == old(msg);
      var lsb, msb := Length();
      PadBuffer();
      AppendLength(old(msg) + PadTo56(|old(msg)|), lsb, msb);
      EmitDigest();
      PaddedMessage(old(msg), lsb, msb);
    }

    /** The bit count of what has been absorbed, as two words. */
    method Length() returns (lsb: nat, msb: nat)
      requires Valid() && count < 64
      ensures lsb < TWO32 && msb < TWO32
      ensures msb * TWO32 + lsb == CountedBits(|msg|)
    {
      hide Compress;
      hide Absorbed;
      CountIsTail(Compress, msg, State(), nblocks, buf[..count]);
      CountedBitsOfContext(Compress, msg, State(), nblocks, buf[..count]);
      lsb, msb := BitCount(nblocks, count);
    }

    /** Both padding branches leave 56 bytes that end the padded message so far. */
    method PadBuffer()
      requires Valid() && count < 64
      modifies this, buf
      ensures buf.Length == 64
      ensures Absorbed(Compress, old(msg) + PadTo56(|old(msg)|), State(), nblocks, buf[..56])
    {
      hide Compress;
      hide Absorbed;
      ghost var n := |msg|;
      CountIsTail(Compress, msg, State(), nblocks, buf[..count]);
      if count < 56 {
        Put(0x80);
        PutZeros(56);
        assert msg == old(msg) + PadTo56(n);
      } else {
        Put(0x80);
        PutZeros(64);
        Write(null, 0);
        ClearBuffer();
        assert msg == old(msg) + PadTo56(n);
      }
    }

    /** "memset(hd->buf, 0, 56)": 56 zero bytes, though `count` does not count them. */
    method ClearBuffer()
      requires Valid() && count == 0
      modifies buf, this`msg
      ensures msg == old(msg) + Zeros(56)
      ensures Absorbed(Compress, msg, State(), nblocks, buf[..56])
    {
      hide Compress;
      assert buf[..count] == [];
      AbsorbBytes(Compress, msg, State(), nblocks, [], Zeros(56));
      forall i | 0 <= i < 56 {
        buf[i] := 0;
      }
      msg := msg + Zeros(56);
      assert buf[..56] == [] + Zeros(56);
    }

    method PutZeros(limit: nat)
      requires Valid() && count <= limit <= 64
      modifies this`count, this`msg, buf
      ensures Valid() && count == limit
      ensures msg == old(msg) + Zeros(limit - old(count))
    {
      hide Compress;
      hide Absorbed;
      while count < limit
        invariant Valid() && old(count) <= count <= limit
        invariant msg == old(msg) + Zeros(count - old(count))
      {
        Put(0);
      }
    }

    method AppendLength(ghost padded: seq<byte>, lsb: nat, msb: nat)
      requires buf.Length == 64 && lsb < TWO32 && msb < TWO32
      requires Absorbed(Compress, padded, State(), nblocks, buf[..56])
      modifies this, buf
      ensures State() == Fold(Compress, Iv(), padded + Le32(lsb) + Le32(msb))
    {
      hide Compress;
      hide Absorbed;
      ghost var start := buf[..56];
      Emit(lsb, 56);
      Emit(msb, 60);
      assert buf[..64] == start + (Le32(lsb) + Le32(msb));
      AbsorbBytes(Compress, padded, State(), nblocks, start, Le32(lsb) + Le32(msb));
      assert padded + (Le32(lsb) + Le32(msb)) == padded + Le32(lsb) + Le32(msb);
      AbsorbLast(Compress, padded + Le32(lsb) + Le32(msb), State(), nblocks, buf[..64]);
      assert buf[0..64] == buf[..64];
      Transform(buf, 0);
    }

    method EmitDigest()
      requires buf.Length == 64
      modifies buf
      ensures buf[..16] == Output(State())
    {
      hide Le32;
      Emit(A as nat, 0);
      assert buf[..4] == buf[0..4];
      Emit(B as nat, 4);
      assert buf[..8] == buf[..4] + buf[4..8];
      Emit(C as nat, 8);
      assert buf[..12] == buf[..8] + buf[8..12];
      Emit(D as nat, 12);
      assert buf[..16] == buf[..12] + buf[12..16];
    }

    /** Store a word, low-order byte first. */
    method Emit(x: nat, p: nat)
      requires x < TWO32 && p + 4 <= buf.Length
      modifies buf
      ensures buf[p..p + 4] == Le32(x)
      ensures buf[..p] == old(buf[..p]) && buf[p + 4..] == old(buf[p + 4..])
    {
      buf[p] := x % 256;
      buf[p + 1] := x / 0x100 % 256;
      buf[p + 2] := x / 0x1_0000 % 256;
      buf[p + 3] := x / 0x100_0000 % 256;
    }
  }

  /** One call of md5_write: a flush (null input) or some bytes, possibly none. */
  datatype Piece = Flush | Data(bytes: seq<byte>)

  function BytesOf(pieces: seq<Piece>): seq<byte> {
    if pieces == [] then []
    else
      var last := pieces[|pieces| - 1];
      BytesOf(pieces[..|pieces| - 1]) + (if last.Flush? then [] else last.bytes)
  }

  /** However a message is cut into md5_write calls, md5_final leaves the digest of the whole. */
  method HashPieces(pieces: seq<Piece>) returns (digest: seq<byte>)
    ensures digest == CountedDigest(BytesOf(pieces))
    ensures |BytesOf(pieces)| % TWO61 < TWO38 ==> digest == Digest(BytesOf(pieces))
  {
    hide Compress;
    hide Absorbed;
    hide CountedDigest;
    hide Digest;
    var ctx := new Md5Context();
    for i := 0 to |pieces|
      invariant ctx.Valid() && fresh(ctx) && fresh(ctx.buf)
      invariant ctx.msg == BytesOf(pieces[..i])
    {
      assert pieces[..i + 1][..i] == pieces[..i];
      match pieces[i]
      case Flush =>
        ctx.Write(null, 0);
      case Data(bytes) =>
        var input := new byte[|bytes|](k requires 0 <= k < |bytes| => bytes[k]);
        assert input[..|bytes|] == bytes;
        ctx.Write(input, |bytes|);
    }
    assert pieces[..|pieces|] == pieces;
    ctx.Final();
    digest := ctx.buf[..16];
    if |BytesOf(pieces)| % TWO61 < TWO38 {
      CountedDigestIsRfc(BytesOf(pieces));
    }
  }

  /** What fread delivers before it first delivers nothing. */
  function UntilEmpty(results: seq<seq<byte>>): seq<byte> {
    if results == [] || results[0] == [] then [] else results[0] + UntilEmpty(results[1..])
  }

  lemma UntilEmptyStep(results: seq<seq<byte>>, i: nat)
    requires i <= |results|
    ensures i == |results| || results[i] == [] ==> UntilEmpty(results[i..]) == []
    ensures i < |results| && results[i] != [] ==> UntilEmpty(results[i..]) == results[i] + UntilEmpty(results[i + 1..])
    ensures results[0..] == results
  {
    if i < |results| {
      assert results[i..][1..] == results[i + 1..];
    }
  }

  /** The reads before the first empty one, one after the other. */
  lemma {:induction false} UntilEmptyIs(first: seq<seq<byte>>, rest: seq<seq<byte>>)
    requires forall i :: 0 <= i < |first| ==> first[i] != []
    ensures UntilEmpty(first + [[]] + rest) == UntilEmpty(first) == Flat(first)
  {
    if first == [] {
      assert first + [[]] + rest == [[]] + rest;
    } else {
      UntilEmptyIs(first[1..], rest);
      assert (first + [[]] + rest)[1..] == first[1..] + [[]] + rest;
      assert first == first[..1] + first[1..];
      FlatAppend(first[..1], first[1..]);
      FlatOne(first[0]);
    }
  }

  lemma FlatOne(b: seq<byte>)
    ensures Flat([b]) == b
  {
    assert Flat([b]) == Flat([]) + b;
  }

  /** Writes of data, with flushes in between, are the concatenation of the data. */
  lemma {:induction false} BytesOfIs(chunks: seq<seq<byte>>, pieces: seq<Piece>)
    requires |pieces| == 2 * |chunks|
    requires forall i :: 0 <= i < |chunks| ==> pieces[2 * i] == Data(chunks[i]) && pieces[2 * i + 1] == Flush
    ensures BytesOf(pieces) == Flat(chunks)
  {
    hide Flat;
    hide BytesOf;
    if chunks == [] {
      NoBytes(pieces);
    } else {
      var n := |chunks| - 1;
      BytesOfIs(chunks[..n], pieces[..2 * n]);
      assert pieces[2 * n] == Data(chunks[n]) && pieces[2 * n + 1] == Flush;
      assert pieces == pieces[..2 * n] + [Data(chunks[n]), Flush];
      TwoPieces(pieces[..2 * n], chunks[n]);
      assert chunks == chunks[..n] + [chunks[n]];
      FlatAppend(chunks[..n], [chunks[n]]);
      FlatOne(chunks[n]);
    }
  }

  lemma NoBytes(pieces: seq<Piece>)
    requires pieces == []
    ensures BytesOf(pieces) == Flat([])
  {
  }

  lemma TwoPieces(pieces: seq<Piece>, b: seq<byte>)
    ensures BytesOf(pieces + [Data(b), Flush]) == BytesOf(pieces) + b
  {
    var q := pieces + [Data(b)];
    assert q[..|pieces|] == pieces;
    assert pieces + [Data(b), Flush] == q + [Flush];
    assert (q + [Flush])[..|q|] == q;
  }

  /** get_md5sum: `results` are the results of the fread calls, at most 4096 bytes each. */
  method GetMd5Sum(fileOpened: bool, results: seq<seq<byte>>, readError: bool) returns (ok: bool, digest: seq<byte>)
    requires forall r :: r in results ==> |r| <= 4096
    ensures ok <==> fileOpened && !readError
    ensures ok ==> digest == CountedDigest(UntilEmpty(results))
    ensures ok && |UntilEmpty(results)| % TWO61 < TWO38 ==> digest == Digest(UntilEmpty(results))
  {
    hide UntilEmpty;
    hide Compress;
    hide Absorbed;
    hide CountedDigest;
    hide Digest;
    if !fileOpened {
      return false, [];
    }
    var buffer := new byte[4096];
    var ctx := new Md5Context();
    UntilEmptyStep(results, 0);
    var i := 0;
    while i < |results| && |results[i]| > 0
      invariant 0 <= i <= |results|
      invariant ctx.Valid() && fresh(ctx) && fresh(ctx.buf) && fresh(buffer) && buffer != ctx.buf
      invariant ctx.msg + UntilEmpty(results[i..]) == UntilEmpty(results)
    {
      UntilEmptyStep(results, i);
      Deliver(results[i], buffer);
      ctx.Write(buffer, |results[i]|);
      i := i + 1;
    }
    UntilEmptyStep(results, i);
    if readError {
      return false, [];
    }
    assert ctx.msg == UntilEmpty(results);
    ctx.Final();
    ok, digest := true, ctx.buf[..16];
    if |UntilEmpty(results)| % TWO61 < TWO38 {
      CountedDigestIsRfc(UntilEmpty(results));
    }
  }

  /** fread puts the bytes at the start of the caller's buffer. */
  method Deliver(bytes: seq<byte>, buffer: array<byte>)
    requires |bytes| <= buffer.Length
    modifies buffer
    ensures buffer[..|bytes|] == bytes
  {
    forall k | 0 <= k < |bytes| {
      buffer[k] := bytes[k];
    }
  }
}
