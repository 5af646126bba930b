/** The constellation decoder of dma_handler.c and the CSI de-interleaver of small_utility.c. */
module IqDecoders {
  import opened Bytes

  // ----- constellation -----

  const CONSTELLATION_IQ_PAIR := 10000

  /** The low 7 bits as a signed number, doubled. */
  function Twice(b: byte): (v: int)
    ensures -128 <= v <= 126 && v % 2 == 0
  {
    2 * (if b % 128 < 64 then b % 128 else b % 128 - 128)
  }

  /** buf[i] << 1, kept to 8 bits. */
  function Shifted(b: byte): byte {
    2 * b as int % 256
  }

  /** A Q byte has the top bit set. */
  function CheckIQ(input: byte): (q: int)
    ensures q == 1 <==> input > 127
    ensures q == 0 || q == 1
  {
    if input > 127 then 1 else 0
  }

  /** The buffer starts with two Q bytes. */
  predicate BadStart(buf: seq<byte>) {
    |buf| >= 2 && CheckIQ(buf[0]) == 1 && CheckIQ(buf[1]) == 1
  }

  /** Where the first I byte is. */
  function StartIndex(buf: seq<byte>): (k: nat)
    requires buf != []
    ensures k <= 1
  {
    CheckIQ(buf[0])
  }

  /** The decoded pairs: real and imaginary part. */
  function Pairs(buf: seq<byte>): (ps: seq<(int, int)>)
    requires buf != []
    ensures |ps| == (|buf| - StartIndex(buf)) / 2
  {
    var k := StartIndex(buf);
    seq((|buf| - k) / 2, j requires 0 <= j < (|buf| - k) / 2 =>
      (Twice(buf[k + 2 * j]), Twice(buf[k + 2 * j + 1])))
  }

  lemma PairAt(buf: seq<byte>, j: nat)
    requires buf != [] && j < |Pairs(buf)|
    ensures var k := StartIndex(buf) + 2 * j;
            k + 1 < |buf| && Pairs(buf)[j] == (Twice(buf[k]), Twice(buf[k + 1]))
  {
  }

  lemma ShiftIsTwice(b: byte)
    ensures Twice(b) == if Shifted(b) > 127 then Shifted(b) - 256 else Shifted(b)
  {
  }

  class ConstellationIqPair {
    const vectReal: array<int>
    const vectImag: array<int>
    var iqCnt: nat

    ghost predicate Valid() {
      vectReal != vectImag && vectReal.Length == vectImag.Length == CONSTELLATION_IQ_PAIR
    }

    ghost function Decoded(): (ps: seq<(int, int)>)
      requires Valid() && iqCnt <= CONSTELLATION_IQ_PAIR
      reads this, vectReal, vectImag
      ensures |ps| == iqCnt
    {
      seq(iqCnt, j requires 0 <= j < iqCnt && Valid() && iqCnt <= CONSTELLATION_IQ_PAIR reads this, vectReal, vectImag =>
        (vectReal[j], vectImag[j]))
    }

    /** processConstellation. It shifts the bytes in the caller's buffer as it goes. */
    method Process(buf: array<byte>)
      requires Valid()
      requires buf.Length >= 1 && (buf[0] > 127 ==> buf.Length >= 2)
      requires |Pairs(buf[..])| <= CONSTELLATION_IQ_PAIR
      modifies this, vectReal, vectImag, buf
      ensures old(buf[0]) > 127 && old(buf[1]) > 127 ==> iqCnt == 0 && buf[..] == old(buf[..])
      ensures old(buf[0]) <= 127 || old(buf[1]) <= 127 ==>
                iqCnt == |Pairs(old(buf[..]))| && Decoded() == Pairs(old(buf[..]))
      ensures old(buf[0]) <= 127 || old(buf[1]) <= 127 ==>
                var k := StartIndex(old(buf[..]));
                forall i :: 0 <= i < buf.Length ==>
                  buf[i] == if k <= i < k + 2 * iqCnt then Shifted(old(buf[i])) else old(buf[i])
    {
      hide Pairs;
      hide Twice;
      hide Shifted;
      ghost var b := buf[..];
      this.iqCnt := 0;
      var startIdx, endIdx := 0, buf.Length;
      if CheckIQ(buf[startIdx]) == 1 {
        startIdx := startIdx + 1;
        if CheckIQ(buf[startIdx]) == 1 {
          return;
        }
      }
      if (buf.Length - startIdx) % 2 == 1 {
        endIdx := buf.Length - 1;
      }
      var iqCnt := DecodeLoop(buf, startIdx, endIdx);
      this.iqCnt := iqCnt;
    }

    /** Its loop. */
    method DecodeLoop(buf: array<byte>, startIdx: nat, endIdx: nat) returns (iqCnt: nat)
      requires Valid() && buf.Length > 0 && startIdx == StartIndex(buf[..]) && startIdx <= endIdx <= buf.Length
      requires endIdx - startIdx == 2 * |Pairs(buf[..])| && |Pairs(buf[..])| <= CONSTELLATION_IQ_PAIR
      modifies vectReal, vectImag, buf
      ensures iqCnt == |Pairs(old(buf[..]))|
      ensures forall j :: 0 <= j < iqCnt ==> (vectReal[j], vectImag[j]) == Pairs(old(buf[..]))[j]
      ensures forall i :: 0 <= i < buf.Length ==>
                buf[i] == if startIdx <= i < endIdx then Shifted(old(buf[i])) else old(buf[i])
    {
      hide Pairs;
      hide Twice;
      hide Shifted;
      hide StartIndex;
      ghost var b := buf[..];
      ghost var ps := Pairs(b);
      var swTemp := 0;
      iqCnt := 0;
      for i := startIdx to endIdx
        invariant iqCnt == (i - startIdx) / 2 && swTemp == (i - startIdx) % 2
        invariant forall j :: 0 <= j < buf.Length ==> buf[j] == if startIdx <= j < i then Shifted(b[j]) else b[j]
        invariant forall j :: 0 <= j < iqCnt ==> vectReal[j] == ps[j].0 && vectImag[j] == ps[j].1
        invariant swTemp == 1 ==> iqCnt < |ps| && vectReal[iqCnt] == ps[iqCnt].0
      {
        PairAt(b, iqCnt);
        ShiftIsTwice(b[i]);
        buf[i] := Shifted(buf[i]);
        var value: int := buf[i];
        if value > 127 {
          value := value - 256;
        }
        assert value == Twice(b[i]);
        if swTemp == 0 {
          vectReal[iqCnt] := value;
          swTemp := 1;
        } else {
          vectImag[iqCnt] := value;
          swTemp := 0;
          iqCnt := iqCnt + 1;
        }
      }
    }
  }

  /** A stream of samples as the device marks it: 7 bits each, the top bit telling Q from I. */
  predicate Sample(v: int) {
    -128 <= v <= 126 && v % 2 == 0
  }

  function Marked(v: int, q: bool): (b: byte)
    requires Sample(v)
    ensures Twice(b) == v && (CheckIQ(b) == 1 <==> q)
  {
    v / 2 % 128 + if q then 128 else 0
  }

  predicate Samples(ps: seq<(int, int)>) {
    forall j :: 0 <= j < |ps| ==> Sample(ps[j].0) && Sample(ps[j].1)
  }

  function Encoded(ps: seq<(int, int)>): (s: seq<byte>)
    requires Samples(ps)
    ensures |s| == 2 * |ps|
  {
    seq(2 * |ps|, i requires 0 <= i < 2 * |ps| =>
      if i % 2 == 0 then Marked(ps[i / 2].0, false) else Marked(ps[i / 2].1, true))
  }

  /** Whatever window of such a stream one DMA buffer holds, it is decoded to exactly the pairs that lie
      wholly inside it, in order, whether it starts with I or with Q. */
  lemma WindowDecodes(ps: seq<(int, int)>, from: nat, to: nat)
    requires Samples(ps) && from < to <= 2 * |ps| && (from % 2 == 1 ==> from + 2 <= to)
    ensures var buf := Encoded(ps)[from..to];
            !BadStart(buf) && Pairs(buf) == ps[(from + 1) / 2..to / 2]
  {
    hide *;
    var buf, a := Encoded(ps)[from..to], (from + 1) / 2;
    WindowStart(ps, from, to);
    assert |Pairs(buf)| == to / 2 - a && |ps[a..to / 2]| == to / 2 - a;
    forall j | 0 <= j < |Pairs(buf)| ensures Pairs(buf)[j] == ps[a + j] {
      WindowPair(ps, from, to, j);
    }
  }

  lemma WindowPair(ps: seq<(int, int)>, from: nat, to: nat, j: nat)
    requires Samples(ps) && from < to <= 2 * |ps| && (from % 2 == 1 ==> from + 2 <= to)
    requires j < |Pairs(Encoded(ps)[from..to])|
    ensures (from + 1) / 2 + j < |ps| && Pairs(Encoded(ps)[from..to])[j] == ps[(from + 1) / 2 + j]
  {
    hide Encoded;
    hide Pairs;
    var e := Encoded(ps);
    var p := (from + 1) / 2 + j;
    WindowStart(ps, from, to);
    PairAt(e[from..to], j);
    assert from + StartIndex(e[from..to]) + 2 * j == 2 * p;
    EncodedPair(ps, p);
  }

  lemma EncodedPair(ps: seq<(int, int)>, j: nat)
    requires Samples(ps) && j < |ps|
    ensures Twice(Encoded(ps)[2 * j]) == ps[j].0 && CheckIQ(Encoded(ps)[2 * j]) == 0
    ensures Twice(Encoded(ps)[2 * j + 1]) == ps[j].1 && CheckIQ(Encoded(ps)[2 * j + 1]) == 1
  {
    hide Twice;
    hide Marked;
    hide CheckIQ;
  }

  lemma WindowStart(ps: seq<(int, int)>, from: nat, to: nat)
    requires Samples(ps) && from < to <= 2 * |ps|
    ensures StartIndex(Encoded(ps)[from..to]) == from % 2 && !BadStart(Encoded(ps)[from..to])
  {
    EncodedPair(ps, from / 2);
    if from + 1 < to {
      EncodedPair(ps, (from + 1) / 2);
    }
    hide Encoded;
  }

  // ----- CSI -----

  const CSI_LEN := 1024

  /** 256 pairs, in units of 1 / 32768. */
  datatype Iq = Iq(re: int, im: int)

  /** A big-endian 16-bit two's complement number. */
  function Signed16(hi: byte, lo: byte): (v: int)
    ensures -32768 <= v < 32768 && (v - 256 * hi - lo) % 65536 == 0
  {
    var u := 256 * hi + lo;
    if u > 32767 then u - 65536 else u
  }

  /** The k-th 16-bit sample. */
  function Stream(buf: seq<byte>, k: nat): int
    requires |buf| == CSI_LEN && k < 512
  {
    Signed16(buf[2 * k], buf[2 * k + 1])
  }

  /** Where the parts of pair j are: blocks of 16 samples, eight real parts, then the eight imaginary. */
  function ReAt(j: nat): nat {
    j / 8 * 16 + j % 8
  }

  function ImAt(j: nat): nat {
    ReAt(j) + 8
  }

  /** The pair that sample k belongs to. */
  function PairOf(k: nat): nat {
    k / 16 * 8 + k % 8
  }

  lemma Places(j: nat)
    requires j < 256
    ensures ImAt(j) < 512
    ensures PairOf(ReAt(j)) == PairOf(ImAt(j)) == j && ReAt(j) % 16 < 8 <= ImAt(j) % 16
  {
    var g, r := j / 8, j % 8;
    assert ReAt(j) / 16 == g && ReAt(j) % 16 == r && ReAt(j) % 8 == r;
    assert ImAt(j) / 16 == g && ImAt(j) % 16 == r + 8 && ImAt(j) % 8 == r;
  }

  lemma PlaceOf(k: nat)
    requires k < 512
    ensures PairOf(k) < 256
    ensures k == if k % 16 < 8 then ReAt(PairOf(k)) else ImAt(PairOf(k))
  {
    var g, r := k / 16, k % 8;
    assert PairOf(k) / 8 == g && PairOf(k) % 8 == r;
  }

  lemma InBlock(n: nat, r: nat)
    requires r < 8 && n % 8 == 0
    ensures ReAt(n + r) == 2 * n + r && ImAt(n + r) == 2 * n + r + 8
  {
    assert (n + r) / 8 == n / 8 && (n + r) % 8 == r;
  }

  function ParseIq(buf: seq<byte>): (iq: seq<Iq>)
    requires |buf| == CSI_LEN
    ensures |iq| == 256
  {
    seq(256, j requires 0 <= j < 256 => (Places(j); Iq(Stream(buf, ReAt(j)), Stream(buf, ImAt(j)))))
  }

  method Swap(a: array<byte>)
    requires a.Length >= 2
    modifies a
    ensures a[0] == old(a[1]) && a[1] == old(a[0])
  {
    var temp := a[0];
    a[0] := a[1];
    a[1] := temp;
  }

  /** tranform: swap to the host's order, then sign-extend. */
  method Tranform(input: array<byte>) returns (value: int)
    requires input.Length >= 2
    ensures value == Signed16(input[0], input[1])
  {
    var a := new byte[2] (i => 0);
    a[0], a[1] := input[0], input[1];
    Swap(a);
    value := a[0] as int + 256 * a[1] as int;
    if value > 32767 {
      value := value - 65536;
    }
  }

  /** parse_IQ_from_net. */
  method ParseIqFromNet(buf: array<byte>, re: array<int>, im: array<int>)
    requires buf.Length == CSI_LEN && re.Length == im.Length == 256 && re != im
    modifies re, im
    ensures forall j :: 0 <= j < 256 ==> Iq(re[j], im[j]) == ParseIq(buf[..])[j]
  {
    var inputC := new byte[2] (i => 0);
    var counter, streamCounter := 0, 0;
    var iqStream := new int[512];
    for i := 0 to CSI_LEN
      invariant counter == i % 2 && streamCounter == i / 2
      invariant counter == 1 ==> inputC[0] == buf[i - 1]
      invariant forall k :: 0 <= k < streamCounter ==> iqStream[k] == Stream(buf[..], k)
    {
      inputC[counter] := buf[i];
      counter := counter + 1;
      if counter == 2 {
        var temp := Tranform(inputC);
        iqStream[streamCounter] := temp;
        streamCounter := streamCounter + 1;
        counter := 0;
      }
    }
    Deinterleave(iqStream, re, im);
  }

  /** Its second loop, eight pairs at a time. */
  method Deinterleave(iqStream: array<int>, re: array<int>, im: array<int>)
    requires iqStream.Length == 512 && re.Length == im.Length == 256
    requires re != im && iqStream != re && iqStream != im
    modifies re, im
    ensures forall j :: 0 <= j < 256 ==> ImAt(j) < 512 && re[j] == iqStream[ReAt(j)] && im[j] == iqStream[ImAt(j)]
  {
    hide ReAt;
    hide ImAt;
    var i, n := 0, 0;
    while i < 512
      invariant i <= 512 && i == 2 * n && n % 8 == 0
      invariant forall j :: 0 <= j < n ==> ReAt(j) < ImAt(j) < 512 && re[j] == iqStream[ReAt(j)] && im[j] == iqStream[ImAt(j)]
    {
      Copy8(re, n, iqStream, i);
      Copy8(im, n, iqStream, i + 8);
      forall j | n <= j < n + 8
        ensures ReAt(j) < ImAt(j) < 512 && re[j] == iqStream[ReAt(j)] && im[j] == iqStream[ImAt(j)]
      {
        InBlock(n, j - n);
      }
      n := n + 8;
      i := i + 16;
    }
  }

  method Copy8(part: array<int>, n: nat, iqStream: array<int>, i: nat)
    requires n + 8 <= part.Length && i + 8 <= iqStream.Length && part != iqStream
    modifies part
    ensures forall j :: n <= j < n + 8 ==> part[j] == iqStream[i + (j - n)]
    ensures forall j :: 0 <= j < part.Length && !(n <= j < n + 8) ==> part[j] == old(part[j])
  {
    part[n], part[n + 1], part[n + 2], part[n + 3] := iqStream[i], iqStream[i + 1], iqStream[i + 2], iqStream[i + 3];
    part[n + 4], part[n + 5], part[n + 6], part[n + 7] := iqStream[i + 4], iqStream[i + 5], iqStream[i + 6], iqStream[i + 7];
  }

  /** The sender's side: 16-bit samples, eight real parts before their eight imaginary parts. */
  predicate InRange16(iq: seq<Iq>) {
    forall j :: 0 <= j < |iq| ==> -32768 <= iq[j].re < 32768 && -32768 <= iq[j].im < 32768
  }

  function SampleAt(iq: seq<Iq>, k: nat): int
    requires |iq| == 256 && k < 512
  {
    PlaceOf(k);
    var p := iq[PairOf(k)];
    if k % 16 < 8 then p.re else p.im
  }

  function EncodeIq(iq: seq<Iq>): (buf: seq<byte>)
    requires |iq| == 256 && InRange16(iq)
    ensures |buf| == CSI_LEN
  {
    seq(CSI_LEN, i requires 0 <= i < CSI_LEN =>
      var u := SampleAt(iq, i / 2) % 65536;
      if i % 2 == 0 then u / 256 else u % 256)
  }

  lemma Bytes16(v: int)
    requires -32768 <= v < 32768
    ensures Signed16(v % 65536 / 256, v % 65536 % 256) == v
  {
  }

  lemma Halves16(hi: byte, lo: byte)
    ensures Signed16(hi, lo) % 65536 / 256 == hi && Signed16(hi, lo) % 65536 % 256 == lo
  {
  }

  lemma EncodedStream(iq: seq<Iq>, k: nat)
    requires |iq| == 256 && InRange16(iq) && k < 512
    ensures Stream(EncodeIq(iq), k) == SampleAt(iq, k)
  {
    Bytes16(SampleAt(iq, k));
  }

  /** Decoding undoes the interleaving... */
  lemma IqRoundTrip(iq: seq<Iq>)
    requires |iq| == 256 && InRange16(iq)
    ensures ParseIq(EncodeIq(iq)) == iq
  {
    forall j | 0 <= j < 256 ensures ParseIq(EncodeIq(iq))[j] == iq[j] {
      Places(j);
      EncodedStream(iq, ReAt(j));
      EncodedStream(iq, ImAt(j));
      hide EncodeIq;
      hide Stream;
      hide ReAt;
      hide ImAt;
      hide PairOf;
    }
  }

  /** ...and loses nothing: all 1024 bytes can be told from the 256 pairs. */
  lemma IqOnto(buf: seq<byte>)
    requires |buf| == CSI_LEN
    ensures InRange16(ParseIq(buf)) && EncodeIq(ParseIq(buf)) == buf
  {
    var iq := ParseIq(buf);
    forall i | 0 <= i < CSI_LEN ensures EncodeIq(iq)[i] == buf[i] {
      SampleBack(buf, i / 2);
      Halves16(buf[i / 2 * 2], buf[i / 2 * 2 + 1]);
      hide ParseIq;
      hide SampleAt;
      hide Signed16;
    }
  }

  lemma SampleBack(buf: seq<byte>, k: nat)
    requires |buf| == CSI_LEN && k < 512
    ensures SampleAt(ParseIq(buf), k) == Stream(buf, k)
  {
    hide Stream;
    PlaceOf(k);
  }

  /** Where the 256 pairs are: sample r of block g is in bytes 32g+2r and 32g+2r+1, its imaginary part 16 bytes
      on, the high byte first. */
  lemma IqPlaces(buf: seq<byte>, g: nat, r: nat)
    requires |buf| == CSI_LEN && g < 32 && r < 8
    ensures |ParseIq(buf)| == 256 && 8 * g + r < 256 && 32 * g + 17 + 2 * r < 1024
    ensures ParseIq(buf)[8 * g + r] ==
              Iq(Signed16(buf[32 * g + 2 * r], buf[32 * g + 2 * r + 1]),
                 Signed16(buf[32 * g + 16 + 2 * r], buf[32 * g + 17 + 2 * r]))
  {
    InBlock(8 * g, r);
    hide Signed16;
  }

  lemma SampleExamples()
    ensures Signed16(0x80, 0x00) == -32768 && Signed16(0x01, 0x02) == 258 && Signed16(0xff, 0xfe) == -2
  {
  }

  /** Four bytes from an I byte on are two pairs; after a Q byte the first is skipped, and an odd one left over. */
  lemma PairExamples()
    ensures Pairs([0x01, 0x82, 0x7f, 0xc0]) == [(2, 4), (-2, -128)]
    ensures Pairs([0x85, 0x3f, 0xff, 0x40]) == [(126, -2)]
  {
    hide Pairs;
    var a: seq<byte> := [0x01, 0x82, 0x7f, 0xc0];
    var b: seq<byte> := [0x85, 0x3f, 0xff, 0x40];
    PairAt(a, 0);
    PairAt(a, 1);
    PairAt(b, 0);
  }
}
