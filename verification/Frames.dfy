/** The length-prefixed frames of server.c: their layout, and the greedy parse of a byte stream. */
module Frames {
  import opened Bytes

  const TWO31: int := 0x8000_0000

  /** A 32-bit pattern read as a C int. */
  function ToInt32(x: nat): (v: int)
    requires x < TWO32
    ensures -TWO31 <= v < TWO31
  {
    if x < TWO31 then x else x - TWO32
  }

  function FromInt32(v: int): (x: nat)
    requires -TWO31 <= v < TWO31
    ensures x < TWO32 && ToInt32(x) == v
  {
    if v >= 0 then v else v + TWO32
  }

  /** A frame as the sender means it. On the wire: length, type, payload; the length covers type and payload. */
  datatype Frame = Frame(kind: int, payload: seq<byte>) {
    predicate Sendable() {
      -TWO31 <= kind < TWO31 && |payload| + 8 < TWO31
    }
  }

  function Body(f: Frame): (body: seq<byte>)
    requires f.Sendable()
    ensures |body| == 4 + |f.payload|
  {
    Be32(FromInt32(f.kind)) + f.payload
  }

  function Encode(f: Frame): (bytes: seq<byte>)
    requires f.Sendable()
    ensures |bytes| == 8 + |f.payload|
  {
    Be32(|f.payload| + 4) + Body(f)
  }

  /** How the dispatcher reads a body. */
  function Decode(body: seq<byte>): Frame
    requires |body| >= 4
  {
    Frame(ToInt32(FromBe32(body[..4])), body[4..])
  }

  lemma DecodeBody(f: Frame)
    requires f.Sendable()
    ensures Decode(Body(f)) == f
  {
    Be32RoundTrip(FromInt32(f.kind));
    assert Body(f)[..4] == Be32(FromInt32(f.kind));
  }

  // ----- the stream -----

  const HEADER: nat := 4

  /** The length that the header at the start of s declares. */
  function Declared(s: seq<byte>): int
    requires |s| >= HEADER
  {
    ToInt32(FromBe32(s[..HEADER]))
  }

  /** The test of the receive loop: more than a header, and all of the frame it declares. */
  predicate Complete(s: seq<byte>) {
    |s| > HEADER && |s| >= Declared(s) + HEADER
  }

  /** The sum of the receive loop, a declared length plus the header's, is formed in a C int. */
  predicate SumFits(s: seq<byte>) {
    |s| > HEADER ==> Declared(s) + HEADER < TWO31
  }

  /** Every header the parser gets to read declares room for a type. */
  predicate Sound(s: seq<byte>) {
    && (|s| > HEADER ==> Declared(s) >= 4)
    && (Complete(s) ==> Sound(s[Declared(s) + HEADER..]))
  }

  datatype Parsed = Parsed(bodies: seq<seq<byte>>, rest: seq<byte>)

  /** The greedy parse: all complete frames from the front, and what is left. */
  function Parse(s: seq<byte>): (p: Parsed)
    requires Sound(s)
    ensures forall b :: b in p.bodies ==> |b| >= 4
    ensures |p.rest| <= |s|
  {
    if !Complete(s) then Parsed([], s)
    else
      var n := Declared(s) + HEADER;
      var tail := Parse(s[n..]);
      Parsed([s[HEADER..n]] + tail.bodies, tail.rest)
  }

  /** One unfolding of Sound and Parse at a complete frame. */
  lemma ParseFirst(s: seq<byte>)
    requires Complete(s) && Declared(s) >= 4
    ensures Sound(s) <==> Sound(s[Declared(s) + HEADER..])
    ensures Sound(s) ==>
              var n := Declared(s) + HEADER;
              Parse(s) == Parsed([s[HEADER..n]] + Parse(s[n..]).bodies, Parse(s[n..]).rest)
  {
  }

  lemma ParseNone(s: seq<byte>)
    requires !Complete(s) && (|s| > HEADER ==> Declared(s) >= 4)
    ensures Sound(s) && Parse(s) == Parsed([], s)
  {
  }

  lemma SoundHeader(s: seq<byte>)
    requires Sound(s) && |s| > HEADER
    ensures Declared(s) >= 4
  {
  }

  lemma DeclaredOfPrefix(s: seq<byte>, k: nat)
    requires HEADER <= k <= |s|
    ensures Declared(s[..k]) == Declared(s)
  {
    assert s[..k][..HEADER] == s[..HEADER];
  }

  lemma DeclaredOfEncoded(f: Frame, more: seq<byte>)
    requires f.Sendable()
    ensures Declared(Encode(f) + more) == 4 + |f.payload|
  {
    hide Be32;
    hide FromBe32;
    Be32RoundTrip(|f.payload| + 4);
    assert (Encode(f) + more)[..HEADER] == Be32(|f.payload| + 4);
  }

  /** Parsing may stop anywhere and go on later: nothing is lost, doubled or reordered. */
  lemma {:induction false} ParseAppend(a: seq<byte>, b: seq<byte>)
    requires Sound(a + b)
    ensures Sound(a) && Sound(Parse(a).rest + b)
    ensures Parse(a + b).bodies == Parse(a).bodies + Parse(Parse(a).rest + b).bodies
    ensures Parse(a + b).rest == Parse(Parse(a).rest + b).rest
    decreases |a|
  {
    hide Declared;
    hide Sound;
    hide Parse;
    if |a| > HEADER {
      SoundHeader(a + b);
      assert (a + b)[..|a|] == a;
      DeclaredOfPrefix(a + b, |a|);
    }
    if Complete(a) {
      var n := Declared(a) + HEADER;
      ParseFirst(a + b);
      ParseFirst(a);
      assert (a + b)[n..] == a[n..] + b;
      assert (a + b)[HEADER..n] == a[HEADER..n];
      ParseAppend(a[n..], b);
    } else {
      ParseNone(a);
    }
  }

  /** No sum overflows: for every header the parser gets to read. */
  predicate NoOverflow(s: seq<byte>)
    requires Sound(s)
  {
    SumFits(s) && (Complete(s) ==> NoOverflow(s[Declared(s) + HEADER..]))
  }

  lemma OverflowFirst(s: seq<byte>)
    requires Sound(s) && Complete(s) && Sound(s[Declared(s) + HEADER..])
    ensures NoOverflow(s) <==> SumFits(s) && NoOverflow(s[Declared(s) + HEADER..])
  {
  }

  lemma OverflowNone(s: seq<byte>)
    requires Sound(s) && !Complete(s)
    ensures NoOverflow(s) <==> SumFits(s)
  {
  }

  /** It is enough to look at what has been parsed. */
  lemma {:induction false} NoOverflowIff(s: seq<byte>)
    requires Sound(s)
    ensures NoOverflow(s) <==>
              (forall b :: b in Parse(s).bodies ==> HEADER + |b| < TWO31) && SumFits(Parse(s).rest)
  {
    hide Declared;
    hide Sound;
    hide Parse;
    hide NoOverflow;
    hide SumFits;
    if |s| > HEADER {
      SoundHeader(s);
    }
    if Complete(s) {
      var n := Declared(s) + HEADER;
      ParseFirst(s);
      OverflowFirst(s);
      NoOverflowIff(s[n..]);
      SumOfComplete(s);
      var p, q := Parse(s), Parse(s[n..]);
      assert p.bodies[0] == s[HEADER..n] && p.bodies[1..] == q.bodies;
      forall b ensures b in p.bodies <==> b == s[HEADER..n] || b in q.bodies {
        assert p.bodies == [s[HEADER..n]] + q.bodies;
      }
    } else {
      ParseNone(s);
      OverflowNone(s);
    }
  }

  lemma SumOfComplete(s: seq<byte>)
    requires Complete(s) && Declared(s) >= 4
    ensures SumFits(s) <==> HEADER + |s[HEADER..Declared(s) + HEADER]| < TWO31
  {
  }

  // ----- the room in front of the receive area -----

  const HEADROOM: nat := 2000

  /** The receiver can deal with the stream so far: what it carries over fits in front of the receive
      area, and none of its sums has overflowed. */
  ghost predicate Handled(s: seq<byte>) {
    Sound(s) && |Parse(s).rest| <= HEADROOM && NoOverflow(s)
  }

  /** Wherever the stream is cut, the receiver can deal with it. */
  ghost predicate FitsHeadroom(s: seq<byte>) {
    forall k :: 0 <= k <= |s| ==> Handled(s[..k])
  }

  /** No whole frame is longer than 2001 bytes, an unfinished one has at most 2000 so far, and it does
      not declare a length that overflows. */
  predicate FramesFit(p: Parsed) {
    && (forall b :: b in p.bodies ==> HEADER + |b| <= HEADROOM + 1)
    && |p.rest| <= HEADROOM
    && SumFits(p.rest)
  }

  lemma SoundPrefix(s: seq<byte>, k: nat)
    requires Sound(s) && k <= |s|
    ensures Sound(s[..k])
  {
    assert s == s[..k] + s[k..];
    ParseAppend(s[..k], s[k..]);
  }

  /** The receiver can deal with every way of cutting the stream exactly when no whole frame is longer
      than 2001 bytes, no unfinished one has more than 2000 bytes, and the unfinished one declares less
      than 2^31 - 4. */
  lemma HeadroomIff(s: seq<byte>)
    requires Sound(s)
    ensures FitsHeadroom(s) <==> FramesFit(Parse(s))
  {
    hide Sound;
    hide Parse;
    hide NoOverflow;
    hide SumFits;
    if FramesFit(Parse(s)) {
      forall k | 0 <= k <= |s| ensures Handled(s[..k]) {
        SoundPrefix(s, k);
        CarryIsSmall(s, k);
        PrefixNoOverflow(s, k);
      }
    } else if !(|Parse(s).rest| <= HEADROOM && SumFits(Parse(s).rest)) {
      assert s[..|s|] == s;
      NoOverflowIff(s);
    } else {
      var i :| 0 <= i < |Parse(s).bodies| && HEADER + |Parse(s).bodies[i]| > HEADROOM + 1;
      var k := LongCarry(s, i);
    }
  }

  /** Going on later reads the same headers. */
  lemma OverflowAppend(a: seq<byte>, b: seq<byte>)
    requires Sound(a + b) && NoOverflow(a + b)
    ensures Sound(a) && Sound(Parse(a).rest + b) && NoOverflow(Parse(a).rest + b)
  {
    hide *;
    ParseAppend(a, b);
    NoOverflowIff(a + b);
    NoOverflowIff(Parse(a).rest + b);
  }

  lemma PrefixNoOverflow(s: seq<byte>, k: nat)
    requires Sound(s) && k <= |s| && FramesFit(Parse(s)) && Sound(s[..k])
    ensures NoOverflow(s[..k])
  {
    hide Sound;
    hide Parse;
    hide NoOverflow;
    hide Declared;
    var a, b := s[..k], s[k..];
    assert a + b == s;
    ParseAppend(a, b);
    NoOverflowIff(a);
    forall body | body in Parse(a).bodies ensures body in Parse(s).bodies {
    }
    var rest := Parse(a).rest;
    if |rest| > HEADER {
      DeclaredOfPrefix(rest + b, |rest|);
      assert (rest + b)[..|rest|] == rest;
      SoundHeader(rest + b);
      if Complete(rest + b) {
        ParseFirst(rest + b);
        var first := Parse(rest + b).bodies[0];
        assert first in Parse(s).bodies;
      } else {
        ParseNone(rest + b);
      }
    }
  }

  /** Five bytes that the headroom holds and that no frame length rules out: the header declares 2^31 - 1,
      and adding 4 to it overflows. */
  lemma OverflowingHeader()
    ensures var s: seq<byte> := [0x7f, 0xff, 0xff, 0xff, 0];
            && Sound(s) && Declared(s) == TWO31 - 1 && Parse(s) == Parsed([], s) && |s| <= HEADROOM
            && !NoOverflow(s) && !FitsHeadroom(s)
  {
    var s: seq<byte> := [0x7f, 0xff, 0xff, 0xff, 0];
    assert s[..HEADER] == [0x7f, 0xff, 0xff, 0xff];
    assert Declared(s) == TWO31 - 1;
    ParseNone(s);
    assert s[..|s|] == s;
  }

  /** A header of 2^31 - 5 is the largest that does not. */
  lemma LargestHeader()
    ensures var s: seq<byte> := [0x7f, 0xff, 0xff, 0xfb, 0];
            && Sound(s) && Declared(s) == TWO31 - 5 && Parse(s) == Parsed([], s) && NoOverflow(s)
    ensures TWO31 == 0x8000_0000
  {
    var s: seq<byte> := [0x7f, 0xff, 0xff, 0xfb, 0];
    assert s[..HEADER] == [0x7f, 0xff, 0xff, 0xfb];
    assert Declared(s) == TWO31 - 5;
    ParseNone(s);
  }

  lemma {:induction false} CarryIsSmall(s: seq<byte>, k: nat)
    requires Sound(s) && k <= |s| && FramesFit(Parse(s)) && Sound(s[..k])
    ensures |Parse(s[..k]).rest| <= HEADROOM
    decreases |s|
  {
    hide Declared;
    hide Sound;
    hide Parse;
    if k > HEADER {
      SoundHeader(s);
      DeclaredOfPrefix(s, k);
    }
    if !Complete(s[..k]) {
      ParseNone(s[..k]);
      UnfinishedIsShort(s, k);
    } else {
      var n := Declared(s) + HEADER;
      ParseFirst(s);
      ParseFirst(s[..k]);
      assert s[..k][n..] == s[n..][..k - n];
      forall b | b in Parse(s[n..]).bodies ensures b in Parse(s).bodies {
      }
      CarryIsSmall(s[n..], k - n);
    }
  }

  lemma UnfinishedIsShort(s: seq<byte>, k: nat)
    requires Sound(s) && k <= |s| && FramesFit(Parse(s)) && !Complete(s[..k])
    ensures k <= HEADROOM
  {
    hide Declared;
    hide Sound;
    hide Parse;
    if k > HEADER {
      SoundHeader(s);
      DeclaredOfPrefix(s, k);
      if Complete(s) {
        ParseFirst(s);
        assert Parse(s).bodies[0] in Parse(s).bodies;
      } else {
        ParseNone(s);
      }
    }
  }

  /** Cutting just before the last byte of frame i carries over all of it but that byte. */
  lemma {:induction false} LongCarry(s: seq<byte>, i: nat) returns (k: nat)
    requires Sound(s) && i < |Parse(s).bodies|
    ensures k <= |s| && Sound(s[..k])
    ensures |Parse(s[..k]).rest| == HEADER + |Parse(s).bodies[i]| - 1
    decreases i
  {
    hide Declared;
    hide Sound;
    hide Parse;
    if |s| > HEADER {
      SoundHeader(s);
    }
    if !Complete(s) {
      ParseNone(s);
    }
    ParseFirst(s);
    var n := Declared(s) + HEADER;
    if i == 0 {
      k := n - 1;
      SoundPrefix(s, k);
      DeclaredOfPrefix(s, k);
      ParseNone(s[..k]);
    } else {
      var k' := LongCarry(s[n..], i - 1);
      k := n + k';
      SoundPrefix(s, k);
      DeclaredOfPrefix(s, k);
      assert s[..k][n..] == s[n..][..k'];
      ParseFirst(s[..k]);
    }
  }

  // ----- round trip -----

  function Stream(fs: seq<Frame>): seq<byte>
    requires forall f :: f in fs ==> f.Sendable()
  {
    if fs == [] then [] else Encode(fs[0]) + Stream(fs[1..])
  }

  function DecodeAll(bodies: seq<seq<byte>>): (fs: seq<Frame>)
    requires forall b :: b in bodies ==> |b| >= 4
    ensures |fs| == |bodies|
  {
    seq(|bodies|, i requires 0 <= i < |bodies| => Decode(bodies[i]))
  }

  /** What assemble_frame_and_send lays out, the parser takes apart: same frames, same order, nothing left. */
  lemma {:induction false} StreamRoundTrip(fs: seq<Frame>)
    requires forall f :: f in fs ==> f.Sendable()
    ensures Sound(Stream(fs))
    ensures Parse(Stream(fs)).rest == []
    ensures DecodeAll(Parse(Stream(fs)).bodies) == fs
    ensures NoOverflow(Stream(fs))
  {
    hide Declared;
    hide Be32;
    hide Decode;
    if fs != [] {
      var f, s := fs[0], Stream(fs);
      assert f in fs;
      DeclaredOfEncoded(f, Stream(fs[1..]));
      var n := Declared(s) + HEADER;
      assert s[HEADER..n] == Body(f);
      assert s[n..] == Stream(fs[1..]);
      StreamRoundTrip(fs[1..]);
      DecodeBody(f);
      assert Parse(s).bodies[1..] == Parse(s[n..]).bodies;
    }
  }

  /** Frames of at most 2001 bytes never overrun the headroom, however they are cut. */
  lemma {:induction false} ShortFramesFit(fs: seq<Frame>)
    requires forall f :: f in fs ==> f.Sendable() && 8 + |f.payload| <= HEADROOM + 1
    ensures Sound(Stream(fs)) && FramesFit(Parse(Stream(fs)))
  {
    hide Declared;
    hide Be32;
    StreamRoundTrip(fs);
    if fs != [] {
      var f, s := fs[0], Stream(fs);
      assert f in fs;
      DeclaredOfEncoded(f, Stream(fs[1..]));
      var n := Declared(s) + HEADER;
      assert s[n..] == Stream(fs[1..]);
      ShortFramesFit(fs[1..]);
    }
  }

  /** The layout, byte by byte: length, type, payload, the numbers with the high byte first. */
  lemma WireExamples()
    ensures Encode(Frame(202, [])) == [0, 0, 0, 4, 0, 0, 0, 202]
    ensures Encode(Frame(0x01020304, [9, 8])) == [0, 0, 0, 6, 1, 2, 3, 4, 9, 8]
    ensures Decode([0, 0, 0, 201]) == Frame(201, []) && Decode([0xff, 0xff, 0xff, 0xff, 7]) == Frame(-1, [7])
  {
  }

  /** To the byte: one frame fits exactly when it has at most 2001 bytes on the wire. */
  lemma FrameFitsIff(f: Frame)
    requires f.Sendable()
    ensures Sound(Encode(f)) && (FitsHeadroom(Encode(f)) <==> |Encode(f)| <= 2001)
  {
    hide Declared;
    hide Be32;
    hide Decode;
    hide Sound;
    hide Parse;
    assert Stream([f][1..]) == [];
    assert Stream([f]) == Encode(f) + [] == Encode(f);
    StreamRoundTrip([f]);
    HeadroomIff(Encode(f));
    OneFrame(f);
  }

  lemma OneFrame(f: Frame)
    requires f.Sendable() && Sound(Encode(f))
    ensures Parse(Encode(f)) == Parsed([Body(f)], [])
  {
    hide Declared;
    hide Be32;
    DeclaredOfEncoded(f, []);
    var s := Encode(f);
    assert s + [] == s;
    var n := Declared(s) + HEADER;
    assert s[HEADER..n] == Body(f) && s[n..] == [];
    ParseFirst(s);
    ParseNone([]);
  }
}
