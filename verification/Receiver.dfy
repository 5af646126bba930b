/** The receive side of one connection: server.c reassembles frames from whatever recv delivers. */
module Receiver {
  import opened Wrappers
  import opened Bytes
  import opened Frames
  import opened Dispatch

  datatype RecvResult = Data(bytes: seq<byte>) | Again | Failed | Closed

  datatype Working = NoReadWork | Working | SocketClose

  const BUFFER_SIZE: nat := 40960

  /** What recv may deliver past the headroom without leaving the buffer. */
  const RECV_MAX: nat := BUFFER_SIZE - HEADROOM

  lemma SliceOfSlice(s: seq<byte>, p: nat, n: nat, a: nat, b: nat)
    requires p + n <= |s| && a <= b <= n
    ensures s[p..p + n][a..b] == s[p + a..p + b]
  {
    var l, r := s[p..p + n][a..b], s[p + a..p + b];
    forall i | 0 <= i < b - a ensures l[i] == r[i] {
      assert l[i] == s[p..p + n][a + i] == s[p + a + i];
    }
  }

  /** Part way through the parse loop: `done` has been acted on, `pending` is still to be parsed. */
  ghost predicate Progress(pending0: seq<byte>, done: seq<seq<byte>>, pending: seq<byte>)
  {
    && Sound(pending0) && Sound(pending)
    && (forall b :: b in done ==> |b| >= 4)
    && Parse(pending0).bodies == done + Parse(pending).bodies
    && Parse(pending0).rest == Parse(pending).rest
    && NoOverflow(pending)
  }

  lemma ProgressStart(pending0: seq<byte>)
    requires Handled(pending0)
    ensures Progress(pending0, [], pending0) && |Parse(pending0).rest| <= HEADROOM
  {
  }

  lemma ProgressStep(pending0: seq<byte>, done: seq<seq<byte>>, pending: seq<byte>)
    requires Progress(pending0, done, pending) && Complete(pending) && Declared(pending) >= 4
    ensures var n := Declared(pending) + HEADER;
            && Progress(pending0, done + [pending[HEADER..n]], pending[n..])
            && ActionsOf(done + [pending[HEADER..n]]) == ActionsOf(done) + [ActionOf(Decode(pending[HEADER..n]))]
  {
    hide Sound;
    hide Parse;
    hide ActionOf;
    hide Decode;
    hide NoOverflow;
    ParseFirst(pending);
    OverflowFirst(pending);
    ActionsSnoc(done, pending[HEADER..Declared(pending) + HEADER]);
  }

  lemma ProgressSound(pending0: seq<byte>, done: seq<seq<byte>>, pending: seq<byte>)
    requires Progress(pending0, done, pending) && |pending| > HEADER
    ensures 4 <= Declared(pending) && Declared(pending) + HEADER < TWO31
  {
    SoundHeader(pending);
  }

  lemma ProgressEnd(pending0: seq<byte>, done: seq<seq<byte>>, pending: seq<byte>)
    requires Progress(pending0, done, pending) && !Complete(pending)
    ensures Parse(pending0) == Parsed(done, pending)
  {
    ParseNone(pending);
  }

  /** "a + b" on C ints. */
  function AddInt(a: int, b: int): int
    requires -TWO31 <= a + b < TWO31
  {
    a + b
  }

  class Connection {
    const recvbuf: array<byte>
    const sendbuf: array<byte>
    var moreData: nat
    var working: Working
    var actions: seq<Action>
    var disconnectPosted: bool
    ghost var received: seq<byte>

    /** The leftover in front of the receive area is the unparsed suffix of all bytes received,
        and exactly the parsed frames have been acted on, in order. */
    ghost predicate Valid()
      reads this`moreData, this`received, this`actions, recvbuf
    {
      && recvbuf.Length == BUFFER_SIZE && sendbuf.Length == BUFFER_SIZE && sendbuf != recvbuf
      && moreData <= HEADROOM
      && Sound(received)
      && recvbuf[HEADROOM - moreData..HEADROOM] == Parse(received).rest
      && actions == ActionsOf(Parse(received).bodies)
    }

    /** CreateRecvParam. */
    constructor ()
      ensures Valid() && fresh(recvbuf) && fresh(sendbuf) && recvbuf.Length == sendbuf.Length == 40960
      ensures received == [] && actions == [] && working == NoReadWork && !disconnectPosted
    {
      recvbuf := new byte[BUFFER_SIZE];
      sendbuf := new byte[BUFFER_SIZE];
      moreData := 0;
      working := NoReadWork;
      actions, received, disconnectPosted := [], [], false;
    }

    /** receive: one recv call and the parse loop. */
    method Receive(r: RecvResult)
      requires Valid()
      requires r.Data? ==> 0 < |r.bytes| <= RECV_MAX
      requires r.Data? ==> Handled(received + r.bytes)
      modifies this`moreData, this`working, this`actions, this`received, recvbuf
      ensures Valid()
      ensures received == old(received) + (if r.Data? then r.bytes else [])
      ensures working == (match r case Data(_) => old(working) case Again => NoReadWork case _ => SocketClose)
    {
      match r {
        case Again => working := NoReadWork;
        case Failed => working := SocketClose;
        case Closed => working := SocketClose;
        case Data(bytes) => ParseBytes(bytes);
      }
    }

    method ParseBytes(bytes: seq<byte>)
      requires Valid()
      requires 0 < |bytes| <= RECV_MAX
      requires Handled(received + bytes)
      modifies this`moreData, this`actions, this`received, recvbuf
      ensures Valid()
      ensures received == old(received) + bytes
    {
      hide Sound;
      hide Parse;
      hide ActionOf;
      hide Decode;
      hide NoOverflow;
      ghost var before := Parse(received);
      ParseAppend(received, bytes);
      OverflowAppend(received, bytes);
      ghost var after := Parse(before.rest + bytes);
      var pStart, totalByte := HEADROOM - moreData, |bytes| + moreData;
      Fetch(bytes, moreData);
      ParseLoop(pStart, totalByte, before.rest + bytes);
      received := received + bytes;
      assert actions == ActionsOf(before.bodies + after.bodies);
    }

    /** recv stores the bytes from the headroom on. */
    method Fetch(bytes: seq<byte>, kept: nat)
      requires recvbuf.Length == BUFFER_SIZE && |bytes| <= RECV_MAX && kept <= HEADROOM
      modifies recvbuf
      ensures recvbuf[HEADROOM - kept..HEADROOM + |bytes|] == old(recvbuf[HEADROOM - kept..HEADROOM]) + bytes
    {
      forall i | 0 <= i < |bytes| {
        recvbuf[HEADROOM + i] := bytes[i];
      }
    }

    /** The loop of receive: act on every complete frame of the pending bytes, then keep the rest. */
    method ParseLoop(pStart0: nat, totalByte0: nat, ghost pending0: seq<byte>)
      requires recvbuf.Length == BUFFER_SIZE && pStart0 + totalByte0 <= BUFFER_SIZE
      requires recvbuf[pStart0..pStart0 + totalByte0] == pending0
      requires Handled(pending0)
      modifies this`moreData, this`actions, recvbuf
      ensures moreData <= HEADROOM
      ensures recvbuf[HEADROOM - moreData..HEADROOM] == Parse(pending0).rest
      ensures actions == old(actions) + ActionsOf(Parse(pending0).bodies)
    {
      var pStart: nat, totalByte: nat := pStart0, totalByte0;
      ghost var pending, done := pending0, [];
      hide Sound;
      hide Parse;
      hide Declared;
      hide NoOverflow;
      hide ActionsOf;
      hide ActionOf;
      hide Decode;
      hide Handled;
      hide Progress;
      NoActions();
      ProgressStart(pending0);
      while true
        invariant pStart + totalByte <= BUFFER_SIZE
        invariant recvbuf[pStart..pStart + totalByte] == pending
        invariant Progress(pending0, done, pending)
        invariant forall b :: b in done ==> |b| >= 4
        invariant actions == old(actions) + ActionsOf(done)
        decreases totalByte
      {
        if totalByte <= HEADER {
          ProgressEnd(pending0, done, pending);
          KeepRest(pStart, totalByte);
          break;
        }
        var msgLen := DeclaredAt(pStart, totalByte);
        ProgressSound(pending0, done, pending);
        if totalByte < AddInt(msgLen, HEADER) {
          ProgressEnd(pending0, done, pending);
          KeepRest(pStart, totalByte);
          break;
        }
        Handle(pStart, msgLen, pending);
        ProgressStep(pending0, done, pending);
        done := done + [pending[HEADER..HEADER + msgLen]];
        pending := pending[HEADER + msgLen..];
        pStart := pStart + msgLen + HEADER;
        totalByte := totalByte - msgLen - HEADER;
        if totalByte == 0 {
          ProgressEnd(pending0, done, pending);
          moreData := 0;
          break;
        }
      }
    }

    /** Act on the frame at the front of the pending bytes. */
    method Handle(p: nat, len: nat, ghost pending: seq<byte>)
      requires p + |pending| <= recvbuf.Length && recvbuf[p..p + |pending|] == pending
      requires 4 <= len && HEADER + len <= |pending|
      modifies this`actions
      ensures actions == old(actions) + [ActionOf(Decode(pending[HEADER..HEADER + len]))]
      ensures recvbuf[p + HEADER + len..p + |pending|] == pending[HEADER + len..]
    {
      hide ActionOf;
      hide Decode;
      SliceOfSlice(recvbuf[..], p, |pending|, HEADER + len, |pending|);
      SliceOfSlice(recvbuf[..], p, |pending|, HEADER, HEADER + len);
      var more := ProcessMessage(recvbuf[p + HEADER..p + HEADER + len]);
      actions := actions + more;
    }

    /** myNtohl at an address. */
    method DeclaredAt(p: nat, n: nat) returns (len: int)
      requires HEADER <= n && p + n <= recvbuf.Length
      ensures len == Declared(recvbuf[p..p + n])
    {
      assert recvbuf[p..p + n][..HEADER] == recvbuf[p..p + HEADER];
      len := ToInt32(FromBe32(recvbuf[p..p + HEADER]));
    }

    /** Move the unparsed bytes to just before the receive area; the two places may overlap. */
    method KeepRest(pStart: nat, totalByte: nat)
      requires recvbuf.Length == BUFFER_SIZE && pStart + totalByte <= BUFFER_SIZE && totalByte <= HEADROOM
      modifies this`moreData, recvbuf
      ensures moreData == totalByte
      ensures recvbuf[HEADROOM - totalByte..HEADROOM] == old(recvbuf[pStart..pStart + totalByte])
    {
      moreData := totalByte;
      if moreData > 0 {
        forall i | 0 <= i < totalByte {
          recvbuf[HEADROOM - totalByte + i] := recvbuf[pStart + i];
        }
      }
    }

    /** process_recv_event: receive until recv has no more data, then report a closed connection.
        `chunks` is what recv delivers before `last`. */
    method ProcessRecvEvent(chunks: seq<seq<byte>>, last: RecvResult)
      requires Valid() && !last.Data?
      requires forall c :: c in chunks ==> 0 < |c| <= RECV_MAX
      requires Sound(received + Flat(chunks)) && FitsHeadroom(received + Flat(chunks))
      modifies this`moreData, this`working, this`actions, this`received, this`disconnectPosted, recvbuf
      ensures Valid()
      ensures received == old(received) + Flat(chunks)
      ensures working == if last.Again? then NoReadWork else SocketClose
      ensures disconnectPosted <==> old(disconnectPosted) || !last.Again?
    {
      hide Sound;
      hide Parse;
      hide Valid;
      hide FitsHeadroom;
      working := Working;
      var i := 0;
      ghost var start := received;
      assert Flat(chunks[..0]) == [];
      while working == Working
        invariant 0 <= i <= |chunks|
        invariant Valid() && received == start + Flat(chunks[..i])
        invariant working == Working || (i == |chunks| && working == if last.Again? then NoReadWork else SocketClose)
        invariant disconnectPosted == old(disconnectPosted)
        decreases working == Working, |chunks| - i
      {
        if i < |chunks| {
          CutFits(received, chunks, i, start);
          Receive(Data(chunks[i]));
          i := i + 1;
        } else {
          Receive(last);
        }
      }
      assert chunks[..|chunks|] == chunks;
      if working == SocketClose {
        disconnectPosted := true;
      }
    }

    /** assemble_frame_and_send: lay the frame out in sendbuf; `sent` is what goes to the socket. */
    method AssembleFrameAndSend(f: Frame) returns (sent: Option<seq<byte>>)
      requires sendbuf.Length == BUFFER_SIZE && f.Sendable() && 8 + |f.payload| <= BUFFER_SIZE
      modifies sendbuf
      ensures sent == if working == SocketClose then None else Some(Encode(f))
    {
      if working == SocketClose {
        return None;
      }
      hide Be32;
      StoreBe32(|f.payload| + 4, 0);
      assert sendbuf[..4] == sendbuf[0..4];
      StoreBe32(FromInt32(f.kind), 4);
      ghost var head := sendbuf[..8];
      assert head == sendbuf[..4] + sendbuf[4..8];
      StorePayload(f.payload);
      assert head + f.payload == Encode(f);
      sent := Some(sendbuf[..8 + |f.payload|]);
    }

    /** "memcpy(temp_buf + FRAME_HEAD_ROOM, buf, buf_len)". */
    method StorePayload(payload: seq<byte>)
      requires 8 + |payload| <= sendbuf.Length
      modifies sendbuf
      ensures sendbuf[..8 + |payload|] == old(sendbuf[..8]) + payload
    {
      if |payload| > 0 {
        forall i | 0 <= i < |payload| {
          sendbuf[8 + i] := payload[i];
        }
      }
    }

    /** "*((int32_t*)p) = htonl(x)". */
    method StoreBe32(x: nat, p: nat)
      requires p + 4 <= sendbuf.Length
      modifies sendbuf
      ensures sendbuf[p..p + 4] == Be32(x)
      ensures sendbuf[..p] == old(sendbuf[..p])
    {
      sendbuf[p] := x / 0x100_0000 % 256;
      sendbuf[p + 1] := x / 0x1_0000 % 256;
      sendbuf[p + 2] := x / 0x100 % 256;
      sendbuf[p + 3] := x % 256;
    }
  }

  /** A prefix of a stream that fits may be received next. */
  lemma CutFits(sofar: seq<byte>, chunks: seq<seq<byte>>, i: nat, start: seq<byte>)
    requires i < |chunks| && sofar == start + Flat(chunks[..i])
    requires Sound(start + Flat(chunks)) && FitsHeadroom(start + Flat(chunks))
    ensures Handled(sofar + chunks[i])
    ensures sofar + chunks[i] == start + Flat(chunks[..i + 1])
  {
    hide Sound;
    hide Parse;
    assert chunks[..i + 1][..i] == chunks[..i];
    assert sofar + chunks[i] == start + Flat(chunks[..i + 1]);
    assert chunks == chunks[..i + 1] + chunks[i + 1..];
    FlatAppend(chunks[..i + 1], chunks[i + 1..]);
    var s, k := start + Flat(chunks), |sofar + chunks[i]|;
    assert s[..k] == sofar + chunks[i];
  }

  /** Frames laid out by one side, cut anywhere on the way, come out of the other side as sent. */
  method Transfer(fs: seq<Frame>, chunks: seq<seq<byte>>) returns (actions: seq<Action>)
    requires forall f :: f in fs ==> f.Sendable() && 8 + |f.payload| <= HEADROOM + 1
    requires Flat(chunks) == Stream(fs)
    requires forall c :: c in chunks ==> 0 < |c| <= RECV_MAX
    ensures actions == seq(|fs|, i requires 0 <= i < |fs| => ActionOf(fs[i]))
  {
    hide NoOverflow;
    hide FitsHeadroom;
    hide Encode;
    hide Sound;
    hide Parse;
    hide ActionOf;
    hide Decode;
    StreamRoundTrip(fs);
    ShortFramesFit(fs);
    HeadroomIff(Stream(fs));
    var c := new Connection();
    assert c.received + Flat(chunks) == Stream(fs);
    c.ProcessRecvEvent(chunks, Again);
    actions := c.actions;
  }
}
