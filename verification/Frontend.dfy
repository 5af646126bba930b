/** From a frame on a connection to the case of the event loop: what a client's request leads to. */
module Frontend {
  import opened Bytes
  import opened Frames
  import opened Dispatch
  import E = EventModel
  import B = RssiModel

  /** What the loop looks up in its replies. */
  datatype Report = SystemState | Registers | Statistics

  /** What the loop has a script, a pin or a register do. */
  datatype Command =
    | OpenDistance | CloseDistance | OpenDac | CloseDac | ClearLog | Reset
    | TxPowerOn | TxPowerOff | RxGainHigh | RxGainNormal
    | SetIp(json: seq<byte>)
    | SetFrequency(json: seq<byte>)

  /** What comes of a frame. Every command but the frequency's is answered with CMD_OK. */
  datatype Effect =
    | Case(event: E.Event)
    | Send(report: Report)
    | Do(command: Command, answered: bool)
    | Sent(bytes: seq<byte>)
    | Ignored

  /** What the loop finds outside: the device's answers, the "op_cmd" of a JSON text, and whether a recording's
      file can be created. */
  datatype World = World(rc: int, reply: B.Reply, opCmd: seq<byte> -> int, fopenOk: bool)

  /** The switch of event_process.c, for the messages that frames lead to. */
  function OfMessage(msg: int, json: seq<byte>, fd: int, w: World): Effect {
    if msg == MSG_INQUIRY_SYSTEM_STATE then Send(SystemState)
    else if msg == MSG_INQUIRY_REG_STATE then Send(Registers)
    else if msg == MSG_INQUIRY_RSSI then Case(E.OpenRssi(fd, w.reply))
    else if msg == MSG_CONTROL_RSSI then Case(E.ControlRssi(fd, w.opCmd(json), w.fopenOk))
    else if msg == MSG_START_CSI then Case(E.StartCsi(fd, w.rc))
    else if msg == MSG_STOP_CSI then Case(E.StopCsi(fd))
    else if msg == MSG_START_CONSTELLATION then Case(E.StartConstell(fd, w.rc))
    else if msg == MSG_STOP_CONSTELLATION then Case(E.StopConstell(fd))
    else if msg == MSG_CONTROL_SAVE_IQ_DATA then Case(E.SaveCsi(fd, w.opCmd(json), w.fopenOk))
    else if msg == MSG_OPEN_DISTANCE_APP then Do(OpenDistance, true)
    else if msg == MSG_CLOSE_DISTANCE_APP then Do(CloseDistance, true)
    else if msg == MSG_OPEN_DAC then Do(OpenDac, true)
    else if msg == MSG_CLOSE_DAC then Do(CloseDac, true)
    else if msg == MSG_CLEAR_LOG then Do(ClearLog, true)
    else if msg == MSG_RESET_SYSTEM then Do(Reset, true)
    else if msg == MSG_INQUIRY_STATISTICS then Send(Statistics)
    else if msg == MSG_IP_SETTING then Do(SetIp(json), true)
    else if msg == MSG_INQUIRY_RF_INFO then Case(E.RfInquiry(fd))
    else if msg == MSG_RF_FREQ_SETTING then Do(SetFrequency(json), false)
    else if msg == MSG_OPEN_TX_POWER then Do(TxPowerOn, true)
    else if msg == MSG_CLOSE_TX_POWER then Do(TxPowerOff, true)
    else if msg == MSG_OPEN_RX_GAIN then Do(RxGainHigh, true)
    else if msg == MSG_CLOSE_RX_GAIN then Do(RxGainNormal, true)
    else Ignored
  }

  function EffectOf(a: Action, fd: int, w: World): Effect {
    match a
    case Post(msg, json) => OfMessage(msg, json, fd, w)
    case Reply(kind) => if -TWO31 <= kind < TWO31 then Sent(Encode(Frame(kind, []))) else Ignored
    case Unknown(_) => Ignored
  }

  /** What a client asks for, by the number of the frame's type as it is on the wire. */
  ghost predicate Serves(kind: int, json: seq<byte>, fd: int, w: World, e: Effect) {
    && (kind == 1 ==> e == Send(SystemState))
    && (kind == 31 ==> e == Send(Registers))
    && (kind == 41 ==> e == Case(E.OpenRssi(fd, w.reply)))
    && (kind == 43 ==> e == Case(E.ControlRssi(fd, w.opCmd(json), w.fopenOk)))
    && (kind == 51 ==> e == Case(E.StartCsi(fd, w.rc)))
    && (kind == 52 ==> e == Case(E.StopCsi(fd)))
    && (kind == 53 ==> e == Case(E.SaveCsi(fd, w.opCmd(json), w.fopenOk)))
    && (kind == 61 ==> e == Case(E.StartConstell(fd, w.rc)))
    && (kind == 62 ==> e == Case(E.StopConstell(fd)))
    && (kind == 71 ==> e == Do(OpenDistance, true))
    && (kind == 72 ==> e == Do(CloseDistance, true))
    && (kind == 73 ==> e == Do(OpenDac, true))
    && (kind == 74 ==> e == Do(CloseDac, true))
    && (kind == 75 ==> e == Do(ClearLog, true))
    && (kind == 76 ==> e == Do(SetIp(json), true))
    && (kind == 77 ==> e == Do(Reset, true))
    && (kind == 81 ==> e == Send(Statistics))
    && (kind == 83 ==> e == Case(E.RfInquiry(fd)))
    && (kind == 91 ==> e == Do(SetFrequency(json), false))
    && (kind == 92 ==> e == Do(TxPowerOn, true))
    && (kind == 93 ==> e == Do(TxPowerOff, true))
    && (kind == 94 ==> e == Do(RxGainHigh, true))
    && (kind == 95 ==> e == Do(RxGainNormal, true))
    && (kind == 201 ==> e == Sent([0, 0, 0, 4, 0, 0, 0, 202]))
    && (kind !in {1, 31, 41, 43, 51, 52, 53, 61, 62, 71, 72, 73, 74, 75, 76, 77, 81, 83, 91, 92, 93, 94, 95, 201} ==>
          e == Ignored)
  }

  lemma ServesEach(f: Frame, fd: int, w: World)
    ensures Serves(f.kind, f.payload, fd, w, EffectOf(ActionOf(f), fd, w))
  {
    WireExamples();
    hide Encode;
  }

  /** The four bytes of a small type. */
  lemma KindBytes(b: seq<byte>, k: byte)
    requires |b| == 4
    ensures ToInt32(FromBe32(b)) == k as int <==> b == [0, 0, 0, k]
  {
  }

  /** One frame of the client on connection fd. */
  method OnFrame(body: seq<byte>, fd: int, w: World) returns (effects: seq<Effect>)
    requires |body| >= 4
    ensures |effects| == 1
    ensures Serves(ToInt32(FromBe32(body[..4])), body[4..], fd, w, effects[0])
    ensures body[..4] == [0, 0, 0, 51] ==> effects == [Case(E.StartCsi(fd, w.rc))]
    ensures body[..4] == [0, 0, 0, 201] ==> effects == [Sent([0, 0, 0, 4, 0, 0, 0, 202])]
  {
    hide ActionOf;
    hide EffectOf;
    hide FromBe32;
    hide ToInt32;
    ServesEach(Decode(body), fd, w);
    KindBytes(body[..4], 51);
    KindBytes(body[..4], 201);
    var actions := ProcessMessage(body);
    effects := [EffectOf(actions[0], fd, w)];
  }

  /** The requests of one connection, frame by frame. */
  function EffectsOf(bodies: seq<seq<byte>>, fd: int, w: World): (effects: seq<Effect>)
    requires forall b :: b in bodies ==> |b| >= 4
    ensures |effects| == |bodies|
  {
    var actions := ActionsOf(bodies);
    seq(|bodies|, i requires 0 <= i < |bodies| => EffectOf(actions[i], fd, w))
  }

  /** Whatever a client sends as frames, however it arrives, is served frame by frame, in order. */
  lemma StreamIsServed(fs: seq<Frame>, fd: int, w: World)
    requires forall f :: f in fs ==> f.Sendable()
    ensures Sound(Stream(fs))
    ensures var effects := EffectsOf(Parse(Stream(fs)).bodies, fd, w);
            |effects| == |fs| && forall i :: 0 <= i < |fs| ==> Serves(fs[i].kind, fs[i].payload, fd, w, effects[i])
  {
    StreamRoundTrip(fs);
    hide Stream;
    hide Sound;
    hide Parse;
    hide ActionOf;
    hide EffectOf;
    hide Serves;
    hide Decode;
    var bodies := Parse(Stream(fs)).bodies;
    var effects := EffectsOf(bodies, fd, w);
    assert |bodies| == |DecodeAll(bodies)| == |fs|;
    forall i | 0 <= i < |fs| ensures Serves(fs[i].kind, fs[i].payload, fd, w, effects[i]) {
      assert DecodeAll(bodies)[i] == Decode(bodies[i]) == fs[i];
      ServesEach(fs[i], fd, w);
    }
  }
}
