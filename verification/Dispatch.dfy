/** The two tables of server.c that turn a frame type into a message for the event loop. */
module Dispatch {
  import opened Bytes
  import opened Frames

  /** The three handlers of msg_flow. */
  datatype Handler = NoJson | Json | FastResponse

  /** What a frame makes the server do. */
  datatype Action =
    | Post(msg: int, json: seq<byte>)
    | Reply(kind: int)
    | Unknown(kind: int)

  // enum msg_event of web_common.h: the messages to the event loop.
  const MSG_NETWORK := 1
  const MSG_AIR := MSG_NETWORK + 1
  const MSG_MONITOR := MSG_AIR + 1
  const MSG_TIMEOUT := MSG_MONITOR + 1
  const MSG_TIMEOUT_TEST := MSG_TIMEOUT + 1
  const MSG_CONF_CHANGE := MSG_TIMEOUT_TEST + 1
  const MSG_OPENWRT_CONNECTED := MSG_CONF_CHANGE + 1
  const MSG_OPENWRT_DISCONNECT := MSG_OPENWRT_CONNECTED + 1
  const MSG_ACCEPT_NEW_USER := MSG_OPENWRT_DISCONNECT + 1
  const MSG_DEL_DISCONNECT_USER := MSG_ACCEPT_NEW_USER + 1
  const MSG_INQUIRY_SYSTEM_STATE := MSG_DEL_DISCONNECT_USER + 1
  const MSG_SYSTEM_STATE_EXCEPTION := MSG_INQUIRY_SYSTEM_STATE + 1
  const MSG_INQUIRY_REG_STATE := MSG_SYSTEM_STATE_EXCEPTION + 1
  const MSG_INQUIRY_RSSI := MSG_INQUIRY_REG_STATE + 1
  const MSG_RSSI_READY_AND_SEND := MSG_INQUIRY_RSSI + 1
  const MSG_CONTROL_RSSI := MSG_RSSI_READY_AND_SEND + 1
  const MSG_CLEAR_RSSI_WRITE_STATUS := MSG_CONTROL_RSSI + 1
  const MSG_START_CSI := MSG_CLEAR_RSSI_WRITE_STATUS + 1
  const MSG_STOP_CSI := MSG_START_CSI + 1
  const MSG_CSI_READY := MSG_STOP_CSI + 1
  const MSG_START_CONSTELLATION := MSG_CSI_READY + 1
  const MSG_STOP_CONSTELLATION := MSG_START_CONSTELLATION + 1
  const MSG_CONSTELLATION_READY := MSG_STOP_CONSTELLATION + 1
  const MSG_CONTROL_SAVE_IQ_DATA := MSG_CONSTELLATION_READY + 1
  const MSG_CLEAR_CSI_WRITE_STATUS := MSG_CONTROL_SAVE_IQ_DATA + 1
  const MSG_OPEN_DISTANCE_APP := MSG_CLEAR_CSI_WRITE_STATUS + 1
  const MSG_CLOSE_DISTANCE_APP := MSG_OPEN_DISTANCE_APP + 1
  const MSG_OPEN_DAC := MSG_CLOSE_DISTANCE_APP + 1
  const MSG_CLOSE_DAC := MSG_OPEN_DAC + 1
  const MSG_CLEAR_LOG := MSG_CLOSE_DAC + 1
  const MSG_RESET_SYSTEM := MSG_CLEAR_LOG + 1
  const MSG_INQUIRY_STATISTICS := MSG_RESET_SYSTEM + 1
  const MSG_IP_SETTING := MSG_INQUIRY_STATISTICS + 1
  const MSG_INQUIRY_RF_INFO := MSG_IP_SETTING + 1
  const MST_RF_INFO_READY := MSG_INQUIRY_RF_INFO + 1
  const MSG_RF_FREQ_SETTING := MST_RF_INFO_READY + 1
  const MSG_OPEN_TX_POWER := MSG_RF_FREQ_SETTING + 1
  const MSG_CLOSE_TX_POWER := MSG_OPEN_TX_POWER + 1
  const MSG_OPEN_RX_GAIN := MSG_CLOSE_TX_POWER + 1
  const MSG_CLOSE_RX_GAIN := MSG_OPEN_RX_GAIN + 1

  // enum frame_type of web_common.h.
  const TYPE_SYSTEM_STATE_REQUEST := 1
  const TYPE_SYSTEM_STATE_RESPONSE := TYPE_SYSTEM_STATE_REQUEST + 1
  const TYPE_SYSTEM_STATE_EXCEPTION := 4
  const TYPE_REG_STATE_REQUEST := 31
  const TYPE_REG_STATE_RESPONSE := TYPE_REG_STATE_REQUEST + 1
  const TYPE_INQUIRY_RSSI_REQUEST := 41
  const TYPE_RSSI_DATA_RESPONSE := TYPE_INQUIRY_RSSI_REQUEST + 1
  const TYPE_RSSI_CONTROL := TYPE_RSSI_DATA_RESPONSE + 1
  const TYPE_START_CSI := 51
  const TYPE_STOP_CSI := TYPE_START_CSI + 1
  const TYPE_CONTROL_SAVE_CSI := TYPE_STOP_CSI + 1
  const TYPE_CSI_DATA_RESPONSE := TYPE_CONTROL_SAVE_CSI + 1
  const TYPE_START_CONSTELLATION := 61
  const TYPE_STOP_CONSTELLATION := TYPE_START_CONSTELLATION + 1
  const TYPE_CONSTELLATION_DATA_RESPONSE := TYPE_STOP_CONSTELLATION + 1
  const TYPE_CMD_STATE_RESPONSE := 70
  const TYPE_OPEN_DISTANCE_APP := 71
  const TYPE_CLOSE_DISTANCE_APP := TYPE_OPEN_DISTANCE_APP + 1
  const TYPE_OPEN_DAC := TYPE_CLOSE_DISTANCE_APP + 1
  const TYPE_CLOSE_DAC := TYPE_OPEN_DAC + 1
  const TYPE_CLEAR_LOG := TYPE_CLOSE_DAC + 1
  const TYPE_IP_SETTING := TYPE_CLEAR_LOG + 1
  const TYPE_RESET := TYPE_IP_SETTING + 1
  const TYPE_STATISTICS_INFO := 81
  const TYPE_STATISTICS_RESPONSE := TYPE_STATISTICS_INFO + 1
  const TYPE_RF_INFO := 83
  const TYPE_RF_INFO_RESPONSE := TYPE_RF_INFO + 1
  const TYPE_RF_FREQ_SETTING := 91
  const TYPE_OPEN_TX_POWER := TYPE_RF_FREQ_SETTING + 1
  const TYPE_CLOSE_TX_POWER := TYPE_OPEN_TX_POWER + 1
  const TYPE_OPEN_RX_GAIN := TYPE_CLOSE_TX_POWER + 1
  const TYPE_CLOSE_RX_GAIN := TYPE_OPEN_RX_GAIN + 1
  const TYPE_OPENWRT_KEEPALIVE := 201
  const TYPE_OPENWRT_KEEPALIVE_RESPONSE := TYPE_OPENWRT_KEEPALIVE + 1

  /** idx_msg: frame type to message type. */
  const IDX_MSG: seq<(int, int)> := [
    (TYPE_SYSTEM_STATE_REQUEST, MSG_INQUIRY_SYSTEM_STATE),
    (TYPE_REG_STATE_REQUEST, MSG_INQUIRY_REG_STATE),
    (TYPE_INQUIRY_RSSI_REQUEST, MSG_INQUIRY_RSSI),
    (TYPE_START_CSI, MSG_START_CSI),
    (TYPE_STOP_CSI, MSG_STOP_CSI),
    (TYPE_START_CONSTELLATION, MSG_START_CONSTELLATION),
    (TYPE_STOP_CONSTELLATION, MSG_STOP_CONSTELLATION),
    (TYPE_OPEN_DISTANCE_APP, MSG_OPEN_DISTANCE_APP),
    (TYPE_CLOSE_DISTANCE_APP, MSG_CLOSE_DISTANCE_APP),
    (TYPE_OPEN_DAC, MSG_OPEN_DAC),
    (TYPE_CLOSE_DAC, MSG_CLOSE_DAC),
    (TYPE_CLEAR_LOG, MSG_CLEAR_LOG),
    (TYPE_RESET, MSG_RESET_SYSTEM),
    (TYPE_STATISTICS_INFO, MSG_INQUIRY_STATISTICS),
    (TYPE_RF_INFO, MSG_INQUIRY_RF_INFO),
    (TYPE_OPEN_TX_POWER, MSG_OPEN_TX_POWER),
    (TYPE_CLOSE_TX_POWER, MSG_CLOSE_TX_POWER),
    (TYPE_OPEN_RX_GAIN, MSG_OPEN_RX_GAIN),
    (TYPE_CLOSE_RX_GAIN, MSG_CLOSE_RX_GAIN),
    (TYPE_RSSI_CONTROL, MSG_CONTROL_RSSI),
    (TYPE_CONTROL_SAVE_CSI, MSG_CONTROL_SAVE_IQ_DATA),
    (TYPE_IP_SETTING, MSG_IP_SETTING),
    (TYPE_RF_FREQ_SETTING, MSG_RF_FREQ_SETTING),
    (TYPE_OPENWRT_KEEPALIVE, TYPE_OPENWRT_KEEPALIVE_RESPONSE)]

  /** msg_flow: frame type to handler. */
  const MSG_FLOW: seq<(int, Handler)> := [
    (TYPE_SYSTEM_STATE_REQUEST, NoJson),
    (TYPE_REG_STATE_REQUEST, NoJson),
    (TYPE_INQUIRY_RSSI_REQUEST, NoJson),
    (TYPE_START_CSI, NoJson),
    (TYPE_STOP_CSI, NoJson),
    (TYPE_START_CONSTELLATION, NoJson),
    (TYPE_STOP_CONSTELLATION, NoJson),
    (TYPE_OPEN_DISTANCE_APP, NoJson),
    (TYPE_CLOSE_DISTANCE_APP, NoJson),
    (TYPE_OPEN_DAC, NoJson),
    (TYPE_CLOSE_DAC, NoJson),
    (TYPE_CLEAR_LOG, NoJson),
    (TYPE_RESET, NoJson),
    (TYPE_STATISTICS_INFO, NoJson),
    (TYPE_RF_INFO, NoJson),
    (TYPE_OPEN_TX_POWER, NoJson),
    (TYPE_CLOSE_TX_POWER, NoJson),
    (TYPE_OPEN_RX_GAIN, NoJson),
    (TYPE_CLOSE_RX_GAIN, NoJson),
    (TYPE_RSSI_CONTROL, Json),
    (TYPE_CONTROL_SAVE_CSI, Json),
    (TYPE_IP_SETTING, Json),
    (TYPE_RF_FREQ_SETTING, Json),
    (TYPE_OPENWRT_KEEPALIVE, FastResponse)]

  /** What each type is for, in numbers as they travel on the wire: the reference for the tables, which go by
      the names of the two enumerations. */
  function Meaning(kind: int): (Handler, int) {
    match kind
    case 1 => (NoJson, 11)    // system state
    case 31 => (NoJson, 13)   // register state
    case 41 => (NoJson, 14)   // open RSSI
    case 43 => (Json, 16)     // RSSI recording
    case 51 => (NoJson, 18)   // start CSI
    case 52 => (NoJson, 19)   // stop CSI
    case 53 => (Json, 24)     // CSI recording
    case 61 => (NoJson, 21)   // start constellation
    case 62 => (NoJson, 22)   // stop constellation
    case 71 => (NoJson, 26)   // distance application
    case 72 => (NoJson, 27)
    case 73 => (NoJson, 28)   // DAC
    case 74 => (NoJson, 29)
    case 75 => (NoJson, 30)   // clear log
    case 76 => (Json, 33)     // IP setting
    case 77 => (NoJson, 31)   // reset
    case 81 => (NoJson, 32)   // statistics
    case 83 => (NoJson, 34)   // RF information
    case 91 => (Json, 36)     // RF frequency
    case 92 => (NoJson, 37)   // transmit power
    case 93 => (NoJson, 38)
    case 94 => (NoJson, 39)   // receive gain
    case 95 => (NoJson, 40)
    case _ => (FastResponse, TYPE_OPENWRT_KEEPALIVE_RESPONSE)
  }

  predicate Known(kind: int) {
    || kind == 1 || kind == 31 || kind == 41 || kind == 43 || 51 <= kind <= 53 || kind == 61 || kind == 62
    || 71 <= kind <= 77 || kind == 81 || kind == 83 || 91 <= kind <= 95 || kind == TYPE_OPENWRT_KEEPALIVE
  }

  /** The action a body must cause. */
  function ActionOf(f: Frame): Action {
    if !Known(f.kind) then Unknown(f.kind)
    else
      var (handler, msg) := Meaning(f.kind);
      match handler
      case NoJson => Post(msg, [])
      case Json => Post(msg, f.payload)
      case FastResponse => Reply(msg)
  }

  function ActionsOf(bodies: seq<seq<byte>>): (actions: seq<Action>)
    requires forall b :: b in bodies ==> |b| >= 4
    ensures |actions| == |bodies|
  {
    seq(|bodies|, i requires 0 <= i < |bodies| => ActionOf(Decode(bodies[i])))
  }

  lemma NoActions()
    ensures ActionsOf([]) == []
  {
  }

  lemma ActionsSnoc(bodies: seq<seq<byte>>, body: seq<byte>)
    requires |body| >= 4 && forall b :: b in bodies ==> |b| >= 4
    ensures forall b :: b in bodies + [body] ==> |b| >= 4
    ensures ActionsOf(bodies + [body]) == ActionsOf(bodies) + [ActionOf(Decode(body))]
  {
    hide ActionOf;
    hide Decode;
  }

  /** Where a known type stands in both tables. */
  function Position(kind: int): (i: nat)
    ensures i < |IDX_MSG| && i < |MSG_FLOW|
  {
    match kind
    case 1 => 0 case 31 => 1 case 41 => 2 case 51 => 3 case 52 => 4 case 61 => 5
    case 62 => 6 case 71 => 7 case 72 => 8 case 73 => 9 case 74 => 10 case 75 => 11
    case 77 => 12 case 81 => 13 case 83 => 14 case 92 => 15 case 93 => 16 case 94 => 17
    case 95 => 18 case 43 => 19 case 53 => 20 case 76 => 21 case 91 => 22
    case _ => 23
  }

  /** Every known type has its entry in both tables, at the same place. */
  lemma TablesComplete(kind: int)
    ensures Known(kind) ==> IDX_MSG[Position(kind)] == (kind, Meaning(kind).1)
    ensures Known(kind) ==> MSG_FLOW[Position(kind)] == (kind, Meaning(kind).0)
  {
  }

  /** The scan that every handler repeats over idx_msg. */
  method MessageOf(kind: int) returns (found: bool, msg: int)
    ensures found <==> Known(kind)
    ensures found ==> msg == Meaning(kind).1
  {
    TablesComplete(kind);
    found, msg := false, 0;
    for i := 0 to |IDX_MSG|
      invariant forall j :: 0 <= j < i ==> IDX_MSG[j].0 != kind
    {
      if IDX_MSG[i].0 == kind {
        return true, IDX_MSG[i].1;
      }
    }
  }

  /** The scan of msg_flow. */
  method HandlerOf(kind: int) returns (found: bool, handler: Handler)
    ensures found <==> Known(kind)
    ensures found ==> handler == Meaning(kind).0
  {
    TablesComplete(kind);
    found, handler := false, NoJson;
    for i := 0 to |MSG_FLOW|
      invariant forall j :: 0 <= j < i ==> MSG_FLOW[j].0 != kind
    {
      if MSG_FLOW[i].0 == kind {
        return true, MSG_FLOW[i].1;
      }
    }
  }

  /** processMessage_table_drive: find the handler of the type in msg_flow and run it.
      The handlers look the type up again, in idx_msg; they would stay silent if they missed it. */
  method ProcessMessage(body: seq<byte>) returns (actions: seq<Action>)
    requires |body| >= 4
    ensures actions == [ActionOf(Decode(body))]
  {
    var kind, json := ToInt32(FromBe32(body[..4])), body[4..];
    hide ToInt32;
    hide FromBe32;
    hide Meaning;
    hide Known;
    var known, handler := HandlerOf(kind);
    if !known {
      return [Unknown(kind)];
    }
    var found, msg := MessageOf(kind);
    if found {
      match handler
      case NoJson => return [Post(msg, [])];
      case Json => return [Post(msg, json)];
      case FastResponse => return [Reply(msg)];
    }
    actions := [];
  }
}
