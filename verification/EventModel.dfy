/** The event loop of event_process.c as a transition system: sessions, the DMA features, RSSI, CSI
    recording and the writer threads, in every interleaving. */
module EventModel {
  import opened Sessions
  import R = Recorder
  import D = DmaModel
  import B = RssiModel
  import V = CsiSaveModel

  /** A job of the thread pool that reads the RF information: the node id it carries, and, as history, which
      session asked and how many had asked before. */
  datatype Ask = Ask(nodeId: int, serial: nat, ticket: nat)

  /** An answer: the session that asked, and the session that got it, with its connfd. */
  datatype Delivery = Delivery(asker: nat, receiver: nat, connfd: int)

  /** The pending jobs. `delivered` and `asked`, the number of inquiries, are history. */
  datatype Rf = Rf(pending: seq<Ask>, delivered: seq<Delivery>, asked: nat)

  /** `replies` is the history of command states sent to clients: connfd and code. */
  datatype Sys = Sys(server: Server, dma: D.Dma, broker: B.Broker, saver: V.Saver, rf: Rf, replies: seq<(int, int)>)

  const CMD_OK := 0
  const CMD_FAIL := -1
  const CSI_MUTEX := 2
  const CONSTELL_MUTEX := 3

  /** Messages to the loop, with the answers of the outside world they run into, and the steps of the
      writer threads. */
  datatype Event =
    | Accept(fd: int)
    | Disconnect(fd: int, reply: B.Reply)
    | OpenwrtConnected(fd: int, linked: bool, written: bool)
    | RfInquiry(fd: int)
    | RfReady(job: nat)
    | StartCsi(fd: int, rc: int)
    | StopCsi(fd: int)
    | StartConstell(fd: int, rc: int)
    | StopConstell(fd: int)
    | OpenRssi(fd: int, reply: B.Reply)
    | ControlRssi(fd: int, op: int, fopenOk: bool)
    | RssiReady(item: R.Item)
    | ClearRssi
    | RssiWriter(node: nat)
    | SaveCsi(fd: int, op: int, fopenOk: bool)
    | CsiReady(item: R.Item)
    | ClearCsi
    | CsiWriter(node: nat)

  ghost function Flagged(s: Sys): map<int, Flags> {
    FlagMap(s.server.sessions)
  }

  ghost predicate Inv(s: Sys) {
    && ServerInv(s.server)
    && D.DmaInv(Flagged(s), s.dma)
    && B.BrokerInv(Flagged(s), s.broker)
    && V.SaverInv(Flagged(s), s.saver)
    && RfInv(s.server, s.rf)
  }

  /** Every pending job carries the id of the session that asked, and no two are the same inquiry. */
  ghost predicate RfInv(s: Server, rf: Rf) {
    && (forall i :: 0 <= i < |rf.pending| ==>
          && rf.pending[i].nodeId == IdOf(rf.pending[i].serial) && rf.pending[i].serial < s.admitted
          && rf.pending[i].ticket < rf.asked)
    && (forall i, j :: 0 <= i < j < |rf.pending| ==> rf.pending[i].ticket < rf.pending[j].ticket)
  }

  function Initial(deviceOpen: bool): Sys {
    Sys(EMPTY_SERVER, D.Dma(deviceOpen, D.IDLE, D.IDLE, []), B.EMPTY_BROKER, V.EMPTY_SAVER, Rf([], [], 0), [])
  }

  lemma InvSafe(s: Sys)
    requires Inv(s)
    ensures B.Safe(s.broker) && V.Safe(s.saver)
    ensures s.broker.mailbox != [] ==> B.Clearable(s.broker)
  {
    if s.broker.mailbox != [] {
      B.ClearMayRun(Flagged(s), s.broker);
    }
    V.FindNode(Flagged(s), s.saver, 0);
  }

  /** What the environment keeps to: live connfds are unique, a session's messages come while it is live,
      it stops a feature only if it uses it or nobody does, opens RSSI once, and restarts no recording
      before the previous one has been CLEARed; CLEARs and threads move when they can. */
  ghost predicate Allowed(s: Sys, e: Event)
    requires Inv(s)
  {
    InvSafe(s);
    match e
    case Accept(fd) => !Live(s.server, fd)
    case Disconnect(fd, _) => Live(s.server, fd)
    case OpenwrtConnected(fd, linked, _) => linked ==> !Live(s.server, fd)
    case RfInquiry(fd) => Live(s.server, fd)
    case RfReady(job) => job < |s.rf.pending|
    case StartCsi(fd, _) => Live(s.server, fd)
    case StopCsi(fd) => Live(s.server, fd) && (fd in s.dma.csi.users || s.dma.csi.users == [])
    case StartConstell(fd, _) => Live(s.server, fd)
    case StopConstell(fd) => Live(s.server, fd) && (fd in s.dma.constell.users || s.dma.constell.users == [])
    case OpenRssi(fd, _) => Live(s.server, fd) && FlagsOf(s.server, fd).rssi == 0
    case ControlRssi(fd, op, _) => Live(s.server, fd) && (op == 0 || (op == 1 && B.MayStart(s.broker, fd)))
    case RssiReady(item) => item != []
    case ClearRssi => s.broker.mailbox != []
    case RssiWriter(p) => B.WriterCanMove(s.broker, p)
    case SaveCsi(fd, op, fopenOk) =>
      && Live(s.server, fd)
      && (op == 0 || (op == 1 && V.MayStart(s.saver, fd) && (fopenOk || FlagsOf(s.server, fd).csiSave == 1)))
    case CsiReady(item) => item != []
    case ClearCsi => s.saver.mailbox != []
    case CsiWriter(p) => V.WriterCanMove(s.saver, p)
  }

  // ----- del_user, one module at a time -----

  ghost function LeaveRssi(b: B.Broker, fd: int, flags: Flags, reply: B.Reply): B.Broker
    requires B.Safe(b)
    requires flags.rssiSave != 0 ==> B.Opened(b, fd) && B.HasQueue(b, fd)
    requires flags.rssi != 0 ==> B.Opened(b, fd)
  {
    var c := if flags.rssiSave != 0 then B.InformStop(b, fd) else b;
    LeaveRssiOpened(b, fd, flags);
    if flags.rssi != 0 then B.Close(c, fd, reply) else c
  }

  lemma LeaveRssiOpened(b: B.Broker, fd: int, flags: Flags)
    requires B.Safe(b)
    requires flags.rssiSave != 0 ==> B.Opened(b, fd) && B.HasQueue(b, fd)
    ensures var c := if flags.rssiSave != 0 then B.InformStop(b, fd) else b;
            B.Safe(c) && (B.Opened(b, fd) ==> B.Opened(c, fd))
  {
    if flags.rssiSave != 0 {
      var i, c := B.Find(b, fd), B.InformStop(b, fd);
      assert c.heap[c.list[i]].connfd == fd;
    }
  }

  function LeaveDma(d: D.Dma, fd: int, flags: Flags): D.Dma {
    var e := if flags.csi != 0 then D.StopCsi(d, fd) else d;
    if flags.constell != 0 then D.StopConstell(e, fd) else e
  }

  ghost function LeaveSave(v: V.Saver, fd: int, flags: Flags): V.Saver
    requires V.Safe(v)
    requires flags.csiSave != 0 ==> V.Present(v, fd) && v.heap[v.list[V.Find(v, fd)]].file.started
  {
    if flags.csiSave != 0 then V.InformStop(v, fd) else v
  }

  lemma LeaveRssiKeeps(m: map<int, Flags>, b: B.Broker, fd: int, reply: B.Reply)
    requires B.BrokerInv(m, b) && fd in m
    ensures B.Safe(b)
    ensures m[fd].rssiSave != 0 ==> B.Opened(b, fd) && B.HasQueue(b, fd)
    ensures m[fd].rssi != 0 ==> B.Opened(b, fd)
    ensures B.BrokerInv(m - {fd}, LeaveRssi(b, fd, m[fd], reply))
  {
    hide B.BrokerInv;
    hide B.Memory;
    hide B.Close;
    hide B.InformStop;
    B.Parts(m, b);
    B.SessionNode(m, b, fd);
    var m', c := m, b;
    if m[fd].rssiSave != 0 {
      B.StopHasQueue(m, b, fd);
      B.InformStopKeeps(m, b, fd);
      m', c := m[fd := m[fd].(rssiSave := 0)], B.InformStop(b, fd);
    }
    assert m' - {fd} == m - {fd};
    if m[fd].rssi != 0 {
      B.CloseKeeps(m', c, fd, reply);
    } else {
      B.DepartureKeeps(m, b, fd);
    }
  }

  lemma LeaveDmaKeeps(m: map<int, Flags>, d: D.Dma, fd: int)
    requires D.DmaInv(m, d) && fd in m
    ensures D.DmaInv(m - {fd}, LeaveDma(d, fd, m[fd]))
    ensures fd !in LeaveDma(d, fd, m[fd]).csi.users && fd !in LeaveDma(d, fd, m[fd]).constell.users
    ensures m[fd].csi != 0 <==> fd in d.csi.users
    ensures m[fd].constell != 0 <==> fd in d.constell.users
  {
    var m1, d1 := m, d;
    if m[fd].csi != 0 {
      D.StopCsiKeeps(m, d, fd);
      m1, d1 := m[fd := m[fd].(csi := 0)], D.StopCsi(d, fd);
    }
    var m2, d2 := m1, d1;
    if m[fd].constell != 0 {
      D.StopConstellKeeps(m1, d1, fd);
      m2, d2 := m1[fd := m1[fd].(constell := 0)], D.StopConstell(d1, fd);
    }
    D.DepartureKeeps(m2, d2, fd);
    assert m2 - {fd} == m - {fd};
  }

  lemma LeaveSaveKeeps(m: map<int, Flags>, v: V.Saver, fd: int)
    requires V.SaverInv(m, v) && fd in m
    ensures V.Safe(v)
    ensures m[fd].csiSave != 0 ==> V.Present(v, fd) && v.heap[v.list[V.Find(v, fd)]].file.started
    ensures V.SaverInv(m - {fd}, LeaveSave(v, fd, m[fd]))
  {
    hide V.SaverInv;
    hide V.InformStop;
    V.FindNode(m, v, fd);
    if m[fd].csiSave != 0 {
      V.StopHasQueue(m, v, fd);
      V.InformStopKeeps(m, v, fd);
      var m' := m[fd := m[fd].(csiSave := 0)];
      assert m' - {fd} == m - {fd};
      V.DepartureKeeps(m', V.InformStop(v, fd), fd);
    } else {
      V.DepartureKeeps(m, v, fd);
    }
  }

  // ----- the steps -----

  ghost function SetFlags(s: Sys, fd: int, flags: Flags): Sys {
    s.(server := Record(s.server, fd, flags))
  }

  /** send_cmd_state: any other state is sent as CMD_FAIL. */
  function SendState(s: Sys, fd: int, state: int): Sys {
    var code := if state == CMD_OK || state == CSI_MUTEX || state == CONSTELL_MUTEX then state else CMD_FAIL;
    s.(replies := s.replies + [(fd, code)])
  }

  ghost function DelUser(s: Sys, fd: int, reply: B.Reply): Sys
    requires Inv(s) && Live(s.server, fd)
  {
    var flags := FlagsOf(s.server, fd);
    LookUp(s, fd);
    LeaveRssiKeeps(Flagged(s), s.broker, fd, reply);
    LeaveSaveKeeps(Flagged(s), s.saver, fd);
    s.(server := Drop(s.server, fd),
       broker := LeaveRssi(s.broker, fd, flags, reply),
       dma := LeaveDma(s.dma, fd, flags),
       saver := LeaveSave(s.saver, fd, flags))
  }

  /** MSG_OPENWRT_CONNECTED: a session for the connection, taken back if the epoll thread cannot be told. */
  ghost function OpenwrtStep(s: Sys, fd: int, linked: bool, written: bool): Sys
    requires Inv(s) && (linked ==> !Live(s.server, fd))
  {
    if !linked then s
    else
      var t := s.(server := Admit(s.server, fd));
      if written then t
      else
        AcceptKeeps(s, fd);
        AdmittedLive(s.server, fd);
        DelUser(t, fd, B.NoReply)
  }

  lemma AdmittedLive(s: Server, fd: int)
    ensures Live(Admit(s, fd), fd)
  {
    var ss := Admit(s, fd).sessions;
    assert ss[|ss| - 1].connfd == fd;
  }

  /** MSG_INQUIRY_RF_INFO: a job for the thread pool, with the node id of the session. */
  function AskRf(s: Sys, fd: int): Sys
    requires Live(s.server, fd)
  {
    var asker := s.server.sessions[IndexOfFd(s.server.sessions, fd)];
    s.(rf := s.rf.(pending := s.rf.pending + [Ask(asker.nodeId, asker.serial, s.rf.asked)], asked := s.rf.asked + 1))
  }

  /** MST_RF_INFO_READY, whichever job has finished: the answer goes where its node id leads. */
  function AnswerRf(s: Sys, job: nat): Sys
    requires job < |s.rf.pending|
  {
    var ask := s.rf.pending[job];
    var r := Recipient(s.server, ask.nodeId);
    s.(rf := s.rf.(pending := s.rf.pending[..job] + s.rf.pending[job + 1..],
                   delivered := s.rf.delivered
                                + if r == [] then [] else [Delivery(ask.serial, r[0].serial, r[0].connfd)]))
  }

  predicate IsDma(e: Event) {
    e.StartCsi? || e.StopCsi? || e.StartConstell? || e.StopConstell?
  }

  predicate IsRssi(e: Event) {
    e.OpenRssi? || e.ControlRssi? || e.RssiReady? || e.ClearRssi? || e.RssiWriter?
  }

  predicate IsSave(e: Event) {
    e.SaveCsi? || e.CsiReady? || e.ClearCsi? || e.CsiWriter?
  }

  ghost function DmaStep(s: Sys, e: Event): Sys
    requires IsDma(e) && Live(s.server, e.fd)
  {
    var fd, flags := e.fd, FlagsOf(s.server, e.fd);
    match e
    case StartCsi(_, rc) =>
      if D.SomeConstell(Flagged(s)) then SendState(s, fd, CSI_MUTEX)
      else
        var (d, state) := D.StartCsi(s.dma, fd, rc);
        var t := s.(dma := d);
        SendState(if state == 0 then SetFlags(t, fd, flags.(csi := 1)) else t, fd, state)
    case StopCsi(_) =>
      var t := s.(dma := D.StopCsi(s.dma, fd));
      SendState(SetFlags(t, fd, flags.(csi := 0)), fd, CMD_OK)
    case StartConstell(_, rc) =>
      if D.SomeCsi(Flagged(s)) then SendState(s, fd, CONSTELL_MUTEX)
      else
        var t := s.(dma := D.StartConstell(s.dma, fd, rc));
        SendState(SetFlags(t, fd, flags.(constell := 1)), fd, CMD_OK)
    case _ =>
      var t := s.(dma := D.StopConstell(s.dma, fd));
      SendState(SetFlags(t, fd, flags.(constell := 0)), fd, CMD_OK)
  }

  /** What the RSSI messages and the RSSI writers' steps rely on. */
  ghost predicate RssiCan(s: Sys, e: Event) {
    && IsRssi(e) && B.Safe(s.broker)
    && (e.OpenRssi? || e.ControlRssi? ==> Live(s.server, e.fd))
    && (e.ClearRssi? ==> B.Clearable(s.broker))
    && (e.RssiWriter? ==> B.WriterCanMove(s.broker, e.node))
  }

  /** What the CSI recording messages and those writers' steps rely on. */
  ghost predicate SaveCan(s: Sys, e: Event) {
    && IsSave(e) && V.Safe(s.saver)
    && (e.SaveCsi? ==> Live(s.server, e.fd))
    && (e.ClearCsi? ==> s.saver.mailbox != [])
    && (e.CsiWriter? ==> V.WriterCanMove(s.saver, e.node))
  }

  lemma AllowedCan(s: Sys, e: Event)
    requires Inv(s) && Allowed(s, e)
    ensures IsRssi(e) ==> RssiCan(s, e)
    ensures IsSave(e) ==> SaveCan(s, e)
  {
    hide Inv;
    InvSafe(s);
  }

  ghost function RssiStep(s: Sys, e: Event): Sys
    requires RssiCan(s, e)
  {
    match e
    case OpenRssi(fd, reply) =>
      var (b, ret) := B.Open(s.broker, fd, reply);
      var t := s.(broker := b);
      if ret == 0 then SetFlags(t, fd, FlagsOf(s.server, fd).(rssi := 1)) else t
    case ControlRssi(fd, op, fopenOk) =>
      var (b, ret) := B.ControlSave(s.broker, fd, op, fopenOk);
      var t := s.(broker := b);
      SendState(if ret == 0 then SetFlags(t, fd, FlagsOf(s.server, fd).(rssiSave := SaveFlag(op))) else t, fd, ret)
    case RssiReady(item) => s.(broker := B.Sample(s.broker, 0, item))
    case ClearRssi => s.(broker := B.Clear(s.broker))
    case RssiWriter(p) => s.(broker := B.WriterMove(s.broker, p))
  }

  ghost function SaveStep(s: Sys, e: Event): Sys
    requires SaveCan(s, e)
  {
    match e
    case SaveCsi(fd, op, fopenOk) =>
      var t := s.(saver := V.ControlSave(s.saver, fd, op, fopenOk).0);
      SendState(SetFlags(t, fd, FlagsOf(s.server, fd).(csiSave := SaveFlag(op))), fd, CMD_OK)
    case CsiReady(item) => s.(saver := V.Sample(s.saver, 0, item))
    case ClearCsi => s.(saver := V.Clear(s.saver))
    case CsiWriter(p) => s.(saver := V.WriterMove(s.saver, p))
  }

  /** One case of the event loop, or one step of a writer thread. */
  ghost function Step(s: Sys, e: Event): Sys
    requires Inv(s) && Allowed(s, e)
  {
    AllowedCan(s, e);
    if e.Accept? then s.(server := Admit(s.server, e.fd))
    else if e.Disconnect? then DelUser(s, e.fd, e.reply)
    else if e.OpenwrtConnected? then OpenwrtStep(s, e.fd, e.linked, e.written)
    else if e.RfInquiry? then AskRf(s, e.fd)
    else if e.RfReady? then AnswerRf(s, e.job)
    else if IsDma(e) then DmaStep(s, e)
    else if IsRssi(e) then RssiStep(s, e)
    else SaveStep(s, e)
  }

  /** The features see a session's flags in the map. */
  lemma LookUp(s: Sys, fd: int)
    requires ServerInv(s.server)
    ensures fd in Flagged(s) <==> Live(s.server, fd)
    ensures Live(s.server, fd) ==> Flagged(s)[fd] == FlagsOf(s.server, fd)
  {
    MapDomain(s.server.sessions, fd);
  }

  /** What del_user relies on holds for every live session. */
  ghost predicate Leavable(s: Sys, fd: int, flags: Flags) {
    && B.Memory(s.broker) && V.Safe(s.saver)
    && (flags.rssiSave != 0 ==> B.Opened(s.broker, fd) && B.HasQueue(s.broker, fd))
    && (flags.rssi != 0 ==> B.Opened(s.broker, fd))
    && (flags.csi != 0 ==> fd in s.dma.csi.users)
    && (flags.constell != 0 ==> fd in s.dma.constell.users)
    && (flags.csiSave != 0 ==> V.Present(s.saver, fd) && s.saver.heap[s.saver.list[V.Find(s.saver, fd)]].file.started)
  }

  lemma ReadyToLeave(s: Sys, fd: int, reply: B.Reply)
    requires Inv(s) && Live(s.server, fd)
    ensures Leavable(s, fd, FlagsOf(s.server, fd))
  {
    LookUp(s, fd);
    LeaveRssiKeeps(Flagged(s), s.broker, fd, reply);
    LeaveDmaKeeps(Flagged(s), s.dma, fd);
    LeaveSaveKeeps(Flagged(s), s.saver, fd);
  }

  // ----- every step keeps the invariant -----

  lemma AcceptKeeps(s: Sys, fd: int)
    requires Inv(s) && !Live(s.server, fd)
    ensures Inv(s.(server := Admit(s.server, fd)))
  {
    var m := Flagged(s);
    LookUp(s, fd);
    AdmitKeeps(s.server, fd);
    hide ServerInv;
    hide Admit;
    D.OtherFlagsKeep(m, s.dma, fd, NO_FLAGS);
    B.OtherFlagsKeep(m, s.broker, fd, NO_FLAGS);
    V.OtherFlagsKeep(m, s.saver, fd, NO_FLAGS);
  }

  lemma DisconnectKeeps(s: Sys, fd: int, reply: B.Reply)
    requires Inv(s) && Live(s.server, fd)
    ensures Inv(DelUser(s, fd, reply))
  {
    hide ServerInv;
    hide RfInv;
    hide Drop;
    hide D.DmaInv;
    hide B.BrokerInv;
    hide V.SaverInv;
    hide LeaveRssi;
    hide LeaveDma;
    hide LeaveSave;
    var m := Flagged(s);
    LookUp(s, fd);
    DropKeeps(s.server, fd);
    DropRf(s, fd);
    LeaveRssiKeeps(m, s.broker, fd, reply);
    LeaveDmaKeeps(m, s.dma, fd);
    LeaveSaveKeeps(m, s.saver, fd);
  }

  lemma DropRf(s: Sys, fd: int)
    requires RfInv(s.server, s.rf) && Live(s.server, fd)
    ensures RfInv(Drop(s.server, fd), s.rf)
  {
  }

  /** Storing a changed flag for one feature, whose module has already followed. */
  lemma RecordInv(s: Sys, fd: int, flags: Flags, t: Sys)
    requires ServerInv(s.server) && Live(s.server, fd) && t.server == s.server && RfInv(s.server, t.rf)
    requires D.DmaInv(Flagged(s)[fd := flags], t.dma)
    requires B.BrokerInv(Flagged(s)[fd := flags], t.broker)
    requires V.SaverInv(Flagged(s)[fd := flags], t.saver)
    ensures Inv(SetFlags(t, fd, flags))
  {
    RecordKeeps(s.server, fd, flags);
  }

  lemma CsiFlags(s: Sys, fd: int, csi: int, d: D.Dma)
    requires Inv(s) && Live(s.server, fd)
    requires D.DmaInv(Flagged(s)[fd := FlagsOf(s.server, fd).(csi := csi)], d)
    ensures Inv(SetFlags(s.(dma := d), fd, FlagsOf(s.server, fd).(csi := csi)))
  {
    LookUp(s, fd);
    var flags := FlagsOf(s.server, fd).(csi := csi);
    B.OtherFlagsKeep(Flagged(s), s.broker, fd, flags);
    V.OtherFlagsKeep(Flagged(s), s.saver, fd, flags);
    RecordInv(s, fd, flags, s.(dma := d));
  }

  lemma ConstellFlags(s: Sys, fd: int, constell: int, d: D.Dma)
    requires Inv(s) && Live(s.server, fd)
    requires D.DmaInv(Flagged(s)[fd := FlagsOf(s.server, fd).(constell := constell)], d)
    ensures Inv(SetFlags(s.(dma := d), fd, FlagsOf(s.server, fd).(constell := constell)))
  {
    LookUp(s, fd);
    var flags := FlagsOf(s.server, fd).(constell := constell);
    B.OtherFlagsKeep(Flagged(s), s.broker, fd, flags);
    V.OtherFlagsKeep(Flagged(s), s.saver, fd, flags);
    RecordInv(s, fd, flags, s.(dma := d));
  }

  lemma RssiFlags(s: Sys, fd: int, flags: Flags, b: B.Broker)
    requires Inv(s) && Live(s.server, fd)
    requires flags == FlagsOf(s.server, fd).(rssi := flags.rssi, rssiSave := flags.rssiSave)
    requires B.BrokerInv(Flagged(s)[fd := flags], b)
    ensures Inv(SetFlags(s.(broker := b), fd, flags))
  {
    LookUp(s, fd);
    D.OtherFlagsKeep(Flagged(s), s.dma, fd, flags);
    V.OtherFlagsKeep(Flagged(s), s.saver, fd, flags);
    RecordInv(s, fd, flags, s.(broker := b));
  }

  lemma SaveFlags(s: Sys, fd: int, csiSave: int, v: V.Saver)
    requires Inv(s) && Live(s.server, fd)
    requires V.SaverInv(Flagged(s)[fd := FlagsOf(s.server, fd).(csiSave := csiSave)], v)
    ensures Inv(SetFlags(s.(saver := v), fd, FlagsOf(s.server, fd).(csiSave := csiSave)))
  {
    LookUp(s, fd);
    var flags := FlagsOf(s.server, fd).(csiSave := csiSave);
    D.OtherFlagsKeep(Flagged(s), s.dma, fd, flags);
    B.OtherFlagsKeep(Flagged(s), s.broker, fd, flags);
    RecordInv(s, fd, flags, s.(saver := v));
  }

  lemma OpenwrtKeeps(s: Sys, fd: int, linked: bool, written: bool)
    requires Inv(s) && (linked ==> !Live(s.server, fd))
    ensures Inv(OpenwrtStep(s, fd, linked, written))
  {
    hide Inv;
    hide Admit;
    if linked {
      AcceptKeeps(s, fd);
      AdmittedLive(s.server, fd);
      if !written {
        DisconnectKeeps(s.(server := Admit(s.server, fd)), fd, B.NoReply);
      }
    }
  }

  lemma RfKeeps(s: Sys, fd: int, job: nat)
    requires Inv(s)
    ensures Live(s.server, fd) ==> Inv(AskRf(s, fd))
    ensures job < |s.rf.pending| ==> Inv(AnswerRf(s, job))
  {
    hide D.DmaInv;
    hide B.BrokerInv;
    hide V.SaverInv;
    hide IdOf;
  }

  lemma DmaEventKeeps(s: Sys, e: Event)
    requires Inv(s) && Allowed(s, e) && IsDma(e)
    ensures Inv(DmaStep(s, e))
  {
    var m, fd := Flagged(s), e.fd;
    LookUp(s, fd);
    match e {
      case StartCsi(_, rc) =>
        if !D.SomeConstell(m) {
          D.StartCsiKeeps(m, s.dma, fd, rc);
          var (d, state) := D.StartCsi(s.dma, fd, rc);
          if state == 0 {
            CsiFlags(s, fd, 1, d);
          }
        }
      case StopCsi(_) =>
        D.StopCsiKeeps(m, s.dma, fd);
        CsiFlags(s, fd, 0, D.StopCsi(s.dma, fd));
      case StartConstell(_, rc) =>
        if !D.SomeCsi(m) {
          D.StartConstellKeeps(m, s.dma, fd, rc);
          ConstellFlags(s, fd, 1, D.StartConstell(s.dma, fd, rc));
        }
      case StopConstell(_) =>
        D.StopConstellKeeps(m, s.dma, fd);
        ConstellFlags(s, fd, 0, D.StopConstell(s.dma, fd));
    }
  }

  lemma OpenRssiKeeps(s: Sys, fd: int, reply: B.Reply)
    requires Inv(s) && Live(s.server, fd) && FlagsOf(s.server, fd).rssi == 0 && B.Safe(s.broker)
    ensures Inv(RssiStep(s, OpenRssi(fd, reply)))
  {
    hide ServerInv;
    hide D.DmaInv;
    hide B.BrokerInv;
    hide V.SaverInv;
    hide B.Safe;
    LookUp(s, fd);
    B.OpenKeeps(Flagged(s), s.broker, fd, reply);
    var (b, ret) := B.Open(s.broker, fd, reply);
    if ret == 0 {
      RssiFlags(s, fd, FlagsOf(s.server, fd).(rssi := 1), b);
    }
  }

  lemma ControlRssiKeeps(s: Sys, fd: int, op: int, fopenOk: bool)
    requires Inv(s) && Live(s.server, fd) && B.Safe(s.broker) && (op == 0 || (op == 1 && B.MayStart(s.broker, fd)))
    ensures Inv(RssiStep(s, ControlRssi(fd, op, fopenOk)))
  {
    hide ServerInv;
    hide D.DmaInv;
    hide B.BrokerInv;
    hide V.SaverInv;
    hide B.Safe;
    LookUp(s, fd);
    B.ControlSaveKeeps(Flagged(s), s.broker, fd, op, fopenOk);
    var (b, ret) := B.ControlSave(s.broker, fd, op, fopenOk);
    if ret == 0 {
      RssiFlags(s, fd, FlagsOf(s.server, fd).(rssiSave := op), b);
    }
  }

  lemma RssiEventKeeps(s: Sys, e: Event)
    requires Inv(s) && Allowed(s, e) && IsRssi(e)
    ensures RssiCan(s, e) && Inv(RssiStep(s, e))
  {
    AllowedCan(s, e);
    var m := Flagged(s);
    match e {
      case OpenRssi(fd, reply) => OpenRssiKeeps(s, fd, reply);
      case ControlRssi(fd, op, fopenOk) => ControlRssiKeeps(s, fd, op, fopenOk);
      case RssiReady(item) => B.SampleKeeps(m, s.broker, 0, item);
      case ClearRssi => B.ClearKeeps(m, s.broker);
      case RssiWriter(p) => B.WriterKeeps(m, s.broker, p);
    }
  }

  lemma SaveEventKeeps(s: Sys, e: Event)
    requires Inv(s) && Allowed(s, e) && IsSave(e)
    ensures SaveCan(s, e) && Inv(SaveStep(s, e))
  {
    AllowedCan(s, e);
    var m := Flagged(s);
    InvSafe(s);
    match e {
      case SaveCsi(fd, op, fopenOk) =>
        LookUp(s, fd);
        V.ControlSaveKeeps(m, s.saver, fd, op, fopenOk);
        SaveFlags(s, fd, op, V.ControlSave(s.saver, fd, op, fopenOk).0);
      case CsiReady(item) => V.SampleKeeps(m, s.saver, 0, item);
      case ClearCsi => V.ClearKeeps(m, s.saver);
      case CsiWriter(p) => V.WriterKeeps(m, s.saver, p);
    }
  }

  lemma StepKeeps(s: Sys, e: Event)
    requires Inv(s) && Allowed(s, e)
    ensures Inv(Step(s, e))
  {
    hide Inv;
    if e.Accept? {
      AcceptKeeps(s, e.fd);
    } else if e.Disconnect? {
      DisconnectKeeps(s, e.fd, e.reply);
    } else if e.OpenwrtConnected? {
      OpenwrtKeeps(s, e.fd, e.linked, e.written);
    } else if e.RfInquiry? {
      RfKeeps(s, e.fd, 0);
    } else if e.RfReady? {
      RfKeeps(s, 0, e.job);
    } else if IsDma(e) {
      DmaEventKeeps(s, e);
    } else if IsRssi(e) {
      RssiEventKeeps(s, e);
    } else {
      SaveEventKeeps(s, e);
    }
  }
}
