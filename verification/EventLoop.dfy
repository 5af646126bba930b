/** The event loop of event_process.c: each case, as code over the modules' own state, does one step of
    the transition system. */
module EventLoop {
  import opened Sessions
  import opened EventModel
  import R = Recorder
  import D = DmaModel
  import B = RssiModel
  import V = CsiSaveModel
  import Server = ServerSessions
  import Dma = DmaHandler
  import Rssi = RssiHandler
  import Save = CsiSaveHandler
  import Runs

  class Loop {
    const server: Server.SessionTable
    const dma: Dma.Handler
    const broker: Rssi.Handler
    const saver: Save.Handler
    var rf: Rf
    var replies: seq<(int, int)>

    ghost function View(): Sys
      reads this, server, dma, dma.csiUsers, dma.constellUsers, broker, saver
    {
      Sys(server.View(), dma.View(), broker.View(), saver.View(), rf, replies)
    }

    constructor (deviceOpen: bool)
      ensures dma.Valid() && View() == Initial(deviceOpen)
    {
      server := new Server.SessionTable();
      dma := new Dma.Handler(deviceOpen);
      broker := new Rssi.Handler();
      saver := new Save.Handler();
      rf, replies := Rf([], [], 0), [];
    }

    /** send_cmd_state. */
    method SendCmdState(fd: int, state: int)
      modifies this
      ensures View() == SendState(old(View()), fd, state)
    {
      var cmdState := CMD_FAIL;
      if state == CMD_OK {
        cmdState := CMD_OK;
      } else if state == CSI_MUTEX {
        cmdState := CSI_MUTEX;
      } else if state == CONSTELL_MUTEX {
        cmdState := CONSTELL_MUTEX;
      }
      replies := replies + [(fd, cmdState)];
    }

    /** MSG_ACCEPT_NEW_USER. */
    method OnAccept(fd: int)
      requires dma.Valid()
      modifies server
      ensures dma.Valid() && dma.Grown()
      ensures View() == old(View()).(server := Admit(old(server.View()), fd))
    {
      hide dma.Valid;
      server.Add(fd);
    }

    /** MSG_OPENWRT_CONNECTED; `linked` is openwrt_link, `written` says that the eventfd took the new node. */
    method OnOpenwrtConnected(fd: int, linked: bool, written: bool)
      requires dma.Valid() && Inv(View()) && (linked ==> !Live(server.View(), fd))
      modifies server, broker, saver, dma, dma.csiUsers, dma.csiUsers.head, dma.csiUsers.nodes,
               dma.constellUsers, dma.constellUsers.head, dma.constellUsers.nodes
      ensures dma.Valid() && dma.Grown() && View() == OpenwrtStep(old(View()), fd, linked, written)
    {
      hide Inv;
      hide OpenwrtStep;
      hide DelUser;
      hide Admit;
      hide dma.Valid;
      OpenwrtCases(View(), fd, linked, written);
      if !linked {
        dma.Same();
        return;
      }
      OnAccept(fd);
      if !written {
        DeleteUser(fd, B.NoReply);
      }
    }

    /** MSG_INQUIRY_RF_INFO. */
    method OnRfInquiry(fd: int)
      requires dma.Valid() && Live(server.View(), fd)
      modifies this`rf
      ensures dma.Valid() && dma.Grown() && View() == AskRf(old(View()), fd)
    {
      var userNodeId := server.FindNodeId(fd);
      var asker := server.sessions[IndexOfFd(server.sessions, fd)];
      rf := rf.(pending := rf.pending + [Ask(userNodeId, asker.serial, rf.asked)], asked := rf.asked + 1);
    }

    /** MST_RF_INFO_READY. */
    method OnRfReady(job: nat)
      requires dma.Valid() && job < |rf.pending|
      modifies this`rf
      ensures dma.Valid() && dma.Grown() && View() == AnswerRf(old(View()), job)
    {
      var ask := rf.pending[job];
      rf := rf.(pending := rf.pending[..job] + rf.pending[job + 1..]);
      var node := server.FindByUserId(ask.nodeId);
      if node.Some? {
        rf := rf.(delivered := rf.delivered + [Delivery(ask.serial, node.value.serial, node.value.connfd)]);
      }
    }

    /** The end of the CSI and constellation cases: store the flag, then answer. */
    method StoreCsi(fd: int, enable: int)
      requires Live(server.View(), fd)
      modifies this, server
      ensures View() == SendState(SetFlags(old(View()), fd, FlagsOf(old(server.View()), fd).(csi := enable)), fd, CMD_OK)
    {
      server.RecordCsi(fd, enable);
      SendCmdState(fd, CMD_OK);
    }

    method StoreConstell(fd: int, enable: int)
      requires Live(server.View(), fd)
      modifies this, server
      ensures View() == SendState(SetFlags(old(View()), fd, FlagsOf(old(server.View()), fd).(constell := enable)), fd, CMD_OK)
    {
      server.RecordConstell(fd, enable);
      SendCmdState(fd, CMD_OK);
    }

    method AnswerCsi(fd: int, enable: int)
      requires dma.Valid() && Live(server.View(), fd)
      modifies this, server
      ensures dma.Valid() && dma.Grown()
      ensures View() == SendState(SetFlags(old(View()), fd, FlagsOf(old(server.View()), fd).(csi := enable)), fd, CMD_OK)
    {
      hide *;
      StoreCsi(fd, enable);
      dma.Same();
    }

    method AnswerConstell(fd: int, enable: int)
      requires dma.Valid() && Live(server.View(), fd)
      modifies this, server
      ensures dma.Valid() && dma.Grown()
      ensures View() == SendState(SetFlags(old(View()), fd, FlagsOf(old(server.View()), fd).(constell := enable)), fd, CMD_OK)
    {
      hide *;
      StoreConstell(fd, enable);
      dma.Same();
    }

    /** MSG_START_CSI. */
    method OnStartCsi(fd: int, rc: int)
      requires dma.Valid() && Live(server.View(), fd) && Unique(server.sessions)
      modifies this, server, dma, dma.csiUsers, dma.csiUsers.head, dma.csiUsers.nodes
      ensures dma.Valid() && dma.Grown() && View() == DmaStep(old(View()), StartCsi(fd, rc))
    {
      hide D.StartCsi;
      hide dma.Valid;
      hide FlagMap;
      var state := server.CheckConstellWorking();
      if state == 1 {
        SendCmdState(fd, CSI_MUTEX);
        return;
      }
      state := dma.StartCsiExternal(fd, rc);
      if state == 0 {
        server.RecordCsi(fd, 1);
      }
      SendCmdState(fd, state);
    }

    /** MSG_STOP_CSI. */
    method OnStopCsi(fd: int)
      requires dma.Valid() && Live(server.View(), fd)
      requires fd in dma.csiUsers.Fds() || dma.csiUsers.Fds() == []
      modifies this, server, dma, dma.csiUsers, dma.csiUsers.head, dma.csiUsers.nodes
      ensures dma.Valid() && dma.Grown() && View() == DmaStep(old(View()), StopCsi(fd))
    {
      hide D.StopCsi;
      hide dma.Valid;
      hide SetFlags;
      hide SendState;
      var freed := dma.StopCsiExternal(fd);
      AnswerCsi(fd, 0);
    }

    /** MSG_START_CONSTELLATION. */
    method OnStartConstell(fd: int, rc: int)
      requires dma.Valid() && Live(server.View(), fd) && Unique(server.sessions)
      modifies this, server, dma, dma.constellUsers, dma.constellUsers.head, dma.constellUsers.nodes
      ensures dma.Valid() && dma.Grown() && View() == DmaStep(old(View()), StartConstell(fd, rc))
    {
      hide D.StartConstell;
      hide dma.Valid;
      hide FlagMap;
      var state := server.CheckCsiWorking();
      if state == 1 {
        SendCmdState(fd, CONSTELL_MUTEX);
        return;
      }
      dma.StartConstellExternal(fd, rc);
      AnswerConstell(fd, 1);
    }

    /** MSG_STOP_CONSTELLATION. */
    method OnStopConstell(fd: int)
      requires dma.Valid() && Live(server.View(), fd)
      requires fd in dma.constellUsers.Fds() || dma.constellUsers.Fds() == []
      modifies this, server, dma, dma.constellUsers, dma.constellUsers.head, dma.constellUsers.nodes
      ensures dma.Valid() && dma.Grown() && View() == DmaStep(old(View()), StopConstell(fd))
    {
      hide D.StopConstell;
      hide dma.Valid;
      hide SetFlags;
      hide SendState;
      var freed := dma.StopConstellExternal(fd);
      AnswerConstell(fd, 0);
    }

    /** MSG_INQUIRY_RSSI. */
    method OnOpenRssi(fd: int, reply: B.Reply)
      requires Live(server.View(), fd) && B.Safe(broker.View())
      modifies server, broker
      ensures View() == RssiStep(old(View()), OpenRssi(fd, reply))
    {
      hide B.Open;
      hide B.Safe;
      var ret := broker.OpenExternal(fd, reply);
      if ret == 0 {
        server.RecordRssi(fd);
      }
    }

    /** MSG_CONTROL_RSSI. */
    method OnControlRssi(fd: int, op: int, fopenOk: bool)
      requires Inv(View()) && Live(server.View(), fd) && B.Safe(broker.View())
      modifies this, server, broker
      ensures View() == RssiStep(old(View()), ControlRssi(fd, op, fopenOk))
    {
      hide Inv;
      hide B.ControlSave;
      SaveRequestSafe(View(), fd);
      var ret := broker.ProcessSaveFile(fd, op, fopenOk);
      if ret == 0 {
        server.RecordRssiSave(fd, op);
      }
      SendCmdState(fd, ret);
    }

    /** MSG_CONTROL_SAVE_IQ_DATA. */
    method OnSaveCsi(fd: int, op: int, fopenOk: bool)
      requires Live(server.View(), fd) && V.Safe(saver.View())
      modifies this, server, saver
      ensures View() == SaveStep(old(View()), SaveCsi(fd, op, fopenOk))
    {
      hide V.ControlSave;
      hide V.Safe;
      var ret := saver.ProcessSaveFile(fd, op, fopenOk);
      server.RecordCsiSave(fd, op);
      SendCmdState(fd, CMD_OK);
    }

    /** eventLoop: one message, or one step of a writer thread. */
    method Handle(e: Event)
      requires dma.Valid() && Inv(View()) && Allowed(View(), e)
      modifies this, server, broker, saver, dma, dma.csiUsers, dma.csiUsers.head, dma.csiUsers.nodes,
               dma.constellUsers, dma.constellUsers.head, dma.constellUsers.nodes
      ensures dma.Valid() && dma.Grown() && View() == Step(old(View()), e) && Inv(View())
    {
      StepCases(View(), e);
      hide *;
      if e.Accept? {
        OnAccept(e.fd);
      } else if e.Disconnect? {
        DeleteUser(e.fd, e.reply);
      } else if e.OpenwrtConnected? {
        OnOpenwrtConnected(e.fd, e.linked, e.written);
      } else if e.RfInquiry? {
        OnRfInquiry(e.fd);
      } else if e.RfReady? {
        OnRfReady(e.job);
      } else if IsDma(e) {
        HandleDma(e);
      } else if IsRssi(e) {
        HandleRssi(e);
      } else {
        HandleSave(e);
      }
    }

    /** The messages to the loop, in the order they are taken, with the writers' steps between them. */
    method Serve(es: seq<Event>)
      requires dma.Valid() && Inv(View()) && Runs.Possible(View(), es)
      modifies this, server, broker, saver, dma, dma.csiUsers, dma.constellUsers, dma.Nodes()
      ensures dma.Valid() && Inv(View()) && View() == Runs.Run(old(View()), es)
    {
      if es != [] {
        RunSplit(View(), es);
        hide *;
        Turn(es[0]);
        Serve(es[1..]);
      }
    }

    method Turn(e: Event)
      requires dma.Valid() && Inv(View()) && Allowed(View(), e)
      modifies this, server, broker, saver, dma, dma.csiUsers, dma.constellUsers, dma.Nodes()
      ensures dma.Valid() && fresh(dma.Nodes() - old(dma.Nodes()))
      ensures View() == Step(old(View()), e) && Inv(View())
    {
      hide Step;
      hide Inv;
      hide Allowed;
      hide View;
      hide dma.Valid;
      Handle(e);
    }

    /** The CSI and constellation messages. */
    method HandleDma(e: Event)
      requires dma.Valid() && Inv(View()) && Allowed(View(), e) && IsDma(e)
      modifies this, server, dma, dma.csiUsers, dma.csiUsers.head, dma.csiUsers.nodes,
               dma.constellUsers, dma.constellUsers.head, dma.constellUsers.nodes
      ensures dma.Valid() && dma.Grown() && View() == DmaStep(old(View()), e)
    {
      InvUnique(View());
      hide Inv;
      hide DmaStep;
      if e.StartCsi? {
        OnStartCsi(e.fd, e.rc);
      } else if e.StopCsi? {
        OnStopCsi(e.fd);
      } else if e.StartConstell? {
        OnStartConstell(e.fd, e.rc);
      } else {
        OnStopConstell(e.fd);
      }
    }

    /** The RSSI messages. */
    method HandleRssi(e: Event)
      requires dma.Valid() && Inv(View()) && RssiCan(View(), e)
      modifies this, server, broker
      ensures dma.Valid() && dma.Grown()
      ensures View() == RssiStep(old(View()), e)
    {
      hide *;
      OnRssi(e);
      dma.Same();
    }

    method OnRssi(e: Event)
      requires Inv(View()) && RssiCan(View(), e)
      modifies this, server, broker
      ensures View() == RssiStep(old(View()), e)
    {
      hide Inv;
      hide B.Safe;
      if e.OpenRssi? {
        OnOpenRssi(e.fd, e.reply);
      } else if e.ControlRssi? {
        OnControlRssi(e.fd, e.op, e.fopenOk);
      } else if e.RssiReady? {
        broker.SendToSave(e.item);
      } else if e.ClearRssi? {
        broker.ClearWriteStatus();
      } else {
        broker.WriteThreadStep(e.node);
      }
    }

    /** The CSI recording messages. */
    method HandleSave(e: Event)
      requires dma.Valid() && SaveCan(View(), e)
      modifies this, server, saver
      ensures dma.Valid() && dma.Grown()
      ensures View() == SaveStep(old(View()), e)
    {
      hide *;
      OnSave(e);
      dma.Same();
    }

    method OnSave(e: Event)
      requires SaveCan(View(), e)
      modifies this, server, saver
      ensures View() == SaveStep(old(View()), e)
    {
      hide V.Safe;
      if e.SaveCsi? {
        OnSaveCsi(e.fd, e.op, e.fopenOk);
      } else if e.CsiReady? {
        saver.SendToSave(e.item);
      } else if e.ClearCsi? {
        saver.ClearWriteStatus();
      } else {
        saver.WriteThreadStep(e.node);
      }
    }

    /** del_user: undo whatever the session had switched on. */
    method DeleteUser(fd: int, reply: B.Reply)
      requires dma.Valid() && Inv(View()) && Live(server.View(), fd)
      modifies server, broker, saver, dma, dma.csiUsers, dma.csiUsers.head, dma.csiUsers.nodes,
               dma.constellUsers, dma.constellUsers.head, dma.constellUsers.nodes
      ensures dma.Valid() && dma.Grown() && View() == DelUser(old(View()), fd, reply)
    {
      ReadyToLeave(View(), fd, reply);
      DelUserIs(View(), fd, reply);
      hide *;
      hide Leavable;
      TakeOut(fd, reply);
    }

    method TakeOut(fd: int, reply: B.Reply)
      requires dma.Valid() && Live(server.View(), fd)
      requires Leavable(View(), fd, FlagsOf(server.View(), fd))
      modifies server, broker, saver, dma, dma.csiUsers, dma.csiUsers.head, dma.csiUsers.nodes,
               dma.constellUsers, dma.constellUsers.head, dma.constellUsers.nodes
      ensures dma.Valid() && dma.Grown() && View() == Left(old(View()), fd, reply)
    {
      hide LeaveRssi;
      hide LeaveDma;
      hide LeaveSave;
      hide Drop;
      hide B.Memory;
      hide B.HasQueue;
      hide B.Opened;
      hide V.Safe;
      var node := server.Remove(fd);
      var flags := node.value.flags;
      LeaveBroker(fd, flags, reply);
      LeaveFeatures(fd, flags);
      LeaveSaver(fd, flags);
    }

    /** The recording part of del_user. */
    method LeaveSaver(fd: int, flags: Flags)
      requires V.Safe(saver.View())
      requires flags.csiSave != 0 ==> (V.Present(saver.View(), fd)
                 && saver.nodes[saver.list[V.Find(saver.View(), fd)]].file.started)
      modifies saver
      ensures saver.View() == LeaveSave(old(saver.View()), fd, flags)
    {
      if flags.csiSave != 0 {
        saver.InformStopThread(fd);
      }
    }

    /** The RSSI part of del_user: end a recording, then close. */
    method LeaveBroker(fd: int, flags: Flags, reply: B.Reply)
      requires B.Memory(broker.View())
      requires flags.rssiSave != 0 ==> B.Opened(broker.View(), fd) && B.HasQueue(broker.View(), fd)
      requires flags.rssi != 0 ==> B.Opened(broker.View(), fd)
      modifies broker
      ensures broker.View() == LeaveRssi(old(broker.View()), fd, flags, reply)
    {
      ghost var b := broker.View();
      LeaveRssiOpened(b, fd, flags);
      if flags.rssiSave != 0 {
        StopMemory(b, fd);
        broker.InformStopThread(fd);
      }
      if flags.rssi != 0 {
        broker.CloseExternal(fd, reply);
      }
    }

    /** The CSI and constellation part of del_user. */
    method LeaveFeatures(fd: int, flags: Flags)
      requires dma.Valid()
      requires flags.csi != 0 ==> fd in dma.csiUsers.Fds()
      requires flags.constell != 0 ==> fd in dma.constellUsers.Fds()
      modifies dma, dma.csiUsers, dma.csiUsers.head, dma.csiUsers.nodes,
               dma.constellUsers, dma.constellUsers.head, dma.constellUsers.nodes
      ensures dma.Valid() && dma.Grown() && dma.View() == LeaveDma(old(dma.View()), fd, flags)
    {
      ghost var d := dma.View();
      if flags.csi != 0 {
        var freed := dma.StopCsiExternal(fd);
        assert freed == null || freed !in dma.csiUsers.nodes;
        assert dma.View().constell == d.constell;
      }
      if flags.constell != 0 {
        var freed := dma.StopConstellExternal(fd);
        assert freed == null || freed !in dma.constellUsers.nodes;
      }
    }
  }

  lemma RunSplit(s: Sys, es: seq<Event>)
    requires Inv(s) && Runs.Possible(s, es) && es != []
    ensures Allowed(s, es[0]) && Inv(Step(s, es[0])) && Runs.Possible(Step(s, es[0]), es[1..])
    ensures Runs.Run(s, es) == Runs.Run(Step(s, es[0]), es[1..])
  {
    StepKeeps(s, es[0]);
  }

  lemma StepCases(s: Sys, e: Event)
    requires Inv(s) && Allowed(s, e)
    ensures Inv(Step(s, e))
    ensures e.Accept? ==> Step(s, e) == s.(server := Admit(s.server, e.fd))
    ensures e.Disconnect? ==> Live(s.server, e.fd) && Step(s, e) == DelUser(s, e.fd, e.reply)
    ensures e.OpenwrtConnected? ==> (e.linked ==> !Live(s.server, e.fd)) && Step(s, e) == OpenwrtStep(s, e.fd, e.linked, e.written)
    ensures e.RfInquiry? ==> Live(s.server, e.fd) && Step(s, e) == AskRf(s, e.fd)
    ensures e.RfReady? ==> e.job < |s.rf.pending| && Step(s, e) == AnswerRf(s, e.job)
    ensures IsDma(e) ==> Live(s.server, e.fd) && Step(s, e) == DmaStep(s, e)
    ensures IsRssi(e) ==> RssiCan(s, e) && Step(s, e) == RssiStep(s, e)
    ensures !e.Accept? && !e.Disconnect? && !e.OpenwrtConnected? && !e.RfInquiry? && !e.RfReady? && !IsDma(e) && !IsRssi(e) ==>
              SaveCan(s, e) && Step(s, e) == SaveStep(s, e)
  {
    hide Inv;
    hide DmaStep;
    hide RssiStep;
    hide SaveStep;
    hide DelUser;
    StepKeeps(s, e);
    AllowedCan(s, e);
  }

  lemma OpenwrtCases(s: Sys, fd: int, linked: bool, written: bool)
    requires Inv(s) && (linked ==> !Live(s.server, fd))
    ensures var t := s.(server := Admit(s.server, fd));
            if !linked then OpenwrtStep(s, fd, linked, written) == s
            else
              && Inv(t) && Live(t.server, fd)
              && OpenwrtStep(s, fd, linked, written) == if written then t else DelUser(t, fd, B.NoReply)
  {
    hide Inv;
    hide Admit;
    hide DelUser;
    if linked {
      AcceptKeeps(s, fd);
      AdmittedLive(s.server, fd);
    }
  }

  lemma InvUnique(s: Sys)
    requires Inv(s)
    ensures Unique(s.server.sessions)
  {
  }

  /** The system after del_user, part by part. */
  ghost function Left(s: Sys, fd: int, reply: B.Reply): Sys
    requires Live(s.server, fd) && Leavable(s, fd, FlagsOf(s.server, fd))
  {
    var flags := FlagsOf(s.server, fd);
    s.(server := Drop(s.server, fd),
       broker := LeaveRssi(s.broker, fd, flags, reply),
       dma := LeaveDma(s.dma, fd, flags),
       saver := LeaveSave(s.saver, fd, flags))
  }

  lemma DelUserIs(s: Sys, fd: int, reply: B.Reply)
    requires Inv(s) && Live(s.server, fd) && Leavable(s, fd, FlagsOf(s.server, fd))
    ensures DelUser(s, fd, reply) == Left(s, fd, reply)
  {
  }

  lemma StopMemory(b: B.Broker, fd: int)
    requires B.Memory(b) && B.Opened(b, fd) && B.HasQueue(b, fd)
    ensures B.Memory(B.InformStop(b, fd))
  {
    var p := b.list[B.Find(b, fd)];
    B.SetFileMemory(b, p, R.PushEnd(b.heap[p].file.value));
  }

  /** A stop request meets a queue. */
  lemma SaveRequestSafe(s: Sys, fd: int)
    requires Inv(s) && Live(s.server, fd)
    ensures B.Safe(s.broker)
    ensures B.Opened(s.broker, fd) && B.FileOf(s.broker.heap[s.broker.list[B.Find(s.broker, fd)]]).enable != 0 ==>
              B.HasQueue(s.broker, fd)
  {
    LookUp(s, fd);
    B.SessionNode(Flagged(s), s.broker, fd);
  }
}
