/** The RSSI functions of mosquitto_broker.c as they run on nodes in memory. */
module RssiHandler {
  import opened Wrappers
  import opened RssiModel
  import opened Recorder

  /** The RSSI part of g_broker_para. `nodes` is the memory of the nodes by address; `next`, `freed`
      `cleared` and `requests` are history. */
  class Handler {
    var nodes: map<nat, Node>
    var next: nat
    var list: seq<nat>
    var userCnt: int
    var rssiState: int
    var mailbox: seq<nat>
    var freed: seq<nat>
    var cleared: seq<File>
    var requests: seq<Request>

    function View(): Broker
      reads this
    {
      Broker(nodes, next, list, userCnt, rssiState, mailbox, freed, cleared, requests)
    }

    /** createBroker. */
    constructor ()
      ensures View() == EMPTY_BROKER
    {
      nodes, next, list := map[], 0, [];
      userCnt, rssiState := 0, 0;
      mailbox, freed, cleared, requests := [], [], [], [];
    }

    /** findNode, as a position on the list. */
    method FindNode(connfd: int) returns (found: bool, i: nat)
      requires Safe(View())
      ensures i == Find(View(), connfd) && (found <==> Opened(View(), connfd))
    {
      i := 0;
      while i < |list|
        invariant 0 <= i <= |list|
        invariant forall j :: 0 <= j < i ==> nodes[list[j]].connfd != connfd
      {
        if nodes[list[i]].connfd == connfd {
          return true, i;
        }
        i := i + 1;
      }
      found := false;
    }

    /** control_rssi_state, with dev_transfer's answer. */
    method ControlState(newState: int, reply: Reply) returns (ret: int)
      modifies this`rssiState, this`requests
      ensures (View(), ret) == Control(old(View()), newState, reply)
    {
      ret := -1;
      requests := requests + [Request(newState == 1, reply)];
      if reply.Answer? {
        rssiState := newState;
        if reply.ok {
          ret := 0;
        }
      }
    }

    /** open_rssi_state_external. */
    method OpenExternal(connfd: int, reply: Reply) returns (ret: int)
      modifies this
      ensures (View(), ret) == Open(old(View()), connfd, reply)
    {
      ret := -1;
      if userCnt == 0 && rssiState == 0 {
        ret := ControlState(1, reply);
        if ret != 0 {
          return -1;
        }
      }
      var node := next;
      next := next + 1;
      nodes := nodes[node := Node(connfd, None, 0)];
      list := list + [node];
      userCnt := userCnt + 1;
      ret := 0;
    }

    /** close_rssi_state_external: the removal loop, then the node that it stopped at, if any, is released.
        That node is never one that is already marked, as the code asserts. */
    method CloseExternal(connfd: int, reply: Reply)
      requires Memory(View())
      modifies this
      ensures View() == Close(old(View()), connfd, reply)
    {
      hide Control;
      hide Release;
      var pnode: Option<nat> := None;
      var i := 0;
      while i < |list|
        invariant 0 <= i <= |list| && View() == old(View())
        invariant pnode == if i == 0 then None else Some(list[i - 1])
        invariant forall j :: 0 <= j < i ==> nodes[list[j]].connfd != connfd
      {
        pnode := Some(list[i]);
        if nodes[list[i]].connfd == connfd {
          list := list[..i] + list[i + 1..];
          userCnt := userCnt - 1;
          break;
        }
        i := i + 1;
      }
      assert i == Find(old(View()), connfd);
      if pnode.Some? {
        ReleaseNode(pnode.value);
      }
      if userCnt == 0 && rssiState == 1 {
        var ret := ControlState(0, reply);
      }
    }

    /** Free the node now, or leave that to CLEAR. */
    method ReleaseNode(pnode: nat)
      requires pnode in nodes && nodes[pnode].confirmDelete == 0
      modifies this`nodes, this`freed
      ensures View() == Release(old(View()), pnode)
    {
      if nodes[pnode].file.None? {
        nodes := nodes - {pnode};
        freed := freed + [pnode];
      } else {
        nodes := nodes[pnode := nodes[pnode].(confirmDelete := 1)];
      }
    }

    /** inform_stop_rssi_write_thread. */
    method InformStopThread(connfd: int)
      requires Safe(View()) && (Opened(View(), connfd) ==> HasQueue(View(), connfd))
      modifies this`nodes
      ensures View() == InformStop(old(View()), connfd)
    {
      var found, i := FindNode(connfd);
      if !found {
        return;
      }
      var p := list[i];
      var f := nodes[p].file.value;
      f := f.(queue := f.queue + [[]]);
      f := f.(enable := 0);
      nodes := nodes[p := nodes[p].(file := Some(f))];
    }

    /** process_rssi_save_file. */
    method ProcessSaveFile(connfd: int, op: int, fopenOk: bool) returns (ret: int)
      requires Safe(View())
      requires Opened(View(), connfd) && FileOf(nodes[list[Find(View(), connfd)]]).enable != 0 ==> HasQueue(View(), connfd)
      modifies this`nodes
      ensures (View(), ret) == ControlSave(old(View()), connfd, op, fopenOk)
    {
      var found, i := FindNode(connfd);
      if !found {
        return -2;
      }
      var p := list[i];
      if nodes[p].file.None? {
        nodes := nodes[p := nodes[p].(file := Some(Fresh()))];
      }
      var f := nodes[p].file.value;
      assert View() == SetFile(old(View()), p, f);
      if op == 0 {
        if f.enable == 0 {
          return -1;
        }
        nodes := nodes[p := nodes[p].(file := Some(PushEnd(f)))];
        assert View() == SetFile(old(View()), p, PushEnd(f));
      } else if op == 1 {
        if f.enable == 1 {
          return -1;
        }
        if !fopenOk {
          return -1;
        }
        f := f.(written := []);
        f := f.(queue := [], started := true, pushed := []);
        f := f.(phase := Idle);
        f := f.(enable := 1);
        nodes := nodes[p := nodes[p].(file := Some(f))];
        assert View() == SetFile(old(View()), p, Recorder.Start());
      }
      ret := 0;
    }

    /** send_rssi_to_save. */
    method SendToSave(item: Item)
      requires Safe(View())
      modifies this`nodes
      ensures View() == Sample(old(View()), 0, item)
    {
      var i := 0;
      while i < |list|
        invariant 0 <= i <= |list| && Safe(View()) && list == old(list)
        invariant Sample(View(), i, item) == Sample(old(View()), 0, item)
      {
        var p := list[i];
        if nodes[p].file.Some? {
          var f := nodes[p].file.value;
          if f.enable == 0 {
            break;
          } else if f.enable == 1 {
            nodes := nodes[p := nodes[p].(file := Some(PushSample(f, item)))];
          } else if f.enable == 2 {
            nodes := nodes[p := nodes[p].(file := Some(PushEnd(f)))];
          }
        }
        i := i + 1;
      }
    }

    /** clear_rssi_write_status, for the message at the head of the queue. */
    method ClearWriteStatus()
      requires Safe(View()) && mailbox != [] && nodes[mailbox[0]].file.Some?
      modifies this
      ensures View() == Clear(old(View()))
    {
      var p := mailbox[0];
      mailbox := mailbox[1..];
      cleared := cleared + [nodes[p].file.value];
      nodes := nodes[p := nodes[p].(file := None)];
      if nodes[p].confirmDelete == 1 {
        nodes := nodes - {p};
        freed := freed + [p];
      }
    }

    /** One step of rssi_write_thread: pop, write, or, after the terminator, post CLEAR. */
    method WriteThreadStep(p: nat)
      requires WriterCanMove(View(), p)
      modifies this`nodes, this`mailbox
      ensures View() == WriterMove(old(View()), p)
    {
      var f := nodes[p].file.value;
      if f.phase.Idle? {
        var work := f.queue[0];
        f := f.(queue := f.queue[1..]);
        if |work| == 0 {
          f := f.(phase := Exiting);
        } else {
          f := f.(phase := Holding(work));
        }
      } else if f.phase.Holding? {
        f := f.(written := f.written + [f.phase.item]);
        f := f.(phase := Idle);
      } else {
        f := f.(phase := Posted);
        mailbox := mailbox + [p];
      }
      nodes := nodes[p := nodes[p].(file := Some(f))];
    }
  }
}
