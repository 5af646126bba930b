/** The CSI recording functions of dma_handler.c as they run on nodes in memory. */
module CsiSaveHandler {
  import opened CsiSaveModel
  import opened Recorder

  /** The save part of g_dma_para; `next`, `freed` and `cleared` are history. */
  class Handler {
    var nodes: map<nat, Node>
    var next: nat
    var list: seq<nat>
    var saveUserCnt: int
    var mailbox: seq<nat>
    var freed: seq<nat>
    var cleared: seq<File>

    function View(): Saver
      reads this
    {
      Saver(nodes, next, list, saveUserCnt, mailbox, freed, cleared)
    }

    constructor ()
      ensures View() == EMPTY_SAVER
    {
      nodes, next, list, saveUserCnt := map[], 0, [], 0;
      mailbox, freed, cleared := [], [], [];
    }

    /** findCsiSaveUserNode, as a position on the list. */
    method FindSaveUserNode(connfd: int) returns (found: bool, i: nat)
      requires Safe(View())
      ensures i == Find(View(), connfd) && (found <==> Present(View(), connfd))
    {
      i := 0;
      while i < |list|
        invariant 0 <= i <= |list|
        invariant forall j :: 0 <= j < i ==> nodes[list[j]].connfd != connfd
      {
        if nodes[list[i]].connfd == connfd {
          return true, i;
        }
        i := i + 1;
      }
      found := false;
    }

    /** The first part of process_csi_save_file: find the node of the connfd, or add one. */
    method AccessNode(connfd: int) returns (p: nat)
      requires Safe(View())
      modifies this
      ensures (View(), p) == Access(old(View()), connfd) && p in nodes
    {
      var found, i := FindSaveUserNode(connfd);
      if found {
        return list[i];
      }
      p := next;
      next := next + 1;
      nodes := nodes[p := Node(connfd, Fresh())];
      list := list + [p];
      saveUserCnt := saveUserCnt + 1;
    }

    /** process_csi_save_file. */
    method ProcessSaveFile(connfd: int, op: int, fopenOk: bool) returns (ret: int)
      requires Safe(View())
      modifies this
      ensures (View(), ret) == ControlSave(old(View()), connfd, op, fopenOk)
    {
      ghost var before := View();
      var p := AccessNode(connfd);
      ghost var accessed := View();
      assert (accessed, p) == Access(before, connfd);
      var f := nodes[p].file;
      if op == 0 {
        if f.enable == 0 {
          return 0;
        }
        nodes := nodes[p := nodes[p].(file := PushEnd(f))];
      } else if op == 1 {
        if f.enable == 1 {
          return 0;
        }
        if !fopenOk {
          return -1;
        }
        f := f.(written := []);
        f := f.(queue := [], started := true, pushed := []);
        f := f.(phase := Idle);
        f := f.(enable := 1);
        nodes := nodes[p := nodes[p].(file := f)];
        assert View() == SetFile(accessed, p, Recorder.Start());
      }
      ret := 0;
    }

    /** inform_stop_csi_write_thread. */
    method InformStopThread(connfd: int)
      requires Safe(View())
      requires Present(View(), connfd) ==> nodes[list[Find(View(), connfd)]].file.started
      modifies this`nodes
      ensures View() == InformStop(old(View()), connfd)
    {
      var found, i := FindSaveUserNode(connfd);
      if !found {
        return;
      }
      var p := list[i];
      var f := nodes[p].file;
      f := f.(queue := f.queue + [[]]);
      f := f.(enable := 0);
      nodes := nodes[p := nodes[p].(file := f)];
    }

    /** send_csi_to_save. */
    method SendToSave(item: Item)
      requires Safe(View())
      modifies this`nodes
      ensures View() == Sample(old(View()), 0, item)
    {
      var i := 0;
      while i < |list|
        invariant 0 <= i <= |list| && Safe(View()) && list == old(list)
        invariant Sample(View(), i, item) == Sample(old(View()), 0, item)
      {
        var p := list[i];
        var f := nodes[p].file;
        if f.enable == 0 {
          break;
        } else if f.enable == 1 {
          nodes := nodes[p := nodes[p].(file := PushSample(f, item))];
        }
        i := i + 1;
      }
    }

    /** clear_csi_write_status, for the message at the head of the queue. */
    method ClearWriteStatus()
      requires Safe(View()) && mailbox != []
      modifies this
      ensures View() == Clear(old(View()))
    {
      var userNode := mailbox[0];
      mailbox := mailbox[1..];
      var i := 0;
      while i < |list|
        invariant 0 <= i <= |list|
        invariant View() == old(View()).(mailbox := mailbox)
        invariant forall j :: 0 <= j < i ==> list[j] != userNode
      {
        if list[i] == userNode {
          FirstAt(list, userNode, i);
          list := list[..i] + list[i + 1..];
          saveUserCnt := saveUserCnt - 1;
          break;
        }
        i := i + 1;
      }
      FirstAt(old(list), userNode, i);
      cleared := cleared + [nodes[userNode].file];
      nodes := nodes - {userNode};
      freed := freed + [userNode];
    }

    /** One step of csi_write_thread: pop, write, or, after the terminator, post CLEAR. */
    method WriteThreadStep(p: nat)
      requires WriterCanMove(View(), p)
      modifies this`nodes, this`mailbox
      ensures View() == WriterMove(old(View()), p)
    {
      var f := nodes[p].file;
      if f.phase.Idle? {
        var work := f.queue[0];
        f := f.(queue := f.queue[1..]);
        if |work| == 0 {
          f := f.(phase := Exiting);
        } else {
          f := f.(phase := Holding(work));
        }
      } else if f.phase.Holding? {
        f := f.(written := f.written + [f.phase.item]);
        f := f.(phase := Idle);
      } else {
        f := f.(phase := Posted);
        mailbox := mailbox + [p];
      }
      nodes := nodes[p := nodes[p].(file := f)];
    }
  }

  lemma FirstAt(s: seq<nat>, p: nat, i: nat)
    requires i <= |s| && (i < |s| ==> s[i] == p)
    requires forall j :: 0 <= j < i ==> s[j] != p
    ensures IndexOf(s, p) == i
  {
  }
}
