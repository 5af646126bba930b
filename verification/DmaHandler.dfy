/** The start and stop functions of dma_handler.c, over the counted user lists. */
module DmaHandler {
  import opened DmaModel
  import opened UserList

  /** The CSI and constellation part of g_dma_para. `calls` records the calls of the axidma library. */
  class Handler {
    const open: bool
    const csiUsers: Users
    const constellUsers: Users
    var csiState: int
    var constellState: int
    var calls: seq<DeviceCall>

    ghost predicate Valid()
      reads this, csiUsers, csiUsers.head, csiUsers.nodes, constellUsers, constellUsers.head, constellUsers.nodes
    {
      && csiUsers.Valid() && constellUsers.Valid()
      && csiUsers != constellUsers && csiUsers.head != constellUsers.head
      && csiUsers.head !in constellUsers.nodes && constellUsers.head !in csiUsers.nodes
      && (forall n :: n in csiUsers.nodes ==> n !in constellUsers.nodes)
    }

    ghost function View(): Dma
      reads this, csiUsers, constellUsers
    {
      Dma(open, Feature(csiUsers.Fds(), csiUsers.cnt, csiState),
          Feature(constellUsers.Fds(), constellUsers.cnt, constellState), calls)
    }

    /** The heads and nodes of the two lists. */
    ghost function Nodes(): set<ListHead>
      reads csiUsers, constellUsers
    {
      {csiUsers.head, constellUsers.head} + (set n | n in csiUsers.nodes) + (set n | n in constellUsers.nodes)
    }

    /** New list nodes are fresh ones. */
    twostate predicate Grown()
      reads csiUsers, constellUsers
    {
      && (forall n :: n in csiUsers.nodes ==> n in old(csiUsers.nodes) || fresh(n))
      && (forall n :: n in constellUsers.nodes ==> n in old(constellUsers.nodes) || fresh(n))
    }

    twostate lemma Same()
      requires unchanged(csiUsers) && unchanged(constellUsers)
      ensures Grown()
    {
    }

    /** create_dma_handler; `open` says whether axidma_open succeeded. */
    constructor (open: bool)
      ensures Valid() && fresh(csiUsers) && fresh(constellUsers) && fresh(csiUsers.head) && fresh(constellUsers.head)
      ensures csiUsers.nodes == [] && constellUsers.nodes == []
      ensures View() == Dma(open, IDLE, IDLE, [])
    {
      this.open := open;
      csiUsers := new Users();
      constellUsers := new Users();
      csiState, constellState, calls := 0, 0, [];
    }

    /** start_csi. */
    method StartCsiDevice(rc: int) returns (ret: int)
      modifies this
      ensures (View().csi, View().calls, ret) == StartDevice(open, old(View()).csi, old(calls), CSI_CHANNEL, rc)
      ensures View().constell == old(View()).constell
    {
      if !open {
        csiState := 0;
        return -1;
      }
      calls := calls + [Select(CSI_CHANNEL)];
      calls := calls + [Start(rc)];
      assert calls == old(calls) + [Select(CSI_CHANNEL), Start(rc)];
      csiState := 1;
      ret := rc;
    }

    /** Look the user up and add a node for a new one. */
    method AddCsiUser(connfd: int)
      requires Valid()
      modifies csiUsers, csiUsers.head, csiUsers.nodes
      ensures Valid() && Grown()
      ensures constellUsers.Fds() == old(constellUsers.Fds()) && constellUsers.cnt == old(constellUsers.cnt)
      ensures View().csi == AddUser(old(View().csi), connfd)
    {
      var node := csiUsers.Find(connfd);
      if node == null {
        csiUsers.Add(connfd);
      }
      assert constellUsers.nodes == old(constellUsers.nodes);
      assert forall n :: n in constellUsers.nodes ==> n.next == old(n.next) && n.prev == old(n.prev);
      assert constellUsers.Valid();
    }

    /** start_csi_state_external. */
    method StartCsiExternal(connfd: int, rc: int) returns (state: int)
      requires Valid()
      modifies this, csiUsers, csiUsers.head, csiUsers.nodes
      ensures Valid() && Grown()
      ensures (View(), state) == StartCsi(old(View()), connfd, rc)
    {
      state := -1;
      if csiUsers.cnt == 0 && csiState == 0 {
        state := StartCsiDevice(rc);
        if state != 0 {
          return -1;
        }
      }
      AddCsiUser(connfd);
      state := 0;
    }

    /** stop_csi_state_external: take the user out of the list, then stop an unused device. `freed` is the
        node that it frees. Without the user in the list that is the last node, which stays linked. */
    method StopCsiExternal(connfd: int) returns (freed: ListHead?)
      requires Valid()
      modifies this, csiUsers, csiUsers.head, csiUsers.nodes
      ensures Valid() && Grown()
      ensures View() == StopCsi(old(View()), connfd)
      ensures freed != null && freed in csiUsers.nodes <==> old(csiUsers.Fds()) != [] && connfd !in old(csiUsers.Fds())
    {
      freed := TakeCsiUser(connfd);
      if csiUsers.cnt == 0 && csiState == 1 {
        StopCsiDevice();
      }
    }

    /** The removal loop and the free after it. */
    method TakeCsiUser(connfd: int) returns (freed: ListHead?)
      requires Valid()
      modifies csiUsers, csiUsers.head, csiUsers.nodes
      ensures Valid() && Grown()
      ensures constellUsers.Fds() == old(constellUsers.Fds()) && constellUsers.cnt == old(constellUsers.cnt)
      ensures csiUsers.Fds() == RemoveFirst(old(csiUsers.Fds()), connfd) && csiUsers.cnt == |csiUsers.Fds()|
      ensures freed != null && freed in csiUsers.nodes <==> old(csiUsers.Fds()) != [] && connfd !in old(csiUsers.Fds())
    {
      hide RemoveFirst;
      freed := csiUsers.Remove(connfd);
      assert constellUsers.nodes == old(constellUsers.nodes);
      assert forall n :: n in constellUsers.nodes ==> n.next == old(n.next) && n.prev == old(n.prev);
      assert constellUsers.Valid();
    }

    /** stop_csi. */
    method StopCsiDevice()
      modifies this`csiState, this`calls
      ensures csiState == 0 && calls == old(calls) + if open then [Stop] else []
    {
      if open {
        calls := calls + [Stop];
      }
      csiState := 0;
    }

    /** start_constellation. */
    method StartConstellDevice(rc: int) returns (ret: int)
      modifies this
      ensures (View().constell, View().calls, ret) == StartDevice(open, old(View()).constell, old(calls), CONSTELL_CHANNEL, rc)
      ensures View().csi == old(View()).csi
    {
      if !open {
        constellState := 0;
        return -1;
      }
      calls := calls + [Select(CONSTELL_CHANNEL)];
      calls := calls + [Start(rc)];
      assert calls == old(calls) + [Select(CONSTELL_CHANNEL), Start(rc)];
      constellState := 1;
      ret := rc;
    }

    /** Look the user up and add a node for a new one. */
    method AddConstellUser(connfd: int)
      requires Valid()
      modifies constellUsers, constellUsers.head, constellUsers.nodes
      ensures Valid() && Grown()
      ensures csiUsers.Fds() == old(csiUsers.Fds()) && csiUsers.cnt == old(csiUsers.cnt)
      ensures View().constell == AddUser(old(View().constell), connfd)
    {
      var node := constellUsers.Find(connfd);
      if node == null {
        constellUsers.Add(connfd);
      }
      assert csiUsers.nodes == old(csiUsers.nodes);
      assert forall n :: n in csiUsers.nodes ==> n.next == old(n.next) && n.prev == old(n.prev);
      assert csiUsers.Valid();
    }

    /** start_constellation_external: it does not look at what start_constellation returned. */
    method StartConstellExternal(connfd: int, rc: int)
      requires Valid()
      modifies this, constellUsers, constellUsers.head, constellUsers.nodes
      ensures Valid() && Grown()
      ensures View() == StartConstell(old(View()), connfd, rc)
    {
      if constellUsers.cnt == 0 && constellState == 0 {
        var state := StartConstellDevice(rc);
      }
      AddConstellUser(connfd);
    }

    /** stop_constellation_external, which frees the same way. */
    method StopConstellExternal(connfd: int) returns (freed: ListHead?)
      requires Valid()
      modifies this, constellUsers, constellUsers.head, constellUsers.nodes
      ensures Valid() && Grown()
      ensures View() == StopConstell(old(View()), connfd)
      ensures freed != null && freed in constellUsers.nodes <==> old(constellUsers.Fds()) != [] && connfd !in old(constellUsers.Fds())
    {
      freed := TakeConstellUser(connfd);
      if constellUsers.cnt == 0 && constellState == 1 {
        StopConstellDevice();
      }
    }

    /** The removal loop and the free after it. */
    method TakeConstellUser(connfd: int) returns (freed: ListHead?)
      requires Valid()
      modifies constellUsers, constellUsers.head, constellUsers.nodes
      ensures Valid() && Grown()
      ensures csiUsers.Fds() == old(csiUsers.Fds()) && csiUsers.cnt == old(csiUsers.cnt)
      ensures constellUsers.Fds() == RemoveFirst(old(constellUsers.Fds()), connfd) && constellUsers.cnt == |constellUsers.Fds()|
      ensures freed != null && freed in constellUsers.nodes <==> old(constellUsers.Fds()) != [] && connfd !in old(constellUsers.Fds())
    {
      hide RemoveFirst;
      freed := constellUsers.Remove(connfd);
      assert csiUsers.nodes == old(csiUsers.nodes);
      assert forall n :: n in csiUsers.nodes ==> n.next == old(n.next) && n.prev == old(n.prev);
      assert csiUsers.Valid();
    }

    /** stop_constellation. */
    method StopConstellDevice()
      modifies this`constellState, this`calls
      ensures constellState == 0 && calls == old(calls) + if open then [Stop] else []
    {
      if open {
        calls := calls + [Stop];
      }
      constellState := 0;
    }
  }

  /** Two sessions are enough: one uses CSI, another one stops it, and the node of the first is freed while
      it is in the list. */
  method StopByAnother() returns (h: Handler, freed: ListHead?)
    ensures h.Valid() && h.csiUsers.Fds() == [1]
    ensures freed != null && freed in h.csiUsers.nodes && freed.connfd == 1
  {
    h := new Handler(true);
    assert h.csiUsers.nodes == [];
    var state := h.StartCsiExternal(1, 0);
    assert h.View().csi.users == [1];
    assert fresh(h) && fresh(h.csiUsers) && fresh(h.csiUsers.head);
    assert h.csiUsers.nodes[0] in h.csiUsers.nodes;
    assert fresh(h.csiUsers.nodes[0]);
    freed := h.StopCsiExternal(2);
    assert h.View().csi.users == [1];
    assert |h.csiUsers.nodes| == 1 && freed == h.csiUsers.nodes[0] && h.csiUsers.Fds()[0] == freed.connfd;
  }
}
