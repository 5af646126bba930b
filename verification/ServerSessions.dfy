/** The session functions of server.c and event_process.c as they run: loops over the list. */
module ServerSessions {
  import opened Wrappers
  import opened Sessions
  import DmaModel

  /** Somebody in the list has the flag; on a list without duplicates that is what the map says. */
  lemma SomeInList(ss: seq<Session>)
    requires Unique(ss)
    ensures (exists i :: 0 <= i < |ss| && ss[i].flags.csi == 1) <==> DmaModel.SomeCsi(FlagMap(ss))
    ensures (exists i :: 0 <= i < |ss| && ss[i].flags.constell == 1) <==> DmaModel.SomeConstell(FlagMap(ss))
  {
    forall i | 0 <= i < |ss| ensures ss[i].connfd in FlagMap(ss) && FlagMap(ss)[ss[i].connfd] == ss[i].flags {
      MapDomain(ss, ss[i].connfd);
    }
    forall fd | fd in FlagMap(ss)
      ensures exists i :: 0 <= i < |ss| && ss[i].flags == FlagMap(ss)[fd] && ss[i].connfd == fd
    {
      MapDomain(ss, fd);
    }
  }

  /** The session part of g_server_para. `admitted` is history. */
  class SessionTable {
    var sessions: seq<Session>
    var sessionCnt: int
    var nextId: int
    var admitted: nat

    function View(): Server
      reads this
    {
      Server(sessions, sessionCnt, nextId, admitted)
    }

    /** CreateServerThread. */
    constructor ()
      ensures View() == EMPTY_SERVER
    {
      sessions, sessionCnt, nextId, admitted := [], 0, 1, 0;
    }

    /** new_user_node and add_new_user_node_to_list. */
    method Add(connfd: int)
      modifies this
      ensures View() == Admit(old(View()), connfd)
    {
      sessions := sessions + [Session(connfd, nextId, admitted, NO_FLAGS)];
      sessionCnt := sessionCnt + 1;
      nextId := nextId + 1;
      if nextId == ID_LIMIT {
        nextId := 1;
      }
      admitted := admitted + 1;
    }

    /** del_user_node_in_list. Without a match it leaves the list alone and still returns the last node. */
    method Remove(connfd: int) returns (pnode: Option<Session>)
      modifies this
      ensures Live(old(View()), connfd) ==>
                View() == Drop(old(View()), connfd) && pnode == Some(old(sessions)[IndexOfFd(old(sessions), connfd)])
      ensures !Live(old(View()), connfd) ==>
                View() == old(View())
                && pnode == if old(sessions) == [] then None else Some(old(sessions)[|old(sessions)| - 1])
    {
      pnode := None;
      var i := 0;
      while i < |sessions|
        invariant 0 <= i <= |sessions| && View() == old(View())
        invariant forall j :: 0 <= j < i ==> sessions[j].connfd != connfd
        invariant pnode == if i == 0 then None else Some(sessions[i - 1])
      {
        pnode := Some(sessions[i]);
        if sessions[i].connfd == connfd {
          FirstMatch(sessions, connfd, i);
          sessions := sessions[..i] + sessions[i + 1..];
          sessionCnt := sessionCnt - 1;
          return;
        }
        i := i + 1;
      }
      FirstMatch(sessions, connfd, i);
    }

    /** find_user_node_by_connfd, as a position. */
    method FindByConnfd(connfd: int) returns (found: bool, at: nat)
      ensures found <==> Live(View(), connfd)
      ensures found ==> at == IndexOfFd(sessions, connfd)
    {
      at := 0;
      while at < |sessions|
        invariant 0 <= at <= |sessions|
        invariant forall j :: 0 <= j < at ==> sessions[j].connfd != connfd
      {
        if sessions[at].connfd == connfd {
          FirstMatch(sessions, connfd, at);
          return true, at;
        }
        at := at + 1;
      }
      FirstMatch(sessions, connfd, at);
      found := false;
    }

    /** find_user_node_id: the id that an RF request carries, -1 for a session that is gone. */
    method FindNodeId(connfd: int) returns (id: int)
      ensures id == if Live(View(), connfd) then sessions[IndexOfFd(sessions, connfd)].nodeId else -1
    {
      var found, at := FindByConnfd(connfd);
      id := if found then sessions[at].nodeId else -1;
    }

    /** find_user_node_by_user_id: where an RF reply goes. */
    method FindByUserId(id: int) returns (r: Option<Session>)
      ensures Recipient(View(), id) == if r.Some? then [r.value] else []
    {
      var i := 0;
      while i < |sessions|
        invariant 0 <= i <= |sessions|
        invariant forall j :: 0 <= j < i ==> sessions[j].nodeId != id
      {
        if sessions[i].nodeId == id {
          FirstId(sessions, id, i);
          return Some(sessions[i]);
        }
        i := i + 1;
      }
      FirstId(sessions, id, i);
      r := None;
    }

    /** The record functions store one flag of a session, if it is still there. */
    method RecordRssi(connfd: int)
      modifies this`sessions
      ensures View() == if Live(old(View()), connfd)
                        then Record(old(View()), connfd, FlagsOf(old(View()), connfd).(rssi := 1)) else old(View())
    {
      var found, at := FindByConnfd(connfd);
      if found {
        sessions := sessions[at := sessions[at].(flags := sessions[at].flags.(rssi := 1))];
      }
    }

    method RecordRssiSave(connfd: int, op: int)
      modifies this`sessions
      ensures View() == if Live(old(View()), connfd)
                        then Record(old(View()), connfd, FlagsOf(old(View()), connfd).(rssiSave := SaveFlag(op))) else old(View())
    {
      var save := if op == 0 then 0 else if op == 1 then 1 else -1;
      var found, at := FindByConnfd(connfd);
      if found {
        sessions := sessions[at := sessions[at].(flags := sessions[at].flags.(rssiSave := save))];
      }
    }

    method RecordCsi(connfd: int, enable: int)
      modifies this`sessions
      ensures View() == if Live(old(View()), connfd)
                        then Record(old(View()), connfd, FlagsOf(old(View()), connfd).(csi := enable)) else old(View())
    {
      var found, at := FindByConnfd(connfd);
      if found {
        sessions := sessions[at := sessions[at].(flags := sessions[at].flags.(csi := enable))];
      }
    }

    method RecordCsiSave(connfd: int, op: int)
      modifies this`sessions
      ensures View() == if Live(old(View()), connfd)
                        then Record(old(View()), connfd, FlagsOf(old(View()), connfd).(csiSave := SaveFlag(op))) else old(View())
    {
      var save := if op == 0 then 0 else if op == 1 then 1 else -1;
      var found, at := FindByConnfd(connfd);
      if found {
        sessions := sessions[at := sessions[at].(flags := sessions[at].flags.(csiSave := save))];
      }
    }

    method RecordConstell(connfd: int, enable: int)
      modifies this`sessions
      ensures View() == if Live(old(View()), connfd)
                        then Record(old(View()), connfd, FlagsOf(old(View()), connfd).(constell := enable)) else old(View())
    {
      var found, at := FindByConnfd(connfd);
      if found {
        sessions := sessions[at := sessions[at].(flags := sessions[at].flags.(constell := enable))];
      }
    }

    /** check_csi_working returns 1 exactly when some live session has CSI on. */
    method CheckCsiWorking() returns (state: int)
      requires Unique(sessions)
      ensures state == 1 <==> DmaModel.SomeCsi(FlagMap(sessions))
    {
      SomeInList(sessions);
      state := -1;
      var i := 0;
      while i < |sessions|
        invariant 0 <= i <= |sessions| && state != 1
        invariant forall j :: 0 <= j < i ==> sessions[j].flags.csi != 1
      {
        state := sessions[i].flags.csi;
        if state == 1 {
          break;
        }
        i := i + 1;
      }
    }

    /** check_constell_working, likewise. */
    method CheckConstellWorking() returns (state: int)
      requires Unique(sessions)
      ensures state == 1 <==> DmaModel.SomeConstell(FlagMap(sessions))
    {
      SomeInList(sessions);
      state := -1;
      var i := 0;
      while i < |sessions|
        invariant 0 <= i <= |sessions| && state != 1
        invariant forall j :: 0 <= j < i ==> sessions[j].flags.constell != 1
      {
        state := sessions[i].flags.constell;
        if state == 1 {
          break;
        }
        i := i + 1;
      }
    }
  }

  lemma FirstMatch(ss: seq<Session>, fd: int, i: nat)
    requires i <= |ss| && (i < |ss| ==> ss[i].connfd == fd)
    requires forall j :: 0 <= j < i ==> ss[j].connfd != fd
    ensures IndexOfFd(ss, fd) == i
  {
  }

  lemma FirstId(ss: seq<Session>, id: int, i: nat)
    requires i <= |ss| && (i < |ss| ==> ss[i].nodeId == id)
    requires forall j :: 0 <= j < i ==> ss[j].nodeId != id
    ensures IndexOfId(ss, id) == i
  {
  }
}
