/** The session list of server.c: admission, lookup, removal, and the ids that asynchronous replies carry. */
module Sessions {

  /** record_action_t: what a session has switched on. */
  datatype Flags = Flags(rssi: int, rssiSave: int, csi: int, csiSave: int, constell: int)

  const NO_FLAGS := Flags(0, 0, 0, 0, 0)

  /** A user_session_node. `serial` is history: the session was the serial-th to be admitted, from 0. */
  datatype Session = Session(connfd: int, nodeId: int, serial: nat, flags: Flags)

  /** The session part of g_server_para. `admitted` is history: how many sessions were admitted. */
  datatype Server = Server(sessions: seq<Session>, sessionCnt: int, nextId: int, admitted: nat)

  const ID_LIMIT: int := 1025

  /** The first session with the connfd, or the length. */
  function IndexOfFd(ss: seq<Session>, fd: int): (i: nat)
    ensures i <= |ss|
    ensures i < |ss| ==> ss[i].connfd == fd
    ensures forall j :: 0 <= j < i ==> ss[j].connfd != fd
  {
    if ss == [] || ss[0].connfd == fd then 0 else 1 + IndexOfFd(ss[1..], fd)
  }

  function IndexOfId(ss: seq<Session>, id: int): (i: nat)
    ensures i <= |ss|
    ensures i < |ss| ==> ss[i].nodeId == id
    ensures forall j :: 0 <= j < i ==> ss[j].nodeId != id
  {
    if ss == [] || ss[0].nodeId == id then 0 else 1 + IndexOfId(ss[1..], id)
  }

  predicate Live(s: Server, fd: int) {
    IndexOfFd(s.sessions, fd) < |s.sessions|
  }

  function FlagsOf(s: Server, fd: int): Flags
    requires Live(s, fd)
  {
    s.sessions[IndexOfFd(s.sessions, fd)].flags
  }

  /** new_user_node and add_new_user_node_to_list. */
  function Admit(s: Server, fd: int): Server {
    var id := s.nextId + 1;
    Server(s.sessions + [Session(fd, s.nextId, s.admitted, NO_FLAGS)], s.sessionCnt + 1,
           if id == ID_LIMIT then 1 else id, s.admitted + 1)
  }

  /** del_user_node_in_list, for a connfd that is in the list. */
  function Drop(s: Server, fd: int): Server
    requires Live(s, fd)
  {
    var i := IndexOfFd(s.sessions, fd);
    s.(sessions := s.sessions[..i] + s.sessions[i + 1..], sessionCnt := s.sessionCnt - 1)
  }

  /** The record functions: find the session and store a flag; nothing happens when it is gone. */
  function Record(s: Server, fd: int, flags: Flags): Server {
    var i := IndexOfFd(s.sessions, fd);
    if i == |s.sessions| then s else s.(sessions := s.sessions[i := s.sessions[i].(flags := flags)])
  }

  /** The save flag that a request stores: an operation code other than 0 and 1 is stored as -1. */
  function SaveFlag(op: int): int {
    if op == 0 || op == 1 then op else -1
  }

  function IdOf(serial: nat): int {
    serial % 1024 + 1
  }

  ghost predicate Unique(ss: seq<Session>) {
    forall i, j :: 0 <= i < j < |ss| ==> ss[i].connfd != ss[j].connfd
  }

  ghost predicate ServerInv(s: Server) {
    && s.sessionCnt == |s.sessions|
    && s.nextId == IdOf(s.admitted)
    && Unique(s.sessions)
    && InOrder(s.sessions)
    && Numbered(s.sessions, s.admitted)
  }

  /** The list is in the order of admission. */
  ghost predicate InOrder(ss: seq<Session>) {
    forall i, j :: 0 <= i < j < |ss| ==> ss[i].serial < ss[j].serial
  }

  /** Every session was admitted, and has the id that goes with its number. */
  ghost predicate Numbered(ss: seq<Session>, admitted: nat) {
    forall i :: 0 <= i < |ss| ==> ss[i].serial < admitted && ss[i].nodeId == IdOf(ss[i].serial)
  }

  const EMPTY_SERVER := Server([], 0, 1, 0)

  /** What the features see of the list: the flags of every live connfd. */
  function FlagMap(ss: seq<Session>): map<int, Flags> {
    if ss == [] then map[]
    else FlagMap(ss[..|ss| - 1])[ss[|ss| - 1].connfd := ss[|ss| - 1].flags]
  }

  lemma {:induction false} MapDomain(ss: seq<Session>, fd: int)
    requires Unique(ss)
    ensures fd in FlagMap(ss) <==> IndexOfFd(ss, fd) < |ss|
    ensures fd in FlagMap(ss) ==> FlagMap(ss)[fd] == ss[IndexOfFd(ss, fd)].flags
  {
    if ss != [] {
      var n := |ss| - 1;
      MapDomain(ss[..n], fd);
      var i, j := IndexOfFd(ss, fd), IndexOfFd(ss[..n], fd);
      if j < n {
        assert ss[j].connfd == fd;
      }
    }
  }

  // ----- the list operations keep the invariant and act on the flags as on a map -----

  lemma AdmitKeeps(s: Server, fd: int)
    requires ServerInv(s) && !Live(s, fd)
    ensures ServerInv(Admit(s, fd))
    ensures FlagMap(Admit(s, fd).sessions) == FlagMap(s.sessions)[fd := NO_FLAGS]
  {
    var t := Admit(s, fd).sessions;
    assert t[..|t| - 1] == s.sessions;
  }

  lemma {:induction false} DropFromMap(ss: seq<Session>, k: nat)
    requires Unique(ss) && k < |ss|
    ensures FlagMap(ss[..k] + ss[k + 1..]) == FlagMap(ss) - {ss[k].connfd}
  {
    var n := |ss| - 1;
    if k == n {
      assert ss[..k] + ss[k + 1..] == ss[..n];
      MapDomain(ss[..n], ss[k].connfd);
    } else {
      DropFromMap(ss[..n], k);
      var t := ss[..k] + ss[k + 1..];
      assert t[..|t| - 1] == ss[..n][..k] + ss[..n][k + 1..];
    }
  }

  lemma DropLists(ss: seq<Session>, k: nat, admitted: nat)
    requires Unique(ss) && InOrder(ss) && Numbered(ss, admitted) && k < |ss|
    ensures var t := ss[..k] + ss[k + 1..];
            Unique(t) && InOrder(t) && Numbered(t, admitted)
  {
    hide IdOf;
    var t := ss[..k] + ss[k + 1..];
    assert forall i :: 0 <= i < |t| ==> t[i] == ss[if i < k then i else i + 1];
  }

  lemma DropKeeps(s: Server, fd: int)
    requires ServerInv(s) && Live(s, fd)
    ensures ServerInv(Drop(s, fd)) && !Live(Drop(s, fd), fd)
    ensures FlagMap(Drop(s, fd).sessions) == FlagMap(s.sessions) - {fd}
  {
    hide IdOf;
    hide FlagMap;
    hide Unique;
    hide InOrder;
    hide Numbered;
    var k := IndexOfFd(s.sessions, fd);
    DropLists(s.sessions, k, s.admitted);
    DropFromMap(s.sessions, k);
    MapDomain(Drop(s, fd).sessions, fd);
  }

  lemma {:induction false} UpdateInMap(ss: seq<Session>, k: nat, flags: Flags)
    requires Unique(ss) && k < |ss|
    ensures FlagMap(ss[k := ss[k].(flags := flags)]) == FlagMap(ss)[ss[k].connfd := flags]
  {
    var n, t := |ss| - 1, ss[k := ss[k].(flags := flags)];
    if k == n {
      assert t[..n] == ss[..n];
    } else {
      UpdateInMap(ss[..n], k, flags);
      assert t[..n] == ss[..n][k := ss[k].(flags := flags)];
    }
  }

  lemma RecordKeeps(s: Server, fd: int, flags: Flags)
    requires ServerInv(s) && Live(s, fd)
    ensures ServerInv(Record(s, fd, flags))
    ensures FlagMap(Record(s, fd, flags).sessions) == FlagMap(s.sessions)[fd := flags]
  {
    UpdateInMap(s.sessions, IndexOfFd(s.sessions, fd), flags);
  }

  // ----- node ids -----

  /** The k-th session admitted, from 0, gets id k mod 1024 + 1. */
  lemma IdsCount(s: Server, fd: int)
    requires ServerInv(s)
    ensures var n := Admit(s, fd).sessions; n[|n| - 1].nodeId == s.admitted % 1024 + 1
  {
  }

  /** find_user_node_id, then find_user_node_by_user_id on a later list: where the reply goes. */
  function Recipient(later: Server, id: int): (r: seq<Session>) {
    var i := IndexOfId(later.sessions, id);
    if i < |later.sessions| then [later.sessions[i]] else []
  }

  /** A reply for session `serial` reaches that session, and no other, exactly when the session is
      still there and no older live session was admitted a multiple of 1024 before it. */
  lemma ReplyReachesAskerIff(later: Server, serial: nat)
    requires ServerInv(later)
    ensures (exists s :: Recipient(later, IdOf(serial)) == [s] && s.serial == serial) <==>
            && (exists i :: 0 <= i < |later.sessions| && later.sessions[i].serial == serial)
            && (forall i :: 0 <= i < |later.sessions| && later.sessions[i].serial < serial ==>
                  (serial - later.sessions[i].serial) % 1024 != 0)
  {
    var ss, k := later.sessions, IndexOfId(later.sessions, IdOf(serial));
    if k < |ss| && ss[k].serial == serial {
      assert Recipient(later, IdOf(serial)) == [ss[k]];
      forall i | 0 <= i < |ss| && ss[i].serial < serial ensures (serial - ss[i].serial) % 1024 != 0 {
        SameId(ss[i].serial, serial);
      }
    } else {
      forall i | 0 <= i < |ss| && ss[i].serial == serial
        ensures exists j :: 0 <= j < |ss| && ss[j].serial < serial && (serial - ss[j].serial) % 1024 == 0
      {
        SameId(ss[k].serial, serial);
      }
    }
  }

  lemma SameId(a: nat, b: nat)
    ensures IdOf(a) == IdOf(b) <==> (b - a) % 1024 == 0
  {
  }

  /** Within one window of 1024 consecutive admissions that includes the asker, an asynchronous
      reply reaches the session that asked, or nobody. */
  lemma ReplyWithinWindow(later: Server, serial: nat, window: nat)
    requires ServerInv(later)
    requires window <= serial < window + 1024
    requires forall i :: 0 <= i < |later.sessions| ==> window <= later.sessions[i].serial < window + 1024
    ensures forall s :: s in Recipient(later, IdOf(serial)) ==> s.serial == serial
  {
    var ss, k := later.sessions, IndexOfId(later.sessions, IdOf(serial));
    if k < |ss| {
      SameId(ss[k].serial, serial);
    }
  }
}
