/** CSI and constellation of dma_handler.c: two features, one DMA device. */
module DmaModel {
  import opened Sessions
  import UserList

  const CSI_CHANNEL := 0x40
  const CONSTELL_CHANNEL := 0x80

  /** Calls to the axidma library, in order; Start carries the code that axidma_start returned. */
  datatype DeviceCall = Select(channel: int) | Start(rc: int) | Stop

  /** One feature: its user list (connfds in list order), its user_cnt and its csi_state or constellation_state. */
  datatype Feature = Feature(users: seq<int>, cnt: int, state: int)

  /** g_dma_para. `open` says that p_axidma is not NULL. */
  datatype Dma = Dma(open: bool, csi: Feature, constell: Feature, calls: seq<DeviceCall>)

  const IDLE := Feature([], 0, 0)

  /** start_csi and start_constellation: select, start, and set the state whatever axidma_start said. */
  function StartDevice(open: bool, f: Feature, calls: seq<DeviceCall>, channel: int, rc: int): (Feature, seq<DeviceCall>, int) {
    if !open then (f.(state := 0), calls, -1)
    else (f.(state := 1), calls + [Select(channel), Start(rc)], rc)
  }

  /** Add the user unless it is in the list already. */
  function AddUser(f: Feature, fd: int): Feature {
    if fd in f.users then f else f.(users := f.users + [fd], cnt := f.cnt + 1)
  }

  /** start_csi_state_external: gives up with -1 when the device did not start. */
  function StartCsi(d: Dma, fd: int, rc: int): (Dma, int) {
    if d.csi.cnt == 0 && d.csi.state == 0 then
      var (f, calls, ret) := StartDevice(d.open, d.csi, d.calls, CSI_CHANNEL, rc);
      if ret != 0 then (d.(csi := f, calls := calls), -1)
      else (d.(csi := AddUser(f, fd), calls := calls), 0)
    else (d.(csi := AddUser(d.csi, fd)), 0)
  }

  /** start_constellation_external: goes on even when the device did not start. */
  function StartConstell(d: Dma, fd: int, rc: int): Dma {
    if d.constell.cnt == 0 && d.constell.state == 0 then
      var (f, calls, _) := StartDevice(d.open, d.constell, d.calls, CONSTELL_CHANNEL, rc);
      d.(constell := AddUser(f, fd), calls := calls)
    else d.(constell := AddUser(d.constell, fd))
  }

  /** The removal loop: take the first match out of the list and the count. */
  function RemoveUser(f: Feature, fd: int): Feature {
    if fd in f.users then f.(users := UserList.RemoveFirst(f.users, fd), cnt := f.cnt - 1) else f
  }

  /** Stop the device when its last user is gone. */
  function StopIfUnused(open: bool, f: Feature, calls: seq<DeviceCall>): (Feature, seq<DeviceCall>) {
    if f.cnt == 0 && f.state == 1 then (f.(state := 0), if open then calls + [Stop] else calls)
    else (f, calls)
  }

  /** stop_csi_state_external. */
  function StopCsi(d: Dma, fd: int): Dma {
    var (f, calls) := StopIfUnused(d.open, RemoveUser(d.csi, fd), d.calls);
    d.(csi := f, calls := calls)
  }

  /** stop_constellation_external. */
  function StopConstell(d: Dma, fd: int): Dma {
    var (f, calls) := StopIfUnused(d.open, RemoveUser(d.constell, fd), d.calls);
    d.(constell := f, calls := calls)
  }

  // ----- invariants -----

  ghost predicate Counted(f: Feature) {
    && f.cnt == |f.users|
    && (forall i, j :: 0 <= i < j < |f.users| ==> f.users[i] != f.users[j])
    && (f.state == 0 || f.state == 1)
  }

  lemma RemoveFirstSet(users: seq<int>, fd: int)
    requires forall i, j :: 0 <= i < j < |users| ==> users[i] != users[j]
    ensures var r := UserList.RemoveFirst(users, fd);
            && (forall i, j :: 0 <= i < j < |r| ==> r[i] != r[j])
            && (forall x :: x in r <==> x in users && x != fd)
            && |r| == if fd in users then |users| - 1 else |users|
  {
    var k, r := UserList.IndexOf(users, fd), UserList.RemoveFirst(users, fd);
    if fd in users {
      forall i | 0 <= i < |r| ensures r[i] == users[if i < k then i else i + 1] {
      }
      forall x | x in users && x != fd ensures x in r {
        var i :| 0 <= i < |users| && users[i] == x;
        assert r[if i < k then i else i - 1] == x;
      }
    }
  }

  lemma AddUserSet(f: Feature, fd: int)
    requires Counted(f)
    ensures var g := AddUser(f, fd);
            && Counted(g)
            && (forall x :: x in g.users <==> x in f.users || x == fd)
            && g.cnt > 0 && g.state == f.state
  {
    assert fd in f.users ==> f.users != [];
  }

  lemma RemoveUserSet(f: Feature, fd: int)
    requires Counted(f)
    ensures var g := RemoveUser(f, fd);
            && Counted(g)
            && (forall x :: x in g.users <==> x in f.users && x != fd)
            && g.state == f.state
  {
    RemoveFirstSet(f.users, fd);
  }

  /** Lists, counters and session flags say the same, and the two features exclude each other. */
  ghost predicate DmaInv(m: map<int, Flags>, d: Dma) {
    && Counted(d.csi) && Counted(d.constell)
    && (forall fd :: fd in m ==> (m[fd].csi == 0 || m[fd].csi == 1) && (m[fd].constell == 0 || m[fd].constell == 1))
    && (forall fd :: fd in d.csi.users <==> fd in m && m[fd].csi == 1)
    && (forall fd :: fd in d.constell.users <==> fd in m && m[fd].constell == 1)
    && !(d.csi.users != [] && d.constell.users != [])
    && (d.open ==> (d.csi.cnt > 0 ==> d.csi.state == 1) && (d.constell.cnt > 0 ==> d.constell.state == 1))
    && (!d.open ==> d.csi.state == 0 && d.constell.state == 0 && d.calls == [])
  }

  /** Some live session has the feature on: what check_csi_working and check_constell_working find out. */
  ghost predicate SomeCsi(m: map<int, Flags>) {
    exists fd :: fd in m && m[fd].csi == 1
  }

  ghost predicate SomeConstell(m: map<int, Flags>) {
    exists fd :: fd in m && m[fd].constell == 1
  }

  lemma InitialDma(open: bool)
    ensures DmaInv(map[], Dma(open, IDLE, IDLE, []))
  {
  }

  lemma UsersSomeSession(m: map<int, Flags>, d: Dma)
    requires DmaInv(m, d)
    ensures SomeCsi(m) <==> d.csi.users != []
    ensures SomeConstell(m) <==> d.constell.users != []
  {
    if d.csi.users != [] {
      var fd := d.csi.users[0];
      assert fd in d.csi.users;
      assert fd in m && m[fd].csi == 1;
    }
    if d.constell.users != [] {
      var fd := d.constell.users[0];
      assert fd in d.constell.users;
      assert fd in m && m[fd].constell == 1;
    }
  }

  lemma StartCsiKeeps(m: map<int, Flags>, d: Dma, fd: int, rc: int)
    requires DmaInv(m, d) && fd in m && !SomeConstell(m)
    ensures var (e, ret) := StartCsi(d, fd, rc);
            && (ret == 0 || ret == -1)
            && DmaInv(if ret == 0 then m[fd := m[fd].(csi := 1)] else m, e)
  {
    UsersSomeSession(m, d);
    AddUserSet(d.csi, fd);
    AddUserSet(d.csi.(state := 1), fd);
  }

  lemma StartConstellKeeps(m: map<int, Flags>, d: Dma, fd: int, rc: int)
    requires DmaInv(m, d) && fd in m && !SomeCsi(m)
    ensures DmaInv(m[fd := m[fd].(constell := 1)], StartConstell(d, fd, rc))
  {
    UsersSomeSession(m, d);
    AddUserSet(d.constell, fd);
    AddUserSet(d.constell.(state := 1), fd);
    AddUserSet(d.constell.(state := 0), fd);
  }

  lemma StopCsiKeeps(m: map<int, Flags>, d: Dma, fd: int)
    requires DmaInv(m, d) && fd in m
    ensures DmaInv(m[fd := m[fd].(csi := 0)], StopCsi(d, fd))
  {
    RemoveUserSet(d.csi, fd);
  }

  lemma StopConstellKeeps(m: map<int, Flags>, d: Dma, fd: int)
    requires DmaInv(m, d) && fd in m
    ensures DmaInv(m[fd := m[fd].(constell := 0)], StopConstell(d, fd))
  {
    RemoveUserSet(d.constell, fd);
  }

  /** Changes of other flags, admissions, and departures of sessions with both features off. */
  lemma OtherFlagsKeep(m: map<int, Flags>, d: Dma, fd: int, flags: Flags)
    requires DmaInv(m, d)
    requires if fd in m then m[fd].csi == flags.csi && m[fd].constell == flags.constell
             else flags.csi == 0 && flags.constell == 0
    ensures DmaInv(m[fd := flags], d)
  {
  }

  lemma DepartureKeeps(m: map<int, Flags>, d: Dma, fd: int)
    requires DmaInv(m, d) && fd in m && m[fd].csi != 1 && m[fd].constell != 1
    ensures DmaInv(m - {fd}, d)
  {
  }

  // ----- the device, while axidma_start succeeds -----

  /** Every run of the device is one select, one start, one stop, in that order. */
  ghost predicate Alternating(calls: seq<DeviceCall>) {
    forall i :: 0 <= i < |calls| ==>
      if i % 3 == 0 then calls[i].Select? else if i % 3 == 1 then calls[i].Start? else calls[i].Stop?
  }

  /** The channel selected for the run under way. */
  ghost predicate RunsOn(calls: seq<DeviceCall>, channel: int) {
    |calls| % 3 == 2 && |calls| >= 2 && calls[|calls| - 2] == Select(channel)
  }

  /** The states say which feature has users, at most one of them is on, and the device runs for it. */
  ghost predicate DeviceInv(d: Dma) {
    && d.open
    && (d.csi.state == 1 <==> d.csi.cnt > 0)
    && (d.constell.state == 1 <==> d.constell.cnt > 0)
    && !(d.csi.state == 1 && d.constell.state == 1)
    && Alternating(d.calls)
    && (d.csi.state == 1 ==> RunsOn(d.calls, CSI_CHANNEL))
    && (d.constell.state == 1 ==> RunsOn(d.calls, CONSTELL_CHANNEL))
    && (d.csi.state == 0 && d.constell.state == 0 ==> |d.calls| % 3 == 0)
  }

  lemma InitialDevice()
    ensures DeviceInv(Dma(true, IDLE, IDLE, []))
  {
  }

  /** From a consistent device, starting CSI stays consistent exactly when axidma_start returns 0
      or is not called. */
  lemma StartCsiDeviceIff(m: map<int, Flags>, d: Dma, fd: int, rc: int)
    requires DmaInv(m, d) && DeviceInv(d) && !SomeConstell(m)
    ensures DeviceInv(StartCsi(d, fd, rc).0) <==> rc == 0 || d.csi.cnt > 0
  {
    UsersSomeSession(m, d);
    AddUserSet(d.csi, fd);
    AddUserSet(d.csi.(state := 1), fd);
  }

  lemma StartConstellDevice(m: map<int, Flags>, d: Dma, fd: int, rc: int)
    requires DmaInv(m, d) && DeviceInv(d) && !SomeCsi(m)
    ensures DeviceInv(StartConstell(d, fd, rc))
  {
    UsersSomeSession(m, d);
    AddUserSet(d.constell, fd);
    AddUserSet(d.constell.(state := 1), fd);
  }

  lemma StopDevice(d: Dma, fd: int)
    requires Counted(d.csi) && Counted(d.constell) && DeviceInv(d)
    ensures DeviceInv(StopCsi(d, fd)) && DeviceInv(StopConstell(d, fd))
    ensures Counted(StopCsi(d, fd).csi) && StopCsi(d, fd).constell == d.constell
  {
    RemoveUserSet(d.csi, fd);
    RemoveUserSet(d.constell, fd);
  }

  /** The last thing that happened to the device is a successful start on the channel. */
  ghost predicate Started(calls: seq<DeviceCall>, channel: int) {
    |calls| >= 2 && calls[|calls| - 2] == Select(channel) && calls[|calls| - 1] == Start(0)
  }

  /** The CSI state is 1 without users only after a start that failed; the constellation state never is. */
  ghost predicate IdleUnlessFailed(d: Dma) {
    && (d.csi.state == 1 && d.csi.cnt == 0 ==> !Started(d.calls, CSI_CHANNEL))
    && (d.constell.cnt == 0 ==> d.constell.state == 0)
  }

  lemma FailureKept(d: Dma, fd: int, rc: int)
    requires Counted(d.csi) && Counted(d.constell) && IdleUnlessFailed(d)
    ensures IdleUnlessFailed(StartCsi(d, fd, rc).0) && IdleUnlessFailed(StartConstell(d, fd, rc))
    ensures IdleUnlessFailed(StopCsi(d, fd)) && IdleUnlessFailed(StopConstell(d, fd))
    ensures Counted(StopCsi(d, fd).csi) && StopCsi(d, fd).constell == d.constell
  {
    hide RemoveUser;
    hide AddUser;
    AddUserSet(d.csi, fd);
    AddUserSet(d.csi.(state := 1), fd);
    AddUserSet(d.constell, fd);
    AddUserSet(d.constell.(state := 1), fd);
    AddUserSet(d.constell.(state := 0), fd);
    RemoveUserSet(d.csi, fd);
    RemoveUserSet(d.constell, fd);
  }

  /** Without that assumption both states can be on at once: a failed CSI start, then constellation. */
  lemma FailedStartBreaksExclusion(fd: int)
    ensures var d := StartConstell(StartCsi(Dma(true, IDLE, IDLE, []), fd, -1).0, fd, 0);
            d.csi.state == 1 && d.constell.state == 1 && d.csi.users == []
  {
  }
}
