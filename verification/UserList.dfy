/** The circular intrusive list of list.h, and the counted user lists that every module keeps in one. */
module UserList {

  /** A list_head inside a user node; `connfd` is the field that list_entry reaches. */
  class ListHead {
    var next: ListHead?
    var prev: ListHead?
    const connfd: int

    constructor (connfd: int)
      ensures this.connfd == connfd
    {
      this.connfd := connfd;
      next, prev := null, null;
    }
  }

  /** The nodes in ring order, from the head round to the head again. */
  ghost function Circle(head: ListHead, nodes: seq<ListHead>): (c: seq<ListHead>)
    ensures |c| == |nodes| + 2
  {
    [head] + nodes + [head]
  }

  ghost predicate Linked(c: seq<ListHead>)
    reads c
  {
    forall i {:trigger c[i]} :: 0 <= i < |c| - 1 ==> c[i].next == c[i + 1] && c[i + 1].prev == c[i]
  }

  /** next and prev are mutually inverse, and the ring of exactly these nodes closes through the head. */
  ghost predicate Ring(head: ListHead, nodes: seq<ListHead>)
    reads head, nodes
  {
    && head !in nodes
    && (forall i, j :: 0 <= i < j < |nodes| ==> nodes[i] != nodes[j])
    && Linked(Circle(head, nodes))
  }

  function Without<T>(s: seq<T>, i: nat): seq<T>
    requires i < |s|
  {
    s[..i] + s[i + 1..]
  }

  method InitListHead(head: ListHead)
    modifies head
    ensures Ring(head, [])
  {
    head.next := head;
    head.prev := head;
  }

  /** list_add_tail, through __list_add(new, head->prev, head). */
  method ListAddTail(node: ListHead, head: ListHead, ghost nodes: seq<ListHead>)
    requires Ring(head, nodes) && node != head && node !in nodes
    modifies head, nodes, node
    ensures Ring(head, nodes + [node])
  {
    ghost var c, n := Circle(head, nodes), |nodes|;
    assert c[n].next == c[n + 1] && c[n + 1].prev == c[n];
    var prev, next := head.prev, head;
    next.prev := node;
    node.next := next;
    node.prev := prev;
    prev.next := node;
    ghost var d := Circle(head, nodes + [node]);
    forall i | 0 <= i < |d| - 1 ensures d[i].next == d[i + 1] && d[i + 1].prev == d[i] {
      if i < n {
        assert d[i] == c[i] && d[i + 1] == c[i + 1];
        assert old(c[i].next == c[i + 1] && c[i + 1].prev == c[i]);
      }
    }
  }

  /** list_del: unlink the k-th node. */
  method ListDel(entry: ListHead, ghost head: ListHead, ghost nodes: seq<ListHead>, ghost k: nat)
    requires Ring(head, nodes) && k < |nodes| && nodes[k] == entry
    modifies head, nodes
    ensures Ring(head, Without(nodes, k))
    ensures entry.next == null && entry.prev == null
  {
    ghost var c, n := Circle(head, nodes), |nodes|;
    assert c[k].next == c[k + 1] && c[k + 1].prev == c[k];
    assert c[k + 1].next == c[k + 2] && c[k + 2].prev == c[k + 1];
    var prev, next := entry.prev, entry.next;
    next.prev := prev;
    prev.next := next;
    entry.next := null;
    entry.prev := null;
    ghost var d := Circle(head, Without(nodes, k));
    forall i | 0 <= i < |d| - 1 ensures d[i].next == d[i + 1] && d[i + 1].prev == d[i] {
      if i < k {
        assert d[i] == c[i] && d[i + 1] == c[i + 1];
        assert old(c[i].next == c[i + 1] && c[i + 1].prev == c[i]);
      } else if i > k {
        assert d[i] == c[i + 1] && d[i + 1] == c[i + 2];
        assert old(c[i + 1].next == c[i + 2] && c[i + 2].prev == c[i + 1]);
      } else {
        assert d[i] == c[i] && d[i + 1] == c[i + 2];
      }
    }
  }

  /** The first position of x, or the length. */
  function IndexOf(s: seq<int>, x: int): (i: nat)
    ensures i <= |s|
    ensures i < |s| <==> x in s
    ensures i < |s| ==> s[i] == x
    ensures forall j :: 0 <= j < i ==> s[j] != x
  {
    if s == [] || s[0] == x then 0 else 1 + IndexOf(s[1..], x)
  }

  function RemoveFirst(s: seq<int>, x: int): seq<int> {
    if x in s then Without(s, IndexOf(s, x)) else s
  }

  lemma IndexOfUnique(s: seq<int>, x: int, i: nat)
    requires i <= |s|
    requires i < |s| ==> s[i] == x
    requires forall j :: 0 <= j < i ==> s[j] != x
    ensures i == IndexOf(s, x)
  {
  }

  /** A user list with its counter: each of the per-feature lists is one of these. */
  class Users {
    const head: ListHead
    var cnt: int
    ghost var nodes: seq<ListHead>

    ghost predicate Valid()
      reads this, head, nodes
    {
      Ring(head, nodes) && cnt == |nodes|
    }

    /** The connfds in list order. */
    ghost function Fds(): (fds: seq<int>)
      reads this
      ensures |fds| == |nodes|
    {
      seq(|nodes|, i requires 0 <= i < |nodes| reads this => nodes[i].connfd)
    }

    constructor ()
      ensures Valid() && fresh(head)
      ensures nodes == [] && Fds() == []
    {
      head := new ListHead(-1);
      cnt := 0;
      nodes := [];
      new;
      InitListHead(head);
    }

    /** malloc a node for connfd, append it, count it. */
    method Add(connfd: int)
      requires Valid()
      modifies this, head, nodes
      ensures Valid()
      ensures forall n :: n in nodes ==> n in old(nodes) || fresh(n)
      ensures Fds() == old(Fds()) + [connfd]
    {
      var node := new ListHead(connfd);
      ListAddTail(node, head, nodes);
      cnt := cnt + 1;
      nodes := nodes + [node];
    }

    /** list_for_each_entry up to the first match. */
    method Find(connfd: int) returns (found: ListHead?)
      requires Valid()
      ensures found != null <==> connfd in Fds()
      ensures found != null ==> found == nodes[IndexOf(Fds(), connfd)] && found.connfd == connfd
    {
      ghost var c, k := Circle(head, nodes), 0;
      assert c[0].next == c[1];
      var pos := head.next;
      while pos != head
        invariant 0 <= k <= |nodes| && pos == c[k + 1]
        invariant forall j :: 0 <= j < k ==> Fds()[j] != connfd
        decreases |nodes| - k
      {
        assert pos == nodes[k];
        if pos.connfd == connfd {
          IndexOfUnique(Fds(), connfd, k);
          return pos;
        }
        assert c[k + 1].next == c[k + 2];
        pos := pos.next;
        k := k + 1;
      }
      AtHead(head, nodes, k);
      IndexOfUnique(Fds(), connfd, k);
      found := null;
    }

    method Unlink(pos: ListHead, ghost k: nat)
      requires Valid() && k < |nodes| && nodes[k] == pos
      modifies this, head, nodes
      ensures Valid()
      ensures forall n :: n in nodes ==> n in old(nodes)
      ensures Fds() == Without(old(Fds()), k)
      ensures pos !in nodes
    {
      ListDel(pos, head, nodes, k);
      nodes := Without(nodes, k);
      cnt := cnt - 1;
    }

    /** The removal loop of the stop and close functions: list_for_each_safe up to the first match.
        `pnode` is the last node visited, matching or not; it is what the caller goes on to free. */
    method Remove(connfd: int) returns (pnode: ListHead?)
      requires Valid()
      modifies this, head, nodes
      ensures Valid()
      ensures forall n :: n in nodes ==> n in old(nodes)
      ensures Fds() == RemoveFirst(old(Fds()), connfd)
      ensures pnode == null <==> old(nodes) == []
      ensures pnode != null ==> (pnode in nodes <==> connfd !in old(Fds()))
    {
      ghost var c, k := Circle(head, nodes), 0;
      assert c[0].next == c[1];
      pnode := null;
      var pos := head.next;
      var n := pos.next;
      while pos != head
        invariant 0 <= k <= |nodes| && pos == c[k + 1] && n == pos.next
        invariant pnode == if k == 0 then null else nodes[k - 1]
        invariant forall j :: 0 <= j < k ==> Fds()[j] != connfd
        decreases |nodes| - k
      {
        assert pos == nodes[k];
        pnode := pos;
        if pnode.connfd == connfd {
          IndexOfUnique(Fds(), connfd, k);
          Unlink(pos, k);
          return;
        }
        assert c[k + 1].next == c[k + 2];
        pos := n;
        n := pos.next;
        k := k + 1;
      }
      AtHead(head, nodes, k);
      IndexOfUnique(Fds(), connfd, k);
    }
  }

  /** Only the end of the circle is the head again. */
  lemma AtHead(head: ListHead, nodes: seq<ListHead>, k: nat)
    requires head !in nodes && k <= |nodes|
    ensures Circle(head, nodes)[k + 1] == head <==> k == |nodes|
  {
    if k < |nodes| {
      assert Circle(head, nodes)[k + 1] == nodes[k];
    }
  }
}
