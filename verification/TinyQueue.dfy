/** The head/tail queue of tiny_queue.c. Its mutex makes each push and each pop one step. */
module TinyQueue {
  import opened Wrappers

  class Node<T> {
    const data: T
    var next: Node?<T>

    constructor (data: T)
      ensures this.data == data && next == null
    {
      this.data := data;
      next := null;
    }
  }

  class Queue<T> {
    var head: Node?<T>
    var tail: Node?<T>
    ghost var nodes: seq<Node<T>>
    ghost var pushed: seq<T>
    ghost var popped: seq<T>

    /** head and tail are null together; otherwise the next pointers lead from head through every
        node, once, to tail, and end there. */
    ghost predicate Linked()
      reads this, nodes
    {
      && (head == null <==> nodes == []) && (tail == null <==> nodes == [])
      && (forall i, j :: 0 <= i < j < |nodes| ==> nodes[i] != nodes[j])
      && (nodes != [] ==> head == nodes[0] && tail == nodes[|nodes| - 1] && tail.next == null)
      && (forall i {:trigger nodes[i]} :: 0 <= i < |nodes| - 1 ==> nodes[i].next == nodes[i + 1])
    }

    ghost function Contents(): (c: seq<T>)
      reads this
      ensures |c| == |nodes|
    {
      seq(|nodes|, i requires 0 <= i < |nodes| reads this => nodes[i].data)
    }

    /** First in, first out: whatever went in has come out, in that order, or is still there. */
    ghost predicate Valid()
      reads this, nodes
    {
      Linked() && pushed == popped + Contents()
    }

    ghost function Footprint(): set<object>
      reads this
    {
      var all: set<object> := set n | n in nodes;
      all + {this}
    }

    /** tiny_queue_create. */
    constructor ()
      ensures Valid() && fresh(Footprint())
      ensures Contents() == [] && pushed == [] && popped == []
    {
      head, tail := null, null;
      nodes, pushed, popped := [], [], [];
    }

    /** tiny_queue_push; `mallocOk` says whether malloc succeeded. */
    method Push(data: T, mallocOk: bool) returns (rc: int)
      requires Valid()
      modifies this, tail
      ensures Valid() && fresh(Footprint() - old(Footprint()))
      ensures rc == if mallocOk then 0 else -1
      ensures Contents() == old(Contents()) + if mallocOk then [data] else []
      ensures pushed == old(pushed) + if mallocOk then [data] else []
      ensures popped == old(popped)
    {
      if !mallocOk {
        return -1;
      }
      var node := new Node(data);
      if head == null && tail == null {
        head := node;
        tail := node;
      } else {
        tail.next := node;
        tail := node;
      }
      nodes := nodes + [node];
      pushed := pushed + [data];
      rc := 0;
    }

    /** tiny_queue_pop, up to the wait: on an empty queue the caller goes on waiting (None). */
    method Pop() returns (r: Option<T>)
      requires Valid()
      modifies this
      ensures Valid() && Footprint() <= old(Footprint())
      ensures pushed == old(pushed)
      ensures old(Contents()) == [] ==> r == None && Contents() == [] && popped == old(popped)
      ensures old(Contents()) != [] ==>
                && r == Some(old(Contents())[0])
                && Contents() == old(Contents())[1..]
                && popped == old(popped) + [old(Contents())[0]]
    {
      if head == null {
        return None;
      }
      var data := head.data;
      if head == tail {
        LastNode();
        head := null;
        tail := null;
      } else {
        head := head.next;
      }
      nodes := nodes[1..];
      popped := popped + [data];
      r := Some(data);
    }

    lemma TailOwned()
      requires Linked()
      ensures tail != null ==> tail in Footprint()
    {
    }

    lemma LastNode()
      requires Linked() && head != null && head == tail
      ensures |nodes| == 1
    {
    }
  }

  datatype Op<T> = PushOp(data: T) | PopOp

  function Pushes<T>(ops: seq<Op<T>>): seq<T> {
    if ops == [] then []
    else
      var last := ops[|ops| - 1];
      Pushes(ops[..|ops| - 1]) + (if last.PushOp? then [last.data] else [])
  }

  /** How many pops get a value: each does, unless all values pushed so far have been popped. */
  function Served<T>(ops: seq<Op<T>>): (n: nat)
    ensures n <= |Pushes(ops)|
  {
    if ops == [] then 0
    else
      var before := ops[..|ops| - 1];
      Served(before) + if ops[|ops| - 1].PopOp? && Served(before) < |Pushes(before)| then 1 else 0
  }

  /** In every interleaving of locked pushes and pops, the values popped are the first of those pushed, in
      push order; a pop waits only when everything pushed before it has been popped; and what has not been
      popped is left. */
  method Interleave<T>(ops: seq<Op<T>>) returns (out: seq<T>, left: seq<T>)
    ensures out == Pushes(ops)[..Served(ops)]
    ensures left == Pushes(ops)[Served(ops)..]
  {
    var q := new Queue<T>();
    out := [];
    for i := 0 to |ops|
      invariant q.Valid() && fresh(q.Footprint())
      invariant q.pushed == Pushes(ops[..i]) && q.popped == out
      invariant |out| == Served(ops[..i])
    {
      assert ops[..i + 1][..i] == ops[..i];
      match ops[i]
      case PushOp(data) =>
        q.TailOwned();
        var rc := q.Push(data, true);
      case PopOp =>
        var r := q.Pop();
        if r.Some? {
          out := out + [r.value];
        }
    }
    assert ops[..|ops|] == ops;
    left := Drain(q);
  }

  /** Pop until the queue is empty. */
  method Drain<T>(q: Queue<T>) returns (all: seq<T>)
    requires q.Valid()
    modifies q
    ensures all == old(q.Contents())
  {
    all := [];
    while true
      invariant q.Valid() && all + q.Contents() == old(q.Contents())
      decreases |q.Contents()|
    {
      var r := q.Pop();
      if r.None? {
        return;
      }
      all := all + [r.value];
    }
  }
}
