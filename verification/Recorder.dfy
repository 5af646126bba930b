/** One recording: the queue that the event loop fills and the writer thread drains into a file. */
module Recorder {
  import opened Bytes

  /** A queue_item. The zero-length item is the terminator; samples are never empty. */
  type Item = seq<byte>

  /** Where the writer thread of a recording is. */
  datatype Phase =
    | Absent              // no thread was started
    | Idle                // about to pop
    | Holding(item: Item) // popped a sample, not yet written
    | Exiting             // popped the terminator, CLEAR not yet posted
    | Posted              // CLEAR is in the message queue, the thread is gone

  /** A write_file_t with its queue, its file and its thread. `pushed` is the history of the samples
      pushed since the recording started. */
  datatype File = File(enable: int, started: bool, queue: seq<Item>, phase: Phase, written: seq<Item>, pushed: seq<Item>)

  /** malloc of a write_file_t: disabled, no file, no queue. */
  function Fresh(): File {
    File(0, false, [], Absent, [], [])
  }

  // Steps of the event loop.

  /** fopen, tiny_queue_create and AddWorker: an empty file, an empty queue, a new thread. */
  function Start(): File {
    File(1, true, [], Idle, [], [])
  }

  function PushSample(f: File, item: Item): File {
    f.(queue := f.queue + [item], pushed := f.pushed + [item])
  }

  /** Push the terminator and disable. */
  function PushEnd(f: File): File {
    f.(queue := f.queue + [[]], enable := 0)
  }

  // Steps of the writer thread.

  predicate CanMove(f: File) {
    (f.phase.Idle? && f.queue != []) || f.phase.Holding? || f.phase.Exiting?
  }

  function Move(f: File): File
    requires CanMove(f)
  {
    match f.phase
    case Idle => f.(queue := f.queue[1..], phase := if f.queue[0] == [] then Exiting else Holding(f.queue[0]))
    case Holding(item) => f.(written := f.written + [item], phase := Idle)
    case _ => f.(phase := Posted)
  }

  // What every step keeps.

  function InHand(f: File): seq<Item> {
    if f.phase.Holding? then [f.phase.item] else []
  }

  /** The terminator has been pushed and not yet popped. */
  predicate Ending(f: File) {
    f.started && f.enable == 0 && (f.phase.Idle? || f.phase.Holding?)
  }

  /** The samples still in the queue. */
  function Queued(f: File): seq<Item> {
    if Ending(f) && f.queue != [] then f.queue[..|f.queue| - 1] else f.queue
  }

  /** - nothing is lost: written ++ in hand ++ queued is what was pushed;
      - an ended recording has one terminator, at the very end of its queue, until it is popped;
      - once it has been popped the queue is empty, and before it is pushed the thread is there. */
  ghost predicate Good(f: File) {
    && (f.enable == 0 || f.enable == 1)
    && (!f.started ==> f == Fresh())
    && (f.started ==> !f.phase.Absent?)
    && (f.enable == 1 ==> f.started && (f.phase.Idle? || f.phase.Holding?))
    && (forall i :: 0 <= i < |f.pushed| ==> f.pushed[i] != [])
    && f.written + InHand(f) + Queued(f) == f.pushed
    && (Ending(f) ==> f.queue != [] && f.queue[|f.queue| - 1] == [])
    && (f.phase.Exiting? || f.phase.Posted? ==> f.queue == [])
  }

  /** The thread of the recording can still touch it. */
  predicate Running(f: File) {
    f.phase.Idle? || f.phase.Holding? || f.phase.Exiting?
  }

  lemma StartIsGood()
    ensures Good(Start()) && Good(Fresh())
  {
  }

  lemma PushSampleGood(f: File, item: Item)
    requires Good(f) && f.enable == 1 && item != []
    ensures Good(PushSample(f, item))
  {
    var g := PushSample(f, item);
    assert g.written + InHand(g) + Queued(g) == f.written + InHand(f) + Queued(f) + [item];
  }

  lemma PushEndGood(f: File)
    requires Good(f) && f.enable == 1
    ensures Good(PushEnd(f)) && Ending(PushEnd(f))
  {
    assert Queued(PushEnd(f)) == f.queue;
  }

  lemma QueuedNotEmpty(f: File)
    requires Good(f) && f.phase.Idle? && f.queue != []
    ensures f.queue[0] == [] <==> Ending(f) && |f.queue| == 1
    ensures f.queue[0] != [] ==> Queued(f) == [f.queue[0]] + Queued(f)[1..]
  {
    var k := |f.written|;
    if Queued(f) != [] {
      assert f.pushed[k] == Queued(f)[0] == f.queue[0];
    }
  }

  lemma PopGood(f: File)
    requires Good(f) && f.phase.Idle? && f.queue != []
    ensures Good(Move(f))
  {
    QueuedNotEmpty(f);
    var g := Move(f);
    assert g.written + InHand(g) + Queued(g) == f.written + InHand(f) + Queued(f);
  }

  lemma WriteGood(f: File)
    requires Good(f) && f.phase.Holding?
    ensures Good(Move(f))
  {
    var g := Move(f);
    assert g.written + InHand(g) + Queued(g) == f.written + InHand(f) + Queued(f);
  }

  lemma MoveGood(f: File)
    requires Good(f) && CanMove(f)
    ensures Good(Move(f)) && Move(f).enable == f.enable && Move(f).started
    ensures Move(f).pushed == f.pushed
    ensures Move(f).phase.Posted? <==> f.phase.Exiting?
  {
    if f.phase.Idle? {
      PopGood(f);
    } else if f.phase.Holding? {
      WriteGood(f);
    }
  }

  /** When CLEAR arrives, the file holds every sample pushed since the start, in order. */
  lemma ClearedIsComplete(f: File)
    requires Good(f) && f.phase.Posted?
    ensures f.enable == 0 && f.queue == [] && f.written == f.pushed
  {
  }

  /** The writer of an ended recording always has a next step until it has posted CLEAR, and each step
      brings it one closer to that. */
  lemma WriterFinishes(f: File)
    requires Good(f) && f.started && f.enable == 0 && !f.phase.Posted?
    ensures CanMove(f)
    ensures StepsLeft(f) > 0 && StepsLeft(Move(f)) == StepsLeft(f) - 1
  {
    MoveGood(f);
  }

  /** How many steps the writer of an ended recording takes to post its CLEAR: each sample in the queue is
      popped and written, the terminator is popped, and then comes the CLEAR. */
  function StepsLeft(f: File): nat {
    if f.phase.Posted? then 0
    else if f.phase.Exiting? then 1
    else 2 * |f.queue| + if f.phase.Holding? then 1 else 0
  }
}
