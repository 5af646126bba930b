/** A recording as the two threads share it: the event loop pushes to the linked queue and the writer pops. */
module RecordingQueue {
  import opened Recorder
  import opened TinyQueue

  /** A write_file_t with its tiny_queue. `written` stands for the file. */
  class Recording {
    var enable: int
    var queue: Queue?<Item>
    var phase: Phase
    var written: seq<Item>
    var pushed: seq<Item>

    ghost predicate Valid()
      reads this, if queue == null then {} else queue.Footprint() + {queue}
    {
      queue != null ==> queue.Valid()
    }

    /** The recording whose queue is what the linked queue holds. */
    ghost function View(): File
      reads this, if queue == null then {} else {queue as object}
    {
      File(enable, queue != null, if queue == null then [] else queue.Contents(), phase, written, pushed)
    }

    /** malloc of a write_file_t. */
    constructor ()
      ensures Valid() && View() == Fresh() && queue == null
    {
      enable, queue, phase := 0, null, Absent;
      written, pushed := [], [];
    }

    /** tiny_queue_create, AddWorker, enable. */
    method Begin()
      modifies this
      ensures Valid() && View() == Start() && queue != null && fresh(queue.Footprint())
    {
      queue := new Queue<Item>();
      written, pushed := [], [];
      phase := Idle;
      enable := 1;
    }

    /** One sample, from the event loop. */
    method Send(item: Item)
      requires Valid() && queue != null
      modifies this, queue.Footprint()
      ensures Valid() && View() == PushSample(old(View()), item)
      ensures queue == old(queue) && fresh(queue.Footprint() - old(queue.Footprint()))
    {
      queue.TailOwned();
      var rc := queue.Push(item, true);
      pushed := pushed + [item];
    }

    /** The terminator, from the event loop. */
    method End()
      requires Valid() && queue != null
      modifies this, queue.Footprint()
      ensures Valid() && View() == PushEnd(old(View()))
      ensures queue == old(queue) && fresh(queue.Footprint() - old(queue.Footprint()))
    {
      queue.TailOwned();
      var rc := queue.Push([], true);
      enable := 0;
    }

    /** One step of the writer thread; `moved` is false while its pop waits. */
    method Step() returns (moved: bool)
      requires Valid() && queue != null
      modifies this, queue.Footprint()
      ensures Valid() && queue == old(queue) && queue.Footprint() <= old(queue.Footprint())
      ensures moved == CanMove(old(View()))
      ensures View() == if moved then Move(old(View())) else old(View())
    {
      match phase {
        case Idle =>
          var r := queue.Pop();
          if r.None? {
            return false;
          }
          if r.value == [] {
            phase := Exiting;
          } else {
            phase := Holding(r.value);
          }
        case Holding(item) =>
          written := written + [item];
          phase := Idle;
        case Exiting =>
          phase := Posted;
        case Absent => return false;
        case Posted => return false;
      }
      moved := true;
    }

    /** Steps of the writer thread, `n` of them or until its pop waits or it is gone. */
    method Steps(n: nat)
      requires Valid() && queue != null && Good(View())
      modifies this, queue.Footprint()
      ensures Valid() && Good(View()) && queue == old(queue) && queue.Footprint() <= old(queue.Footprint())
      ensures enable == old(enable) && pushed == old(pushed)
    {
      hide Good;
      var i := 0;
      while i < n
        invariant Valid() && Good(View()) && queue == old(queue) && queue.Footprint() <= old(queue.Footprint())
        invariant enable == old(enable) && pushed == old(pushed)
        decreases n - i
      {
        if CanMove(View()) {
          MoveGood(View());
        }
        var moved := Step();
        i := i + 1;
      }
    }

    /** A sample, and then some steps of the writer thread. */
    method Feed(item: Item, n: nat)
      requires Valid() && queue != null && Good(View()) && enable == 1 && item != []
      modifies this, queue.Footprint()
      ensures Valid() && Good(View()) && enable == 1 && pushed == old(pushed) + [item]
      ensures queue == old(queue) && queue != null && fresh(queue.Footprint() - old(queue.Footprint()))
    {
      PushSampleGood(View(), item);
      hide Good;
      Send(item);
      Steps(n);
    }

    method FeedAll(samples: seq<Item>, steps: seq<nat>)
      requires Valid() && queue != null && Good(View()) && enable == 1
      requires |steps| == |samples| && forall i :: 0 <= i < |samples| ==> samples[i] != []
      modifies this, queue.Footprint()
      ensures Valid() && Good(View()) && enable == 1 && pushed == old(pushed) + samples
      ensures queue == old(queue) && queue != null && fresh(queue.Footprint() - old(queue.Footprint()))
    {
      hide Good;
      hide View;
      hide Valid;
      if samples != [] {
        Feed(samples[0], steps[0]);
        FeedAll(samples[1..], steps[1..]);
        assert [samples[0]] + samples[1..] == samples;
      }
    }

    /** End the recording and let the writer thread go on to its CLEAR. */
    method Finish()
      requires Valid() && queue != null && Good(View()) && enable == 1
      modifies this, queue.Footprint()
      ensures written == old(pushed)
    {
      PushEndGood(View());
      hide Good;
      End();
      while phase != Posted
        invariant Valid() && Good(View()) && queue != null && queue == old(queue)
        invariant fresh(queue.Footprint() - old(queue.Footprint()))
        invariant enable == 0 && pushed == old(pushed)
        decreases StepsLeft(View())
      {
        WriterFinishes(View());
        MoveGood(View());
        var moved := Step();
      }
      ClearedIsComplete(View());
    }
  }

  /** However the samples and the writer's steps interleave, an ended recording whose writer goes on until it
      has posted its CLEAR has written every sample, in order: the claim of the model, over the linked queue. */
  method Record(samples: seq<Item>, steps: seq<nat>) returns (written: seq<Item>)
    requires |steps| == |samples| && forall i :: 0 <= i < |samples| ==> samples[i] != []
    ensures written == samples
  {
    var r := new Recording();
    r.Begin();
    StartIsGood();
    r.FeedAll(samples, steps);
    r.Finish();
    written := r.written;
  }
}
