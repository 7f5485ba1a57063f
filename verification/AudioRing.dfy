/** The audio ring of the Game Boy pair: a bounded queue of stereo frames. */
module AudioRing {

  const CAPACITY: nat := 16384

  datatype Frame = Frame(left: int, right: int)

  /** A bounded queue that drops its oldest frame when full. */
  function Pushed(queue: seq<Frame>, f: Frame, capacity: nat): (r: seq<Frame>)
    requires |queue| <= capacity && capacity > 0
    ensures |r| <= capacity
  {
    if |queue| == capacity then queue[1..] + [f] else queue + [f]
  }

  function PushedAll(queue: seq<Frame>, fs: seq<Frame>, capacity: nat): (r: seq<Frame>)
    requires |queue| <= capacity && capacity > 0
    ensures |r| <= capacity
    decreases |fs|
  {
    if fs == [] then queue else PushedAll(Pushed(queue, fs[0], capacity), fs[1..], capacity)
  }

  lemma PushedThen(queue: seq<Frame>, fs: seq<Frame>, capacity: nat)
    requires |queue| <= capacity && capacity > 0 && fs != []
    ensures Pushed(queue, fs[0], capacity) + fs[1..] == if |queue| == capacity then (queue + fs)[1..] else queue + fs
  {
  }

  /** The newest frames of everything ever pushed are what is left. */
  lemma {:induction false} KeepsNewest(queue: seq<Frame>, fs: seq<Frame>, capacity: nat)
    requires |queue| <= capacity && capacity > 0
    ensures
      var all := queue + fs;
      PushedAll(queue, fs, capacity) == if |all| <= capacity then all else all[|all| - capacity..]
    decreases |fs|
  {
    if fs == [] {
      assert queue + fs == queue;
    } else {
      KeepsNewest(Pushed(queue, fs[0], capacity), fs[1..], capacity);
      PushedThen(queue, fs, capacity);
    }
  }

  class Ring {
    const samples: array<int>
    var readIndex: nat
    var frameCount: nat

    predicate Valid()
      reads this
    {
      samples.Length == 2 * CAPACITY && readIndex < CAPACITY && frameCount <= CAPACITY
    }

    /** The slot of the i-th queued frame. */
    function Slot(i: nat): (k: nat)
      requires Valid() && i < CAPACITY
      reads this
      ensures k < CAPACITY
    {
      (readIndex + i) % CAPACITY
    }

    function FrameAt(k: nat): Frame
      requires Valid() && k < CAPACITY
      reads this, samples
    {
      Frame(samples[2 * k], samples[2 * k + 1])
    }

    ghost function Queue(): (q: seq<Frame>)
      requires Valid()
      reads this, samples
      ensures |q| == frameCount
    {
      seq(frameCount, i requires 0 <= i < frameCount && Valid() reads this, samples => FrameAt(Slot(i)))
    }

    constructor ()
      ensures Valid() && Queue() == [] && fresh(samples)
    {
      samples := new int[2 * CAPACITY];
      readIndex, frameCount := 0, 0;
    }

    method Clear()
      requires Valid()
      modifies this
      ensures Valid() && Queue() == []
    {
      readIndex, frameCount := 0, 0;
    }

    method DropOldest()
      requires Valid() && frameCount > 0
      modifies this
      ensures Valid() && Queue() == old(Queue())[1..] && frameCount < CAPACITY
    {
      ghost var before := Queue();
      readIndex := (readIndex + 1) % CAPACITY;
      frameCount := frameCount - 1;
      forall i | 0 <= i < frameCount
        ensures FrameAt(Slot(i)) == before[i + 1]
      {
        LaterSlot(old(readIndex), 1, i);
      }
    }

    method Append(left: int, right: int)
      requires Valid() && frameCount < CAPACITY
      modifies this, samples
      ensures Valid() && Queue() == old(Queue()) + [Frame(left, right)]
    {
      ghost var before := Queue();
      var w := (readIndex + frameCount) % CAPACITY;
      samples[2 * w], samples[2 * w + 1] := left, right;
      frameCount := frameCount + 1;
      forall i | 0 <= i < frameCount - 1
        ensures FrameAt(Slot(i)) == before[i]
      {
        SlotsDiffer(readIndex, i, frameCount - 1);
      }
      assert FrameAt(Slot(frameCount - 1)) == Frame(left, right);
    }

    /** `audio_fifo_push`. */
    method Push(left: int, right: int)
      requires Valid()
      modifies this, samples
      ensures Valid() && Queue() == Pushed(old(Queue()), Frame(left, right), CAPACITY)
    {
      if frameCount == CAPACITY {
        DropOldest();
      }
      Append(left, right);
    }

    method Copy(frames: nat) returns (out: seq<Frame>)
      requires Valid() && frames <= frameCount
      ensures out == Queue()[..frames]
    {
      out := [];
      for index := 0 to frames
        invariant out == Queue()[..index]
      {
        out := out + [FrameAt((readIndex + index) % CAPACITY)];
      }
    }

    method Discard(frames: nat)
      requires Valid() && frames <= frameCount
      modifies this
      ensures Valid() && Queue() == old(Queue())[frames..]
    {
      ghost var before := Queue();
      readIndex := (readIndex + frames) % CAPACITY;
      frameCount := frameCount - frames;
      forall i | 0 <= i < frameCount
        ensures FrameAt(Slot(i)) == before[frames + i]
      {
        LaterSlot(old(readIndex), frames, i);
      }
    }

    /** `sameboy_read_audio` into a buffer for `max` frames. */
    method Read(max: nat) returns (out: seq<Frame>)
      requires Valid()
      modifies this
      ensures Valid()
      ensures out == old(Queue())[..if old(frameCount) < max then old(frameCount) else max]
      ensures Queue() == old(Queue())[|out|..]
    {
      var frames := if frameCount < max then frameCount else max;
      out := Copy(frames);
      Discard(frames);
    }
  }

  lemma SlotsDiffer(start: nat, i: nat, j: nat)
    requires i < j < CAPACITY && start < CAPACITY
    ensures (start + i) % CAPACITY != (start + j) % CAPACITY
  {
  }

  lemma LaterSlot(start: nat, frames: nat, i: nat)
    requires start < CAPACITY && frames + i < CAPACITY
    ensures ((start + frames) % CAPACITY + i) % CAPACITY == (start + (frames + i)) % CAPACITY
  {
  }
}
