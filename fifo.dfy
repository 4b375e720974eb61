/** `Fifo<T>` (Source/PluginProcessor.h): a fixed array of slots indexed by the
    read/write cursor pair of a `juce::AbstractFifo`. The cursor arithmetic is
    JUCE's: one slot is always kept free, so `capacity` slots hold at most
    `capacity - 1` items. */
module Fifos {
  import Q = Queues

  /** Slot count of every `Fifo` in the source. */
  const Capacity: nat := 30

  class Fifo<T(0)> {
    /** The `AbstractFifo` buffer size. */
    const capacity: nat
    /** `buffers`: the slots. */
    const buffers: array<T>
    /** `AbstractFifo::validStart`, the read cursor. */
    var validStart: nat
    /** `AbstractFifo::validEnd`, the write cursor. */
    var validEnd: nat
    /** The queued items, oldest first. */
    ghost var Contents: seq<T>

    /** The array index holding the item `k` places behind the read cursor. */
    function Slot(k: nat): nat
      reads this
      requires validStart < capacity && k < capacity
    {
      if validStart + k < capacity then validStart + k else validStart + k - capacity
    }

    /** `AbstractFifo::getNumReady`, which `getNumAvailableForReading` returns. */
    function NumReady(): int
      reads this
    {
      if validEnd >= validStart then validEnd - validStart else capacity - (validStart - validEnd)
    }

    /** The most items the fifo can hold. */
    function Usable(): nat
      reads this
    {
      if capacity == 0 then 0 else capacity - 1
    }

    ghost predicate Valid()
      reads this, buffers
    {
      && capacity >= 1
      && buffers.Length == capacity
      && validStart < capacity
      && validEnd < capacity
      && |Contents| == NumReady()
      && |Contents| < capacity
      && (forall k :: 0 <= k < |Contents| ==> Contents[k] == buffers[Slot(k)])
    }

    ghost predicate Full()
      reads this
    {
      |Contents| == Usable()
    }

    constructor (capacity: nat)
      requires capacity >= 1
      ensures Valid() && fresh(buffers)
      ensures this.capacity == capacity && Contents == []
    {
      this.capacity := capacity;
      buffers := new T[capacity];
      validStart, validEnd := 0, 0;
      Contents := [];
    }

    /** `getNumAvailableForReading`. */
    method NumAvailableForReading() returns (n: int)
      requires Valid()
      ensures n == |Contents|
    {
      n := NumReady();
    }

    /** `prepare`: resize and clear every slot; the cursors are left alone, so
        any items still queued now read as `blank`. */
    method Prepare(blank: T)
      requires Valid()
      modifies this, buffers
      ensures Valid()
      ensures validStart == old(validStart) && validEnd == old(validEnd)
      ensures |Contents| == |old(Contents)|
      ensures forall k :: 0 <= k < |Contents| ==> Contents[k] == blank
      ensures forall i :: 0 <= i < buffers.Length ==> buffers[i] == blank
    {
      for i := 0 to buffers.Length
        modifies buffers
        invariant forall j :: 0 <= j < i ==> buffers[j] == blank
      {
        buffers[i] := blank;
      }
      Contents := seq(|Contents|, _ => blank);
    }

    /** `push`: `write(1)` then, when a slot was granted, copy `t` into it;
        the scoped write then advances the write cursor. */
    method Push(t: T) returns (ok: bool)
      requires Valid()
      modifies this, buffers
      ensures Valid()
      ensures Q.PushOutcome(ok, Contents) == Q.Push(old(Contents), Usable(), t)
      ensures !ok ==> buffers[..] == old(buffers[..])
      ensures validStart == old(validStart)
    {
      var vs, ve := validStart, validEnd;
      var freeSpace := if ve >= vs then capacity - (ve - vs) else vs - ve;
      var numToWrite := Q.Min(1, freeSpace - 1);
      var blockSize1 := if numToWrite <= 0 then 0 else Q.Min(capacity - ve, numToWrite);
      if blockSize1 > 0 {
        buffers[ve] := t;
        validEnd := if ve + 1 >= capacity then ve + 1 - capacity else ve + 1;
        Contents := Contents + [t];
        ok := true;
      } else {
        ok := false;
      }
    }

    /** `pull`: `read(1)` then, when an item was granted, copy it into the
        out-parameter; `t` is that parameter's value before the call. */
    method Pull(t: T) returns (ok: bool, item: T)
      requires Valid()
      modifies this
      ensures Valid()
      ensures Q.PullOutcome(ok, item, Contents) == Q.Pull(old(Contents), t)
      ensures validEnd == old(validEnd)
    {
      var vs, ve := validStart, validEnd;
      var numReady := if ve >= vs then ve - vs else capacity - (vs - ve);
      var numWanted := Q.Min(1, numReady);
      var blockSize1 := if numWanted <= 0 then 0 else Q.Min(capacity - vs, numWanted);
      if blockSize1 > 0 {
        item := buffers[vs];
        validStart := if vs + 1 >= capacity then vs + 1 - capacity else vs + 1;
        Contents := Contents[1..];
        ok := true;
      } else {
        ok, item := false, t;
      }
    }
  }
}
