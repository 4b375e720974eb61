/** `SingleChannelSampleFifo` (Source/PluginProcessor.h): reads one channel of
    each processed buffer sample by sample into `bufferToFill`, and offers a
    copy of the block to its `Fifo` when a sample arrives and the block is
    already full. */
module SampleFifos {
  import opened Fifos
  import A = Accumulation
  import Q = Queues

  /** `enum Channel`: `Right` is channel 0 and `Left` is channel 1. */
  datatype Channel = Right | Left
  {
    function Index(): nat
    {
      if Right? then 0 else 1
    }
  }

  class SingleChannelSampleFifo {
    const channelToUse: Channel
    var fifoIndex: int
    const audioBufferFifo: Fifo<seq<real>>
    var bufferToFill: array<real>
    var prepared: bool
    var size: int
    /** The samples taken in since the last `prepare`. */
    ghost var written: seq<real>
    /** The blocks handed to `audioBufferFifo.push` since the last `prepare`. */
    ghost var offered: seq<seq<real>>
    ghost var Repr: set<object>

    ghost predicate Valid()
      reads this, Repr
    {
      && this in Repr
      && audioBufferFifo in Repr
      && audioBufferFifo.buffers in Repr
      && bufferToFill in Repr
      && audioBufferFifo.Valid()
      && size == bufferToFill.Length
      && 0 <= fifoIndex
      && (|written| > 0 ==> bufferToFill.Length >= 1)
      && A.Feed(bufferToFill.Length, written) == A.Accumulator(bufferToFill[..], fifoIndex, offered)
    }

    /** Since the old state, the blocks newly offered were pushed onto the
        queue the fifo then held, in order, as `Queues.PushEach` pushes them. */
    twostate predicate QueuedNewBlocks()
      reads this, audioBufferFifo
    {
      && |old(offered)| <= |offered|
      && audioBufferFifo.Contents ==
           Q.PushEach(old(audioBufferFifo.Contents), audioBufferFifo.Usable(), offered[|old(offered)|..])
    }

    /** Since the old state, the queue kept its count and every queued block
        became a block of zeros as long as `bufferToFill`. */
    twostate predicate QueueBlanked()
      reads this, audioBufferFifo
    {
      && |audioBufferFifo.Contents| == |old(audioBufferFifo.Contents)|
      && forall k :: 0 <= k < |audioBufferFifo.Contents| ==> audioBufferFifo.Contents[k] == seq(bufferToFill.Length, _ => 0.0)
    }

    constructor (ch: Channel)
      ensures Valid() && fresh(Repr)
      ensures channelToUse == ch && !prepared && fifoIndex == 0 && size == 0
      ensures audioBufferFifo.capacity == Capacity && audioBufferFifo.Contents == []
    {
      channelToUse := ch;
      fifoIndex := 0;
      audioBufferFifo := new Fifo(Capacity);
      bufferToFill := new real[0];
      prepared := false;
      size := 0;
      written, offered := [], [];
      new;
      Repr := {this, audioBufferFifo, audioBufferFifo.buffers, bufferToFill};
    }

    /** `prepare(bufferSize)`: a cleared block of `bufferSize` samples, every
        fifo slot cleared to that size, writing restarts at index 0. */
    method Prepare(bufferSize: int)
      requires Valid() && bufferSize >= 0
      modifies Repr
      ensures Valid() && fresh(Repr - old(Repr))
      ensures prepared && fifoIndex == 0 && size == bufferSize && bufferToFill.Length == bufferSize
      ensures written == [] && offered == []
      ensures QueueBlanked()
    {
      prepared := false;
      size := bufferSize;
      bufferToFill := new real[bufferSize](_ => 0.0);
      audioBufferFifo.Prepare(seq(bufferSize, _ => 0.0));
      fifoIndex := 0;
      prepared := true;
      written, offered := [], [];
      Repr := Repr + {bufferToFill};
    }

    /** `getNumCompleteBuffersAvailable`. */
    function NumCompleteBuffersAvailable(): (n: int)
      reads this, Repr
      requires Valid()
      ensures n == |audioBufferFifo.Contents|
    {
      audioBufferFifo.NumReady()
    }

    /** `getAudioBuffer(buf)`: pull one block; `buf` is the caller's buffer before the call. */
    method GetAudioBuffer(buf: seq<real>) returns (ok: bool, block: seq<real>)
      requires Valid()
      modifies audioBufferFifo
      ensures Valid()
      ensures Q.PullOutcome(ok, block, audioBufferFifo.Contents) == Q.Pull(old(audioBufferFifo.Contents), buf)
    {
      ok, block := audioBufferFifo.Pull(buf);
    }

    /** `pushNextSampleIntoFifo(sample)`. */
    method PushNextSampleIntoFifo(sample: real)
      requires Valid() && bufferToFill.Length >= 1
      modifies this, bufferToFill, audioBufferFifo, audioBufferFifo.buffers
      ensures Valid() && Repr == old(Repr) && bufferToFill == old(bufferToFill)
      ensures prepared == old(prepared) && size == old(size)
      ensures written == old(written) + [sample]
      ensures |old(offered)| <= |offered|
      ensures audioBufferFifo.Contents ==
                Q.PushEach(old(audioBufferFifo.Contents), audioBufferFifo.Usable(), offered[|old(offered)|..])
    {
      ghost var before := A.Accumulator(bufferToFill[..], fifoIndex, offered);
      if fifoIndex == bufferToFill.Length {
        var ok := audioBufferFifo.Push(bufferToFill[..]);
        offered := offered + [bufferToFill[..]];
        assert offered[|old(offered)|..] == [bufferToFill[..]];
        fifoIndex := 0;
      } else {
        assert offered[|old(offered)|..] == [];
      }
      bufferToFill[fifoIndex] := sample;
      fifoIndex := fifoIndex + 1;
      written := written + [sample];
      assert written[..|written| - 1] == old(written);
      assert A.Feed(bufferToFill.Length, written) == A.Step(before, sample);
    }

    /** `pushNextSampleIntoFifo`, with the fifo's contents tracked since the
        state where it held `q0` and `n0` blocks had been offered. */
    method PushTracked(sample: real, ghost q0: seq<seq<real>>, ghost n0: nat)
      requires Valid() && bufferToFill.Length >= 1
      requires n0 <= |offered| && audioBufferFifo.Contents == Q.PushEach(q0, audioBufferFifo.Usable(), offered[n0..])
      modifies this, bufferToFill, audioBufferFifo, audioBufferFifo.buffers
      ensures Valid() && Repr == old(Repr) && bufferToFill == old(bufferToFill)
      ensures prepared == old(prepared) && size == old(size)
      ensures written == old(written) + [sample]
      ensures n0 <= |offered| && audioBufferFifo.Contents == Q.PushEach(q0, audioBufferFifo.Usable(), offered[n0..])
    {
      ghost var mid := offered;
      PushNextSampleIntoFifo(sample);
      PushEachSplit(q0, audioBufferFifo.Usable(), mid[n0..], offered[|mid|..]);
      assert mid[n0..] + offered[|mid|..] == offered[n0..];
    }

    /** `update(buffer)`: every sample of channel `channelToUse`, in order.
        The counts are those of `Accumulation.FeedCounts`. */
    method Update(buffer: seq<seq<real>>)
      requires Valid() && prepared
      requires channelToUse.Index() < |buffer|
      requires buffer[channelToUse.Index()] == [] || bufferToFill.Length >= 1
      modifies this, bufferToFill, audioBufferFifo, audioBufferFifo.buffers
      ensures Valid() && Repr == old(Repr) && bufferToFill == old(bufferToFill)
      ensures prepared && size == old(size)
      ensures written == old(written) + buffer[channelToUse.Index()]
      ensures QueuedNewBlocks()
    {
      var samples := buffer[channelToUse.Index()];
      ghost var q0 := audioBufferFifo.Contents;
      ghost var n0 := |offered|;
      for i := 0 to |samples|
        invariant Valid() && Repr == old(Repr) && bufferToFill == old(bufferToFill)
        invariant prepared && size == old(size)
        invariant written == old(written) + samples[..i]
        invariant n0 <= |offered|
        invariant audioBufferFifo.Contents == Q.PushEach(q0, audioBufferFifo.Usable(), offered[n0..])
      {
        PushTracked(samples[i], q0, n0);
        assert samples[..i + 1] == samples[..i] + [samples[i]];
      }
      assert samples[..|samples|] == samples;
    }
  }

  /** Offering `xs` then `ys` is offering `xs + ys`, when `ys` has at most one item. */
  lemma PushEachSplit<T>(q: seq<T>, usable: nat, xs: seq<T>, ys: seq<T>)
    requires |ys| <= 1
    ensures Q.PushEach(Q.PushEach(q, usable, xs), usable, ys) == Q.PushEach(q, usable, xs + ys)
  {
    if |ys| == 1 {
      assert ys[..0] == [];
      assert (xs + ys)[..|xs + ys| - 1] == xs;
    } else {
      assert xs + ys == xs;
    }
  }
}
