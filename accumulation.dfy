/** Value-level specification of `SingleChannelSampleFifo::pushNextSampleIntoFifo`
    (Source/PluginProcessor.h): samples are written one by one into a block of
    `n` samples; when a sample arrives and the block is already full, a copy of
    the block is offered to the fifo first and writing restarts at index 0. */
module Accumulation {

  /** The block being filled, the next index to write (`fifoIndex`), and every
      block offered to the fifo so far, oldest first. */
  datatype Accumulator = Accumulator(block: seq<real>, index: nat, offered: seq<seq<real>>)

  /** The state right after `prepare(n)`: a cleared block, index 0, nothing offered. */
  function Fresh(n: nat): Accumulator
  {
    Accumulator(seq(n, _ => 0.0), 0, [])
  }

  /** One call of `pushNextSampleIntoFifo(x)`. */
  function Step(a: Accumulator, x: real): Accumulator
    requires 1 <= |a.block| && a.index <= |a.block|
  {
    if a.index == |a.block| then Accumulator(a.block[0 := x], 1, a.offered + [a.block])
    else Accumulator(a.block[a.index := x], a.index + 1, a.offered)
  }

  /** The state after the samples `w` have been fed, in order, from `Fresh(n)`. */
  function Feed(n: nat, w: seq<real>): (a: Accumulator)
    requires n >= 1 || w == []
    ensures |a.block| == n && a.index <= n
    ensures w != [] ==> 1 <= a.index
    decreases |w|
  {
    if w == [] then Fresh(n) else Step(Feed(n, w[..|w| - 1]), w[|w| - 1])
  }

  lemma {:induction false} MulAtLeast(k: nat, n: nat)
    requires k >= 1
    ensures k * n >= n
    decreases k
  {
    if k > 1 {
      MulAtLeast(k - 1, n);
      assert k * n == (k - 1) * n + n;
    }
  }

  lemma DivUnique(a: int, n: int, q: int, r: int)
    requires n >= 1 && 0 <= r < n && a == q * n + r
    ensures a / n == q
  {
    var q', r' := a / n, a % n;
    assert a == q' * n + r';
    assert (q - q') * n == r' - r;
    if q > q' {
      MulAtLeast(q - q', n);
    } else if q < q' {
      MulAtLeast(q' - q, n);
    }
  }

  /** Offered block `j` holds samples `j*n .. j*n+n` of `w`. */
  ghost predicate OfferedFrom(offered: seq<seq<real>>, w: seq<real>, n: nat)
  {
    forall j :: 0 <= j < |offered| ==> j * n + n <= |w| && offered[j] == w[j * n .. j * n + n]
  }

  /** The shape of the accumulator after `w`: every sample is either in a
      block already offered or among the first `index` samples of the block
      being filled; offered block `j` holds samples `j*n .. j*n+n` and the
      block being filled starts with the latest `index` samples. */
  ghost predicate Shaped(n: nat, w: seq<real>, a: Accumulator)
  {
    && |a.offered| * n + a.index == |w|
    && a.index <= |a.block|
    && a.block[..a.index] == w[|w| - a.index..]
    && OfferedFrom(a.offered, w, n)
  }

  lemma OfferedExtend(offered: seq<seq<real>>, v: seq<real>, x: real, n: nat)
    requires OfferedFrom(offered, v, n)
    ensures OfferedFrom(offered, v + [x], n)
  {
    var w := v + [x];
    forall j | 0 <= j < |offered|
      ensures j * n + n <= |w| && offered[j] == w[j * n .. j * n + n]
    {
      assert w[j * n .. j * n + n] == v[j * n .. j * n + n];
    }
  }

  lemma OfferedAppend(offered: seq<seq<real>>, w: seq<real>, n: nat, blk: seq<real>)
    requires OfferedFrom(offered, w, n)
    requires |offered| * n + n <= |w| && blk == w[|offered| * n .. |offered| * n + n]
    ensures OfferedFrom(offered + [blk], w, n)
  {
  }

  lemma {:induction false} FeedShape(n: nat, w: seq<real>)
    requires n >= 1
    ensures Shaped(n, w, Feed(n, w))
    decreases |w|
  {
    if w != [] {
      var v, x := w[..|w| - 1], w[|w| - 1];
      FeedShape(n, v);
      assert v + [x] == w;
      var a := Feed(n, v);
      OfferedExtend(a.offered, v, x, n);
      if a.index == n {
        PushStepShape(n, v, x, a);
      } else {
        WriteStepShape(n, v, x, a);
      }
    }
  }

  /** One more sample, block not yet full: it lands at `index`. */
  lemma WriteStepShape(n: nat, v: seq<real>, x: real, a: Accumulator)
    requires n >= 1 && |a.block| == n && a.index < n
    requires Shaped(n, v, a) && OfferedFrom(a.offered, v + [x], n)
    ensures Shaped(n, v + [x], Step(a, x))
  {
    var w := v + [x];
    var b := Step(a, x);
    assert b.block[..b.index] == a.block[..a.index] + [x];
    assert w[|w| - b.index..] == v[|v| - a.index..] + [x];
  }

  /** One more sample, block full: the block is offered, then the sample lands at 0. */
  lemma PushStepShape(n: nat, v: seq<real>, x: real, a: Accumulator)
    requires n >= 1 && |a.block| == n && a.index == n
    requires Shaped(n, v, a) && OfferedFrom(a.offered, v + [x], n)
    ensures Shaped(n, v + [x], Step(a, x))
  {
    var w := v + [x];
    var p := |a.offered|;
    var b := Step(a, x);
    assert a.block == a.block[..a.index];
    assert w[p * n .. p * n + n] == v[|v| - n..];
    OfferedAppend(a.offered, w, n, a.block);
    assert (p + 1) * n == p * n + n;
    assert b.block[..b.index] == [x];
  }

  /** Counting: after m >= 1 samples from `prepare(n)` there were exactly
      (m-1) div n push attempts and `fifoIndex` is m - ((m-1) div n)*n,
      which lies in 1..n. */
  lemma FeedCounts(n: nat, w: seq<real>)
    requires n >= 1 && |w| >= 1
    ensures |Feed(n, w).offered| == (|w| - 1) / n
    ensures Feed(n, w).index == |w| - ((|w| - 1) / n) * n
    ensures 1 <= Feed(n, w).index <= n
  {
    FeedShape(n, w);
    var a := Feed(n, w);
    DivUnique(|w| - 1, n, |a.offered|, a.index - 1);
  }

  /** The worked case: 3000 samples with blocks of 512 give 5 pushes and
      440 samples waiting in the block being filled. */
  lemma ThreeThousandSamples(w: seq<real>)
    requires |w| == 3000
    ensures |Feed(512, w).offered| == 5
    ensures Feed(512, w).index == 440
  {
    FeedCounts(512, w);
  }

  /** A push happens only when the block is full, and the block pushed is
      the `n` most recently written samples, in order. */
  lemma PushedBlockIsRecent(n: nat, w: seq<real>, x: real)
    requires n >= 1
    ensures var a := Feed(n, w);
      |Step(a, x).offered| == |a.offered| + (if a.index == n then 1 else 0)
    ensures var a := Feed(n, w);
      a.index == n ==> |w| >= n && Step(a, x).offered == a.offered + [w[|w| - n..]]
  {
    FeedShape(n, w);
    var a := Feed(n, w);
    if a.index == n {
      assert a.block == a.block[..a.index];
    }
  }
}
