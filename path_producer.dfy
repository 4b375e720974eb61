/** `PathProducer::process` (Source/PluginEditor.cpp): drain the analyzer
    fifo of one channel into a sliding window of the most recent samples,
    hand each new window to the FFT data generator, turn every FFT block
    into a path, and keep the newest path for drawing. */
module PathProducers {
  import opened SampleFifos

  /** A point of a drawn path. */
  datatype Point = Point(x: real, y: real)

  type Path = seq<Point>

  // ---------------------------------------------------------------------------
  // The sliding window

  /** The window after a block arrives: its oldest `|block|` samples drop
      off the front and the block is appended at the tail. */
  function Slide(window: seq<real>, block: seq<real>): (r: seq<real>)
    requires |block| <= |window|
    ensures |r| == |window|
    ensures forall k :: 0 <= k < |window| - |block| ==> r[k] == window[k + |block|]
    ensures forall k :: 0 <= k < |block| ==> r[|window| - |block| + k] == block[k]
  {
    window[|block|..] + block
  }

  /** Every block fits in a window of `n` samples. */
  predicate Fits(blocks: seq<seq<real>>, n: nat)
  {
    forall k :: 0 <= k < |blocks| ==> |blocks[k]| <= n
  }

  /** The window after each block of `blocks` in turn. */
  function SlideAll(window: seq<real>, blocks: seq<seq<real>>): (r: seq<real>)
    requires Fits(blocks, |window|)
    ensures |r| == |window|
    decreases |blocks|
  {
    if blocks == [] then window
    else Slide(SlideAll(window, blocks[..|blocks| - 1]), blocks[|blocks| - 1])
  }

  /** All samples of `blocks`, in arrival order. */
  function Flatten(blocks: seq<seq<real>>): seq<real>
    decreases |blocks|
  {
    if blocks == [] then [] else Flatten(blocks[..|blocks| - 1]) + blocks[|blocks| - 1]
  }

  /** The window always holds the most recent samples of the stream: the
      old window followed by every block, with as many samples dropped from
      the front as arrived. */
  lemma {:induction false} WindowIsMostRecent(window: seq<real>, blocks: seq<seq<real>>)
    requires Fits(blocks, |window|)
    ensures |Flatten(blocks)| <= |window + Flatten(blocks)|
    ensures SlideAll(window, blocks) == (window + Flatten(blocks))[|Flatten(blocks)|..]
    decreases |blocks|
  {
    if blocks != [] {
      var init, b := blocks[..|blocks| - 1], blocks[|blocks| - 1];
      assert Fits(init, |window|);
      WindowIsMostRecent(window, init);
      var f := Flatten(init);
      assert Flatten(blocks) == f + b;
      assert window + Flatten(blocks) == (window + f) + b;
      DropThenAppend(window + f, |f|, b);
    }
  }

  /** Dropping `n` then `|b|` samples and appending `b` is appending `b`
      and dropping `n + |b|`. */
  lemma DropThenAppend(s: seq<real>, n: nat, b: seq<real>)
    requires n + |b| <= |s|
    ensures s[n..][|b|..] + b == (s + b)[n + |b|..]
  {
  }

  /** Each window handed on after a block arrives, through `fft`: the k-th
      is the window after the first k + 1 blocks. */
  function Renderings(window: seq<real>, blocks: seq<seq<real>>, fft: seq<real> -> seq<real>): (r: seq<seq<real>>)
    requires Fits(blocks, |window|)
    ensures |r| == |blocks|
    decreases |blocks|
  {
    if blocks == [] then []
    else Renderings(window, blocks[..|blocks| - 1], fft) + [fft(SlideAll(window, blocks))]
  }

  /** The k-th rendering is the FFT of the window after the first k + 1 blocks. */
  lemma {:induction false} RenderingsAreWindows(window: seq<real>, blocks: seq<seq<real>>, fft: seq<real> -> seq<real>, k: nat)
    requires Fits(blocks, |window|) && k < |blocks|
    ensures Fits(blocks[..k + 1], |window|)
    ensures Renderings(window, blocks, fft)[k] == fft(SlideAll(window, blocks[..k + 1]))
    decreases |blocks|
  {
    assert blocks[..|blocks|] == blocks;
    if k < |blocks| - 1 {
      var init := blocks[..|blocks| - 1];
      RenderingsAreWindows(window, init, fft, k);
      assert init[..k + 1] == blocks[..k + 1];
    }
  }

  /** Taking block `k` slides it into the window after the first `k`
      blocks and hands on one more rendering. */
  lemma DrainStep(window: seq<real>, blocks: seq<seq<real>>, k: nat, fft: seq<real> -> seq<real>)
    requires Fits(blocks, |window|) && k < |blocks|
    ensures Fits(blocks[..k], |window|) && Fits(blocks[..k + 1], |window|)
    ensures SlideAll(window, blocks[..k + 1]) == Slide(SlideAll(window, blocks[..k]), blocks[k])
    ensures Renderings(window, blocks[..k + 1], fft) ==
              Renderings(window, blocks[..k], fft) + [fft(SlideAll(window, blocks[..k + 1]))]
  {
    assert blocks[..k + 1][..k] == blocks[..k];
  }

  /** The two `FloatVectorOperations::copy` calls: move the window left by
      `|block|` samples, lowest index first, then copy the block to the tail. */
  method ShiftIn(window: array<real>, block: seq<real>)
    requires |block| <= window.Length
    modifies window
    ensures window[..] == Slide(old(window[..]), block)
  {
    var n, size := window.Length, |block|;
    ghost var before := window[..];
    for i := 0 to n - size
      invariant forall k :: 0 <= k < i ==> window[k] == before[k + size]
      invariant forall k :: i <= k < n ==> window[k] == before[k]
    {
      window[i] := window[i + size];
    }
    for j := 0 to size
      invariant forall k :: 0 <= k < n - size ==> window[k] == before[k + size]
      invariant forall k :: n - size <= k < n - size + j ==> window[k] == block[k - (n - size)]
    {
      window[n - size + j] := block[j];
    }
    ghost var after := Slide(before, block);
    assert forall k :: 0 <= k < n ==> window[k] == after[k];
  }

  // ---------------------------------------------------------------------------
  // The producer

  /** What a producer holds: its window, the blocks waiting in its analyzer
      fifo, the FFT blocks and paths its generators hold ready, and the path
      it draws. */
  datatype ProducerState = ProducerState(window: seq<real>, pending: seq<seq<real>>, fftBlocks: seq<seq<real>>,
                                         paths: seq<Path>, fftPath: Path)

  /** What `process` leaves: every pending block slid into the window, both
      generators emptied, and the newest path drawn. */
  function Processed(st: ProducerState, fft: seq<real> -> seq<real>, generate: seq<real> -> Path): ProducerState
    requires Fits(st.pending, |st.window|)
  {
    ProducerState(SlideAll(st.window, st.pending), [], [], [],
                  NewestPath(st.fftPath, st.paths, st.fftBlocks + Renderings(st.window, st.pending, fft), generate))
  }

  /** After `process` the window holds the latest samples of the stream and,
      when a block arrived, the path drawn is made from that window. */
  lemma ProcessedShowsLatest(st: ProducerState, fft: seq<real> -> seq<real>, generate: seq<real> -> Path)
    requires Fits(st.pending, |st.window|)
    ensures |Flatten(st.pending)| <= |st.window + Flatten(st.pending)|
    ensures Processed(st, fft, generate).window == (st.window + Flatten(st.pending))[|Flatten(st.pending)|..]
    ensures st.pending != [] ==> Processed(st, fft, generate).fftPath == generate(fft(Processed(st, fft, generate).window))
    ensures st.pending == [] && st.fftBlocks == [] && st.paths == [] ==> Processed(st, fft, generate) == st
  {
    WindowIsMostRecent(st.window, st.pending);
    if st.pending != [] {
      NewestPathIsLatestWindow(st.fftPath, st.paths, st.fftBlocks, st.window, st.pending, fft, generate);
    }
  }

  /** A channel's `PathProducer`: the analyzer fifo it reads, its window
      `monoBuffer`, the FFT blocks and paths its generators hold ready, and
      the path to draw. */
  class PathProducer {
    const channelFifo: SingleChannelSampleFifo
    const monoBuffer: array<real>
    /** The FFT data blocks the data generator holds ready, oldest first. */
    var fftBlocks: seq<seq<real>>
    /** The paths the path generator holds ready, oldest first. */
    var paths: seq<Path>
    /** `leftChannelFFTPath`: the path the editor draws. */
    var fftPath: Path

    ghost predicate Valid()
      reads channelFifo, channelFifo.Repr
    {
      && channelFifo.Valid()
      && monoBuffer !in channelFifo.Repr
    }

    ghost function State(): ProducerState
      reads this, monoBuffer, channelFifo.audioBufferFifo
    {
      ProducerState(monoBuffer[..], channelFifo.audioBufferFifo.Contents, fftBlocks, paths, fftPath)
    }

    /** A producer over `fifo` whose window starts as `window`; the window's
        length and first contents are set up by the editor's header. */
    constructor (fifo: SingleChannelSampleFifo, window: seq<real>)
      ensures channelFifo == fifo && fresh(monoBuffer)
      ensures monoBuffer[..] == window
      ensures fftBlocks == [] && paths == [] && fftPath == []
    {
      channelFifo := fifo;
      monoBuffer := new real[|window|](i requires 0 <= i < |window| => window[i]);
      fftBlocks, paths, fftPath := [], [], [];
    }

    /** One pass of the first loop of `process`: pull the oldest complete
        block, slide it into the window, and hand the window on. */
    method TakeBlock(fft: seq<real> -> seq<real>)
      requires Valid() && channelFifo.audioBufferFifo.Contents != []
      requires |channelFifo.audioBufferFifo.Contents[0]| <= monoBuffer.Length
      modifies channelFifo.audioBufferFifo, monoBuffer, this`fftBlocks
      ensures Valid() && channelFifo.audioBufferFifo.Contents == old(channelFifo.audioBufferFifo.Contents)[1..]
      ensures monoBuffer[..] == Slide(old(monoBuffer[..]), old(channelFifo.audioBufferFifo.Contents)[0])
      ensures fftBlocks == old(fftBlocks) + [fft(monoBuffer[..])]
    {
      var ok, tempIncomingBuffer := channelFifo.GetAudioBuffer([]);
      if ok {
        ShiftIn(monoBuffer, tempIncomingBuffer);
        fftBlocks := fftBlocks + [fft(monoBuffer[..])];
      }
    }

    /** The first loop of `process`: pull every complete block, slide it into
        the window, and hand each new window to the FFT data generator. */
    method DrainFifo(fft: seq<real> -> seq<real>)
      requires Valid() && Fits(channelFifo.audioBufferFifo.Contents, monoBuffer.Length)
      modifies channelFifo.audioBufferFifo, monoBuffer, this`fftBlocks
      ensures Valid() && channelFifo.audioBufferFifo.Contents == []
      ensures monoBuffer[..] == SlideAll(old(monoBuffer[..]), old(channelFifo.audioBufferFifo.Contents))
      ensures fftBlocks == old(fftBlocks) + Renderings(old(monoBuffer[..]), old(channelFifo.audioBufferFifo.Contents), fft)
    {
      ghost var blocks := channelFifo.audioBufferFifo.Contents;
      ghost var w0 := monoBuffer[..];
      ghost var k := 0;
      assert blocks[..0] == [];
      while channelFifo.NumCompleteBuffersAvailable() > 0
        invariant Valid()
        invariant k <= |blocks| && channelFifo.audioBufferFifo.Contents == blocks[k..]
        invariant Fits(blocks[..k], |w0|)
        invariant monoBuffer[..] == SlideAll(w0, blocks[..k])
        invariant fftBlocks == old(fftBlocks) + Renderings(w0, blocks[..k], fft)
        decreases |blocks| - k
      {
        TakeBlock(fft);
        DrainStep(w0, blocks, k, fft);
        k := k + 1;
      }
      assert blocks[..k] == blocks;
    }

    /** The second loop of `process`: turn every ready FFT block into a
        path, oldest first. */
    method GeneratePaths(generate: seq<real> -> Path)
      modifies this`fftBlocks, this`paths
      ensures fftBlocks == [] && paths == old(paths) + Generated(old(fftBlocks), generate)
    {
      var k := 0;
      while |fftBlocks| > 0
        invariant k <= |old(fftBlocks)| && fftBlocks == old(fftBlocks)[k..]
        invariant paths == old(paths) + Generated(old(fftBlocks)[..k], generate)
        decreases |fftBlocks|
      {
        var fftData := fftBlocks[0];
        fftBlocks := fftBlocks[1..];
        paths := paths + [generate(fftData)];
        assert old(fftBlocks)[..k + 1][..k] == old(fftBlocks)[..k];
        k := k + 1;
      }
      assert old(fftBlocks)[..k] == old(fftBlocks);
    }

    /** The third loop of `process`: pull paths until none is left; the last
        one pulled, the newest, is the one drawn. */
    method TakeNewestPath()
      modifies this`paths, this`fftPath
      ensures paths == []
      ensures fftPath == if old(paths) == [] then old(fftPath) else old(paths)[|old(paths)| - 1]
    {
      while |paths| > 0
        invariant |paths| <= |old(paths)| && paths == old(paths)[|old(paths)| - |paths|..]
        invariant |paths| < |old(paths)| ==> fftPath == old(paths)[|old(paths)| - |paths| - 1]
        invariant |paths| == |old(paths)| ==> fftPath == old(fftPath)
        decreases |paths|
      {
        fftPath := paths[0];
        paths := paths[1..];
      }
    }

    /** `process`: the three loops in order. */
    method Process(fft: seq<real> -> seq<real>, generate: seq<real> -> Path)
      requires Valid() && Fits(channelFifo.audioBufferFifo.Contents, monoBuffer.Length)
      modifies channelFifo.audioBufferFifo, monoBuffer, this`fftBlocks, this`paths, this`fftPath
      ensures Valid() && State() == Processed(old(State()), fft, generate)
    {
      DrainFifo(fft);
      GeneratePaths(generate);
      TakeNewestPath();
    }
  }

  /** The path made from each FFT block, in order. */
  function Generated(blocks: seq<seq<real>>, generate: seq<real> -> Path): (r: seq<Path>)
    ensures |r| == |blocks|
    ensures forall k :: 0 <= k < |blocks| ==> r[k] == generate(blocks[k])
    decreases |blocks|
  {
    if blocks == [] then [] else Generated(blocks[..|blocks| - 1], generate) + [generate(blocks[|blocks| - 1])]
  }

  /** The path drawn after the path generator, holding `ready`, has turned
      `blocks` into paths and every path has been pulled: the newest one,
      or the one drawn before when there was none. */
  function NewestPath(before: Path, ready: seq<Path>, blocks: seq<seq<real>>, generate: seq<real> -> Path): Path
  {
    var made := ready + Generated(blocks, generate);
    if made == [] then before else made[|made| - 1]
  }

  /** When at least one block arrived, the path drawn is the one made from
      the FFT of the window after the last block, whatever was queued before. */
  lemma NewestPathIsLatestWindow(before: Path, ready: seq<Path>, queued: seq<seq<real>>, window: seq<real>,
                                 blocks: seq<seq<real>>, fft: seq<real> -> seq<real>, generate: seq<real> -> Path)
    requires Fits(blocks, |window|) && blocks != []
    ensures NewestPath(before, ready, queued + Renderings(window, blocks, fft), generate)
            == generate(fft(SlideAll(window, blocks)))
  {
    var all := queued + Renderings(window, blocks, fft);
    assert all[|all| - 1] == fft(SlideAll(window, blocks));
  }

  /** A producer none of whose objects changed is in the state it was in. */
  twostate lemma StateKept(p: PathProducer)
    requires unchanged(p, p.monoBuffer, p.channelFifo.audioBufferFifo)
    ensures p.State() == old(p.State())
  {
  }
}
