/** The editor's `ResponseCurveComponent` (Source/PluginEditor.cpp): its own
    copy of a filter chain, kept up to the parameters when a parameter
    changes, the response curve drawn from that chain, and the two path
    producers that turn the processor's analyzer fifos into spectrum paths. */
module Editor {
  import opened Parameters
  import opened FilterChains
  import opened Geometry
  import opened SampleFifos
  import opened PathProducers
  import P = Processor

  // ---------------------------------------------------------------------------
  // The response curve as a function of the chain

  /** The frequency of column `i` of `w`: `mapToLog10(i / w, 20, 20000)`,
      passed in as `toFreq`. */
  function ColumnFrequency(i: nat, w: nat, toFreq: real -> real): real
    requires w > 0
  {
    toFreq(i as real / w as real)
  }

  /** The point of column `i`: one pixel per column from the area's left
      edge, at the height of the chain's gain in decibels (`toDb` stands for
      `gainToDecibels`) on the ±24 dB scale of the area. */
  function CurvePoint(cs: ChainState, area: Rect, i: nat, m: (CoefficientSet, real) -> real,
                      toFreq: real -> real, toDb: real -> real): Point
    requires |cs.lowCut| == 4 && i < area.w
  {
    Point((area.x + i) as real,
          DbToY(toDb(ResponseAt(cs, m, ColumnFrequency(i, area.w, toFreq))), area.Bottom() as real, area.y as real))
  }

  /** The curve `updateResponseCurve` draws for a chain in an area. */
  function ResponseCurve(cs: ChainState, area: Rect, m: (CoefficientSet, real) -> real,
                         toFreq: real -> real, toDb: real -> real): (r: Path)
    requires |cs.lowCut| == 4
    ensures |r| == area.w
    ensures forall i :: 0 <= i < area.w ==> r[i].x == (area.x + i) as real
  {
    seq(area.w, i requires 0 <= i < area.w => CurvePoint(cs, area, i, m, toFreq, toDb))
  }

  /** Each point's height is the gain of the product of the magnitudes of
      exactly the sections that are not bypassed. */
  lemma CurveIsProductOfActiveSections(cs: ChainState, area: Rect, m: (CoefficientSet, real) -> real,
                                       toFreq: real -> real, toDb: real -> real, i: nat)
    requires |cs.lowCut| == 4 && i < area.w
    ensures ResponseCurve(cs, area, m, toFreq, toDb)[i].y
            == DbToY(toDb(ProductOf(ActiveSections(cs), m, ColumnFrequency(i, area.w, toFreq))), area.Bottom() as real, area.y as real)
  {
    ResponseIsProductOfActiveSections(cs, m, ColumnFrequency(i, area.w, toFreq));
  }

  /** With every position bypassed the curve is the 0 dB line, halfway
      between the top and the bottom of the area. */
  lemma BypassedChainDrawsMidline(cs: ChainState, area: Rect, m: (CoefficientSet, real) -> real,
                                  toFreq: real -> real, toDb: real -> real, i: nat)
    requires |cs.lowCut| == 4 && i < area.w
    requires cs.peak.bypassed && cs.highShelf.bypassed && cs.lowCutBypassed
    requires toDb(1.0) == 0.0
    ensures ResponseCurve(cs, area, m, toFreq, toDb)[i].y == (area.Bottom() + area.y) as real / 2.0
  {
    assert ResponseAt(cs, m, ColumnFrequency(i, area.w, toFreq)) == 1.0;
  }

  /** A point whose gain lies within ±24 dB is drawn inside the area. */
  lemma CurveStaysInArea(cs: ChainState, area: Rect, m: (CoefficientSet, real) -> real,
                         toFreq: real -> real, toDb: real -> real, i: nat)
    requires |cs.lowCut| == 4 && i < area.w
    requires -24.0 <= toDb(ResponseAt(cs, m, ColumnFrequency(i, area.w, toFreq))) <= 24.0
    ensures area.x as real <= ResponseCurve(cs, area, m, toFreq, toDb)[i].x < area.Right() as real
    ensures area.y as real <= ResponseCurve(cs, area, m, toFreq, toDb)[i].y <= area.Bottom() as real
  {
    DbToYWithin(toDb(ResponseAt(cs, m, ColumnFrequency(i, area.w, toFreq))), area.Bottom() as real, area.y as real);
  }

  /** The editor's chain and a processor chain, brought up to the same
      settings with the same designs, draw the same curve, whatever either
      held before. */
  lemma EditorCurveMatchesProcessor(editor: ChainState, processor: ChainState, s: ChainSettings, d: Designs,
                                    area: Rect, m: (CoefficientSet, real) -> real, toFreq: real -> real, toDb: real -> real)
    requires |editor.lowCut| == 4 && |processor.lowCut| == 4 && s.lowCutSlope.Ordinal() < |d.lowCut|
    ensures ResponseCurve(ApplySettings(editor, s, d), area, m, toFreq, toDb)
            == ResponseCurve(ApplySettings(processor, s, d), area, m, toFreq, toDb)
  {
    var a, b := ApplySettings(editor, s, d), ApplySettings(processor, s, d);
    ApplySettingsAligns(editor, processor, s, d);
    forall i | 0 <= i < area.w
      ensures ResponseAt(a, m, ColumnFrequency(i, area.w, toFreq)) == ResponseAt(b, m, ColumnFrequency(i, area.w, toFreq))
    {
      AlikeChainsRespondAlike(a, b, m, ColumnFrequency(i, area.w, toFreq));
    }
  }

  /** One `if (!isBypassed) mag *= getMagnitudeForFrequency(...)` step of
      `updateResponseCurve`. */
  method MultiplyIn(mag: real, st: Stage, m: (CoefficientSet, real) -> real, freq: real) returns (r: real)
    ensures r == Gate(mag, st, m, freq)
  {
    r := mag;
    if !st.bypassed {
      r := r * m(st.coefficients, freq);
    }
  }

  /** The second half of `updateResponseCurve`: `startNewSubPath` at the
      first column, then `lineTo` each further column, with the gains mapped
      onto the ±24 dB scale of the area. */
  method CurveThrough(mags: array<real>, area: Rect, ghost cs: ChainState, m: (CoefficientSet, real) -> real,
                      toFreq: real -> real, toDb: real -> real) returns (curve: Path)
    requires |cs.lowCut| == 4 && mags.Length == area.w >= 1
    requires forall i :: 0 <= i < area.w ==> mags[i] == toDb(ResponseAt(cs, m, ColumnFrequency(i, area.w, toFreq)))
    ensures curve == ResponseCurve(cs, area, m, toFreq, toDb)
  {
    var outputMin, outputMax := area.Bottom() as real, area.y as real;
    curve := [Point(area.x as real, DbToY(mags[0], outputMin, outputMax))];
    for i := 1 to area.w
      invariant |curve| == i
      invariant forall k :: 0 <= k < i ==> curve[k] == CurvePoint(cs, area, k, m, toFreq, toDb)
    {
      curve := curve + [Point((area.x + i) as real, DbToY(mags[i], outputMin, outputMax))];
    }
  }

  // ---------------------------------------------------------------------------
  // The two path producers

  /** Two valid path producers that share no object and own none of each
      other's, so that running one leaves the other as it was. */
  ghost predicate ProducersApart(left: PathProducer, right: PathProducer)
    reads left.channelFifo, left.channelFifo.Repr, right.channelFifo, right.channelFifo.Repr
  {
    && left.Valid() && right.Valid()
    && left != right && left.monoBuffer != right.monoBuffer
    && left.channelFifo.Repr !! right.channelFifo.Repr
    && left.monoBuffer !in right.channelFifo.Repr && right.monoBuffer !in left.channelFifo.Repr
    && left !in left.channelFifo.Repr && left !in right.channelFifo.Repr
    && right !in left.channelFifo.Repr && right !in right.channelFifo.Repr
  }

  /** The two path producers of a new component, over the analyzer fifos
      `lf` and `rf`, each with a window that starts as `window`. */
  method NewProducers(lf: SingleChannelSampleFifo, rf: SingleChannelSampleFifo, window: seq<real>)
    returns (left: PathProducer, right: PathProducer)
    requires lf.Valid() && rf.Valid() && lf.Repr !! rf.Repr
    ensures fresh(left) && fresh(right) && fresh(left.monoBuffer) && fresh(right.monoBuffer)
    ensures ProducersApart(left, right) && left.channelFifo == lf && right.channelFifo == rf
    ensures left.monoBuffer[..] == window && right.monoBuffer[..] == window
  {
    left := new PathProducer(lf, window);
    right := new PathProducer(rf, window);
  }

  /** The body of the editor's `updateChain` on `chain`: set the three
      position flags, copy in the peak and shelf coefficients, then update
      the cut cascade by slope. */
  method UpdateMonoChain(chain: MonoChain, s: ChainSettings, d: Designs)
    requires chain.Valid() && s.lowCutSlope.Ordinal() < |d.lowCut|
    modifies chain, chain.lowCut
    ensures chain.Valid() && chain.Value() == ApplySettings(old(chain.Value()), s, d)
  {
    chain.lowCutBypassed := s.lowCutBypassed;
    chain.peak := chain.peak.(bypassed := s.peakBypassed);
    chain.highShelf := chain.highShelf.(bypassed := s.highShelfBypassed);
    chain.peak := chain.peak.(coefficients := d.peak);
    chain.highShelf := chain.highShelf.(coefficients := d.highShelf);
    UpdateCutFilter(chain.lowCut, d.lowCut, s.lowCutSlope);
  }

  /** `leftPathProducer.process(...)`, then `rightPathProducer.process(...)`. */
  method ProcessBoth(left: PathProducer, right: PathProducer, fft: seq<real> -> seq<real>, generate: seq<real> -> Path)
    requires ProducersApart(left, right)
    requires Fits(left.channelFifo.audioBufferFifo.Contents, left.monoBuffer.Length)
    requires Fits(right.channelFifo.audioBufferFifo.Contents, right.monoBuffer.Length)
    modifies left, left.monoBuffer, left.channelFifo.audioBufferFifo
    modifies right, right.monoBuffer, right.channelFifo.audioBufferFifo
    ensures ProducersApart(left, right)
    ensures left.State() == Processed(old(left.State()), fft, generate)
    ensures right.State() == Processed(old(right.State()), fft, generate)
  {
    left.Process(fft, generate);
    right.Process(fft, generate);
  }

  // ---------------------------------------------------------------------------
  // What a timer tick does, on values

  /** What the timer callback reads and changes: the processor's parameters,
      the editor's chain, the component's bounds, its two flags, the drawn
      curve and the two path producers. */
  datatype ComponentView = ComponentView(params: ParameterValues, chain: ChainState, bounds: Rect,
                                         parametersChanged: bool, showAnalysis: bool, responseCurve: Path,
                                         left: ProducerState, right: ProducerState)

  /** The first half of a tick: when the analysis is shown, both producers
      take in their pending blocks. */
  function AnalyzersProcessed(v: ComponentView, fft: seq<real> -> seq<real>, generate: seq<real> -> Path): (r: ComponentView)
    requires v.showAnalysis ==> Fits(v.left.pending, |v.left.window|) && Fits(v.right.pending, |v.right.window|)
    ensures r.(left := v.left, right := v.right) == v
  {
    if v.showAnalysis then v.(left := Processed(v.left, fft, generate), right := Processed(v.right, fft, generate))
    else v
  }

  /** A refresh: the chain brought up to the parameters and the curve
      redrawn from it. */
  ghost function ChainRefreshed(v: ComponentView, design: ChainSettings -> Designs, m: (CoefficientSet, real) -> real,
                                toFreq: real -> real, toDb: real -> real): (r: ComponentView)
    requires HasChainParameters(v.params) && |v.chain.lowCut| == 4 && P.Butterworth(design)
    ensures |r.chain.lowCut| == 4
  {
    var settings := GetChainSettings(v.params);
    var chain := ApplySettings(v.chain, settings, design(settings));
    v.(chain := chain, responseCurve := ResponseCurve(chain, AnalysisArea(v.bounds), m, toFreq, toDb))
  }

  /** The second half of a tick: the flag is cleared, and if it was set the
      chain and the curve are refreshed. */
  ghost function ChangesRefreshed(v: ComponentView, design: ChainSettings -> Designs, m: (CoefficientSet, real) -> real,
                                  toFreq: real -> real, toDb: real -> real): (r: ComponentView)
    requires HasChainParameters(v.params) && |v.chain.lowCut| == 4 && P.Butterworth(design)
    ensures |r.chain.lowCut| == 4
  {
    var cleared := v.(parametersChanged := false);
    if v.parametersChanged then ChainRefreshed(cleared, design, m, toFreq, toDb) else cleared
  }

  /** A whole tick of the timer: process the analyzers, then refresh on a
      change. */
  ghost function Tick(v: ComponentView, design: ChainSettings -> Designs, fft: seq<real> -> seq<real>,
                      generate: seq<real> -> Path, m: (CoefficientSet, real) -> real,
                      toFreq: real -> real, toDb: real -> real): ComponentView
    requires HasChainParameters(v.params) && |v.chain.lowCut| == 4 && P.Butterworth(design)
    requires v.showAnalysis ==> Fits(v.left.pending, |v.left.window|) && Fits(v.right.pending, |v.right.window|)
  {
    ChangesRefreshed(AnalyzersProcessed(v, fft, generate), design, m, toFreq, toDb)
  }

  /** What a tick leaves: the flag cleared; after a change the chain brought
      up to the parameters and the curve redrawn from it, otherwise both as
      they were; when the analysis is shown each window holds the most
      recent samples and, if a block arrived, the newest path is drawn from
      that window, otherwise both producers as they were; the parameters,
      the bounds and the analysis switch untouched. */
  lemma TickOutcome(v: ComponentView, design: ChainSettings -> Designs, fft: seq<real> -> seq<real>,
                    generate: seq<real> -> Path, m: (CoefficientSet, real) -> real,
                    toFreq: real -> real, toDb: real -> real)
    requires HasChainParameters(v.params) && |v.chain.lowCut| == 4 && P.Butterworth(design)
    requires v.showAnalysis ==> Fits(v.left.pending, |v.left.window|) && Fits(v.right.pending, |v.right.window|)
    ensures var r := Tick(v, design, fft, generate, m, toFreq, toDb);
            && !r.parametersChanged && r.params == v.params && r.bounds == v.bounds && r.showAnalysis == v.showAnalysis
            && (v.parametersChanged ==>
                  var settings := GetChainSettings(v.params);
                  && r.chain == ApplySettings(v.chain, settings, design(settings))
                  && r.responseCurve == ResponseCurve(r.chain, AnalysisArea(v.bounds), m, toFreq, toDb))
            && (!v.parametersChanged ==> r.chain == v.chain && r.responseCurve == v.responseCurve)
            && (!v.showAnalysis ==> r.left == v.left && r.right == v.right)
    ensures var r := Tick(v, design, fft, generate, m, toFreq, toDb);
            v.showAnalysis ==>
              && |Flatten(v.left.pending)| <= |v.left.window + Flatten(v.left.pending)|
              && |Flatten(v.right.pending)| <= |v.right.window + Flatten(v.right.pending)|
              && r.left.window == (v.left.window + Flatten(v.left.pending))[|Flatten(v.left.pending)|..]
              && r.right.window == (v.right.window + Flatten(v.right.pending))[|Flatten(v.right.pending)|..]
              && (v.left.pending != [] ==> r.left.fftPath == generate(fft(r.left.window)))
              && (v.right.pending != [] ==> r.right.fftPath == generate(fft(r.right.window)))
  {
    if v.showAnalysis {
      ProcessedShowsLatest(v.left, fft, generate);
      ProcessedShowsLatest(v.right, fft, generate);
    }
  }

  // ---------------------------------------------------------------------------
  // The component

  class ResponseCurveComponent {
    const audioProcessor: P.AudioProcessor
    const monoChain: MonoChain
    const leftPathProducer: PathProducer
    const rightPathProducer: PathProducer
    /** Set by a parameter listener, cleared by the timer when it refreshes. */
    var parametersChanged: bool
    var shouldShowFFTAnalysis: bool
    /** `getLocalBounds()`. */
    var bounds: Rect
    var responseCurve: Path

    ghost predicate Valid()
      reads this, monoChain, monoChain.lowCut
      reads leftPathProducer.channelFifo, leftPathProducer.channelFifo.Repr
      reads rightPathProducer.channelFifo, rightPathProducer.channelFifo.Repr
    {
      && monoChain.Valid()
      && ProducersApart(leftPathProducer, rightPathProducer)
      && {this, monoChain, monoChain.lowCut} !! leftPathProducer.channelFifo.Repr
      && {this, monoChain, monoChain.lowCut} !! rightPathProducer.channelFifo.Repr
    }

    /** The component's state as a value. */
    ghost function View(): ComponentView
      requires monoChain.Valid()
      reads this, audioProcessor, monoChain, monoChain.lowCut
      reads leftPathProducer, leftPathProducer.monoBuffer, leftPathProducer.channelFifo.audioBufferFifo
      reads rightPathProducer, rightPathProducer.monoBuffer, rightPathProducer.channelFifo.audioBufferFifo
    {
      ComponentView(audioProcessor.params, monoChain.Value(), bounds, parametersChanged, shouldShowFFTAnalysis,
                    responseCurve, leftPathProducer.State(), rightPathProducer.State())
    }

    /** The objects the producers may change. */
    ghost function Analyzers(): set<object>
    {
      {leftPathProducer, leftPathProducer.monoBuffer, leftPathProducer.channelFifo.audioBufferFifo,
       rightPathProducer, rightPathProducer.monoBuffer, rightPathProducer.channelFifo.audioBufferFifo}
    }

    /** The component for processor `p`: a chain of default filters brought
        up to the parameters, and path producers reading `p`'s left and right
        analyzer fifos through windows that start as `window`. */
    constructor (p: P.AudioProcessor, initial: CoefficientSet, window: seq<real>, showAnalysis: bool,
                 design: ChainSettings -> Designs)
      requires p.Valid() && HasChainParameters(p.params) && P.Butterworth(design)
      ensures Valid() && audioProcessor == p
      ensures leftPathProducer.channelFifo == p.leftChannelFifo && rightPathProducer.channelFifo == p.rightChannelFifo
      ensures leftPathProducer.monoBuffer[..] == window && rightPathProducer.monoBuffer[..] == window
      ensures fresh(monoChain) && fresh(monoChain.lowCut) && fresh(leftPathProducer) && fresh(rightPathProducer)
      ensures monoChain.Value() == ApplySettings(DefaultChain(initial),
                                                 GetChainSettings(p.params), design(GetChainSettings(p.params)))
      ensures !parametersChanged && shouldShowFFTAnalysis == showAnalysis
      ensures bounds == Rect(0, 0, 0, 0) && responseCurve == []
    {
      var chain := new MonoChain(initial);
      var left, right := NewProducers(p.leftChannelFifo, p.rightChannelFifo, window);
      audioProcessor, monoChain, leftPathProducer, rightPathProducer := p, chain, left, right;
      parametersChanged, shouldShowFFTAnalysis := false, showAnalysis;
      bounds, responseCurve := Rect(0, 0, 0, 0), [];
      new;
      UpdateChain(design);
    }

    /** `parameterValueChanged`: note that a parameter moved. */
    method ParameterValueChanged()
      requires Valid()
      modifies this`parametersChanged
      ensures Valid() && parametersChanged
    {
      parametersChanged := true;
    }

    /** `parametersChanged.compareAndSetBool(false, true)`: clear the flag
        and report whether it was set. */
    method CompareAndSetChanged() returns (wasSet: bool)
      requires Valid()
      modifies this`parametersChanged
      ensures Valid() && wasSet == old(parametersChanged) && View() == old(View()).(parametersChanged := false)
    {
      wasSet := parametersChanged;
      if wasSet {
        parametersChanged := false;
      }
    }

    /** The chain `updateChain` leaves: the current chain brought up to the
        settings the parameters hold now. */
    ghost function Refreshed(design: ChainSettings -> Designs): ChainState
      requires monoChain.Valid() && HasChainParameters(audioProcessor.params) && P.Butterworth(design)
      reads audioProcessor, monoChain, monoChain.lowCut
    {
      var settings := GetChainSettings(audioProcessor.params);
      ApplySettings(monoChain.Value(), settings, design(settings))
    }

    /** `updateChain`: take a settings snapshot, set the three position
        flags, copy in the peak and shelf coefficients, then update the cut
        cascade by slope. */
    method UpdateChain(design: ChainSettings -> Designs)
      requires Valid() && HasChainParameters(audioProcessor.params) && P.Butterworth(design)
      modifies monoChain, monoChain.lowCut
      ensures Valid() && monoChain.Value() == old(Refreshed(design))
    {
      var chainSettings := GetChainSettings(audioProcessor.params);
      UpdateMonoChain(monoChain, chainSettings, design(chainSettings));
    }

    /** The gain of the chain at one frequency: start at 1 and multiply in
        each position, and each cut stage, that is not bypassed. */
    method ColumnMagnitude(m: (CoefficientSet, real) -> real, freq: real) returns (mag: real)
      requires Valid()
      ensures mag == ResponseAt(monoChain.Value(), m, freq)
    {
      mag := 1.0;
      mag := MultiplyIn(mag, monoChain.peak, m, freq);
      mag := MultiplyIn(mag, monoChain.highShelf, m, freq);
      if !monoChain.lowCutBypassed {
        var lowcut := monoChain.lowCut.stages;
        mag := MultiplyIn(mag, lowcut[0], m, freq);
        mag := MultiplyIn(mag, lowcut[1], m, freq);
        mag := MultiplyIn(mag, lowcut[2], m, freq);
        mag := MultiplyIn(mag, lowcut[3], m, freq);
      }
    }

    /** The first loop of `updateResponseCurve`: the chain's gain in
        decibels at each column's frequency. */
    method Magnitudes(w: nat, m: (CoefficientSet, real) -> real, toFreq: real -> real, toDb: real -> real)
      returns (mags: array<real>)
      requires Valid()
      ensures fresh(mags) && mags.Length == w
      ensures forall i :: 0 <= i < w ==> mags[i] == toDb(ResponseAt(monoChain.Value(), m, ColumnFrequency(i, w, toFreq)))
    {
      mags := new real[w];
      ghost var cs := monoChain.Value();
      for i := 0 to w
        invariant forall k :: 0 <= k < i ==> mags[k] == toDb(ResponseAt(cs, m, ColumnFrequency(k, w, toFreq)))
      {
        var freq := toFreq(i as real / w as real);
        var mag := ColumnMagnitude(m, freq);
        mags[i] := toDb(mag);
      }
    }

    /** `updateResponseCurve`: the gain at every column of the analysis
        area, then a path through one point per column. The area must be at
        least one pixel wide, since the path starts at the first gain. */
    method UpdateResponseCurve(m: (CoefficientSet, real) -> real, toFreq: real -> real, toDb: real -> real)
      requires Valid() && AnalysisArea(bounds).w >= 1
      modifies this`responseCurve
      ensures Valid()
      ensures responseCurve == ResponseCurve(monoChain.Value(), AnalysisArea(bounds), m, toFreq, toDb)
    {
      var responseArea := AnalysisArea(bounds);
      var mags := Magnitudes(responseArea.w, m, toFreq, toDb);
      responseCurve := CurveThrough(mags, responseArea, monoChain.Value(), m, toFreq, toDb);
    }

    /** The component is given new bounds and `resized` redraws the curve. */
    method Resized(newBounds: Rect, m: (CoefficientSet, real) -> real, toFreq: real -> real, toDb: real -> real)
      requires Valid() && AnalysisArea(newBounds).w >= 1
      modifies this`bounds, this`responseCurve
      ensures Valid() && bounds == newBounds
      ensures responseCurve == ResponseCurve(monoChain.Value(), AnalysisArea(newBounds), m, toFreq, toDb)
    {
      bounds := newBounds;
      UpdateResponseCurve(m, toFreq, toDb);
    }

    /** `updateChain()` then `updateResponseCurve()`. */
    method Refresh(design: ChainSettings -> Designs, m: (CoefficientSet, real) -> real,
                   toFreq: real -> real, toDb: real -> real)
      requires Valid() && HasChainParameters(audioProcessor.params) && P.Butterworth(design)
      requires AnalysisArea(bounds).w >= 1
      modifies this`responseCurve, monoChain, monoChain.lowCut
      ensures Valid() && View() == ChainRefreshed(old(View()), design, m, toFreq, toDb)
    {
      label start:
      UpdateChain(design);
      UpdateResponseCurve(m, toFreq, toDb);
      StateKept@start(leftPathProducer);
      StateKept@start(rightPathProducer);
    }

    /** The first half of `timerCallback`: when the analysis is shown, both
        path producers take in what the analyzer fifos hold. */
    method ProcessAnalyzers(fft: seq<real> -> seq<real>, generate: seq<real> -> Path)
      requires Valid()
      requires shouldShowFFTAnalysis ==>
                 && Fits(leftPathProducer.channelFifo.audioBufferFifo.Contents, leftPathProducer.monoBuffer.Length)
                 && Fits(rightPathProducer.channelFifo.audioBufferFifo.Contents, rightPathProducer.monoBuffer.Length)
      modifies Analyzers()
      ensures Valid() && View() == AnalyzersProcessed(old(View()), fft, generate)
    {
      if shouldShowFFTAnalysis {
        ProcessBoth(leftPathProducer, rightPathProducer, fft, generate);
      }
    }

    /** The second half of `timerCallback`: when the flag was set, clear it,
        bring the chain up to the parameters and redraw the curve; otherwise
        leave both alone. */
    method RefreshIfChanged(design: ChainSettings -> Designs, m: (CoefficientSet, real) -> real,
                            toFreq: real -> real, toDb: real -> real)
      requires Valid() && HasChainParameters(audioProcessor.params) && P.Butterworth(design)
      requires parametersChanged ==> AnalysisArea(bounds).w >= 1
      modifies this`parametersChanged, this`responseCurve, monoChain, monoChain.lowCut
      ensures Valid() && View() == ChangesRefreshed(old(View()), design, m, toFreq, toDb)
    {
      var changed := CompareAndSetChanged();
      if changed {
        Refresh(design, m, toFreq, toDb);
      }
    }

    /** `timerCallback`: when the analysis is shown, let both path producers
        take in what the analyzer fifos hold; then refresh the curve if a
        parameter changed since the last tick. */
    method TimerCallback(design: ChainSettings -> Designs, fft: seq<real> -> seq<real>, generate: seq<real> -> Path,
                         m: (CoefficientSet, real) -> real, toFreq: real -> real, toDb: real -> real)
      requires Valid() && HasChainParameters(audioProcessor.params) && P.Butterworth(design)
      requires shouldShowFFTAnalysis ==>
                 && Fits(leftPathProducer.channelFifo.audioBufferFifo.Contents, leftPathProducer.monoBuffer.Length)
                 && Fits(rightPathProducer.channelFifo.audioBufferFifo.Contents, rightPathProducer.monoBuffer.Length)
      requires parametersChanged ==> AnalysisArea(bounds).w >= 1
      modifies Analyzers(), this`parametersChanged, this`responseCurve, monoChain, monoChain.lowCut
      ensures Valid()
      ensures View() == Tick(old(View()), design, fft, generate, m, toFreq, toDb)
    {
      ProcessAnalyzers(fft, generate);
      RefreshIfChanged(design, m, toFreq, toDb);
    }
  }
}
