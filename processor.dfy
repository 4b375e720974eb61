/** `FastVoxAudioProcessor` (Source/PluginProcessor.cpp): the bus layouts it
    accepts, the compressor settings it reads, the two filter chains it
    keeps up to date with the parameter store, and the order of the steps
    of `processBlock`. The filters' and the compressor's signal processing
    are functions passed in. */
module Processor {
  import opened Parameters
  import opened Decimal
  import opened FilterChains
  import opened SampleFifos

  // ---------------------------------------------------------------------------
  // Bus layouts

  /** `juce::AudioChannelSet`, compared by value; `Other` stands for every
      set that is neither disabled, mono nor stereo. */
  datatype ChannelSet = Disabled | Mono | Stereo | Other

  datatype BusesLayout = BusesLayout(mainInput: ChannelSet, mainOutput: ChannelSet)

  /** `isBusesLayoutSupported` under the build flags `JucePlugin_IsMidiEffect`
      and `JucePlugin_IsSynth`. */
  function IsBusesLayoutSupported(layout: BusesLayout, isMidiEffect: bool, isSynth: bool): (ok: bool)
    ensures isMidiEffect ==> ok
    ensures !isMidiEffect && isSynth ==> (ok <==> layout.mainOutput == Stereo)
    ensures !isMidiEffect && !isSynth ==> (ok <==> layout.mainInput == Stereo && layout.mainOutput == Stereo)
  {
    if isMidiEffect then true
    else if layout.mainOutput != Stereo then false
    else if !isSynth && layout.mainOutput != layout.mainInput then false
    else true
  }

  /** The buses the constructor declares: a stereo input unless the plugin
      is a synth or a MIDI effect, a stereo output unless it is a MIDI effect. */
  function DeclaredLayout(isMidiEffect: bool, isSynth: bool): BusesLayout
  {
    BusesLayout(
      if isMidiEffect || isSynth then Disabled else Stereo,
      if isMidiEffect then Disabled else Stereo)
  }

  /** The layout the processor declares is one it supports, and it is the
      only one an audio effect build supports. */
  lemma DeclaredLayoutSupported(isMidiEffect: bool, isSynth: bool, layout: BusesLayout)
    ensures IsBusesLayoutSupported(DeclaredLayout(isMidiEffect, isSynth), isMidiEffect, isSynth)
    ensures !isMidiEffect && !isSynth ==>
              (IsBusesLayoutSupported(layout, false, false) <==> layout == DeclaredLayout(false, false))
  {
  }

  // ---------------------------------------------------------------------------
  // Compressor settings

  datatype CompressorSettings = CompressorSettings(attack: real, release: real, threshold: real, ratio: real)

  /** `juce::String::getFloatValue` on the strings it is given here: one-decimal renderings. */
  function FloatValue(s: string): (v: real)
    requires IsOneDecimal(s)
    ensures v * 10.0 == ParseOneDecimal(s) as real
  {
    ParseOneDecimal(s) as real / 10.0
  }

  predicate HasCompressorParameters(p: ParameterValues)
  {
    && AttackId in p && ReleaseId in p && ThresholdId in p && RatioId in p
    && IsChoiceIndex(p[RatioId], |RatioChoicesInTenths|)
  }

  /** The four `compressor.set...` calls of `processBlock`: attack, release
      and threshold as stored, the ratio parsed from the current choice's
      name. The compressor-bypass parameter is not read. */
  function CompressorSettingsOf(p: ParameterValues): (c: CompressorSettings)
    requires HasCompressorParameters(p)
    ensures c.attack == p[AttackId] && c.release == p[ReleaseId] && c.threshold == p[ThresholdId]
    ensures c.ratio * 10.0 == RatioChoicesInTenths[p[RatioId].Floor] as real
  {
    var name := RatioLabel(p[RatioId].Floor);
    OneDecimalRoundTrip(RatioChoicesInTenths[p[RatioId].Floor]);
    CompressorSettings(p[AttackId], p[ReleaseId], p[ThresholdId], FloatValue(name))
  }

  /** Every ratio the compressor can be given lies between 1 and 50. */
  lemma RatioWithinTable(p: ParameterValues)
    requires HasCompressorParameters(p)
    ensures 1.0 <= CompressorSettingsOf(p).ratio <= 50.0
  {
    var i := p[RatioId].Floor;
    assert 10 <= RatioChoicesInTenths[i] <= 500;
  }

  /** The compressor does not depend on the compressor-bypass parameter, nor
      the filter settings: turning it on or off changes nothing `processBlock` does. */
  lemma CompressorBypassIgnored(p: ParameterValues, v: real)
    requires HasCompressorParameters(p) && HasChainParameters(p)
    ensures HasCompressorParameters(p[CompressorBypassedId := v])
    ensures CompressorSettingsOf(p[CompressorBypassedId := v]) == CompressorSettingsOf(p)
    ensures GetChainSettings(p[CompressorBypassedId := v]) == GetChainSettings(p)
  {
    SettingsIgnoreOtherParameters(p, CompressorBypassedId, v);
  }

  // ---------------------------------------------------------------------------
  // Buffers

  /** `juce::AudioBuffer<float>`: one sequence of samples per channel. */
  class AudioBuffer {
    var channels: seq<seq<real>>

    constructor (channels: seq<seq<real>>)
      ensures this.channels == channels
    {
      this.channels := channels;
    }
  }

  function Zeros(n: nat): (z: seq<real>)
    ensures |z| == n && forall k :: 0 <= k < n ==> z[k] == 0.0
  {
    seq(n, _ => 0.0)
  }

  /** The channels after the clearing loop: those from `numIn` up to `numOut`
      silenced, every other one as it was. */
  function Cleared(channels: seq<seq<real>>, numIn: int, numOut: int): (r: seq<seq<real>>)
    requires numOut <= |channels|
    ensures |r| == |channels|
  {
    seq(|channels|, c requires 0 <= c < |channels| =>
      if numIn <= c < numOut then Zeros(|channels[c]|) else channels[c])
  }

  /** The loop at the top of `processBlock`. */
  method ClearExtraOutputChannels(buffer: AudioBuffer, totalNumInputChannels: nat, totalNumOutputChannels: nat)
    requires totalNumOutputChannels <= |buffer.channels|
    modifies buffer
    ensures buffer.channels == Cleared(old(buffer.channels), totalNumInputChannels, totalNumOutputChannels)
  {
    ghost var original := buffer.channels;
    var i := totalNumInputChannels;
    while i < totalNumOutputChannels
      invariant |buffer.channels| == |original|
      invariant totalNumInputChannels <= i
      invariant i >= totalNumOutputChannels ==> i == totalNumInputChannels || i == totalNumOutputChannels
      invariant forall c :: 0 <= c < |original| ==>
                  buffer.channels[c] == if totalNumInputChannels <= c < i then Zeros(|original[c]|) else original[c]
      decreases totalNumOutputChannels - i
    {
      buffer.channels := buffer.channels[i := Zeros(|buffer.channels[i]|)];
      i := i + 1;
    }
  }

  /** Every channel keeps its length; a channel below `numIn` or from
      `numOut` up keeps its samples, and every other one is silent. */
  lemma ClearingKeepsInputs(channels: seq<seq<real>>, numIn: int, numOut: int)
    requires numOut <= |channels|
    ensures forall c :: 0 <= c < |channels| ==> |Cleared(channels, numIn, numOut)[c]| == |channels[c]|
    ensures forall c :: 0 <= c < |channels| && (c < numIn || numOut <= c) ==>
              Cleared(channels, numIn, numOut)[c] == channels[c]
    ensures forall c, k :: 0 <= c < |channels| && numIn <= c < numOut && 0 <= k < |channels[c]| ==>
              Cleared(channels, numIn, numOut)[c][k] == 0.0
  {
  }

  /** The channels after the two chains ran: channel 0 through `left`, channel 1 through `right`. */
  function Filtered(channels: seq<seq<real>>, left: ChainState, right: ChainState,
                    process: (ChainState, seq<real>) -> seq<real>): (r: seq<seq<real>>)
    requires |channels| >= 2
    ensures |r| == |channels|
  {
    channels[0 := process(left, channels[0])][1 := process(right, channels[1])]
  }

  /** The designers a chain update consults, at the host's current sample
      rate: `makeLowCutFilter` yields `order / 2` sections for the even
      order `2 * (slope + 1)`. */
  ghost predicate Butterworth(design: ChainSettings -> Designs)
  {
    forall s: ChainSettings :: |design(s).lowCut| == LowCutOrder(s.lowCutSlope) / 2
  }

  // ---------------------------------------------------------------------------
  // The three position updates, each applied to both chains

  /** Two valid chains that share no object. */
  ghost predicate Separate(left: MonoChain, right: MonoChain)
    reads left, left.lowCut, right, right.lowCut
  {
    left.Valid() && right.Valid() && left != right && left.lowCut != right.lowCut
  }

  /** `updateLowCutFilters`: set both chains' LowCut flag, then update the
      right chain's cascade, then the left one's. */
  method UpdateLowCutFilters(left: MonoChain, right: MonoChain, settings: ChainSettings, cutCoefficients: seq<CoefficientSet>)
    requires Separate(left, right) && settings.lowCutSlope.Ordinal() < |cutCoefficients|
    modifies left, left.lowCut, right, right.lowCut
    ensures Separate(left, right)
    ensures left.Value() ==
              old(left.Value()).(lowCutBypassed := settings.lowCutBypassed,
                                 lowCut := CutUpdated(old(left.Value()).lowCut, cutCoefficients, settings.lowCutSlope))
    ensures right.Value() ==
              old(right.Value()).(lowCutBypassed := settings.lowCutBypassed,
                                  lowCut := CutUpdated(old(right.Value()).lowCut, cutCoefficients, settings.lowCutSlope))
  {
    left.lowCutBypassed := settings.lowCutBypassed;
    right.lowCutBypassed := settings.lowCutBypassed;
    UpdateCutFilter(right.lowCut, cutCoefficients, settings.lowCutSlope);
    UpdateCutFilter(left.lowCut, cutCoefficients, settings.lowCutSlope);
  }

  /** `updatePeakFilter`: both chains' Peak flag, then `updateCoefficients`
      on both peak filters. */
  method UpdatePeakFilter(left: MonoChain, right: MonoChain, settings: ChainSettings, peakCoefficients: CoefficientSet)
    requires Separate(left, right)
    modifies left, right
    ensures Separate(left, right)
    ensures left.Value() == old(left.Value()).(peak := Stage(settings.peakBypassed, peakCoefficients))
    ensures right.Value() == old(right.Value()).(peak := Stage(settings.peakBypassed, peakCoefficients))
  {
    left.peak := left.peak.(bypassed := settings.peakBypassed);
    right.peak := right.peak.(bypassed := settings.peakBypassed);
    left.peak := left.peak.(coefficients := peakCoefficients);
    right.peak := right.peak.(coefficients := peakCoefficients);
  }

  /** `updateHighShelfFilters`: both chains' HighShelf flag, then
      `updateCoefficients` on both shelf filters. */
  method UpdateHighShelfFilters(left: MonoChain, right: MonoChain, settings: ChainSettings, highShelfCoefficients: CoefficientSet)
    requires Separate(left, right)
    modifies left, right
    ensures Separate(left, right)
    ensures left.Value() == old(left.Value()).(highShelf := Stage(settings.highShelfBypassed, highShelfCoefficients))
    ensures right.Value() == old(right.Value()).(highShelf := Stage(settings.highShelfBypassed, highShelfCoefficients))
  {
    left.highShelf := left.highShelf.(bypassed := settings.highShelfBypassed);
    right.highShelf := right.highShelf.(bypassed := settings.highShelfBypassed);
    left.highShelf := left.highShelf.(coefficients := highShelfCoefficients);
    right.highShelf := right.highShelf.(coefficients := highShelfCoefficients);
  }

  /** The three position updates of `updateFilters`, in the source's order. */
  method UpdateChains(left: MonoChain, right: MonoChain, settings: ChainSettings, designs: Designs)
    requires Separate(left, right) && settings.lowCutSlope.Ordinal() < |designs.lowCut|
    modifies left, left.lowCut, right, right.lowCut
    ensures Separate(left, right)
    ensures left.Value() == ApplySettings(old(left.Value()), settings, designs)
    ensures right.Value() == ApplySettings(old(right.Value()), settings, designs)
  {
    UpdateLowCutFilters(left, right, settings, designs.lowCut);
    UpdatePeakFilter(left, right, settings, designs.peak);
    UpdateHighShelfFilters(left, right, settings, designs.highShelf);
  }

  /** Two chains of default filters. */
  method NewChains(initial: CoefficientSet) returns (left: MonoChain, right: MonoChain)
    ensures Separate(left, right) && fresh(left) && fresh(left.lowCut) && fresh(right) && fresh(right.lowCut)
    ensures left.Value() == DefaultChain(initial) && right.Value() == DefaultChain(initial)
  {
    left := new MonoChain(initial);
    right := new MonoChain(initial);
  }

  /** The analyzer fifo for `Channel::Left` and the one for `Channel::Right`. */
  method NewAnalyzerFifos() returns (left: SingleChannelSampleFifo, right: SingleChannelSampleFifo)
    ensures left.Valid() && right.Valid() && fresh(left.Repr) && fresh(right.Repr)
    ensures left.Repr !! right.Repr
    ensures left.channelToUse == Left && right.channelToUse == Right
    ensures !left.prepared && !right.prepared
    ensures left.fifoIndex == 0 && right.fifoIndex == 0
    ensures left.audioBufferFifo.Contents == [] && right.audioBufferFifo.Contents == []
  {
    left := new SingleChannelSampleFifo(Left);
    right := new SingleChannelSampleFifo(Right);
  }

  /** `update(buffer)` on the left analyzer fifo, then on the right one. */
  method UpdateAnalyzers(left: SingleChannelSampleFifo, right: SingleChannelSampleFifo, channels: seq<seq<real>>)
    requires left.Valid() && right.Valid() && left.Repr !! right.Repr && 2 <= |channels|
    requires left.channelToUse == Left && right.channelToUse == Right
    requires left.prepared && right.prepared && left.size >= 1 && right.size >= 1
    modifies left.Repr, right.Repr
    ensures left.Valid() && right.Valid() && left.Repr == old(left.Repr) && right.Repr == old(right.Repr)
    ensures left.prepared && right.prepared && left.size == old(left.size) && right.size == old(right.size)
    ensures left.written == old(left.written) + channels[1]
    ensures right.written == old(right.written) + channels[0]
    ensures left.QueuedNewBlocks() && right.QueuedNewBlocks()
  {
    left.Update(channels);
    right.Update(channels);
  }

  // ---------------------------------------------------------------------------
  // The processor

  class AudioProcessor {
    /** The parameter store (`apvts`), raw values by parameter ID. */
    var params: ParameterValues
    /** What the compressor was last set to. */
    var compressor: CompressorSettings
    const leftChain: MonoChain
    const rightChain: MonoChain
    const leftChannelFifo: SingleChannelSampleFifo
    const rightChannelFifo: SingleChannelSampleFifo

    /** The objects of the two filter chains. */
    ghost function Chains(): set<object>
    {
      {leftChain, leftChain.lowCut, rightChain, rightChain.lowCut}
    }

    /** Every object the processor owns. */
    ghost function Repr(): set<object>
      reads leftChannelFifo, rightChannelFifo
    {
      {this} + Chains() + leftChannelFifo.Repr + rightChannelFifo.Repr
    }

    ghost predicate Valid()
      reads Chains(), leftChannelFifo, leftChannelFifo.Repr, rightChannelFifo, rightChannelFifo.Repr
    {
      Separate(leftChain, rightChain) && FifosValid() && Apart()
    }

    /** Neither the processor nor a chain object belongs to an analyzer fifo. */
    ghost predicate Apart()
      reads leftChannelFifo, rightChannelFifo
    {
      && this !in leftChannelFifo.Repr && this !in rightChannelFifo.Repr
      && Chains() !! leftChannelFifo.Repr && Chains() !! rightChannelFifo.Repr
    }

    /** Both analyzer fifos are valid, share nothing, and read channels 1 and 0. */
    ghost predicate FifosValid()
      reads leftChannelFifo, leftChannelFifo.Repr, rightChannelFifo, rightChannelFifo.Repr
    {
      && leftChannelFifo.Valid() && rightChannelFifo.Valid()
      && leftChannelFifo.Repr !! rightChannelFifo.Repr
      && leftChannelFifo.channelToUse == Left
      && rightChannelFifo.channelToUse == Right
    }

    /** The processor as constructed: two chains of default filters, the
        analyzer fifo for `Channel::Left` and the one for `Channel::Right`. */
    constructor (params: ParameterValues, initial: CoefficientSet, compressor: CompressorSettings)
      ensures Valid()
      ensures this.params == params
      ensures this.compressor == compressor
      ensures !leftChannelFifo.prepared && !rightChannelFifo.prepared
      ensures fresh(Chains()) && fresh(leftChannelFifo.Repr) && fresh(rightChannelFifo.Repr)
      ensures leftChain.Value() == DefaultChain(initial) && rightChain.Value() == DefaultChain(initial)
      ensures leftChannelFifo.fifoIndex == 0 && rightChannelFifo.fifoIndex == 0
      ensures leftChannelFifo.audioBufferFifo.Contents == [] && rightChannelFifo.audioBufferFifo.Contents == []
    {
      this.params := params;
      this.compressor := compressor;
      var lc, rc := NewChains(initial);
      var lf, rf := NewAnalyzerFifos();
      leftChain, rightChain, leftChannelFifo, rightChannelFifo := lc, rc, lf, rf;
    }

    /** `updateFilters`: take a settings snapshot, then update the cut, peak
        and shelf positions of both chains. Afterwards the two chains filter
        alike whatever they held before. */
    method UpdateFilters(design: ChainSettings -> Designs)
      requires Valid() && HasChainParameters(params) && Butterworth(design)
      modifies Chains()
      ensures Valid()
      ensures leftChain.Value() == ApplySettings(old(leftChain.Value()), GetChainSettings(params), design(GetChainSettings(params)))
      ensures rightChain.Value() == ApplySettings(old(rightChain.Value()), GetChainSettings(params), design(GetChainSettings(params)))
      ensures FiltersAlike(leftChain.Value(), rightChain.Value())
    {
      var chainSettings := GetChainSettings(params);
      UpdateChains(leftChain, rightChain, chainSettings, design(chainSettings));
      ApplySettingsAligns(old(leftChain.Value()), old(rightChain.Value()), chainSettings, design(chainSettings));
    }

    /** `prepareToPlay`: bring both chains up to the parameters, then prepare
        both analyzer fifos for blocks of `samplesPerBlock` samples. */
    method PrepareToPlay(samplesPerBlock: int, design: ChainSettings -> Designs)
      requires Valid() && HasChainParameters(params) && Butterworth(design) && samplesPerBlock >= 0
      modifies Chains(), leftChannelFifo.Repr, rightChannelFifo.Repr
      ensures Valid()
      ensures leftChain.Value() == ApplySettings(old(leftChain.Value()), GetChainSettings(params), design(GetChainSettings(params)))
      ensures rightChain.Value() == ApplySettings(old(rightChain.Value()), GetChainSettings(params), design(GetChainSettings(params)))
      ensures leftChannelFifo.prepared && leftChannelFifo.size == samplesPerBlock && leftChannelFifo.written == []
      ensures rightChannelFifo.prepared && rightChannelFifo.size == samplesPerBlock && rightChannelFifo.written == []
      ensures leftChannelFifo.QueueBlanked() && rightChannelFifo.QueueBlanked()
    {
      UpdateFilters(design);
      PrepareAnalyzers(samplesPerBlock);
    }

    /** The two `prepare(samplesPerBlock)` calls on the analyzer fifos. */
    method PrepareAnalyzers(samplesPerBlock: int)
      requires Valid() && samplesPerBlock >= 0
      modifies leftChannelFifo.Repr, rightChannelFifo.Repr
      ensures Valid()
      ensures unchanged(Chains())
      ensures leftChannelFifo.prepared && leftChannelFifo.size == samplesPerBlock && leftChannelFifo.written == []
      ensures rightChannelFifo.prepared && rightChannelFifo.size == samplesPerBlock && rightChannelFifo.written == []
      ensures leftChannelFifo.QueueBlanked() && rightChannelFifo.QueueBlanked()
    {
      leftChannelFifo.Prepare(samplesPerBlock);
      rightChannelFifo.Prepare(samplesPerBlock);
    }

    /** The two `update(buffer)` calls: each analyzer fifo takes in its channel of `channels`. */
    method FeedAnalyzers(channels: seq<seq<real>>)
      requires Valid() && 2 <= |channels|
      requires leftChannelFifo.prepared && rightChannelFifo.prepared
      requires leftChannelFifo.size >= 1 && rightChannelFifo.size >= 1
      modifies leftChannelFifo.Repr, rightChannelFifo.Repr
      ensures Valid() && Repr() == old(Repr())
      ensures unchanged(Chains())
      ensures leftChannelFifo.written == old(leftChannelFifo.written) + channels[1]
      ensures rightChannelFifo.written == old(rightChannelFifo.written) + channels[0]
      ensures leftChannelFifo.QueuedNewBlocks() && rightChannelFifo.QueuedNewBlocks()
    {
      UpdateAnalyzers(leftChannelFifo, rightChannelFifo, channels);
    }

    /** `processBlock`: clear the output channels that have no input, update
        both chains, run channel 0 through the left chain and channel 1
        through the right chain, feed both analyzer fifos the filtered
        buffer, then set the compressor from the parameters and run it over
        the whole buffer. */
    method ProcessBlock(buffer: AudioBuffer, totalNumInputChannels: nat, totalNumOutputChannels: nat,
                        design: ChainSettings -> Designs,
                        process: (ChainState, seq<real>) -> seq<real>,
                        compress: (CompressorSettings, seq<seq<real>>) -> seq<seq<real>>)
      requires Valid() && buffer !in Repr()
      requires HasChainParameters(params) && HasCompressorParameters(params) && Butterworth(design)
      requires 2 <= |buffer.channels| && totalNumOutputChannels <= |buffer.channels|
      requires leftChannelFifo.prepared && rightChannelFifo.prepared
      requires leftChannelFifo.size >= 1 && rightChannelFifo.size >= 1
      modifies this`compressor, Chains(), leftChannelFifo.Repr, rightChannelFifo.Repr, buffer
      ensures Valid()
      ensures leftChain.Value() == ApplySettings(old(leftChain.Value()), GetChainSettings(params), design(GetChainSettings(params)))
      ensures rightChain.Value() == ApplySettings(old(rightChain.Value()), GetChainSettings(params), design(GetChainSettings(params)))
      ensures compressor == CompressorSettingsOf(params)
      ensures var filtered := Filtered(Cleared(old(buffer.channels), totalNumInputChannels, totalNumOutputChannels),
                                       leftChain.Value(), rightChain.Value(), process);
              && leftChannelFifo.written == old(leftChannelFifo.written) + filtered[1]
              && rightChannelFifo.written == old(rightChannelFifo.written) + filtered[0]
              && buffer.channels == compress(compressor, filtered)
      ensures leftChannelFifo.QueuedNewBlocks() && rightChannelFifo.QueuedNewBlocks()
    {
      FilterBlock(buffer, totalNumInputChannels, totalNumOutputChannels, design, process);
      AnalyzeAndCompress(buffer, compress);
    }

    /** The first half of `processBlock`: clear, update both chains, filter. */
    method FilterBlock(buffer: AudioBuffer, totalNumInputChannels: nat, totalNumOutputChannels: nat,
                       design: ChainSettings -> Designs,
                       process: (ChainState, seq<real>) -> seq<real>)
      requires Valid() && buffer !in Repr()
      requires HasChainParameters(params) && Butterworth(design)
      requires 2 <= |buffer.channels| && totalNumOutputChannels <= |buffer.channels|
      modifies Chains(), buffer
      ensures Valid()
      ensures unchanged(leftChannelFifo) && unchanged(rightChannelFifo)
      ensures leftChain.Value() == ApplySettings(old(leftChain.Value()), GetChainSettings(params), design(GetChainSettings(params)))
      ensures rightChain.Value() == ApplySettings(old(rightChain.Value()), GetChainSettings(params), design(GetChainSettings(params)))
      ensures buffer.channels == Filtered(Cleared(old(buffer.channels), totalNumInputChannels, totalNumOutputChannels),
                                          leftChain.Value(), rightChain.Value(), process)
    {
      ClearExtraOutputChannels(buffer, totalNumInputChannels, totalNumOutputChannels);
      UpdateFilters(design);
      FilterChannels(buffer, process);
    }

    /** The second half of `processBlock`: feed the analyzers, then compress. */
    method AnalyzeAndCompress(buffer: AudioBuffer, compress: (CompressorSettings, seq<seq<real>>) -> seq<seq<real>>)
      requires Valid() && buffer !in Repr() && HasCompressorParameters(params) && 2 <= |buffer.channels|
      requires leftChannelFifo.prepared && rightChannelFifo.prepared
      requires leftChannelFifo.size >= 1 && rightChannelFifo.size >= 1
      modifies this`compressor, leftChannelFifo.Repr, rightChannelFifo.Repr, buffer
      ensures Valid() && unchanged(Chains())
      ensures leftChannelFifo.written == old(leftChannelFifo.written) + old(buffer.channels)[1]
      ensures rightChannelFifo.written == old(rightChannelFifo.written) + old(buffer.channels)[0]
      ensures leftChannelFifo.QueuedNewBlocks() && rightChannelFifo.QueuedNewBlocks()
      ensures compressor == CompressorSettingsOf(params)
      ensures buffer.channels == compress(compressor, old(buffer.channels))
    {
      FeedAnalyzers(buffer.channels);
      Compress(buffer, compress);
    }

    /** `leftChain.process` on channel 0 and `rightChain.process` on channel 1. */
    method FilterChannels(buffer: AudioBuffer, process: (ChainState, seq<real>) -> seq<real>)
      requires Valid() && buffer !in Repr() && 2 <= |buffer.channels|
      modifies buffer
      ensures Valid()
      ensures buffer.channels == Filtered(old(buffer.channels), leftChain.Value(), rightChain.Value(), process)
    {
      buffer.channels := buffer.channels[0 := process(leftChain.Value(), buffer.channels[0])];
      buffer.channels := buffer.channels[1 := process(rightChain.Value(), buffer.channels[1])];
    }

    /** The compressor set from the parameters, then run over the whole buffer. */
    method Compress(buffer: AudioBuffer, compress: (CompressorSettings, seq<seq<real>>) -> seq<seq<real>>)
      requires Valid() && buffer !in Repr() && HasCompressorParameters(params)
      modifies this`compressor, buffer
      ensures Valid() && unchanged(Chains())
      ensures unchanged(leftChannelFifo) && unchanged(rightChannelFifo)
      ensures compressor == CompressorSettingsOf(params)
      ensures buffer.channels == compress(compressor, old(buffer.channels))
    {
      compressor := CompressorSettingsOf(params);
      buffer.channels := compress(compressor, buffer.channels);
    }
  }
}
