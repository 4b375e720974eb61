/** The parameter side of the processor (Source/PluginProcessor.h and
    Source/PluginProcessor.cpp): the `Slope` enum, `ChainSettings`, the
    snapshot `getChainSettings` takes of the parameter store, and the
    parameter layout with its two choice tables. */
module Parameters {
  import opened Decimal

  /** `enum Slope`: steepness of the low-cut cascade. */
  datatype Slope = Slope12 | Slope24 | Slope36 | Slope48
  {
    function Ordinal(): nat
    {
      match this
      case Slope12 => 0
      case Slope24 => 1
      case Slope36 => 2
      case Slope48 => 3
    }
  }

  /** `static_cast<Slope>` of the choice index `i`. */
  function SlopeOf(i: nat): (s: Slope)
    requires i < 4
    ensures s.Ordinal() == i
  {
    [Slope12, Slope24, Slope36, Slope48][i]
  }

  /** `struct ChainSettings`. */
  datatype ChainSettings = ChainSettings(
    peakFreq: real, peakGainInDecibels: real, peakQuality: real,
    lowCutFreq: real,
    highShelfFreq: real, highShelfGainInDecibels: real, highShelfQuality: real,
    lowCutSlope: Slope,
    lowCutBypassed: bool, peakBypassed: bool, highShelfBypassed: bool)

  /** The parameter store seen through `getRawParameterValue`: the raw value
      of each parameter, by ID. A choice parameter's raw value is the index of
      its selected choice, a bool parameter's is 0 or 1. */
  type ParameterValues = map<string, real>

  const LowCutFreqId: string := "LowCut Freq"
  const HighShelfFreqId: string := "HighShelf Freq"
  const HighShelfGainId: string := "HighShelf Gain"
  const HighShelfQualityId: string := "HighShelf Quality"
  const PeakFreqId: string := "Peak Freq"
  const PeakGainId: string := "Peak Gain"
  const PeakQualityId: string := "Peak Quality"
  const ThresholdId: string := "Threshold"
  const AttackId: string := "Attack"
  const ReleaseId: string := "Release"
  const RatioId: string := "Ratio"
  const LowCutSlopeId: string := "LowCut Slope"
  const LowCutBypassedId: string := "LowCut Bypassed"
  const PeakBypassedId: string := "Peak Bypassed"
  const HighShelfBypassedId: string := "HighShelf Bypassed"
  const AnalyzerEnabledId: string := "Analyzer Enabled"
  const CompressorBypassedId: string := "Compressor Bypassed"

  /** The IDs `getChainSettings` reads. */
  const ChainParameterIds: set<string> := {
    LowCutFreqId, PeakFreqId, PeakGainId, PeakQualityId, LowCutSlopeId,
    HighShelfFreqId, HighShelfGainId, HighShelfQualityId,
    LowCutBypassedId, PeakBypassedId, HighShelfBypassedId }

  /** `v` is the raw value of a choice parameter with `count` choices. */
  predicate IsChoiceIndex(v: real, count: nat)
  {
    v == v.Floor as real && 0 <= v.Floor < count
  }

  /** The store holds every parameter `getChainSettings` dereferences. */
  predicate HasChainParameters(p: ParameterValues)
  {
    && ChainParameterIds <= p.Keys
    && IsChoiceIndex(p[LowCutSlopeId], 4)
  }

  /** `getChainSettings`: a bypass flag is set when its raw value exceeds
      0.5, the slope is the raw choice index cast to `Slope`, every other
      field is the raw value as it stands (nothing is clamped). */
  function GetChainSettings(p: ParameterValues): (s: ChainSettings)
    requires HasChainParameters(p)
    ensures s.lowCutBypassed <==> p[LowCutBypassedId] > 0.5
    ensures s.peakBypassed <==> p[PeakBypassedId] > 0.5
    ensures s.highShelfBypassed <==> p[HighShelfBypassedId] > 0.5
    ensures s.lowCutSlope.Ordinal() as real == p[LowCutSlopeId]
  {
    ChainSettings(
      peakFreq := p[PeakFreqId],
      peakGainInDecibels := p[PeakGainId],
      peakQuality := p[PeakQualityId],
      lowCutFreq := p[LowCutFreqId],
      highShelfFreq := p[HighShelfFreqId],
      highShelfGainInDecibels := p[HighShelfGainId],
      highShelfQuality := p[HighShelfQualityId],
      lowCutSlope := SlopeOf(p[LowCutSlopeId].Floor),
      lowCutBypassed := p[LowCutBypassedId] > 0.5,
      peakBypassed := p[PeakBypassedId] > 0.5,
      highShelfBypassed := p[HighShelfBypassedId] > 0.5)
  }

  /** The raw value an `AudioParameterBool` holds. */
  function BoolRaw(b: bool): real
  {
    if b then 1.0 else 0.0
  }

  /** A bool stored in the parameter store and a choice index stored there
      read back unchanged through `getChainSettings`. */
  lemma StoredValuesReadBack(p: ParameterValues, lowCut: bool, peak: bool, shelf: bool, slope: Slope)
    requires HasChainParameters(p)
    requires p[LowCutBypassedId] == BoolRaw(lowCut)
    requires p[PeakBypassedId] == BoolRaw(peak)
    requires p[HighShelfBypassedId] == BoolRaw(shelf)
    requires p[LowCutSlopeId] == slope.Ordinal() as real
    ensures GetChainSettings(p).lowCutBypassed == lowCut
    ensures GetChainSettings(p).peakBypassed == peak
    ensures GetChainSettings(p).highShelfBypassed == shelf
    ensures GetChainSettings(p).lowCutSlope == slope
  {
    var s := GetChainSettings(p).lowCutSlope;
    assert s.Ordinal() == slope.Ordinal();
  }

  /** The snapshot depends on the chain parameters only: changing any other
      parameter (the compressor's, the analyzer switch) leaves it as it was. */
  lemma SettingsIgnoreOtherParameters(p: ParameterValues, id: string, v: real)
    requires HasChainParameters(p) && id !in ChainParameterIds
    ensures HasChainParameters(p[id := v])
    ensures GetChainSettings(p[id := v]) == GetChainSettings(p)
  {
  }

  // ---------------------------------------------------------------------------
  // createParameterLayout

  /** `juce::NormalisableRange<float>` (start, end, interval, skew). */
  datatype Range = Range(start: real, end: real, interval: real, skew: real)

  datatype Parameter =
    | FloatParameter(id: string, range: Range, defaultValue: real)
    | ChoiceParameter(id: string, choices: seq<string>, defaultIndex: nat)
    | BoolParameter(id: string, defaultOn: bool)

  /** The compressor ratios offered, in tenths: 1, 1.5, 2, 3, 4, 5, 6, 7, 8, 9, 10, 15, 20, 50. */
  const RatioChoicesInTenths: seq<nat> := [10, 15, 20, 30, 40, 50, 60, 70, 80, 90, 100, 150, 200, 500]

  /** The name of ratio choice `i`: the ratio with one decimal place. */
  function RatioLabel(i: nat): string
    requires i < |RatioChoicesInTenths|
  {
    OneDecimal(RatioChoicesInTenths[i])
  }

  /** The name of slope choice `i`: "12 db/Oct", "24 db/Oct", ... */
  function SlopeLabel(i: nat): string
  {
    NatToString(12 + i * 12) + " db/Oct"
  }

  /** The dB-per-octave figure a slope name states. */
  function SlopeLabelFigure(name: string): nat
    requires |name| > 7 && IsDigits(name[..|name| - 7])
  {
    ParseNat(name[..|name| - 7])
  }

  /** The loop that builds the ratio choice names: each name reads back as its ratio. */
  method RatioChoiceNames() returns (names: seq<string>)
    ensures |names| == |RatioChoicesInTenths| == 14
    ensures forall i :: 0 <= i < |names| ==>
              && names[i] == RatioLabel(i)
              && IsOneDecimal(names[i])
              && ParseOneDecimal(names[i]) == RatioChoicesInTenths[i]
  {
    var choices := RatioChoicesInTenths;
    names := [];
    for k := 0 to |choices|
      invariant |names| == k
      invariant forall i :: 0 <= i < k ==>
                  && names[i] == RatioLabel(i)
                  && IsOneDecimal(names[i])
                  && ParseOneDecimal(names[i]) == choices[i]
    {
      OneDecimalRoundTrip(choices[k]);
      names := names + [OneDecimal(choices[k])];
    }
  }

  /** Slope name `i` reads back as 12 + 12*i dB per octave. */
  lemma SlopeLabelReadsBack(i: nat)
    ensures |SlopeLabel(i)| > 7 && IsDigits(SlopeLabel(i)[..|SlopeLabel(i)| - 7])
    ensures SlopeLabelFigure(SlopeLabel(i)) == 12 * (i + 1)
  {
    var digits := NatToString(12 + i * 12);
    NatRoundTrip(12 + i * 12);
    assert SlopeLabel(i)[..|SlopeLabel(i)| - 7] == digits;
  }

  /** The loop that builds the slope choice names: name `i` states 12 + 12*i dB per octave. */
  method SlopeChoiceNames() returns (names: seq<string>)
    ensures |names| == 4
    ensures forall i :: 0 <= i < 4 ==>
              && names[i] == SlopeLabel(i)
              && |names[i]| > 7 && IsDigits(names[i][..|names[i]| - 7])
              && SlopeLabelFigure(names[i]) == 12 * (i + 1)
  {
    names := [];
    for i := 0 to 4
      invariant |names| == i
      invariant forall j :: 0 <= j < i ==> names[j] == SlopeLabel(j)
    {
      var str := NatToString(12 + i * 12);
      str := str + " db/Oct";
      names := names + [str];
    }
    forall i | 0 <= i < 4
      ensures |names[i]| > 7 && IsDigits(names[i][..|names[i]| - 7])
      ensures SlopeLabelFigure(names[i]) == 12 * (i + 1)
    {
      SlopeLabelReadsBack(i);
    }
  }

  /** The layout `createParameterLayout` declares, given the two tables of choice names. */
  function Layout(ratioNames: seq<string>, slopeNames: seq<string>): seq<Parameter>
  {
    [ FloatParameter(LowCutFreqId, Range(20.0, 20000.0, 1.0, 0.25), 20.0),
      FloatParameter(HighShelfFreqId, Range(20.0, 20000.0, 1.0, 0.25), 20000.0),
      FloatParameter(HighShelfGainId, Range(-24.0, 24.0, 0.5, 1.0), 0.0),
      FloatParameter(HighShelfQualityId, Range(0.1, 10.0, 0.05, 1.0), 1.0),
      FloatParameter(PeakFreqId, Range(20.0, 20000.0, 1.0, 0.25), 750.0),
      FloatParameter(PeakGainId, Range(-24.0, 24.0, 0.5, 1.0), 0.0),
      FloatParameter(PeakQualityId, Range(0.1, 10.0, 0.05, 1.0), 1.0),
      FloatParameter(ThresholdId, Range(-60.0, 12.0, 1.0, 1.0), 0.0),
      FloatParameter(AttackId, Range(5.0, 500.0, 1.0, 1.0), 50.0),
      FloatParameter(ReleaseId, Range(5.0, 500.0, 1.0, 1.0), 250.0),
      ChoiceParameter(RatioId, ratioNames, 3),
      ChoiceParameter(LowCutSlopeId, slopeNames, 0),
      BoolParameter(LowCutBypassedId, false),
      BoolParameter(PeakBypassedId, false),
      BoolParameter(HighShelfBypassedId, false),
      BoolParameter(AnalyzerEnabledId, true),
      BoolParameter(CompressorBypassedId, false) ]
  }

  /** `createParameterLayout`. */
  method CreateParameterLayout() returns (layout: seq<Parameter>)
    ensures |layout| == 17 && layout[10].ChoiceParameter? && layout[11].ChoiceParameter?
    ensures layout == Layout(layout[10].choices, layout[11].choices)
    ensures layout[10].id == RatioId && layout[10].defaultIndex == 3
    ensures |layout[10].choices| == 14
    ensures forall i :: 0 <= i < 14 ==>
              IsOneDecimal(layout[10].choices[i]) &&
              ParseOneDecimal(layout[10].choices[i]) == RatioChoicesInTenths[i]
    ensures layout[11].id == LowCutSlopeId && layout[11].defaultIndex == 0
    ensures |layout[11].choices| == 4
    ensures forall i :: 0 <= i < 4 ==>
              |layout[11].choices[i]| > 7 && IsDigits(layout[11].choices[i][..|layout[11].choices[i]| - 7]) &&
              SlopeLabelFigure(layout[11].choices[i]) == 12 * (i + 1)
  {
    var sa := RatioChoiceNames();
    var stringArray := SlopeChoiceNames();
    layout := Layout(sa, stringArray);
  }
}
