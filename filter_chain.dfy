/** The filter chain of one channel (Source/PluginProcessor.h): a `MonoChain`
    of a four-stage low-cut `CutFilter`, a peak filter and a high-shelf
    filter, each position with a bypass flag; `update<Index>`,
    `updateCutFilter` and `updateCoefficients`. Coefficient design and
    evaluation are outside the model: a coefficient set is an opaque value
    and a stage's magnitude is a function passed in. */
module FilterChains {
  import opened Parameters

  /** The coefficients of one biquad section: the value a `CoefficientsPtr` points to. */
  type CoefficientSet = seq<real>

  /** The Butterworth order `makeLowCutFilter` asks for: 2 * (slope + 1). */
  function LowCutOrder(slope: Slope): nat
  {
    2 * (slope.Ordinal() + 1)
  }

  /** One filter position as the chain sees it: its bypass flag and its coefficients. */
  datatype Stage = Stage(bypassed: bool, coefficients: CoefficientSet)

  /** A `MonoChain` as a value: the chain-level LowCut flag, the four cut
      stages, the peak and the high-shelf positions. */
  datatype ChainState = ChainState(lowCutBypassed: bool, lowCut: seq<Stage>, peak: Stage, highShelf: Stage)

  /** A default-constructed chain: every position active, every stage
      holding the `initial` coefficients. */
  function DefaultChain(initial: CoefficientSet): ChainState
  {
    ChainState(false, seq(4, _ => Stage(false, initial)), Stage(false, initial), Stage(false, initial))
  }

  /** What the coefficient designers return for one settings snapshot: the
      sections of the Butterworth cascade, the peak and the shelf sets. */
  datatype Designs = Designs(lowCut: seq<CoefficientSet>, peak: CoefficientSet, highShelf: CoefficientSet)

  // ---------------------------------------------------------------------------
  // updateCutFilter as a value transformation

  /** The four `setBypassed<i>(true)` calls. */
  function BypassAll(st: seq<Stage>): (r: seq<Stage>)
    ensures |r| == |st|
    ensures forall i :: 0 <= i < |st| ==> r[i].bypassed && r[i].coefficients == st[i].coefficients
  {
    seq(|st|, i requires 0 <= i < |st| => Stage(true, st[i].coefficients))
  }

  /** `update<i>`: copy `c[i]` into stage `i` and un-bypass it. */
  function Activate(st: seq<Stage>, c: seq<CoefficientSet>, i: nat): seq<Stage>
    requires i < |st| && i < |c|
  {
    st[i := Stage(false, c[i])]
  }

  /** The `switch` entered at case `entry`, falling through every lower case:
      stages 0..entry end active with their coefficients, the rest are kept. */
  function FallThrough(st: seq<Stage>, c: seq<CoefficientSet>, entry: int): (r: seq<Stage>)
    requires entry < |st| && entry < |c|
    ensures |r| == |st|
    ensures forall i :: 0 <= i < |st| ==> r[i] == if i <= entry then Stage(false, c[i]) else st[i]
    decreases entry + 1
  {
    if entry < 0 then st else FallThrough(Activate(st, c, entry), c, entry - 1)
  }

  /** `updateCutFilter(chain, c, slope)` on the four cut stages. */
  function CutUpdated(st: seq<Stage>, c: seq<CoefficientSet>, slope: Slope): (r: seq<Stage>)
    requires |st| == 4 && slope.Ordinal() < |c|
    ensures |r| == 4
  {
    FallThrough(BypassAll(st), c, slope.Ordinal())
  }

  /** Slope s leaves stages 0..s active with coefficients c[0..s] and stages
      above s bypassed with the coefficients they had. */
  lemma CutUpdatedStages(st: seq<Stage>, c: seq<CoefficientSet>, slope: Slope)
    requires |st| == 4 && slope.Ordinal() < |c|
    ensures |CutUpdated(st, c, slope)| == 4
    ensures forall i :: 0 <= i < 4 ==>
              CutUpdated(st, c, slope)[i] ==
                if i <= slope.Ordinal() then Stage(false, c[i]) else Stage(true, st[i].coefficients)
  {
  }

  /** The number of stages that are not bypassed. */
  function CountActive(st: seq<Stage>): nat
    decreases |st|
  {
    if st == [] then 0 else (if st[0].bypassed then 0 else 1) + CountActive(st[1..])
  }

  /** Slope s activates s + 1 stages, and each active 2nd-order stage adds two
      to the order: the active stages realise exactly the order that
      `makeLowCutFilter` designs. */
  lemma ActiveStagesMatchOrder(st: seq<Stage>, c: seq<CoefficientSet>, slope: Slope)
    requires |st| == 4 && slope.Ordinal() < |c|
    ensures CountActive(CutUpdated(st, c, slope)) == slope.Ordinal() + 1
    ensures 2 * CountActive(CutUpdated(st, c, slope)) == LowCutOrder(slope)
  {
    CutUpdatedStages(st, c, slope);
    var r := CutUpdated(st, c, slope);
    var k := slope.Ordinal();
    assert r[1..][1..][1..][1..] == [];
    assert CountActive(r[1..][1..][1..]) == if k >= 3 then 1 else 0;
    assert CountActive(r[1..][1..]) == if k >= 2 then k - 1 else 0;
    assert CountActive(r[1..]) == k;
  }

  /** Running `updateCutFilter` twice with the same input is running it once. */
  lemma CutUpdatedIdempotent(st: seq<Stage>, c: seq<CoefficientSet>, slope: Slope)
    requires |st| == 4 && slope.Ordinal() < |c|
    ensures CutUpdated(CutUpdated(st, c, slope), c, slope) == CutUpdated(st, c, slope)
  {
    CutUpdatedStages(st, c, slope);
    CutUpdatedStages(CutUpdated(st, c, slope), c, slope);
  }

  // ---------------------------------------------------------------------------
  // A whole chain brought up to one settings snapshot

  /** The state `updateFilters` (for each processor chain) and the editor's
      `updateChain` leave a chain in: position flags from the settings, peak
      and shelf coefficients copied in, the cut cascade updated by slope. */
  function ApplySettings(cs: ChainState, s: ChainSettings, d: Designs): ChainState
    requires |cs.lowCut| == 4 && s.lowCutSlope.Ordinal() < |d.lowCut|
  {
    ChainState(
      s.lowCutBypassed,
      CutUpdated(cs.lowCut, d.lowCut, s.lowCutSlope),
      Stage(s.peakBypassed, d.peak),
      Stage(s.highShelfBypassed, d.highShelf))
  }

  /** Two positions that act the same: same flag and, when active, same coefficients. */
  predicate StageAgrees(x: Stage, y: Stage)
  {
    x.bypassed == y.bypassed && (!x.bypassed ==> x.coefficients == y.coefficients)
  }

  /** Two chains that filter alike: every flag equal and every active stage's coefficients equal. */
  predicate FiltersAlike(a: ChainState, b: ChainState)
  {
    && a.lowCutBypassed == b.lowCutBypassed
    && |a.lowCut| == |b.lowCut|
    && (forall i :: 0 <= i < |a.lowCut| ==> StageAgrees(a.lowCut[i], b.lowCut[i]))
    && a.peak == b.peak
    && a.highShelf == b.highShelf
  }

  /** Whatever two chains held before, one settings snapshot leaves them with
      identical flags, identical peak and shelf coefficients, and identical
      coefficients in every active cut stage; only the coefficients parked in
      bypassed cut stages may still differ. */
  lemma ApplySettingsAligns(a: ChainState, b: ChainState, s: ChainSettings, d: Designs)
    requires |a.lowCut| == 4 && |b.lowCut| == 4 && s.lowCutSlope.Ordinal() < |d.lowCut|
    ensures FiltersAlike(ApplySettings(a, s, d), ApplySettings(b, s, d))
  {
    CutUpdatedStages(a.lowCut, d.lowCut, s.lowCutSlope);
    CutUpdatedStages(b.lowCut, d.lowCut, s.lowCutSlope);
  }

  /** Applying the same snapshot again changes nothing. */
  lemma ApplySettingsIdempotent(cs: ChainState, s: ChainSettings, d: Designs)
    requires |cs.lowCut| == 4 && s.lowCutSlope.Ordinal() < |d.lowCut|
    ensures ApplySettings(ApplySettings(cs, s, d), s, d) == ApplySettings(cs, s, d)
  {
    CutUpdatedIdempotent(cs.lowCut, d.lowCut, s.lowCutSlope);
  }

  // ---------------------------------------------------------------------------
  // The combined magnitude response (the per-column product of updateResponseCurve)

  /** Multiply by a stage's magnitude only when the stage is not bypassed. */
  function Gate(mag: real, st: Stage, m: (CoefficientSet, real) -> real, f: real): real
  {
    if !st.bypassed then mag * m(st.coefficients, f) else mag
  }

  /** The magnitude at frequency `f` as the response curve computes it: start
      at 1, take the peak, then the shelf, then, unless the LowCut position is
      bypassed, each cut stage that is not bypassed itself. */
  function ResponseAt(cs: ChainState, m: (CoefficientSet, real) -> real, f: real): real
    requires |cs.lowCut| == 4
  {
    var mag := Gate(Gate(1.0, cs.peak, m, f), cs.highShelf, m, f);
    if cs.lowCutBypassed then mag
    else Gate(Gate(Gate(Gate(mag, cs.lowCut[0], m, f), cs.lowCut[1], m, f), cs.lowCut[2], m, f), cs.lowCut[3], m, f)
  }

  /** The coefficient sets of the positions that are not bypassed, in chain order. */
  function ActiveOf(st: seq<Stage>): seq<CoefficientSet>
    decreases |st|
  {
    if st == [] then []
    else (if st[0].bypassed then [] else [st[0].coefficients]) + ActiveOf(st[1..])
  }

  /** The positions the response visits, in the order it multiplies them:
      the peak, the shelf, then the four cut stages unless the LowCut
      position is bypassed. */
  function Positions(cs: ChainState): seq<Stage>
  {
    [cs.peak, cs.highShelf] + (if cs.lowCutBypassed then [] else cs.lowCut)
  }

  /** The sections a signal passes through. */
  function ActiveSections(cs: ChainState): seq<CoefficientSet>
  {
    ActiveOf(Positions(cs))
  }

  function ProductOf(cs: seq<CoefficientSet>, m: (CoefficientSet, real) -> real, f: real): real
    decreases |cs|
  {
    if cs == [] then 1.0 else m(cs[0], f) * ProductOf(cs[1..], m, f)
  }

  lemma {:induction false} ProductOfAppend(xs: seq<CoefficientSet>, ys: seq<CoefficientSet>, m: (CoefficientSet, real) -> real, f: real)
    ensures ProductOf(xs + ys, m, f) == ProductOf(xs, m, f) * ProductOf(ys, m, f)
    decreases |xs|
  {
    if xs == [] {
      assert xs + ys == ys;
    } else {
      assert (xs + ys)[0] == xs[0];
      assert (xs + ys)[1..] == xs[1..] + ys;
      ProductOfAppend(xs[1..], ys, m, f);
      var a, p, q := m(xs[0], f), ProductOf(xs[1..], m, f), ProductOf(ys, m, f);
      assert a * (p * q) == (a * p) * q;
    }
  }

  /** The stages applied one after another, left to right, starting from `mag`. */
  function GateAll(mag: real, st: seq<Stage>, m: (CoefficientSet, real) -> real, f: real): real
    decreases |st|
  {
    if st == [] then mag else GateAll(Gate(mag, st[0], m, f), st[1..], m, f)
  }

  lemma {:induction false} GateAllIsProduct(mag: real, st: seq<Stage>, m: (CoefficientSet, real) -> real, f: real)
    ensures GateAll(mag, st, m, f) == ProductOf(ActiveOf(st), m, f) * mag
    decreases |st|
  {
    if st != [] {
      GateAllIsProduct(Gate(mag, st[0], m, f), st[1..], m, f);
      var head := if st[0].bypassed then [] else [st[0].coefficients];
      ProductOfAppend(head, ActiveOf(st[1..]), m, f);
      if !st[0].bypassed {
        assert [st[0].coefficients][1..] == [];
        var a, p := m(st[0].coefficients, f), ProductOf(ActiveOf(st[1..]), m, f);
        assert p * (mag * a) == (a * p) * mag;
      }
    }
  }

  /** Applying `xs + ys` is applying `xs`, then `ys`. */
  lemma {:induction false} GateAllAppend(mag: real, xs: seq<Stage>, ys: seq<Stage>, m: (CoefficientSet, real) -> real, f: real)
    ensures GateAll(mag, xs + ys, m, f) == GateAll(GateAll(mag, xs, m, f), ys, m, f)
    decreases |xs|
  {
    if xs == [] {
      assert xs + ys == ys;
    } else {
      assert (xs + ys)[0] == xs[0];
      assert (xs + ys)[1..] == xs[1..] + ys;
      GateAllAppend(Gate(mag, xs[0], m, f), xs[1..], ys, m, f);
    }
  }

  /** Four stages applied one after another. */
  lemma GateAllFour(mag: real, lc: seq<Stage>, m: (CoefficientSet, real) -> real, f: real)
    requires |lc| == 4
    ensures GateAll(mag, lc, m, f) ==
              Gate(Gate(Gate(Gate(mag, lc[0], m, f), lc[1], m, f), lc[2], m, f), lc[3], m, f)
  {
    var g0 := Gate(mag, lc[0], m, f);
    var g1 := Gate(g0, lc[1], m, f);
    var g2 := Gate(g1, lc[2], m, f);
    var g3 := Gate(g2, lc[3], m, f);
    assert lc[1..][0] == lc[1] && lc[1..][1..][0] == lc[2] && lc[1..][1..][1..][0] == lc[3];
    assert lc[1..][1..][1..][1..] == [];
    assert GateAll(g2, lc[1..][1..][1..], m, f) == g3;
    assert GateAll(g0, lc[1..], m, f) == g3;
  }

  /** The response applies exactly the positions of `Positions`, in order. */
  lemma ResponseVisitsPositions(cs: ChainState, m: (CoefficientSet, real) -> real, f: real)
    requires |cs.lowCut| == 4
    ensures ResponseAt(cs, m, f) == GateAll(1.0, Positions(cs), m, f)
  {
    var ends := [cs.peak, cs.highShelf];
    var g1 := Gate(1.0, cs.peak, m, f);
    var head := Gate(g1, cs.highShelf, m, f);
    assert ends[0] == cs.peak && ends[1..] == [cs.highShelf] && [cs.highShelf][1..] == [];
    assert GateAll(g1, [cs.highShelf], m, f) == GateAll(head, [], m, f);
    GateAllAppend(1.0, ends, if cs.lowCutBypassed then [] else cs.lowCut, m, f);
    if !cs.lowCutBypassed {
      GateAllFour(head, cs.lowCut, m, f);
    }
  }

  /** The response is the product of the magnitudes of exactly the sections a
      signal passes through; a bypassed LowCut position contributes nothing,
      whatever its stages' own flags say. */
  lemma ResponseIsProductOfActiveSections(cs: ChainState, m: (CoefficientSet, real) -> real, f: real)
    requires |cs.lowCut| == 4
    ensures ResponseAt(cs, m, f) == ProductOf(ActiveSections(cs), m, f)
  {
    ResponseVisitsPositions(cs, m, f);
    GateAllIsProduct(1.0, Positions(cs), m, f);
  }

  /** Chains that filter alike have the same response at every frequency. */
  lemma AlikeChainsRespondAlike(a: ChainState, b: ChainState, m: (CoefficientSet, real) -> real, f: real)
    requires |a.lowCut| == 4 && FiltersAlike(a, b)
    ensures ResponseAt(a, m, f) == ResponseAt(b, m, f)
  {
    assert StageAgrees(a.lowCut[0], b.lowCut[0]) && StageAgrees(a.lowCut[1], b.lowCut[1]);
    assert StageAgrees(a.lowCut[2], b.lowCut[2]) && StageAgrees(a.lowCut[3], b.lowCut[3]);
  }

  // ---------------------------------------------------------------------------
  // The chain objects

  /** `CutFilter`: the four IIR filters of a cut cascade. Each stage holds the
      filter's bypass flag in the chain and the coefficients its
      `CoefficientsPtr` points to; `updateCoefficients` copies a value into
      that object and never re-points the pointer, so no two filters ever
      share coefficients and each is held here by value. */
  class CutFilter {
    var stages: seq<Stage>

    ghost predicate Valid()
      reads this
    {
      |stages| == 4
    }

    constructor (initial: CoefficientSet)
      ensures Valid() && stages == seq(4, _ => Stage(false, initial))
    {
      stages := seq(4, _ => Stage(false, initial));
    }
  }

  /** `update<Index>(chain, coefficients)`: `updateCoefficients` copies the
      design's section into filter `index`, then the filter is un-bypassed. */
  method Update(chain: CutFilter, coefficients: seq<CoefficientSet>, index: nat)
    requires chain.Valid() && index < 4 && index < |coefficients|
    modifies chain
    ensures chain.Valid()
    ensures chain.stages == Activate(old(chain.stages), coefficients, index)
  {
    chain.stages := chain.stages[index := chain.stages[index].(coefficients := coefficients[index])];
    chain.stages := chain.stages[index := chain.stages[index].(bypassed := false)];
  }

  /** `updateCutFilter(chain, coefficients, slope)`: bypass all four stages,
      then enter the `switch` at the slope's case and fall through to case 0. */
  method UpdateCutFilter(chain: CutFilter, coefficients: seq<CoefficientSet>, slope: Slope)
    requires chain.Valid() && slope.Ordinal() < |coefficients|
    modifies chain
    ensures chain.Valid()
    ensures chain.stages == CutUpdated(old(chain.stages), coefficients, slope)
  {
    ghost var st := chain.stages;
    chain.stages := chain.stages[0 := chain.stages[0].(bypassed := true)];
    chain.stages := chain.stages[1 := chain.stages[1].(bypassed := true)];
    chain.stages := chain.stages[2 := chain.stages[2].(bypassed := true)];
    chain.stages := chain.stages[3 := chain.stages[3].(bypassed := true)];
    assert chain.stages == BypassAll(st);
    var s := slope.Ordinal();
    if s >= 3 {
      Update(chain, coefficients, 3);
    }
    if s >= 2 {
      Update(chain, coefficients, 2);
    }
    if s >= 1 {
      Update(chain, coefficients, 1);
    }
    Update(chain, coefficients, 0);
    assert chain.stages == FallThrough(BypassAll(st), coefficients, s) by {
      CutUpdatedStages(st, coefficients, slope);
    }
  }

  /** `MonoChain`: the cut cascade, the peak and the high-shelf filters, and
      the chain's bypass flag for the cut position. The peak and shelf
      stages carry their own position's flag. */
  class MonoChain {
    const lowCut: CutFilter
    var lowCutBypassed: bool
    var peak: Stage
    var highShelf: Stage

    ghost predicate Valid()
      reads this, lowCut
    {
      lowCut.Valid()
    }

    constructor (initial: CoefficientSet)
      ensures Valid() && fresh(lowCut)
      ensures Value() == DefaultChain(initial)
    {
      lowCut := new CutFilter(initial);
      lowCutBypassed := false;
      peak := Stage(false, initial);
      highShelf := Stage(false, initial);
    }

    function Value(): (v: ChainState)
      requires Valid()
      reads this, lowCut
      ensures |v.lowCut| == 4
    {
      ChainState(lowCutBypassed, lowCut.stages, peak, highShelf)
    }
  }
}
