/** The text the editor draws (Source/PluginEditor.cpp): the grid labels of
    `drawTextLabels` and a rotary slider's value text, `getDisplayString`. */
module Labels {
  import opened Decimal
  import opened Geometry

  // ---------------------------------------------------------------------------
  // Grid labels

  /** The frequencies a label can be drawn for: whole hertz below 1000 and
      whole kilohertz above. */
  predicate Labelled(f: nat)
  {
    f <= 999 || f % 1000 == 0
  }

  /** The label of a vertical grid line: from 1000 Hz up the value is given
      in kilohertz with a "k", and every label ends in "Hz". */
  function FrequencyLabel(f: nat): string
    requires Labelled(f)
  {
    (if f > 999 then NatToString(f / 1000) + "k" else NatToString(f)) + "Hz"
  }

  /** The unit part of a frequency label: "kHz" or "Hz". */
  function UnitLength(f: nat): nat
  {
    if f > 999 then 3 else 2
  }

  /** A frequency label reads back: it ends in "Hz", carries a "k" exactly
      from 1000 Hz up, and its digits times the unit give the frequency. */
  lemma FrequencyLabelReadsBack(f: nat)
    requires Labelled(f)
    ensures var r := FrequencyLabel(f);
            && |r| > UnitLength(f) && r[|r| - 2..] == "Hz"
            && (r[|r| - 3] == 'k' <==> f > 999)
            && IsDigits(r[..|r| - UnitLength(f)])
            && ParseNat(r[..|r| - UnitLength(f)]) * (if f > 999 then 1000 else 1) == f
  {
    var r := FrequencyLabel(f);
    var n := if f > 999 then f / 1000 else f;
    NatRoundTrip(n);
    var digits := NatToString(n);
    assert r[..|r| - UnitLength(f)] == digits;
    if f <= 999 {
      assert r[|r| - 3] == digits[|digits| - 1];
      assert IsDigit(r[|r| - 3]);
    }
  }

  /** Two frequencies never share a label. */
  lemma FrequencyLabelInjective(f: nat, g: nat)
    requires Labelled(f) && Labelled(g) && FrequencyLabel(f) == FrequencyLabel(g)
    ensures f == g
  {
    FrequencyLabelReadsBack(f);
    FrequencyLabelReadsBack(g);
  }

  /** Every grid frequency gets a label, and no two grid lines the same one. */
  lemma GridFrequencyLabelsDistinct()
    ensures forall i :: 0 <= i < |GetFrequencies()| ==> Labelled(GetFrequencies()[i])
    ensures forall i, j :: 0 <= i < j < |GetFrequencies()| ==>
              FrequencyLabel(GetFrequencies()[i]) != FrequencyLabel(GetFrequencies()[j])
  {
    var fs := GetFrequencies();
    forall i, j | 0 <= i < j < |fs|
      ensures FrequencyLabel(fs[i]) != FrequencyLabel(fs[j])
    {
      if FrequencyLabel(fs[i]) == FrequencyLabel(fs[j]) {
        FrequencyLabelInjective(fs[i], fs[j]);
      }
    }
  }

  /** The label at the right end of a horizontal grid line: a "+" before
      positive gains, then the gain. */
  function GainLabel(g: int): string
  {
    (if g > 0 then "+" else "") + IntToString(g)
  }

  /** The label at the left end of the same line: the gain less 24. */
  function LeftGainLabel(g: int): string
  {
    IntToString(g - 24)
  }

  /** The right label starts with "+" exactly for positive gains and the rest
      reads back as the gain; the left label reads back as 24 below it. */
  lemma GainLabelsReadBack(g: int)
    ensures var r := GainLabel(g);
            && |r| >= 1 && (r[0] == '+' <==> g > 0)
            && IsIntText(if g > 0 then r[1..] else r)
            && ParseInt(if g > 0 then r[1..] else r) == g
    ensures IsIntText(LeftGainLabel(g)) && ParseInt(LeftGainLabel(g)) == g - 24
  {
    IntRoundTrip(g);
    IntRoundTrip(g - 24);
    var r := GainLabel(g);
    if g > 0 {
      assert r[1..] == IntToString(g);
    } else if g == 0 {
      assert r == "0";
    } else {
      assert r == IntToString(g);
      assert r[0] == '-';
    }
  }

  // ---------------------------------------------------------------------------
  // A rotary slider's value text

  /** The parameter a slider is attached to, as `getDisplayString` tells
      them apart. */
  datatype Param =
    | ChoiceParam(choiceName: string)
    | FloatParam(value: real)
    | OtherParam

  /** Whether the value is shown in thousands. */
  predicate InThousands(p: Param)
  {
    p.FloatParam? && p.value > 999.0
  }

  /** `getDisplayString`: a choice shows its name; a float shows its value,
      in thousands with the decimals argument 2 above 999 and 0 otherwise
      (JUCE's default format), as `format(value, decimals)` writes it; a non-empty suffix follows after a
      space, with a "k" before it when the value is in thousands. */
  function DisplayString(p: Param, suffix: string, format: (real, nat) -> string): string
  {
    match p
    case ChoiceParam(name) => name
    case FloatParam(v) =>
      var addK := v > 999.0;
      var str := format(if addK then v / 1000.0 else v, if addK then 2 else 0);
      if suffix != [] then str + " " + (if addK then "k" else "") + suffix else str
    case OtherParam =>
      if suffix != [] then " " + suffix else ""
  }

  /** What a slider shows: a choice its name whatever the suffix; otherwise
      the suffix at the end after a space, a "k" right before the suffix
      exactly when the value is in thousands, and in front of that the value
      written by `format` with the decimals argument 2 (in thousands) or 0. */
  lemma DisplayStringShape(p: Param, suffix: string, format: (real, nat) -> string)
    ensures p.ChoiceParam? ==> DisplayString(p, suffix, format) == p.choiceName
    ensures var r := DisplayString(p, suffix, format);
            var unit := if InThousands(p) then 2 else 1;
            !p.ChoiceParam? && suffix != [] ==>
              && |r| >= |suffix| + unit
              && r[|r| - |suffix|..] == suffix
              && r[|r| - |suffix| - unit] == ' '
              && (r[|r| - |suffix| - 1] == 'k' <==> InThousands(p))
              && r[..|r| - |suffix| - unit] ==
                   (if p.OtherParam? then ""
                    else if InThousands(p) then format(p.value / 1000.0, 2)
                    else format(p.value, 0))
  {
  }
}
