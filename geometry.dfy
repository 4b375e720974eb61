/** The response curve's geometry (Source/PluginEditor.cpp): the render and
    analysis areas carved out of the component's bounds, the grid's
    frequencies and gains, and the maps from frequency and gain to pixels. */
module Geometry {

  /** `juce::Rectangle<int>`: top-left corner, width and height. */
  datatype Rect = Rect(x: int, y: int, w: nat, h: nat)
  {
    function Right(): int { x + w }

    function Bottom(): int { y + h }

    /** Every pixel of this rectangle lies inside `outer`. */
    predicate Within(outer: Rect)
    {
      outer.x <= x && Right() <= outer.Right() && outer.y <= y && Bottom() <= outer.Bottom()
    }

    /** What `removeFromTop(amount)` leaves: a strip of at most the whole
        height is taken off the top. */
    function RemoveFromTop(amount: nat): (r: Rect)
      ensures r.Within(this) && r.x == x && r.w == w && r.Bottom() == Bottom()
      ensures r.h == if amount <= h then h - amount else 0
    {
      var taken := if amount <= h then amount else h;
      Rect(x, y + taken, w, h - taken)
    }

    /** What `removeFromBottom(amount)` leaves. */
    function RemoveFromBottom(amount: nat): (r: Rect)
      ensures r.Within(this) && r.x == x && r.y == y && r.w == w
      ensures r.h == if amount <= h then h - amount else 0
    {
      var taken := if amount <= h then amount else h;
      Rect(x, y, w, h - taken)
    }

    /** What `removeFromLeft(amount)` leaves. */
    function RemoveFromLeft(amount: nat): (r: Rect)
      ensures r.Within(this) && r.y == y && r.h == h && r.Right() == Right()
      ensures r.w == if amount <= w then w - amount else 0
    {
      var taken := if amount <= w then amount else w;
      Rect(x + taken, y, w - taken, h)
    }

    /** What `removeFromRight(amount)` leaves. */
    function RemoveFromRight(amount: nat): (r: Rect)
      ensures r.Within(this) && r.x == x && r.y == y && r.h == h
      ensures r.w == if amount <= w then w - amount else 0
    {
      var taken := if amount <= w then amount else w;
      Rect(x, y, w - taken, h)
    }
  }

  /** `getRenderArea`: the bounds less 12 pixels at the top, 2 at the bottom
      and 20 at each side. */
  function RenderArea(bounds: Rect): (r: Rect)
  {
    bounds.RemoveFromTop(12).RemoveFromBottom(2).RemoveFromLeft(20).RemoveFromRight(20)
  }

  /** `getAnalysisArea`: the render area less 4 more pixels at the top and
      at the bottom. */
  function AnalysisArea(bounds: Rect): (r: Rect)
  {
    RenderArea(bounds).RemoveFromTop(4).RemoveFromBottom(4)
  }

  /** The areas nest: the analysis area lies inside the render area, and
      both inside the component, whatever its size. */
  lemma AreasNest(bounds: Rect)
    ensures AnalysisArea(bounds).Within(RenderArea(bounds))
    ensures RenderArea(bounds).Within(bounds)
    ensures AnalysisArea(bounds).Within(bounds)
  {
    var t := bounds.RemoveFromTop(12);
    var b := t.RemoveFromBottom(2);
    var l := b.RemoveFromLeft(20);
    var r := RenderArea(bounds);
    assert r.Within(l) && l.Within(b) && b.Within(t) && t.Within(bounds);
    var a := r.RemoveFromTop(4);
    assert AnalysisArea(bounds).Within(a) && a.Within(r);
  }

  /** On a component at least 40 pixels wide and 22 high the insets are
      exact: 20 pixels at each side, 12 (render) or 16 (analysis) at the top
      and 2 (render) or 6 (analysis) at the bottom. */
  lemma AreaInsets(bounds: Rect)
    requires bounds.w >= 40 && bounds.h >= 22
    ensures RenderArea(bounds) == Rect(bounds.x + 20, bounds.y + 12, bounds.w - 40, bounds.h - 14)
    ensures AnalysisArea(bounds) == Rect(bounds.x + 20, bounds.y + 16, bounds.w - 40, bounds.h - 22)
  {
  }

  /** The analysis area has no columns exactly when the component is at
      most 40 pixels wide: the side insets clamp at the width. */
  lemma AnalysisWidthVanishes(bounds: Rect)
    ensures AnalysisArea(bounds).w == 0 <==> bounds.w <= 40
    ensures AnalysisArea(bounds).w == if bounds.w <= 40 then 0 else bounds.w - 40
  {
    var l := bounds.RemoveFromTop(12).RemoveFromBottom(2).RemoveFromLeft(20);
    assert l.w == if bounds.w <= 20 then 0 else bounds.w - 20;
  }

  // ---------------------------------------------------------------------------
  // The grid

  /** `getFrequencies`: the vertical grid lines, in hertz. */
  function GetFrequencies(): (r: seq<nat>)
    ensures |r| == 10 && r[0] == 20 && r[|r| - 1] == 20000
    ensures forall i, j :: 0 <= i < j < |r| ==> r[i] < r[j]
    ensures forall i :: 0 <= i < |r| ==> 20 <= r[i] <= 20000
    ensures forall i :: 0 <= i < |r| ==> r[i] <= 999 || r[i] % 1000 == 0
  {
    [20, 50, 100, 200, 500, 1000, 2000, 5000, 10000, 20000]
  }

  /** `getGains`: the horizontal grid lines, in decibels. */
  function GetGains(): (r: seq<int>)
    ensures |r| == 5 && r[0] == -24 && r[|r| - 1] == 24
    ensures forall i, j :: 0 <= i < j < |r| ==> r[i] < r[j]
    ensures forall i :: 0 <= i < |r| ==> r[i] == -r[|r| - 1 - i]
  {
    [-24, -12, 0, 12, 24]
  }

  /** `jmap`: the linear map taking `lo0`..`hi0` onto `lo1`..`hi1`. */
  function Jmap(v: real, lo0: real, hi0: real, lo1: real, hi1: real): real
    requires lo0 != hi0
  {
    lo1 + (hi1 - lo1) * (v - lo0) / (hi0 - lo0)
  }

  /** A gain in decibels as a y coordinate: -24 dB at `bottom`, +24 dB at
      `top`, as both the grid and the response curve place it. */
  function DbToY(db: real, bottom: real, top: real): real
  {
    Jmap(db, -24.0, 24.0, bottom, top)
  }

  /** The gain scale pins -24 dB to the bottom, +24 dB to the top and 0 dB
      halfway, and, with y growing downwards, a larger gain is drawn higher. */
  lemma DbToYScale(bottom: real, top: real, g1: real, g2: real)
    requires top < bottom
    ensures DbToY(-24.0, bottom, top) == bottom && DbToY(24.0, bottom, top) == top
    ensures DbToY(0.0, bottom, top) == (bottom + top) / 2.0
    ensures g1 < g2 <==> DbToY(g2, bottom, top) < DbToY(g1, bottom, top)
  {
    var d := top - bottom;
    assert DbToY(g2, bottom, top) - DbToY(g1, bottom, top) == d * (g2 - g1) / 48.0;
    if g1 < g2 {
      assert d * (g2 - g1) < 0.0;
    } else {
      assert d * (g2 - g1) >= 0.0;
    }
  }

  /** A gain within the scale is drawn between `top` and `bottom`. */
  lemma DbToYWithin(db: real, bottom: real, top: real)
    requires top <= bottom && -24.0 <= db <= 24.0
    ensures top <= DbToY(db, bottom, top) <= bottom
  {
    var d, t := top - bottom, (db + 24.0) / 48.0;
    var u := 1.0 - t;
    assert DbToY(db, bottom, top) == bottom + d * t;
    assert 0.0 <= t && 0.0 <= u;
    assert d * t <= 0.0 && d * u <= 0.0;
    assert d * t == d - d * u;
  }

  /** A map of `[20, 20000]` onto `[0, 1]` that keeps order, as
      `mapFromLog10(f, 20, 20000)` does. */
  ghost predicate LogScale(norm: real -> real)
  {
    && norm(20.0) == 0.0 && norm(20000.0) == 1.0
    && forall a: real, b: real :: 20.0 <= a < b <= 20000.0 ==> norm(a) < norm(b)
  }

  /** The x coordinate of a grid line at frequency `f`. */
  function GridX(f: nat, left: real, width: real, norm: real -> real): real
  {
    left + width * norm(f as real)
  }

  /** `getXs`: each frequency's x coordinate, `left + width * norm(f)`. */
  method GetXs(freqs: seq<nat>, left: real, width: real, norm: real -> real) returns (xs: seq<real>)
    ensures |xs| == |freqs|
    ensures forall i :: 0 <= i < |freqs| ==> xs[i] == GridX(freqs[i], left, width, norm)
  {
    xs := [];
    for i := 0 to |freqs|
      invariant |xs| == i
      invariant forall k :: 0 <= k < i ==> xs[k] == GridX(freqs[k], left, width, norm)
    {
      var normX := norm(freqs[i] as real);
      xs := xs + [left + width * normX];
    }
  }

  /** On a log scale and a positive width the grid lines run left to right
      in frequency order, the first on `left` and the last on `left + width`. */
  lemma GridLinesAscend(xs: seq<real>, left: real, width: real, norm: real -> real)
    requires LogScale(norm) && width > 0.0 && |xs| == |GetFrequencies()|
    requires forall i :: 0 <= i < |xs| ==> xs[i] == GridX(GetFrequencies()[i], left, width, norm)
    ensures xs[0] == left && xs[|xs| - 1] == left + width
    ensures forall i, j :: 0 <= i < j < |xs| ==> xs[i] < xs[j]
  {
    var fs := GetFrequencies();
    forall i, j | 0 <= i < j < |xs|
      ensures xs[i] < xs[j]
    {
      assert 20.0 <= fs[i] as real < fs[j] as real <= 20000.0;
      var a, b := norm(fs[i] as real), norm(fs[j] as real);
      assert a < b;
      assert width * a < width * b;
    }
  }
}
