/**
 * The proportion arithmetic shared by the charts of
 * src/components/sections/AnalysisSection.tsx, its backup copy and
 * src/components/sections/RankingSection.tsx: sums, maxima, percentages of
 * a maximum, and the donut chart's cumulative segment layout. Values are
 * exact rationals.
 */
module Proportions {

  /** `xs.reduce((sum, x) => sum + x, 0)`, folding from the left. */
  function Sum(xs: seq<real>): real {
    if xs == [] then 0.0 else Sum(xs[..|xs| - 1]) + xs[|xs| - 1]
  }

  lemma SumSnoc(xs: seq<real>, x: real)
    ensures Sum(xs + [x]) == Sum(xs) + x
  {
    assert (xs + [x])[..|xs|] == xs;
  }

  lemma {:induction false} SumNonNegative(xs: seq<real>)
    requires forall i :: 0 <= i < |xs| ==> xs[i] >= 0.0
    ensures Sum(xs) >= 0.0
  {
    if xs != [] { SumNonNegative(xs[..|xs| - 1]); }
  }

  /** `xs.map(x => x / total * 100)`: no division happens on an empty list. */
  function Shares(xs: seq<real>, total: real): (r: seq<real>)
    requires xs == [] || total != 0.0
    ensures |r| == |xs|
    ensures forall i :: 0 <= i < |xs| ==> r[i] == xs[i] / total * 100.0
  {
    seq(|xs|, i requires 0 <= i < |xs| => xs[i] / total * 100.0)
  }

  /** Taking shares commutes with the sum. */
  lemma {:induction false} SumShares(xs: seq<real>, total: real)
    requires total != 0.0
    ensures Sum(Shares(xs, total)) == Sum(xs) / total * 100.0
  {
    if xs != [] {
      var init, x := xs[..|xs| - 1], xs[|xs| - 1];
      var shares := Shares(xs, total);
      assert shares[..|xs| - 1] == Shares(init, total);
      calc {
        Sum(shares);
        Sum(Shares(init, total)) + shares[|xs| - 1];
        { SumShares(init, total); }
        Sum(init) / total * 100.0 + x / total * 100.0;
        { ShareSplits(Sum(init), x, total); }
        (Sum(init) + x) / total * 100.0;
      }
    }
  }

  /** A share of a sum is the sum of the shares. */
  lemma ShareSplits(a: real, x: real, total: real)
    requires total != 0.0
    ensures (a + x) / total * 100.0 == a / total * 100.0 + x / total * 100.0
  {
  }

  /** Shares of the whole sum add up to exactly 100. */
  lemma SharesOfTotal(xs: seq<real>)
    requires Sum(xs) != 0.0
    ensures Sum(Shares(xs, Sum(xs))) == 100.0
  {
    SumShares(xs, Sum(xs));
    DivSelf(Sum(xs));
  }

  lemma DivSelf(t: real)
    requires t != 0.0
    ensures t / t == 1.0
  {
  }

  /** A share of a positive whole, taken from a part between 0 and the whole, is between 0 and 100. */
  lemma ShareBounds(a: real, t: real)
    requires 0.0 <= a && 0.0 < t
    ensures a / t * 100.0 >= 0.0
    ensures a <= t ==> a / t * 100.0 <= 100.0
  {
    assert a / t * t == a;
  }

  /**
   * The donut chart's `map` with its running `cumulative`: segment `k` is
   * `percentage / total * 100` long and starts at `100 - cumulative`, the
   * cumulative length of the segments before it. An empty list maps to no
   * segments, so its zero total is never divided by.
   */
  method DonutLayout(percentages: seq<real>) returns (lengths: seq<real>, offsets: seq<real>)
    requires percentages == [] || Sum(percentages) != 0.0
    ensures lengths == Shares(percentages, Sum(percentages))
    ensures |offsets| == |percentages|
    ensures forall k :: 0 <= k < |offsets| ==> offsets[k] == 100.0 - Sum(lengths[..k])
  {
    var total := Sum(percentages);
    var cumulative := 0.0;
    lengths := [];
    offsets := [];
    for i := 0 to |percentages|
      invariant |lengths| == |offsets| == i
      invariant forall k :: 0 <= k < i ==> lengths[k] == percentages[k] / total * 100.0
      invariant cumulative == Sum(lengths)
      invariant forall k :: 0 <= k < i ==> offsets[k] == 100.0 - Sum(lengths[..k])
    {
      var dashArray := percentages[i] / total * 100.0;
      var dashOffset := 100.0 - cumulative;
      SumSnoc(lengths, dashArray);
      assert forall k :: 0 <= k <= i ==> (lengths + [dashArray])[..k] == lengths[..k];
      cumulative := cumulative + dashArray;
      lengths := lengths + [dashArray];
      offsets := offsets + [dashOffset];
    }
  }

  /**
   * The segments close the circle: the lengths add up to 100, the first
   * segment starts at 100 and the last ends at 0.
   */
  lemma DonutCloses(percentages: seq<real>, lengths: seq<real>, offsets: seq<real>)
    requires Sum(percentages) != 0.0 && percentages != []
    requires lengths == Shares(percentages, Sum(percentages))
    requires |offsets| == |percentages|
    requires forall k :: 0 <= k < |offsets| ==> offsets[k] == 100.0 - Sum(lengths[..k])
    ensures Sum(lengths) == 100.0
    ensures offsets[0] == 100.0
    ensures offsets[|offsets| - 1] - lengths[|lengths| - 1] == 0.0
  {
    SharesOfTotal(percentages);
    assert lengths[..0] == [];
    LastSegmentEnds(lengths, offsets[|offsets| - 1]);
  }

  /** The last segment starts at 100 less the lengths before it, so it ends at 100 less all of them. */
  lemma LastSegmentEnds(lengths: seq<real>, lastOffset: real)
    requires lengths != [] && lastOffset == 100.0 - Sum(lengths[..|lengths| - 1])
    ensures lastOffset - lengths[|lengths| - 1] == 100.0 - Sum(lengths)
  {
    var n := |lengths|;
    assert lengths[..n - 1] + [lengths[n - 1]] == lengths;
    SumSnoc(lengths[..n - 1], lengths[n - 1]);
  }

  /** With a positive total and no negative percentage, each segment starts no later than the one before. */
  lemma DonutOffsetsDescend(percentages: seq<real>, lengths: seq<real>, offsets: seq<real>, k: nat)
    requires Sum(percentages) > 0.0
    requires forall i :: 0 <= i < |percentages| ==> percentages[i] >= 0.0
    requires lengths == Shares(percentages, Sum(percentages))
    requires |offsets| == |percentages|
    requires forall k :: 0 <= k < |offsets| ==> offsets[k] == 100.0 - Sum(lengths[..k])
    requires k + 1 < |offsets|
    ensures offsets[k + 1] == offsets[k] - lengths[k]
    ensures lengths[k] >= 0.0 && offsets[k + 1] <= offsets[k]
  {
    assert lengths[..k + 1] == lengths[..k] + [lengths[k]];
    SumSnoc(lengths[..k], lengths[k]);
    ShareBounds(percentages[k], Sum(percentages));
  }

  /** An SVG dash pattern on a circle of circumference 100: dash, gap and start offset. */
  datatype Stroke = Stroke(dash: real, gap: real, offset: real)

  /** `strokeDasharray={`${dash} ${100 - dash}`}` with `strokeDashoffset={offset}`. */
  function DashPattern(dash: real, offset: real): (s: Stroke)
    ensures s.dash == dash && s.offset == offset
    ensures s.dash + s.gap == 100.0
  {
    Stroke(dash, 100.0 - dash, offset)
  }

  /** `Math.max(...xs)`. */
  function Max(xs: seq<real>): (m: real)
    requires xs != []
    ensures m in xs
    ensures forall i :: 0 <= i < |xs| ==> xs[i] <= m
  {
    if |xs| == 1 then xs[0]
    else
      var rest := Max(xs[1..]);
      assert forall i :: 1 <= i < |xs| ==> xs[i] == xs[1..][i - 1];
      if xs[0] >= rest then xs[0] else rest
  }

  /** `value / max * 100`: a bar's width as a percentage of the longest bar. */
  function PercentOf(value: real, max: real): (p: real)
    requires max != 0.0
    ensures p * max == value * 100.0
    ensures value == max ==> p == 100.0
  {
    value / max * 100.0
  }

  /**
   * Against the maximum of non-negative data, every bar lies in [0, 100] and
   * a bar holding the maximum is exactly 100.
   */
  lemma BarsWithinScale(xs: seq<real>, i: nat)
    requires xs != [] && i < |xs|
    requires forall j :: 0 <= j < |xs| ==> xs[j] >= 0.0
    requires Max(xs) > 0.0
    ensures 0.0 <= PercentOf(xs[i], Max(xs)) <= 100.0
    ensures xs[i] == Max(xs) ==> PercentOf(xs[i], Max(xs)) == 100.0
  {
    ShareBounds(xs[i], Max(xs));
    if xs[i] == Max(xs) { DivSelf(xs[i]); }
  }

  /** The list with each entry paired with its 1-based position, as rows are labelled. */
  function Numbered<T>(xs: seq<T>): (rows: seq<(nat, T)>)
    ensures |rows| == |xs|
    ensures forall i :: 0 <= i < |xs| ==> rows[i] == (i + 1, xs[i])
  {
    seq(|xs|, i requires 0 <= i < |xs| => (i + 1, xs[i]))
  }

  /** Row labels run 1, 2, 3, ... without gaps or repeats. */
  lemma NumberedRanks<T>(xs: seq<T>, i: nat, j: nat)
    requires i < j < |xs|
    ensures Numbered(xs)[i].0 < Numbered(xs)[j].0
    ensures Numbered(xs)[0].0 == 1 && Numbered(xs)[|xs| - 1].0 == |xs|
  {
  }
}
