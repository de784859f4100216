/**
 * The chart arithmetic of src/components/sections/AnalysisSection.tsx: the
 * traffic-source donut (`PremiumDonutChart`), whose segments are drawn
 * empty until the chart scrolls into view, and the country bars of
 * `InternationalExposure`, scaled to the largest country.
 */
module AnalysisCharts {
  import opened Proportions

  /** One segment as drawn: before the chart is visible every dash is empty. */
  function DrawnStroke(visible: bool, length: real, offset: real): (s: Stroke)
    ensures s.dash + s.gap == 100.0 && s.offset == offset
    ensures visible ==> s.dash == length
    ensures !visible ==> s.dash == 0.0 && s.gap == 100.0
  {
    DashPattern(if visible then length else 0.0, offset)
  }

  /** `PremiumDonutChart`: the segment layout, then each segment's stroke. */
  method PremiumDonutChart(percentages: seq<real>, visible: bool) returns (strokes: seq<Stroke>)
    requires percentages == [] || Sum(percentages) != 0.0
    ensures |strokes| == |percentages|
    ensures forall k :: 0 <= k < |strokes| ==>
      strokes[k] == DrawnStroke(visible, Shares(percentages, Sum(percentages))[k],
                                100.0 - Sum(Shares(percentages, Sum(percentages))[..k]))
  {
    var lengths, offsets := DonutLayout(percentages);
    strokes := seq(|percentages|, k requires 0 <= k < |percentages| => DrawnStroke(visible, lengths[k], offsets[k]));
  }

  /** `Math.max(...countries.map(c => c.percentage))`. */
  function MaxPercentage(percentages: seq<real>): (m: real)
    requires percentages != []
    ensures m in percentages
    ensures forall i :: 0 <= i < |percentages| ==> percentages[i] <= m
  {
    Max(percentages)
  }

  /** `CountryBar`'s width: `percentage / maxPercentage * 100` once the bar itself is visible, 0 before. */
  function CountryBarWidth(percentage: real, maxPercentage: real, visible: bool): (w: real)
    requires maxPercentage != 0.0
    ensures visible ==> w == PercentOf(percentage, maxPercentage)
    ensures !visible ==> w == 0.0
  {
    if visible then PercentOf(percentage, maxPercentage) else 0.0
  }

  /**
   * `countries.map(...)` into `CountryBar`s: one width per country, in
   * order. Each bar has its own observer and turns visible `index * 100` ms
   * after it scrolls into view, so `visible[i]` is bar `i`'s own flag. No
   * country means no bar, so the maximum of an empty list is never used.
   */
  function CountryBars(percentages: seq<real>, visible: seq<bool>): (widths: seq<real>)
    requires |visible| == |percentages|
    requires percentages == [] || MaxPercentage(percentages) != 0.0
    ensures |widths| == |percentages|
    ensures forall i :: 0 <= i < |widths| ==>
      widths[i] == CountryBarWidth(percentages[i], MaxPercentage(percentages), visible[i])
  {
    if percentages == [] then []
    else
      var m := MaxPercentage(percentages);
      seq(|percentages|, i requires 0 <= i < |percentages| => CountryBarWidth(percentages[i], m, visible[i]))
  }

  /**
   * Every country bar fits the track, and the largest country's bar fills it
   * once that bar is visible.
   */
  lemma CountryBarsFit(percentages: seq<real>, i: nat, visible: seq<bool>)
    requires i < |percentages| && |visible| == |percentages|
    requires forall j :: 0 <= j < |percentages| ==> percentages[j] >= 0.0
    requires MaxPercentage(percentages) > 0.0
    ensures 0.0 <= CountryBars(percentages, visible)[i] <= 100.0
    ensures visible[i] && percentages[i] == MaxPercentage(percentages) ==>
      CountryBars(percentages, visible)[i] == 100.0
  {
    BarsWithinScale(percentages, i);
  }
}
