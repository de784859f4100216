/**
 * The chart arithmetic of src/components/sections/AnalysisSection.backup.tsx:
 * the earlier `DonutChart`, drawn without a visibility gate, and the
 * numbered list of sessions by country.
 */
module AnalysisBackup {
  import opened Proportions

  /** `DonutChart`: the segment layout with each segment drawn at full length. */
  method DonutChart(percentages: seq<real>) returns (strokes: seq<Stroke>)
    requires percentages == [] || Sum(percentages) != 0.0
    ensures |strokes| == |percentages|
    ensures forall k :: 0 <= k < |strokes| ==>
      strokes[k] == DashPattern(Shares(percentages, Sum(percentages))[k],
                                100.0 - Sum(Shares(percentages, Sum(percentages))[..k]))
  {
    if percentages == [] {
      return [];
    }
    var lengths, offsets := DonutLayout(percentages);
    strokes := seq(|percentages|, k requires 0 <= k < |percentages| => DashPattern(lengths[k], offsets[k]));
  }

  datatype CountrySessions = CountrySessions(country: string, sessions: nat)

  /** The "Sesiones por país" rows: input order, labelled `index + 1`. */
  function CountryRows(countries: seq<CountrySessions>): (rows: seq<(nat, CountrySessions)>)
    ensures |rows| == |countries|
    ensures forall i :: 0 <= i < |rows| ==> rows[i].0 == i + 1 && rows[i].1 == countries[i]
  {
    Numbered(countries)
  }
}
