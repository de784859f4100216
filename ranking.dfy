/**
 * The ranking table of src/components/sections/RankingSection.tsx: each
 * row's bar is its value as a percentage of the largest value, rows keep
 * the input order with a `#n` label, and the headers depend on the variant.
 */
module Ranking {
  import opened Proportions

  datatype Entry = Entry(name: string, value: real)

  datatype Variant = Pages | Visibility

  datatype Row = Row(rank: nat, name: string, value: real, percentage: real)

  function Values(data: seq<Entry>): (vs: seq<real>)
    ensures |vs| == |data|
    ensures forall i :: 0 <= i < |data| ==> vs[i] == data[i].value
  {
    seq(|data|, i requires 0 <= i < |data| => data[i].value)
  }

  /** `Math.max(...data.map(d => d.value))`. */
  function MaxValue(data: seq<Entry>): (m: real)
    requires data != []
    ensures exists i :: 0 <= i < |data| && data[i].value == m
    ensures forall i :: 0 <= i < |data| ==> data[i].value <= m
  {
    var m := Max(Values(data));
    assert exists i :: 0 <= i < |data| && Values(data)[i] == m;
    m
  }

  /** `columnHeaders`: page visits for the `'pages'` variant, impressions otherwise. */
  function ColumnHeaders(variant: Variant): (h: (string, string))
    ensures variant == Pages <==> h == ("Página", "Visitas")
    ensures variant != Pages <==> h == ("Landing Page", "Impresiones")
  {
    if variant == Pages then ("Página", "Visitas") else ("Landing Page", "Impresiones")
  }

  /**
   * The table body: one row per entry, in order, with its `ComparisonBar`
   * percentage. An empty table has no rows, so its maximum is never used.
   */
  function Rows(data: seq<Entry>): (rows: seq<Row>)
    requires data == [] || MaxValue(data) != 0.0
    ensures |rows| == |data|
    ensures forall i :: 0 <= i < |rows| ==>
      rows[i] == Row(i + 1, data[i].name, data[i].value, PercentOf(data[i].value, MaxValue(data)))
  {
    if data == [] then []
    else
      var m := MaxValue(data);
      seq(|data|, i requires 0 <= i < |data| => Row(i + 1, data[i].name, data[i].value, PercentOf(data[i].value, m)))
  }

  /** With non-negative values, every bar lies in [0, 100] and a top entry's bar is full. */
  lemma RowsWithinScale(data: seq<Entry>, i: nat)
    requires i < |data|
    requires forall j :: 0 <= j < |data| ==> data[j].value >= 0.0
    requires MaxValue(data) > 0.0
    ensures 0.0 <= Rows(data)[i].percentage <= 100.0
    ensures data[i].value == MaxValue(data) ==> Rows(data)[i].percentage == 100.0
  {
    var vs := Values(data);
    assert Max(vs) == MaxValue(data);
    BarsWithinScale(vs, i);
  }

  /** Some row always reaches the full width. */
  lemma SomeRowFull(data: seq<Entry>)
    requires data != [] && MaxValue(data) > 0.0
    ensures exists i :: 0 <= i < |data| && Rows(data)[i].percentage == 100.0
  {
    var i :| 0 <= i < |data| && data[i].value == MaxValue(data);
    DivSelf(MaxValue(data));
    assert Rows(data)[i].percentage == 100.0;
  }
}
