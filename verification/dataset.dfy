/** Regenerating the dataset of the page and splitting it into one series per test case. */
module Dataset {
  import opened Wrappers
  import opened Styles
  import opened Samples
  import opened Series
  import opened TimelineState
  import Zoom

  /** The randomly drawn part of a run: its date, case and status. */
  datatype Record = Record(date: real, testCase: TestCase, status: TestStatus)

  /** The runs built from the drawn records, numbered by position, none hovered. */
  function Testset(records: seq<Record>): (ds: seq<PlotData>)
    ensures |ds| == |records|
    ensures forall i :: 0 <= i < |ds| ==>
      && ds[i].data.id == i
      && ds[i].data.date == records[i].date
      && ds[i].data.testCase == records[i].testCase
      && ds[i].data.status == records[i].status
      && !ds[i].isHoverOn
  {
    seq(|records|, i requires 0 <= i < |records| =>
      PlotData(Sample(records[i].date, i, records[i].testCase, records[i].status), false))
  }

  /** One series per test case, in declaration order, each filtered by its case label. */
  function AllSeries(ds: seq<PlotData>): (ss: seq<LineSeries>)
    ensures |ss| == |AllCases|
    ensures forall k :: 0 <= k < |ss| ==>
      && ss[k].geometrySize == GeometrySize && ss[k].fill.None?
      && IndicesIn(ds, ss[k].values) && Ordered(ds, ss[k].values)
      && forall i: nat :: i in ss[k].values <==> i < |ds| && ds[i].data.testCase == AllCases[k]
  {
    var ss := seq(|AllCases|, k requires 0 <= k < |AllCases| => SetupSeries(ds, CaseLabel(AllCases[k])));
    assert forall k, c :: 0 <= k < |AllCases| ==> (CaseLabel(c) == CaseLabel(AllCases[k]) <==> c == AllCases[k]);
    ss
  }

  /** Replaces the dataset with the runs drawn in `records`, clears the selection and its marker and
      rebuilds the series. The axis limits and the click log are kept. */
  function GeneratePlotData(t: Timeline, records: seq<Record>): (r: Timeline)
    ensures |r.points| == |records|
    ensures forall i :: 0 <= i < |records| ==>
      && r.points[i].model.data == Sample(records[i].date, i, records[i].testCase, records[i].status)
      && !r.points[i].model.isHoverOn
      && r.points[i].visual == Unstyled
    ensures r.selected.None? && r.sections.None?
    ensures |r.series| == |AllCases|
    ensures forall k :: 0 <= k < |AllCases| ==>
      && r.series[k].geometrySize == GeometrySize && r.series[k].fill.None?
      && forall i: nat :: i in r.series[k].values <==> i < |records| && records[i].testCase == AllCases[k]
    ensures forall k :: 0 <= k < |AllCases| ==>
      forall a, b :: 0 <= a < b < |r.series[k].values| ==>
        r.series[k].values[a] < |records| && r.series[k].values[b] < |records|
        && records[r.series[k].values[a]].date <= records[r.series[k].values[b]].date
    ensures r.xAxis == t.xAxis && r.clicked == t.clicked && r.redraws == t.redraws
    ensures Valid(r)
  {
    var ds := Testset(records);
    var ss := AllSeries(ds);
    SeriesOfRecords(records);
    t.(points := seq(|ds|, i requires 0 <= i < |ds| => ChartPoint(ds[i], Unstyled)),
       series := ss,
       selected := None,
       sections := None)
  }

  /** What the series of a freshly built dataset hold, stated on the drawn records. */
  lemma SeriesOfRecords(records: seq<Record>)
    ensures var ss := AllSeries(Testset(records));
      forall k :: 0 <= k < |AllCases| ==>
        && (forall i: nat :: i in ss[k].values <==> i < |records| && records[i].testCase == AllCases[k])
        && (forall a, b :: 0 <= a < b < |ss[k].values| ==>
              ss[k].values[a] < |records| && ss[k].values[b] < |records|
              && records[ss[k].values[a]].date <= records[ss[k].values[b]].date)
  {
    var ds := Testset(records);
    var ss := AllSeries(ds);
    forall k | 0 <= k < |AllCases|
      ensures forall a, b :: 0 <= a < b < |ss[k].values| ==>
              ss[k].values[a] < |records| && ss[k].values[b] < |records|
              && records[ss[k].values[a]].date <= records[ss[k].values[b]].date
    {
      OrderedIsSortedByDate(ds, ss[k].values);
    }
  }

  /** Changing the number of runs regenerates the dataset and returns the axis to the fitted view. */
  function OnTestsetCountChanged(t: Timeline, records: seq<Record>): (r: Timeline)
    ensures |r.points| == |records| && r.selected.None? && r.sections.None?
    ensures r.xAxis.Some? <==> t.xAxis.Some?
    ensures r.xAxis.Some? ==> r.xAxis.value == t.xAxis.value.(minLimit := None, maxLimit := None)
    ensures r.(xAxis := GeneratePlotData(t, records).xAxis) == GeneratePlotData(t, records)
    ensures r.clicked == t.clicked && r.redraws == t.redraws
    ensures Valid(r)
  {
    Zoom.ResetZoom(GeneratePlotData(t, records))
  }

  /** The series partition the dataset: each run lies in exactly one series, the one of its case,
      and lies there once. */
  lemma SeriesPartition(t: Timeline, records: seq<Record>, i: nat)
    requires i < |records|
    ensures var r := GeneratePlotData(t, records);
      && i in r.series[CaseOrdinal(records[i].testCase)].values
      && forall k :: 0 <= k < |r.series| && i in r.series[k].values ==> k == CaseOrdinal(records[i].testCase)
    ensures var vs := GeneratePlotData(t, records).series[CaseOrdinal(records[i].testCase)].values;
      multiset(vs)[i] == 1
  {
    var r := GeneratePlotData(t, records);
    var k0 := CaseOrdinal(records[i].testCase);
    AllCasesDistinct();
    var vs := r.series[k0].values;
    var ds := Testset(records);
    assert IndicesIn(ds, vs) && Ordered(ds, vs) by {
      assert r.series == AllSeries(ds);
    }
    var a :| 0 <= a < |vs| && vs[a] == i;
    SingleOccurrence(ds, vs, a);
  }

  /** In an ordered list a position occurs once. */
  lemma {:induction false} SingleOccurrence(ds: seq<PlotData>, xs: seq<nat>, a: nat)
    requires IndicesIn(ds, xs) && Ordered(ds, xs) && a < |xs|
    ensures multiset(xs)[xs[a]] == 1
    decreases |xs|
  {
    var last := |xs| - 1;
    assert xs == xs[..last] + [xs[last]];
    assert IndicesIn(ds, xs[..last]) && Ordered(ds, xs[..last]);
    if a == last {
      assert xs[a] !in xs[..last];
      assert multiset(xs[..last])[xs[a]] == 0;
    } else {
      assert xs[..last][a] == xs[a];
      SingleOccurrence(ds, xs[..last], a);
      assert xs[last] != xs[a];
    }
  }

  /** The order within a series is the only date order of its runs that a stable sort could give. */
  lemma SeriesOrderDetermined(t: Timeline, records: seq<Record>, k: nat, xs: seq<nat>)
    requires k < |AllCases|
    requires IndicesIn(Testset(records), xs) && Ordered(Testset(records), xs)
    requires forall i: nat :: i in xs <==> i < |records| && records[i].testCase == AllCases[k]
    ensures xs == GeneratePlotData(t, records).series[k].values
  {
    var ds := Testset(records);
    var r := GeneratePlotData(t, records);
    assert r.series == AllSeries(ds);
    OrderedUnique(ds, xs, r.series[k].values);
  }

  /** Regenerating and resetting the zoom commute: the dataset does not depend on the axis limits,
      and regeneration keeps the axis. So a count change is a regeneration of the fitted view. */
  lemma RegenerateCommutesWithReset(t: Timeline, records: seq<Record>)
    ensures Zoom.ResetZoom(GeneratePlotData(t, records)) == GeneratePlotData(Zoom.ResetZoom(t), records)
    ensures OnTestsetCountChanged(t, records) == GeneratePlotData(Zoom.ResetZoom(t), records)
  {
  }

  /** After a count change nothing is selected, so zooming in or out leaves the page as it is. */
  lemma ZoomAfterRegenerate(t: Timeline, records: seq<Record>, scale: real)
    ensures var r := OnTestsetCountChanged(t, records);
      && Zoom.ZoomOn(r, scale) == r && Zoom.ZoomInOn(r) == r && Zoom.ZoomOutOn(r) == r
  {
  }

  /** Each series is drawn on the row of its own case, and along a series the x coordinates
      never decrease, so the y-axis label of row `k` names the runs drawn on it. */
  lemma SeriesOnOwnRow(ds: seq<PlotData>, k: nat, i: nat)
    requires k < |AllCases|
    ensures i in AllSeries(ds)[k].values ==> i < |ds| && Mapping(ds[i]).1 == k
    ensures var vs := AllSeries(ds)[k].values;
      forall a, b :: 0 <= a < b < |vs| ==> Mapping(ds[vs[a]]).0 <= Mapping(ds[vs[b]]).0
  {
    OrderedIsSortedByDate(ds, AllSeries(ds)[k].values);
    if i in AllSeries(ds)[k].values {
      AllCasesDistinct();
      assert AllCases[CaseOrdinal(ds[i].data.testCase)] == AllCases[k];
    }
  }
}
