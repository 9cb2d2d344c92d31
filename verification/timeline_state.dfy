/** The state of the timeline page: its points, series, selection, marker and x-axis. */
module TimelineState {
  import opened Wrappers
  import opened Styles
  import opened Samples
  import opened Series

  /** The drawn geometry of one point: the paints it is filled and stroked with. */
  datatype Visual = Visual(fill: Option<Paint>, stroke: Option<Paint>)

  /** A geometry the page has not styled yet. */
  const Unstyled: Visual := Visual(None, None)

  /** The geometry styled as the resolver says for `status` at the base layer. */
  function StatusVisual(status: TestStatus): (v: Visual)
    ensures Style(v.fill, v.stroke) == FillAndStroke(status, 0)
  {
    var style := FillAndStroke(status, 0);
    Visual(style.fill, style.stroke)
  }

  /** A plotted point: the run with its hover flag (the model) and its geometry (the visual). */
  datatype ChartPoint = ChartPoint(model: PlotData, visual: Visual)

  /** The dashed red vertical line marking the selected run. */
  datatype Section = Section(xi: real, xj: real, stroke: Paint, dash: seq<real>)

  const MarkerStroke: Paint := Paint(Red, None, Some(3.0))
  const MarkerDash: seq<real> := [6.0, 6.0]

  /** The marker drawn at `date`. */
  function Marker(date: real): (s: Section)
    ensures s.xi == date && s.xj == date
  {
    Section(date, date, MarkerStroke, MarkerDash)
  }

  /** The time axis: the explicit limits (`None` lets the chart fit the data) and the bounds of the
      data currently visible, which the chart reports. */
  datatype Axis = Axis(minLimit: Option<real>, maxLimit: Option<real>, dataMin: real, dataMax: real)

  /** The page. `selected` is the position of the selected run in `points`; `xAxis` is `None` until
      the axes are set up; `clicked` logs the ids reported to the click subscriber; `redraws`
      counts the redraw requests sent to the chart. */
  datatype Timeline = Timeline(
    points: seq<ChartPoint>,
    series: seq<LineSeries>,
    selected: Option<nat>,
    sections: Option<seq<Section>>,
    xAxis: Option<Axis>,
    clicked: seq<int>,
    redraws: nat)

  /** The selection, if any, refers to a point of the current dataset. */
  predicate Valid(t: Timeline) {
    t.selected.Some? ==> t.selected.value < |t.points|
  }

  /** The run that is selected. */
  function SelectedSample(t: Timeline): (s: Sample)
    requires Valid(t) && t.selected.Some?
    ensures s == t.points[t.selected.value].model.data
  {
    t.points[t.selected.value].model.data
  }

  /** `r` differs from `t` at most in point `i` of the dataset. */
  ghost predicate OnlyPointChanged(t: Timeline, r: Timeline, i: nat) {
    && |r.points| == |t.points|
    && forall j :: 0 <= j < |t.points| && j != i ==> r.points[j] == t.points[j]
  }
}
