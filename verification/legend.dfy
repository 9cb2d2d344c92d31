/** The legend: one cell per status, each an icon and the status name. */
module Legend {
  import opened Wrappers
  import opened Styles
  import opened Overlays

  /** The layer of the legend's text. */
  const LegendZ: int := 10050

  const FontPaint: Paint := Paint(Rgb(30, 20, 30), Some(LegendZ + 1), None)

  /** The legend's panel, which exists from the start. */
  datatype Legend = Legend(panel: StackPanel)

  const NewLegend: Legend := Legend(DefaultPanel(RoundedRectangle))

  /** The cell of `status`: its icon, styled as the chart's points are, then its name. */
  function Cell(status: TestStatus): (n: Node)
    ensures n.Panel? && n.panel.box == Rectangle && |n.panel.children| == 2
    ensures n.panel.padding == Some(Axes(12.0, 6.0)) && n.panel.vAlign == Some(Middle) && n.panel.hAlign == Some(Middle)
    ensures n.panel.children[0].Icon? && n.panel.children[0].locationUnit.None?
    ensures n.panel.children[0].width == 25.0 && n.panel.children[0].height == 25.0
    ensures n.panel.children[0].style == FillAndStroke(status, 0)
    ensures status in NamedStatuses ==>
      n.panel.children[0].style.stroke.value.zIndex.value < FontPaint.zIndex.value
    ensures n.panel.children[1].Label? && n.panel.children[1].text == StatusText(status)
  {
    Panel(StackPanel(Rectangle, None, Some(Axes(12.0, 6.0)), Some(Middle), Some(Middle), None, None, None,
      [ Icon(25.0, 25.0, None, FillAndStroke(status, 0)),
        Label(StatusText(status), FontPaint, 15.0, Padding(8.0, 0.0, 0.0, 0.0), Start, Start) ],
      0.0, 0.0))
  }

  /** The cells of `statuses`, in order. */
  function Cells(statuses: seq<TestStatus>): (cells: seq<Node>)
    ensures |cells| == |statuses|
    ensures forall k :: 0 <= k < |cells| ==> cells[k] == Cell(statuses[k])
  {
    if statuses == [] then [] else [Cell(statuses[0])] + Cells(statuses[1..])
  }

  /** Lays the legend out for the chart: horizontal, bounded by the control's size, its old cells
      removed and dropped from the chart, then one cell per declared status, in declaration order.
      Returns the size the chart measures for the panel. */
  function Measure(l: Legend, c: Chart, measure: Node -> Size): (r: (Legend, Chart, Size))
    ensures var p := r.0.panel;
      && p.orientation == Some(Horizontal)
      && p.maxWidth == Some(c.controlSize.width) && p.maxHeight == Some(c.controlSize.height)
      && p.children == Cells(NamedStatuses)
      && |p.children| == |NamedStatuses|
      && forall k :: 0 <= k < |p.children| ==>
        && p.children[k].Panel?
        && |p.children[k].panel.children| == 2
        && p.children[k].panel.children[0] == Icon(25.0, 25.0, None, FillAndStroke(NamedStatuses[k], 0))
        && p.children[k].panel.children[1].Label?
        && p.children[k].panel.children[1].text == StatusText(NamedStatuses[k])
    ensures r.0.panel.(children := l.panel.children, orientation := l.panel.orientation,
                       maxWidth := l.panel.maxWidth, maxHeight := l.panel.maxHeight) == l.panel
    ensures r.1 == RemoveChildren(c, l.panel.children)
    ensures r.2 == measure(Panel(r.0.panel))
  {
    var p := l.panel.(orientation := Some(Horizontal),
                      maxWidth := Some(c.controlSize.width),
                      maxHeight := Some(c.controlSize.height),
                      children := Cells(NamedStatuses));
    (Legend(p), RemoveChildren(c, l.panel.children), measure(Panel(p)))
  }

  /** Places the legend where the chart puts it and draws it, unless the legend is hidden. */
  function Draw(l: Legend, c: Chart, at: Location): (r: (Legend, Chart))
    ensures r.0.panel == l.panel.(x := at.x, y := at.y)
    ensures LegendOverlay in r.1.overlays <==> c.legendPosition != Hidden
    ensures forall id :: id != LegendOverlay ==> (id in r.1.overlays <==> id in c.overlays)
    ensures r.1.(overlays := c.overlays) == c
  {
    var placed := l.panel.(x := at.x, y := at.y);
    var shown := AddVisual(c, LegendOverlay);
    (Legend(placed), if c.legendPosition == Hidden then RemoveVisual(shown, LegendOverlay) else shown)
  }

  /** Measuring again rebuilds the same legend: the cells do not accumulate, and the chart is
      handed back exactly the cells of the previous layout. */
  lemma MeasureRebuilds(l: Legend, c: Chart, c2: Chart, measure: Node -> Size)
    requires c2.controlSize == c.controlSize
    ensures var (l1, c1, _) := Measure(l, c, measure);
      var (l2, c3, _) := Measure(l1, c2, measure);
      && l2 == l1
      && c3.dropped == c2.dropped + l1.panel.children
      && |l2.panel.children| == |NamedStatuses|
  {
  }

  /** The legend's cells name every declared status once, in declaration order, and each icon is
      styled as the chart styles points of that status. */
  lemma LegendCompleteness(l: Legend, c: Chart, measure: Node -> Size)
    ensures var cells := Measure(l, c, measure).0.panel.children;
      && |cells| == 3
      && cells[0].panel.children[1].text == StatusText(Success)
      && cells[1].panel.children[1].text == StatusText(Warning)
      && cells[2].panel.children[1].text == StatusText(Error)
      && forall k :: 0 <= k < 3 ==> cells[k].panel.children[0].style.fill == Some(Paint(White, Some(1), None))
  {
  }

  /** The first layout starts from the empty legend: it drops nothing from the chart and yields the
      three status cells on a rounded panel. */
  lemma FirstMeasure(c: Chart, measure: Node -> Size)
    ensures var (l1, c1, _) := Measure(NewLegend, c, measure);
      && c1 == c
      && l1.panel.box == RoundedRectangle
      && l1.panel.children == [Cell(Success), Cell(Warning), Cell(Error)]
  {
  }

  /** Drawing again at the same place changes nothing: the panel stays where it is and the legend
      overlay is registered once, or not at all when the legend is hidden. */
  lemma DrawTwice(l: Legend, c: Chart, at: Location)
    ensures var (l1, c1) := Draw(l, c, at);
      Draw(l1, c1, at) == (l1, c1)
  {
  }
}
